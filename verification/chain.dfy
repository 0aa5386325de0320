/**
 The Chain of Responsibility validator of lb5.cpp: `Handler`, `FormatChecker`
 and `SecurityChecker`.

 A chain is the finite sequence of link kinds met when following `next`
 pointers from the head: `chain[0]` is the head and `chain[1..]` is what its
 `next` pointer reaches. A link without successor is the last element. The
 sequence form makes every chain acyclic and gives `handle` its termination
 measure.
 */
module ChainOfResponsibility {
  import opened Lines

  /** The concrete handler classes. */
  datatype LinkKind = FormatChecker | SecurityChecker

  /** The links reached from a head, head first. */
  type Chain = seq<LinkKind>

  /** The verdict `handle` returns, together with the lines it prints. */
  datatype Verdict = Verdict(accepted: bool, output: seq<string>)

  /** The document type labels the format checker lets through. */
  const SupportedFormats: set<string> := {"PDF", "TXT", "DOCX"}

  const FormatPrefix := "[Chain] Checking format of "
  const FormatSuffix := "..."
  const SecurityPrefix := "[Chain] Security check passed for "
  const SecuritySuffix := "."

  /** What the format checker prints when its check fails. */
  const FormatRejection := "Format not supported."

  /** The line a link prints first, before deciding anything. */
  function CheckLine(kind: LinkKind, docType: string): string
  {
    match kind
    case FormatChecker => Frame(FormatPrefix, docType, FormatSuffix)
    case SecurityChecker => Frame(SecurityPrefix, docType, SecuritySuffix)
  }

  /** The local check of one link: format-list membership, or the security checker's constant success. */
  predicate Passes(kind: LinkKind, docType: string)
  {
    match kind
    case FormatChecker => docType == "PDF" || docType == "TXT" || docType == "DOCX"
    case SecurityChecker => true
  }

  /** The format checker accepts exactly the supported labels; the security checker accepts every label. */
  lemma PassesExactly(docType: string)
    ensures Passes(FormatChecker, docType) <==> docType in SupportedFormats
    ensures Passes(SecurityChecker, docType)
  {
  }

  /** Reference definition: the position of the first link whose local check fails, or |chain| when none does. */
  function FirstRejecting(chain: Chain, docType: string): (k: nat)
    ensures k <= |chain|
    ensures forall j :: 0 <= j < k ==> Passes(chain[j], docType)
    ensures k < |chain| ==> !Passes(chain[k], docType)
  {
    if chain == [] then 0
    else if !Passes(chain[0], docType) then 0
    else 1 + FirstRejecting(chain[1..], docType)
  }

  /** `handle` called on the head of `chain`: each link prints its check line, then either rejects or forwards. */
  function Handle(chain: Chain, docType: string): (v: Verdict)
    requires |chain| > 0
    decreases |chain|
    ensures v.accepted <==> forall i :: 0 <= i < |chain| ==> Passes(chain[i], docType)
    ensures v.accepted ==>
      |v.output| == |chain| && forall i :: 0 <= i < |chain| ==> v.output[i] == CheckLine(chain[i], docType)
    ensures !v.accepted ==>
      var k := FirstRejecting(chain, docType);
      && k < |chain|
      && |v.output| == k + 2
      && (forall i :: 0 <= i <= k ==> v.output[i] == CheckLine(chain[i], docType))
      && v.output[k + 1] == FormatRejection
  {
    var line := CheckLine(chain[0], docType);
    if !Passes(chain[0], docType) then
      Verdict(false, [line, FormatRejection])
    else if |chain| == 1 then
      Verdict(true, [line])
    else
      var rest := Handle(chain[1..], docType);
      Verdict(rest.accepted, [line] + rest.output)
  }

  /** `setNext` on the head of `head`: its successor becomes `next`, and whatever followed it before is dropped. */
  function SetNext(head: Chain, next: Chain): (c: Chain)
    requires |head| > 0
    ensures |c| == 1 + |next| && c[0] == head[0] && c[1..] == next
  {
    [head[0]] + next
  }

  /** Calling `setNext` twice keeps only the second successor. */
  lemma SetNextLastWins(head: Chain, first: Chain, second: Chain)
    requires |head| > 0
    ensures SetNext(SetNext(head, first), second) == SetNext(head, second)
  {
  }

  /** A link whose check fails prints its two lines and stops: nothing after it is consulted. */
  lemma RejectionStopsChain(kind: LinkKind, rest1: Chain, rest2: Chain, docType: string)
    requires !Passes(kind, docType)
    ensures Handle([kind] + rest1, docType) == Verdict(false, [CheckLine(kind, docType), FormatRejection])
    ensures Handle([kind] + rest1, docType) == Handle([kind] + rest2, docType)
  {
  }

  /** A passing link with a successor returns the successor's verdict unchanged, after its own check line. */
  lemma PassForwards(kind: LinkKind, next: Chain, docType: string)
    requires Passes(kind, docType) && |next| > 0
    ensures Handle([kind] + next, docType).accepted == Handle(next, docType).accepted
    ensures Handle([kind] + next, docType).output == [CheckLine(kind, docType)] + Handle(next, docType).output
  {
    assert ([kind] + next)[1..] == next;
  }

  /** A passing link with no successor returns true, having printed only its check line. */
  lemma PassAtEnd(kind: LinkKind, docType: string)
    requires Passes(kind, docType)
    ensures Handle([kind], docType) == Verdict(true, [CheckLine(kind, docType)])
  {
  }

  /** The chain accepts exactly when no link rejects, and then it has printed one line per link. */
  lemma AcceptedIffNoRejection(chain: Chain, docType: string)
    requires |chain| > 0
    ensures Handle(chain, docType).accepted <==> FirstRejecting(chain, docType) == |chain|
    ensures Handle(chain, docType).accepted ==> |Handle(chain, docType).output| == |chain|
  {
    var k := FirstRejecting(chain, docType);
    if k < |chain| {
      assert !Passes(chain[k], docType);
    }
  }

  /** Appending a security checker never changes the verdict of a chain. */
  lemma {:induction false} SecurityIsTransparent(chain: Chain, docType: string)
    requires |chain| > 0
    ensures Handle(chain + [SecurityChecker], docType).accepted == Handle(chain, docType).accepted
  {
    var longer := chain + [SecurityChecker];
    if !Passes(chain[0], docType) {
      assert longer[0] == chain[0];
    } else if |chain| == 1 {
      assert longer == [chain[0], SecurityChecker];
      assert longer[1..] == [SecurityChecker];
    } else {
      assert longer[1..] == chain[1..] + [SecurityChecker];
      SecurityIsTransparent(chain[1..], docType);
    }
  }

  /** The chain built in the demo: a format checker whose successor is a security checker. */
  function DemoChain(): (c: Chain)
    ensures c == [FormatChecker, SecurityChecker]
  {
    SetNext([FormatChecker], [SecurityChecker])
  }

  /** The demo chain accepts a label exactly when it is one of the supported formats, with these lines. */
  lemma DemoChainVerdict(docType: string)
    ensures Handle(DemoChain(), docType).accepted <==> docType in SupportedFormats
    ensures docType in SupportedFormats ==>
      Handle(DemoChain(), docType).output == [CheckLine(FormatChecker, docType), CheckLine(SecurityChecker, docType)]
    ensures docType !in SupportedFormats ==>
      Handle(DemoChain(), docType).output == [CheckLine(FormatChecker, docType), FormatRejection]
  {
    var c := DemoChain();
    PassesExactly(docType);
    assert c[1..] == [SecurityChecker];
  }
}
