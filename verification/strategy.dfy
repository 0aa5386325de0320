/**
 The Strategy part of lb5.cpp: the interchangeable `ProcessingStrategy`
 behaviours (`PrintStrategy`, `SaveStrategy`) and the `DocumentProcessor`
 context that holds zero or one of them.

 The owning pointer of the context is an `Option`: `None` is the empty pointer
 a fresh processor starts with (and the one `setStrategy(nullptr)` installs).
 */
module StrategyPattern {
  import opened Lines

  /** The concrete strategy classes; they carry no state. */
  datatype Strategy = PrintStrategy | SaveStrategy

  const PrintPrefix := "[Strategy] Printing "
  const SavePrefix := "[Strategy] Saving "
  const StrategySuffix := " document..."

  /** What `executeStrategy` prints when no strategy is held. */
  const NoStrategyLine := "No strategy selected."

  /** The start of the line each strategy prints. */
  function Prefix(s: Strategy): string
  {
    match s
    case PrintStrategy => PrintPrefix
    case SaveStrategy => SavePrefix
  }

  /** Reads a strategy line back into the strategy that printed it and the label it echoed. */
  function ParseStrategyLine(line: string): (r: Option<(Strategy, string)>)
    ensures r.Some? ==> line == Frame(Prefix(r.value.0), r.value.1, StrategySuffix)
  {
    match Unframe(line, PrintPrefix, StrategySuffix)
    case Some(docType) => Some((PrintStrategy, docType))
    case None =>
      match Unframe(line, SavePrefix, StrategySuffix)
      case Some(docType) => Some((SaveStrategy, docType))
      case None => None
  }

  /**
   `process` of a strategy: exactly one line, from which the strategy and the
   label are read back unchanged. Every label is accepted and echoed verbatim.
   */
  function Process(s: Strategy, docType: string): (out: seq<string>)
    ensures |out| == 1
    ensures ParseStrategyLine(out[0]) == Some((s, docType))
  {
    var line := Frame(Prefix(s), docType, StrategySuffix);
    UnframeFrame(Prefix(s), docType, StrategySuffix);
    if s == SaveStrategy then
      UnframeMismatch(line, PrintPrefix, StrategySuffix, 11);
      [line]
    else
      [line]
  }

  /** The two strategies print different lines for every label, and each label gives its own line. */
  lemma ProcessInjective(s1: Strategy, d1: string, s2: Strategy, d2: string)
    ensures Process(s1, d1) == Process(s2, d2) <==> s1 == s2 && d1 == d2
  {
    if Process(s1, d1) == Process(s2, d2) {
      assert ParseStrategyLine(Process(s1, d1)[0]) == ParseStrategyLine(Process(s2, d2)[0]);
    }
  }

  /** The strategy context of lb5.cpp. */
  datatype DocumentProcessor = DocumentProcessor(current: Option<Strategy>)

  /** A freshly constructed processor holds no strategy. */
  function NewProcessor(): (p: DocumentProcessor)
    ensures p.current == None
  {
    DocumentProcessor(None)
  }

  /** `setStrategy`: the processor now holds `s`, and the strategy it held before is discarded. */
  function SetStrategy(p: DocumentProcessor, s: Option<Strategy>): (q: DocumentProcessor)
    ensures q.current == s
  {
    DocumentProcessor(s)
  }

  /** `executeStrategy`: delegates to the held strategy, or prints the no-strategy notice. */
  function ExecuteStrategy(p: DocumentProcessor, docType: string): (out: seq<string>)
    ensures |out| == 1
    ensures p.current.None? ==> out == [NoStrategyLine]
    ensures p.current.Some? ==> out == Process(p.current.value, docType)
  {
    match p.current
    case Some(s) => Process(s, docType)
    case None => [NoStrategyLine]
  }

  /** The no-strategy notice is not a strategy line. */
  lemma NoStrategyLineIsNotStrategyLine()
    ensures ParseStrategyLine(NoStrategyLine) == None
  {
    UnframeMismatch(NoStrategyLine, PrintPrefix, StrategySuffix, 0);
    UnframeMismatch(NoStrategyLine, SavePrefix, StrategySuffix, 0);
  }

  /** A line whose second character is not the 'S' of "[Strategy]" is no strategy line. */
  lemma NotStrategyLine(line: string)
    requires 1 < |line| && line[1] != 'S'
    ensures ParseStrategyLine(line) == None
  {
    UnframeMismatch(line, PrintPrefix, StrategySuffix, 1);
    UnframeMismatch(line, SavePrefix, StrategySuffix, 1);
  }

  /** The line `executeStrategy` prints shows strategy `s` at work on the label exactly when `s` is held. */
  lemma ExecuteDelegatesIff(p: DocumentProcessor, docType: string, s: Strategy)
    ensures ParseStrategyLine(ExecuteStrategy(p, docType)[0]) == Some((s, docType)) <==> p.current == Some(s)
  {
    if p.current.None? {
      NoStrategyLineIsNotStrategyLine();
    }
  }

  /** Applies `setStrategy` with each argument of `writes`, in order. */
  function SetAll(p: DocumentProcessor, writes: seq<Option<Strategy>>): DocumentProcessor
    decreases |writes|
  {
    if writes == [] then p else SetAll(SetStrategy(p, writes[0]), writes[1..])
  }

  /** Last write wins: after any history of `setStrategy` calls, only the last argument matters. */
  lemma {:induction false} SetAllLastWins(p: DocumentProcessor, writes: seq<Option<Strategy>>, docType: string)
    ensures SetAll(p, writes).current == (if writes == [] then p.current else writes[|writes| - 1])
    ensures writes != [] ==>
      ExecuteStrategy(SetAll(p, writes), docType) == ExecuteStrategy(SetStrategy(NewProcessor(), writes[|writes| - 1]), docType)
    decreases |writes|
  {
    if writes != [] {
      SetAllLastWins(SetStrategy(p, writes[0]), writes[1..], docType);
    }
  }
}
