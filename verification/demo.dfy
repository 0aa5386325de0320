/**
 The demo of `main` in lb5.cpp as a composition of the three components.

 `Run` takes the label the demo validates as a parameter (the source fixes it
 to "PDF"), so that the demo can be stated for every label: the chain guards
 the strategy, and the visitor part runs whatever the chain decided.
 */
module Demo {
  import opened Lines
  import opened ChainOfResponsibility
  import opened StrategyPattern
  import opened VisitorPattern

  /** The line `main` prints between the strategy part and the visitor part. */
  const Separator := "------------------------"

  /** The structure `main` builds: a PDF document, then a TXT document. */
  function DemoStructure(): (s: DocumentStructure)
    ensures s.docs == [PDFDocument, TXTDocument]
  {
    Add(Add(EmptyStructure(), PDFDocument), TXTDocument)
  }

  /**
   The lines `main` prints when it validates `docType`: the chain's trace, the
   Print strategy's line only when the chain accepted, the separator, then one
   display line per document of the structure.
   */
  function Run(docType: string): seq<string>
  {
    var verdict := ChainOfResponsibility.Handle(DemoChain(), docType);
    var strategyOut :=
      if verdict.accepted
      then ExecuteStrategy(SetStrategy(NewProcessor(), Some(PrintStrategy)), docType)
      else [];
    verdict.output + strategyOut + [Separator] + VisitorPattern.Process(DemoStructure(), DisplayVisitor)
  }

  /** The visitor part of the demo prints the PDF line, then the TXT line. */
  lemma DemoStructureDisplay()
    ensures VisitorPattern.Process(DemoStructure(), DisplayVisitor)
         == ["[Visitor] Displaying PDF content.", "[Visitor] Displaying TXT content."]
  {
    var out := VisitorPattern.Process(DemoStructure(), DisplayVisitor);
    assert out[0] == Accept(PDFDocument, DisplayVisitor);
    assert out[1] == Accept(TXTDocument, DisplayVisitor);
  }

  /** The demo's output split into the chain's trace, the strategy's part, the separator and the visitor's part. */
  lemma RunShape(docType: string)
    ensures docType in SupportedFormats ==>
              Run(docType) ==
                [CheckLine(FormatChecker, docType), CheckLine(SecurityChecker, docType)]
                + StrategyPattern.Process(PrintStrategy, docType)
                + [Separator] + VisitorPattern.Process(DemoStructure(), DisplayVisitor)
    ensures docType !in SupportedFormats ==>
              Run(docType) ==
                [CheckLine(FormatChecker, docType), FormatRejection, Separator]
                + VisitorPattern.Process(DemoStructure(), DisplayVisitor)
  {
    DemoChainVerdict(docType);
  }

  /** A line framed by a prefix whose second character is not the 'S' of "[Strategy]" is no strategy line. */
  lemma FramedNotStrategyLine(prefix: string, body: string, suffix: string)
    requires 1 < |prefix| && prefix[1] != 'S'
    ensures ParseStrategyLine(Frame(prefix, body, suffix)) == None
  {
    var line := Frame(prefix, body, suffix);
    assert line[1] == prefix[1];
    NotStrategyLine(line);
  }

  /** The rejection and the separator are no strategy lines. */
  lemma FixedLinesNotStrategyLines()
    ensures ParseStrategyLine(FormatRejection) == None
    ensures ParseStrategyLine(Separator) == None
  {
    assert FormatRejection[1] == 'o';
    assert Separator[1] == '-';
    NotStrategyLine(FormatRejection);
    NotStrategyLine(Separator);
  }

  /** The label-dependent lines, spelled out. */
  lemma LineTexts(docType: string)
    ensures CheckLine(FormatChecker, docType) == "[Chain] Checking format of " + docType + "..."
    ensures CheckLine(SecurityChecker, docType) == "[Chain] Security check passed for " + docType + "."
    ensures StrategyPattern.Process(PrintStrategy, docType) == ["[Strategy] Printing " + docType + " document..."]
  {
  }

  /** For a supported label the demo prints two check lines, the Print line, the separator and the display lines. */
  lemma RunSupported(docType: string)
    requires docType in SupportedFormats
    ensures Run(docType) == [
      "[Chain] Checking format of " + docType + "...",
      "[Chain] Security check passed for " + docType + ".",
      "[Strategy] Printing " + docType + " document...",
      Separator,
      "[Visitor] Displaying PDF content.",
      "[Visitor] Displaying TXT content."]
  {
    RunShape(docType);
    LineTexts(docType);
    DemoStructureDisplay();
  }

  /** No element of `lines` is a strategy line. */
  predicate NoStrategyLines(lines: seq<string>)
  {
    forall i :: 0 <= i < |lines| ==> ParseStrategyLine(lines[i]) == None
  }

  /** Two traces without strategy lines, one after the other, still have none. */
  lemma ConcatNoStrategyLines(a: seq<string>, b: seq<string>)
    requires NoStrategyLines(a) && NoStrategyLines(b)
    ensures NoStrategyLines(a + b)
  {
    forall i | 0 <= i < |a + b|
      ensures ParseStrategyLine((a + b)[i]) == None
    {
      if i >= |a| {
        assert (a + b)[i] == b[i - |a|];
      }
    }
  }

  /** No display line of any structure is a strategy line. */
  lemma DisplayHasNoStrategyLine(s: DocumentStructure)
    ensures NoStrategyLines(VisitorPattern.Process(s, DisplayVisitor))
  {
    var out := VisitorPattern.Process(s, DisplayVisitor);
    forall j | 0 <= j < |out|
      ensures ParseStrategyLine(out[j]) == None
    {
      FramedNotStrategyLine(DisplayPrefix, GetType(s.docs[j]), DisplaySuffix);
    }
  }

  /** The chain's rejection trace and the separator hold no strategy line. */
  lemma RejectionHasNoStrategyLine(docType: string)
    ensures NoStrategyLines([CheckLine(FormatChecker, docType), FormatRejection, Separator])
  {
    FramedNotStrategyLine(FormatPrefix, docType, FormatSuffix);
    FixedLinesNotStrategyLines();
  }

  /** For an unsupported label no element of the demo's output is a strategy line. */
  lemma UnsupportedHasNoStrategyLine(docType: string)
    requires docType !in SupportedFormats
    ensures forall i :: 0 <= i < |Run(docType)| ==> ParseStrategyLine(Run(docType)[i]) == None
  {
    RunShape(docType);
    var display := VisitorPattern.Process(DemoStructure(), DisplayVisitor);
    var head := [CheckLine(FormatChecker, docType), FormatRejection, Separator];
    RejectionHasNoStrategyLine(docType);
    DisplayHasNoStrategyLine(DemoStructure());
    ConcatNoStrategyLines(head, display);
  }

  /** The exact output of the demo for an unsupported label. */
  lemma UnsupportedOutput(docType: string)
    requires docType !in SupportedFormats
    ensures Run(docType) == [
      "[Chain] Checking format of " + docType + "...",
      FormatRejection,
      Separator,
      "[Visitor] Displaying PDF content.",
      "[Visitor] Displaying TXT content."]
  {
    RunShape(docType);
    LineTexts(docType);
    DemoStructureDisplay();
  }

  /** For an unsupported label the demo prints the rejection and no strategy line: the strategy is never run. */
  lemma RunUnsupported(docType: string)
    requires docType !in SupportedFormats
    ensures Run(docType) == [
      "[Chain] Checking format of " + docType + "...",
      FormatRejection,
      Separator,
      "[Visitor] Displaying PDF content.",
      "[Visitor] Displaying TXT content."]
    ensures forall i :: 0 <= i < |Run(docType)| ==> ParseStrategyLine(Run(docType)[i]) == None
  {
    UnsupportedOutput(docType);
    UnsupportedHasNoStrategyLine(docType);
  }

  /** For a supported label the third element of the demo's output is the Print strategy's line for it. */
  lemma SupportedHasStrategyLine(docType: string)
    requires docType in SupportedFormats
    ensures |Run(docType)| > 2 && ParseStrategyLine(Run(docType)[2]) == Some((PrintStrategy, docType))
  {
    RunShape(docType);
  }

  /** Some line of the demo's output is a strategy line exactly when the label is supported. */
  lemma StrategyRunsIffSupported(docType: string)
    ensures (exists i :: 0 <= i < |Run(docType)| && ParseStrategyLine(Run(docType)[i]).Some?)
        <==> docType in SupportedFormats
  {
    if docType in SupportedFormats {
      SupportedHasStrategyLine(docType);
    } else {
      UnsupportedHasNoStrategyLine(docType);
    }
  }

  /** The run of `main` itself, with label "PDF". */
  lemma MainScenario()
    ensures Run("PDF") == [
      "[Chain] Checking format of PDF...",
      "[Chain] Security check passed for PDF.",
      "[Strategy] Printing PDF document...",
      "------------------------",
      "[Visitor] Displaying PDF content.",
      "[Visitor] Displaying TXT content."]
  {
    assert "[Chain] Checking format of " + "PDF" + "..." == "[Chain] Checking format of PDF...";
    assert "[Chain] Security check passed for " + "PDF" + "." == "[Chain] Security check passed for PDF.";
    assert "[Strategy] Printing " + "PDF" + " document..." == "[Strategy] Printing PDF document...";
    RunSupported("PDF");
  }
}
