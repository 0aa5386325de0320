# Document processing with Strategy, Chain of Responsibility and Visitor

A Dafny model of `lb5.cpp`, a console demo of three design patterns applied to
document-type labels:

- a **Chain of Responsibility** (`Handler`, `FormatChecker`, `SecurityChecker`)
  that validates a label, printing one line per link it reaches and a
  rejection when the format checker refuses;
- a **Strategy** context (`DocumentProcessor`) holding zero or one
  `PrintStrategy`/`SaveStrategy` and delegating `executeStrategy` to it;
- a **Visitor** (`DisplayVisitor`) dispatched over a `DocumentStructure` of
  `PDFDocument`s and `TXTDocument`s.

Every operation is a pure function (or, for `getAll`, a method) that returns
its result together with what it would print, as a `seq<string>` trace. One
element of the trace is the text one `std::cout` statement writes, up to and
without its terminating `\n`; below, "line" means such an element (see the
first item under "## Left out" for labels that contain a newline).
Pointers become values: a chain is the `seq` of link kinds reached from its
head, the strategy slot is an `Option`, and a structure is the `seq` of its
documents. The demo of `main` is `Demo.Run`,
with the validated label as a parameter instead of the fixed "PDF".

Files: `lines.dfy` (framed console lines and reading them back),
`chain.dfy`, `strategy.dfy`, `visitor.dfy`, `demo.dfy`.

Several printed lines come with an inverse that reads them back:
`ParseStrategyLine` for strategy lines and `DisplayedDocument` for display
lines. So the contracts state what a trace *says* (which strategy ran on which
label, which document was displayed), not only how it is spelled.

## Model

| member | source | states |
|---|---|---|
| `ChainOfResponsibility.PassesExactly` | lb5.cpp:56-73 | The local check `Passes` (the condition at line 58, and none for the security checker) holds for the format checker exactly for "PDF", "TXT" and "DOCX", and for the security checker for every label. |
| `ChainOfResponsibility.FirstRejecting` | lb5.cpp:56-73 | Reference definition: the position of the first link whose local check fails (or the chain length); every earlier link passes and the one at that position fails. |
| `ChainOfResponsibility.Handle` | lb5.cpp:54-74 | `handle` on the head is true iff every link passes (`Passes`). An accepting run prints exactly one trace element per link, in chain order, each being that link's `CheckLine` (the text of line 57 or 70). A rejecting run prints the check lines of the links up to and including the first failing one, then "Format not supported.", and nothing else. |
| `ChainOfResponsibility.AcceptedIffNoRejection` | lb5.cpp:56-73 | The verdict agrees with the reference: accepted iff no link rejects. A fully passing chain of n links prints exactly n lines. |
| `ChainOfResponsibility.RejectionStopsChain` | lb5.cpp:56-64 | A link whose check fails prints its check line and the rejection and returns false. The result is the same whatever follows it, so no successor is consulted. |
| `ChainOfResponsibility.PassForwards` | lb5.cpp:56-73 | A passing link with a successor returns the successor's verdict unchanged. Its output is its own check line followed by the successor's output. |
| `ChainOfResponsibility.PassAtEnd` | lb5.cpp:56-73 | A passing link with no successor returns true after printing only its check line. |
| `ChainOfResponsibility.SecurityIsTransparent` | lb5.cpp:67-74 | Appending a security checker to any chain leaves its verdict unchanged. |
| `ChainOfResponsibility.SetNext` | lb5.cpp:47-49 | `setNext` makes `next` the head's whole successor chain and keeps the head. |
| `ChainOfResponsibility.SetNextLastWins` | lb5.cpp:47-49 | A second `setNext` silently replaces the first successor. |
| `ChainOfResponsibility.DemoChain` | lb5.cpp:147-149 | The demo's chain is a format checker followed by a security checker. |
| `ChainOfResponsibility.DemoChainVerdict` | lb5.cpp:147-153 | The demo chain accepts a label iff it is one of "PDF", "TXT", "DOCX". It prints both check lines when it accepts, and the format check line plus the rejection when it does not. |
| `StrategyPattern.ParseStrategyLine` | lb5.cpp:15-24 | Inverse of the strategy lines: a line it reads as (strategy, label) is exactly the line that strategy prints for that label. |
| `StrategyPattern.Process` | lb5.cpp:13-24 | `process` produces exactly one trace element, from which the strategy and the label are read back unchanged, for every label (no validation). |
| `StrategyPattern.ProcessInjective` | lb5.cpp:13-24 | Two `process` calls print the same line iff they use the same strategy and the same label. |
| `StrategyPattern.NewProcessor` | lb5.cpp:28-30 | A new processor holds no strategy. |
| `StrategyPattern.SetStrategy` | lb5.cpp:32-34 | After `setStrategy(s)` the processor holds exactly `s` (an empty pointer empties it). |
| `StrategyPattern.ExecuteStrategy` | lb5.cpp:36-39 | `executeStrategy` produces exactly one trace element. With no strategy it is "No strategy selected."; otherwise it is what the held strategy prints. |
| `StrategyPattern.NoStrategyLineIsNotStrategyLine` | lb5.cpp:36-39 | The no-strategy notice cannot be mistaken for output of either strategy. |
| `StrategyPattern.ExecuteDelegatesIff` | lb5.cpp:36-39 | The printed line shows strategy `s` at work on the label iff the processor holds `s`. |
| `StrategyPattern.SetAllLastWins` | lb5.cpp:32-34 | After any sequence of `setStrategy` calls the processor holds the last argument. `executeStrategy` then behaves as if only that call had been made. |
| `VisitorPattern.GetType` | lb5.cpp:87-97 | `getType` is "PDF" exactly for a PDF document and "TXT" exactly for a TXT document. |
| `VisitorPattern.DocumentOfType` | lb5.cpp:87-97 | Inverse of `getType`: a variant it returns reports that label. |
| `VisitorPattern.DocumentOfTypeInverse` | lb5.cpp:87-97 | Every variant is recovered from its `getType` label, so the labels are distinct. |
| `VisitorPattern.Accept` | lb5.cpp:108-120 | Double dispatch selects the visit for the document's own variant (`VisitPDF` or `VisitTXT`, the two `DisplayVisitor::visit` overloads). The display line names exactly the label `getType` reports, and the document is read back from it. |
| `VisitorPattern.EmptyStructure` | lb5.cpp:123-125 | A new structure holds no document. |
| `VisitorPattern.Add` | lb5.cpp:127-129 | `add` appends the document at the end and keeps the earlier documents in place. |
| `VisitorPattern.AcceptAll` | lb5.cpp:131-135 | Visiting a sequence of documents prints one line per document, the i-th being that document's `accept` line. |
| `VisitorPattern.Process` | lb5.cpp:131-135 | `process` prints one line per document, in insertion order. The i-th line is read back as the i-th document's variant. |
| `VisitorPattern.ProcessAdd` | lb5.cpp:127-135 | Processing after `add(d)` prints the earlier output followed by `d`'s line. |
| `VisitorPattern.ProcessReadsBack` | lb5.cpp:108-135 | Reading a display trace back line by line yields the structure's documents in insertion order. |
| `VisitorPattern.GetAll` | lb5.cpp:137-141 | `getAll` returns a view of the same length and order as the documents held. |
| `Demo.DemoStructure` | lb5.cpp:163-165 | The demo's structure holds a PDF document, then a TXT document. |
| `Demo.DemoStructureDisplay` | lb5.cpp:163-168 | Visiting the demo structure prints the PDF display line, then the TXT display line. |
| `Demo.RunShape` | lb5.cpp:147-168 | The demo's output is the chain's trace, then the Print line only when the chain accepts, then the separator, then the visitor's lines; a rejected label contributes the format check line and the rejection only. |
| `Demo.RunSupported` | lb5.cpp:147-168 | For a supported label the demo prints the two check lines, the Print line for that label, the separator and the two display lines. |
| `Demo.RunUnsupported` | lb5.cpp:147-168 | For any other label the demo prints the format check line, the rejection, the separator and the two display lines. No trace element of it is a strategy line. |
| `Demo.StrategyRunsIffSupported` | lb5.cpp:153-158 | Some trace element of the demo's output is a strategy line iff the label is supported. |
| `Demo.DisplayHasNoStrategyLine` | lb5.cpp:108-135 | No trace element the display visitor produces, for any structure, reads as a strategy line. |
| `Demo.MainScenario` | lb5.cpp:145-168 | `Run("PDF")`, the composition of the chain, the strategy context and the visitor that `main` performs, is exactly the six lines `main` prints, in order, up to the final pause prompt. |

## Left out

- Console lines versus trace elements: a trace element is the text of one `std::cout` statement. A label is printed verbatim (lb5.cpp:16, 23, 57, 70), so a label containing `\n` prints as several console lines. For instance the rejected label "Q\n[Strategy] Printing PDF document" makes line 57 show a console line identical to the Print strategy's. The counting claims and the strategy-line claims (`Handle`, `StrategyPattern.Process`, `ExecuteStrategy`, `Demo.RunUnsupported`, `Demo.StrategyRunsIffSupported`) hold per trace element, not per console line; splitting the output at newlines is not modelled.
- Console I/O: `std::cout` becomes the returned line sequence. The final prompt line (lb5.cpp:170) and the `std::cin.get()` pause (lb5.cpp:171) are not modelled. The exit status is not modelled either.
- Shared ownership of chain links: the model holds a chain by value. A later `setNext` on a link that another chain also points to is not propagated to that other chain. `SetNext` only changes the head's successor.
- Cyclic chains built by repeated `setNext`: these are misuse with unbounded recursion. The sequence representation rules them out.
- Smart-pointer ownership, lifetimes and destructors (`unique_ptr`, `shared_ptr`, the raw `Document*` view of `getAll`). Documents are plain values and `getAll` returns a copy of the sequence; the structure it was called on is a value and cannot change.
- Virtual and double-dispatch mechanics as such: replaced by `match` over the closed datatypes `LinkKind`, `Strategy`, `Document` and `Visitor`. The abstract bases `Handler`, `ProcessingStrategy`, `Document` and `Visitor` have no separate model.
- `ChainOfResponsibility.Handle` requires a non-empty chain. In the source, `handle` is always called on an existing link, and the `next` test decides whether a successor exists.
