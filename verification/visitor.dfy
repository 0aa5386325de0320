/**
 The Visitor part of lb5.cpp: the `Document` variants, the `DisplayVisitor`,
 double dispatch through `accept`, and the `DocumentStructure` that owns an
 ordered collection of documents.

 Virtual dispatch on the document's runtime class becomes a `match` on the
 closed `Document` datatype; the visitor keeps one operation per variant.
 */
module VisitorPattern {
  import opened Lines

  /** The concrete document classes; they carry no state beyond their kind. */
  datatype Document = PDFDocument | TXTDocument

  /** `getType`: the fixed label each variant reports. */
  function GetType(d: Document): (t: string)
    ensures d.PDFDocument? <==> t == "PDF"
    ensures d.TXTDocument? <==> t == "TXT"
  {
    match d
    case PDFDocument => "PDF"
    case TXTDocument => "TXT"
  }

  /** The variant reporting a label, when there is one. */
  function DocumentOfType(t: string): (r: Option<Document>)
    ensures r.Some? ==> GetType(r.value) == t
  {
    if t == "PDF" then Some(PDFDocument)
    else if t == "TXT" then Some(TXTDocument)
    else None
  }

  /** A variant is recovered from its label: `getType` is one-to-one. */
  lemma DocumentOfTypeInverse(d: Document)
    ensures DocumentOfType(GetType(d)) == Some(d)
  {
  }

  /** The concrete visitor classes. */
  datatype Visitor = DisplayVisitor

  const DisplayPrefix := "[Visitor] Displaying "
  const DisplaySuffix := " content."

  /** `visit(PDFDocument&)` of a visitor. */
  function VisitPDF(v: Visitor): string
  {
    match v
    case DisplayVisitor => "[Visitor] Displaying PDF content."
  }

  /** `visit(TXTDocument&)` of a visitor. */
  function VisitTXT(v: Visitor): string
  {
    match v
    case DisplayVisitor => "[Visitor] Displaying TXT content."
  }

  /** The variant a display line talks about, read from the label it names. */
  function DisplayedDocument(line: string): Option<Document>
  {
    match Unframe(line, DisplayPrefix, DisplaySuffix)
    case Some(t) => DocumentOfType(t)
    case None => None
  }

  /**
   `accept`: the document calls back the visitor's operation for its own
   variant. The display line names exactly the label `getType` reports, so the
   document is read back from the line.
   */
  function Accept(d: Document, v: Visitor): (line: string)
    ensures line == Frame(DisplayPrefix, GetType(d), DisplaySuffix)
    ensures DisplayedDocument(line) == Some(d)
  {
    UnframeFrame(DisplayPrefix, GetType(d), DisplaySuffix);
    match d
    case PDFDocument => VisitPDF(v)
    case TXTDocument => VisitTXT(v)
  }

  /** The object structure: the documents it owns, in insertion order. */
  datatype DocumentStructure = DocumentStructure(docs: seq<Document>)

  /** A freshly constructed structure owns no document. */
  function EmptyStructure(): (s: DocumentStructure)
    ensures |s.docs| == 0
  {
    DocumentStructure([])
  }

  /** `add`: the document goes at the end; the documents already held keep their places. */
  function Add(s: DocumentStructure, d: Document): (r: DocumentStructure)
    ensures |r.docs| == |s.docs| + 1
    ensures r.docs[..|s.docs|] == s.docs
    ensures r.docs[|s.docs|] == d
  {
    DocumentStructure(s.docs + [d])
  }

  /** The lines `accept` prints for each of `docs`, in order. */
  function AcceptAll(docs: seq<Document>, v: Visitor): (out: seq<string>)
    decreases |docs|
    ensures |out| == |docs|
    ensures forall i :: 0 <= i < |docs| ==> out[i] == Accept(docs[i], v)
  {
    if docs == [] then [] else [Accept(docs[0], v)] + AcceptAll(docs[1..], v)
  }

  /** `process`: one line per document, in insertion order, each naming its document's variant. */
  function Process(s: DocumentStructure, v: Visitor): (out: seq<string>)
    ensures |out| == |s.docs|
    ensures forall i :: 0 <= i < |s.docs| ==> out[i] == Accept(s.docs[i], v)
    ensures forall i :: 0 <= i < |out| ==> DisplayedDocument(out[i]) == Some(s.docs[i])
  {
    AcceptAll(s.docs, v)
  }

  /** Processing after `add` prints what was printed before, then the new document's line. */
  lemma ProcessAdd(s: DocumentStructure, d: Document, v: Visitor)
    ensures Process(Add(s, d), v) == Process(s, v) + [Accept(d, v)]
  {
    var before := Process(s, v);
    var after := Process(Add(s, d), v);
    assert |after| == |before + [Accept(d, v)]|;
    forall i | 0 <= i < |after|
      ensures after[i] == (before + [Accept(d, v)])[i]
    {
      if i < |s.docs| {
        assert Add(s, d).docs[i] == s.docs[i];
      }
    }
  }

  /** The documents of a display trace, read back one line at a time. */
  function ReadBack(lines: seq<string>): seq<Option<Document>>
  {
    seq(|lines|, i requires 0 <= i < |lines| => DisplayedDocument(lines[i]))
  }

  /** Round trip: the display trace of a structure gives back its documents, in insertion order. */
  lemma ProcessReadsBack(s: DocumentStructure)
    ensures ReadBack(Process(s, DisplayVisitor)) == seq(|s.docs|, i requires 0 <= i < |s.docs| => Some(s.docs[i]))
  {
  }

  /**
   `getAll`: a view of every document held, built one element at a time as
   the source's loop does; same length, same order, and the structure is left
   as it was.
   */
  method GetAll(s: DocumentStructure) returns (view: seq<Document>)
    ensures |view| == |s.docs|
    ensures forall i :: 0 <= i < |view| ==> view[i] == s.docs[i]
  {
    view := [];
    var i := 0;
    while i < |s.docs|
      invariant 0 <= i <= |s.docs|
      invariant view == s.docs[..i]
    {
      view := view + [s.docs[i]];
      i := i + 1;
    }
  }
}
