/**
 * The factory method exercise: three concrete factories each create one kind of
 * document, and the shared `PerformDocumentOperations` creates one document and opens,
 * saves and prints it. Documents and factories hold no state, so both are values; the
 * operations return the lines they print.
 */
module DocumentFactory {
  import opened Text

  datatype Document = WordDocument | PdfDocument | ExcelDocument

  datatype Factory = WordDocumentFactory | PdfDocumentFactory | ExcelDocumentFactory

  datatype Operation = Open | Save | Print

  /** `GetDocumentType`. */
  function DocumentType(d: Document): string {
    match d
    case WordDocument => "Word Document"
    case PdfDocument => "PDF Document"
    case ExcelDocument => "Excel Document"
  }

  /** `GetType().Name` of a factory. */
  function FactoryName(f: Factory): string {
    match f
    case WordDocumentFactory => "WordDocumentFactory"
    case PdfDocumentFactory => "PdfDocumentFactory"
    case ExcelDocumentFactory => "ExcelDocumentFactory"
  }

  /** The factory method: each factory makes its own kind of document. */
  function CreateDocument(f: Factory): (d: Document)
    ensures f.WordDocumentFactory? ==> DocumentType(d) == "Word Document"
    ensures f.PdfDocumentFactory? ==> DocumentType(d) == "PDF Document"
    ensures f.ExcelDocumentFactory? ==> DocumentType(d) == "Excel Document"
  {
    match f
    case WordDocumentFactory => WordDocument
    case PdfDocumentFactory => PdfDocument
    case ExcelDocumentFactory => ExcelDocument
  }

  /** The verb `Open`, `Save` or `Print` starts its line with. */
  function Verb(op: Operation): string {
    match op
    case Open => "Opening "
    case Save => "Saving "
    case Print => "Printing "
  }

  /** The line one operation prints for a document. */
  function OperationLine(d: Document, op: Operation): string {
    Verb(op) + DocumentType(d) + "..."
  }

  /** Reads "<document type>..." back. */
  function ReadDocumentText(text: string): Option<Document> {
    if text == "Word Document..." then Some(WordDocument)
    else if text == "PDF Document..." then Some(PdfDocument)
    else if text == "Excel Document..." then Some(ExcelDocument)
    else None
  }

  /** Reads a line of one given operation back into the document it names. */
  function ReadAs(line: string, op: Operation): Option<(Operation, Document)> {
    match StripPrefix(line, Verb(op))
    case None => None
    case Some(rest) =>
      match ReadDocumentText(rest)
      case None => None
      case Some(d) => Some((op, d))
  }

  /** Reads an operation line back into the operation and the document it names. */
  function ReadOperationLine(line: string): Option<(Operation, Document)> {
    var open, save := ReadAs(line, Open), ReadAs(line, Save);
    if open.Some? then open else if save.Some? then save else ReadAs(line, Print)
  }

  lemma ReadDocumentTextOf(d: Document)
    ensures ReadDocumentText(DocumentType(d) + "...") == Some(d)
  {
    assert |"Word Document..."| == 16 && |"PDF Document..."| == 15 && |"Excel Document..."| == 17;
  }

  /** A line starting with another verb's first letter is not read as this operation. */
  lemma OtherVerb(line: string, op: Operation)
    requires |line| > 0 && line[0] != Verb(op)[0]
    ensures ReadAs(line, op) == None
  {
  }

  /** An operation line reads back as the operation and document that printed it. */
  lemma OperationLineRoundTrip(d: Document, op: Operation)
    ensures ReadOperationLine(OperationLine(d, op)) == Some((op, d))
  {
    var line := OperationLine(d, op);
    assert line == Verb(op) + (DocumentType(d) + "...");
    StripPrefixOf(Verb(op), DocumentType(d) + "...");
    ReadDocumentTextOf(d);
    assert line[0] == Verb(op)[0];
    if op != Open {
      OtherVerb(line, Open);
    }
    if op == Print {
      OtherVerb(line, Save);
    }
  }

  /** Operation lines identify their operation and document: no two pairs print the same line. */
  lemma OperationLineInjective(d: Document, op: Operation, e: Document, op2: Operation)
    requires OperationLine(d, op) == OperationLine(e, op2)
    ensures d == e && op == op2
  {
    OperationLineRoundTrip(d, op);
    OperationLineRoundTrip(e, op2);
  }

  /** A line starting with none of the three verbs is not an operation line. */
  lemma NotAnOperation(line: string)
    requires |line| > 0 && line[0] != 'O' && line[0] != 'S' && line[0] != 'P'
    ensures ReadOperationLine(line) == None
  {
    OtherVerb(line, Open);
    OtherVerb(line, Save);
    OtherVerb(line, Print);
  }

  /** `PerformDocumentOperations`, with the document it creates and the lines it prints. */
  function PerformDocumentOperations(f: Factory): (r: (Document, seq<string>))
    ensures r.0 == CreateDocument(f)
    ensures |r.1| == 6
    ensures r.1[2..5] == [OperationLine(r.0, Open), OperationLine(r.0, Save), OperationLine(r.0, Print)]
  {
    var document := CreateDocument(f);
    (document,
     ["\n--- Using factory " + FactoryName(f) + " ---",
      "Created: " + DocumentType(document),
      OperationLine(document, Open),
      OperationLine(document, Save),
      OperationLine(document, Print),
      "--- Document operations completed ---\n"])
  }

  /** The operations in the order a trace shows them, with the document each acted on. */
  function Operations(lines: seq<string>): seq<(Operation, Document)>
    decreases |lines|
  {
    if lines == [] then []
    else
      (match ReadOperationLine(lines[0]) case Some(p) => [p] case None => []) + Operations(lines[1..])
  }

  /** The operations a six-line run shows, when only its middle three lines are operation lines. */
  lemma OperationsOfSixLines(l0: string, l1: string, l2: string, l3: string, l4: string, l5: string,
                             ops: seq<(Operation, Document)>)
    requires |ops| == 3
    requires ReadOperationLine(l0) == None && ReadOperationLine(l1) == None && ReadOperationLine(l5) == None
    requires ReadOperationLine(l2) == Some(ops[0]) && ReadOperationLine(l3) == Some(ops[1])
    requires ReadOperationLine(l4) == Some(ops[2])
    ensures Operations([l0, l1, l2, l3, l4, l5]) == ops
  {
    var lines := [l0, l1, l2, l3, l4, l5];
    assert Operations(lines[5..]) == [] by {
      assert lines[5..][1..] == [];
    }
    assert Operations(lines[4..]) == [ops[2]] by {
      assert lines[4..][1..] == lines[5..];
    }
    assert Operations(lines[3..]) == [ops[1], ops[2]] by {
      assert lines[3..][1..] == lines[4..];
    }
    assert Operations(lines[2..]) == ops by {
      assert lines[2..][1..] == lines[3..];
    }
    assert Operations(lines[1..]) == Operations(lines[2..]) by {
      assert lines[1..][1..] == lines[2..];
    }
  }

  /** Every factory's run opens, saves and prints one document of its own kind, in that order, and nothing else. */
  lemma OperationsInOrder(f: Factory)
    ensures var (d, lines) := PerformDocumentOperations(f);
      Operations(lines) == [(Open, d), (Save, d), (Print, d)]
  {
    var (d, lines) := PerformDocumentOperations(f);
    var header := "\n--- Using factory " + FactoryName(f) + " ---";
    var created := "Created: " + DocumentType(d);
    var footer := "--- Document operations completed ---\n";
    assert lines == [header, created, OperationLine(d, Open), OperationLine(d, Save), OperationLine(d, Print), footer];
    assert header[0] == '\n' && created[0] == 'C' && footer[0] == '-';
    NotAnOperation(header);
    NotAnOperation(created);
    NotAnOperation(footer);
    OperationLineRoundTrip(d, Open);
    OperationLineRoundTrip(d, Save);
    OperationLineRoundTrip(d, Print);
    OperationsOfSixLines(header, created, OperationLine(d, Open), OperationLine(d, Save), OperationLine(d, Print),
                         footer, [(Open, d), (Save, d), (Print, d)]);
  }

  /** The three factories make three different kinds of document. */
  lemma FactoriesDiffer(f: Factory, g: Factory)
    requires f != g
    ensures DocumentType(CreateDocument(f)) != DocumentType(CreateDocument(g))
  {
    assert DocumentType(CreateDocument(f))[0] != DocumentType(CreateDocument(g))[0];
  }
}
