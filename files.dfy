/** services/file_processor.py: which uploads are accepted, which extractor
    reads them, how long the extracted text may be, and how the PDF, Word
    and OCR extractors assemble their text. The libraries that read the
    files (PyPDF2, python-docx, pytesseract) are inputs: the page texts,
    paragraphs, table rows and OCR candidates they produce. */
module Files {
  import opened Results
  import opened Text

  const MaxFileSize: int := 50 * 1024 * 1024
  const MaxTextLength: nat := 100000
  const TruncationNotice: string := "\n\n[Text truncated due to length limit]"

  datatype FileKind = Pdf | Docx | Doc | Image | PlainText

  const SupportedFileTypes: map<string, FileKind> := map[
    "application/pdf" := Pdf,
    "application/vnd.openxmlformats-officedocument.wordprocessingml.document" := Docx,
    "application/msword" := Doc,
    "image/jpeg" := Image,
    "image/png" := Image,
    "image/gif" := Image,
    "image/bmp" := Image,
    "image/tiff" := Image,
    "text/plain" := PlainText
  ]

  predicate IsSupportedFileType(contentType: string) {
    contentType in SupportedFileTypes
  }

  predicate ValidateFileSize(fileSize: int) {
    fileSize <= MaxFileSize
  }

  /** Nine different MIME types are accepted. */
  lemma SupportedTypesTable()
    ensures |SupportedFileTypes| == 9
  {
  }

  /** The limit is fifty mebibytes, inclusive. */
  lemma FileSizeLimit(fileSize: int)
    ensures ValidateFileSize(fileSize) <==> fileSize <= 52428800
    ensures ValidateFileSize(52428800) && !ValidateFileSize(52428801)
  {
  }

  // ---- extract_text_from_file ---------------------------------------------------------

  /** The four extractors; `.docx` and `.doc` share the Word one. */
  datatype Extractor = PdfExtractor | WordExtractor | ImageExtractor | TextExtractor

  function ExtractorFor(k: FileKind): Extractor {
    match k
    case Pdf => PdfExtractor
    case Docx => WordExtractor
    case Doc => WordExtractor
    case Image => ImageExtractor
    case PlainText => TextExtractor
  }

  /** Text over the limit keeps its first 100000 characters and gains a
      notice; shorter text is left alone. */
  function Truncate(text: string): (r: string)
    ensures |r| <= MaxTextLength + |TruncationNotice|
    ensures |text| <= MaxTextLength ==> r == text
    ensures |text| > MaxTextLength ==> text[..MaxTextLength] <= r && r[MaxTextLength..] == TruncationNotice
  {
    if |text| > MaxTextLength then text[..MaxTextLength] + TruncationNotice else text
  }

  /** Truncating twice is truncating once. */
  lemma TruncateIdempotent(text: string)
    ensures Truncate(Truncate(text)) == Truncate(text)
  {
    if |text| > MaxTextLength {
      var t := Truncate(text);
      assert t[..MaxTextLength] == text[..MaxTextLength];
    }
  }

  /** What `extract_text_from_file` returns when `read(e)` is what extractor
      `e` returns. */
  function ExtractedText(contentType: string, read: Extractor -> Option<string>): Option<string> {
    if contentType !in SupportedFileTypes then None
    else
      match read(ExtractorFor(SupportedFileTypes[contentType]))
      case None => None
      case Some(t) => Some(Truncate(t))
  }

  /** Unsupported types yield nothing; otherwise the kind's own extractor
      is the one read, and what comes back is within the length limit and
      starts like the extractor's text. */
  lemma ExtractedTextFromOwnExtractor(contentType: string, read: Extractor -> Option<string>)
    ensures contentType !in SupportedFileTypes ==> ExtractedText(contentType, read).None?
    ensures contentType in SupportedFileTypes ==>
      var e := read(ExtractorFor(SupportedFileTypes[contentType]));
      var r := ExtractedText(contentType, read);
      (r.Some? <==> e.Some?) &&
      (r.Some? ==> |r.value| <= MaxTextLength + |TruncationNotice| &&
                   (|e.value| <= MaxTextLength ==> r.value == e.value) &&
                   (|e.value| > MaxTextLength ==> e.value[..MaxTextLength] <= r.value))
  {
  }

  /** The file processor: its temporary directory, the history of the
      files it has written there, in order, and the files now in it. Each
      upload is written and then removed again before the text is returned,
      so the history grows while the directory stays as it was. */
  class FileProcessor {
    const tempDir: string
    var written: seq<string>
    var present: set<string>

    constructor(tempDir: string)
      ensures this.tempDir == tempDir && written == [] && present == {}
    {
      this.tempDir := tempDir;
      written := [];
      present := {};
    }

    /** `extract_text_from_file`; an unsupported type returns before
        anything is written. */
    method ExtractTextFromFile(filename: string, contentType: string, read: Extractor -> Option<string>)
      returns (text: Option<string>)
      modifies this
      ensures text == ExtractedText(contentType, read)
      ensures contentType !in SupportedFileTypes ==> written == old(written) && present == old(present)
      ensures contentType in SupportedFileTypes ==>
        written == old(written) + [filename] && present == old(present) - {filename}
    {
      if contentType !in SupportedFileTypes {
        return None;
      }
      var fileType := SupportedFileTypes[contentType];
      written := written + [filename];
      present := present + {filename};
      var textContent: Option<string> := None;
      match fileType {
        case Pdf => textContent := read(PdfExtractor);
        case Docx => textContent := read(WordExtractor);
        case Doc => textContent := read(WordExtractor);
        case Image => textContent := read(ImageExtractor);
        case PlainText => textContent := read(TextExtractor);
      }
      if filename in present {
        present := present - {filename};
      }
      if textContent.Some? && |textContent.value| > MaxTextLength {
        textContent := Some(textContent.value[..MaxTextLength] + TruncationNotice);
      }
      text := textContent;
    }
  }

  /** The module-level `_file_processor`. */
  class Registry {
    var instance: FileProcessor?

    constructor()
      ensures instance == null
    {
      instance := null;
    }

    /** `get_file_processor`: creates the processor on first use (in the
        fresh temporary directory `tempDir`) and hands out that same one
        afterwards. */
    method GetFileProcessor(tempDir: string) returns (p: FileProcessor)
      modifies this
      ensures old(instance) != null ==> p == old(instance)
      ensures old(instance) == null ==> fresh(p) && p.tempDir == tempDir && p.written == [] && p.present == {}
      ensures instance == p
    {
      if instance == null {
        instance := new FileProcessor(tempDir);
      }
      p := instance;
    }

    /** `cleanup_file_processor`: forgets the processor, so the next use
        creates a new one. */
    method CleanupFileProcessor()
      modifies this
      ensures instance == null
    {
      instance := null;
    }
  }

  // ---- the extractors -----------------------------------------------------------------

  const BlockSeparator: string := "\n\n"
  const CellSeparator: string := " | "

  /** The page texts that are not empty, in order (a page without text is
      the empty string). */
  function NonEmptyPages(pages: seq<string>): (r: seq<string>)
    ensures |r| <= |pages|
    ensures forall k :: 0 <= k < |r| ==> r[k] != []
  {
    if pages == [] then []
    else NonEmptyPages(pages[..|pages| - 1]) + (if pages[|pages| - 1] == [] then [] else [pages[|pages| - 1]])
  }

  /** The PDF extractor: the non-empty page texts, a blank line apart. */
  method PdfText(pages: seq<string>) returns (text: string)
    ensures text == Join(NonEmptyPages(pages), BlockSeparator)
  {
    var blocks: seq<string> := [];
    var i := 0;
    while i < |pages|
      invariant 0 <= i <= |pages|
      invariant blocks == NonEmptyPages(pages[..i])
    {
      assert pages[..i + 1][..i] == pages[..i];
      if pages[i] != [] {
        blocks := blocks + [pages[i]];
      }
      i := i + 1;
    }
    assert pages[..i] == pages;
    text := Join(blocks, BlockSeparator);
  }

  /** A page is kept exactly when it has text, whatever pages surround it. */
  lemma {:induction false} NonEmptyPagesKept(pages: seq<string>)
    ensures forall p :: p in NonEmptyPages(pages) <==> p in pages && p != []
  {
    if pages != [] {
      NonEmptyPagesKept(pages[..|pages| - 1]);
      assert pages == pages[..|pages| - 1] + [pages[|pages| - 1]];
    }
  }

  /** The PDF libraries the module may have imported. */
  datatype PdfLibrary = PyPdf2 | Pdfplumber | NoPdfLibrary

  /** `_extract_from_pdf` as written. The import block assigns
      `USE_PDFPLUMBER` only when PyPDF2 is missing, so with PyPDF2 installed
      the test of that name raises NameError, which the method's own
      handler turns into None. */
  function AsWrittenPdfExtract(lib: PdfLibrary, pages: seq<string>): Option<string> {
    match lib
    case NoPdfLibrary => None
    case PyPdf2 => None
    case Pdfplumber => Some(Join(NonEmptyPages(pages), BlockSeparator))
  }

  /** `_extract_from_pdf` with `USE_PDFPLUMBER` false beside PyPDF2: either
      library gives the joined page texts. */
  function PdfExtract(lib: PdfLibrary, pages: seq<string>): Option<string> {
    if lib == NoPdfLibrary then None else Some(Join(NonEmptyPages(pages), BlockSeparator))
  }

  /** With PyPDF2 installed, a one-page PDF reading "x" comes back as no
      text at all, where the intended extractor returns "x". */
  lemma PyPdf2ReadsNothing()
    ensures AsWrittenPdfExtract(PyPdf2, ["x"]) == None
    ensures PdfExtract(PyPdf2, ["x"]) == Some("x")
  {
    assert ["x"][..0] == [];
    assert NonEmptyPages(["x"]) == ["x"];
  }

  /** The intended extractor answers exactly when a library is present,
      agrees with the as-written one under pdfplumber, and its text is the
      join of precisely the pages that have text. */
  lemma PdfExtractKeepsPages(lib: PdfLibrary, pages: seq<string>)
    ensures PdfExtract(lib, pages).Some? <==> lib != NoPdfLibrary
    ensures lib != PyPdf2 ==> PdfExtract(lib, pages) == AsWrittenPdfExtract(lib, pages)
    ensures lib != NoPdfLibrary ==> PdfExtract(lib, pages) == Some(Join(NonEmptyPages(pages), BlockSeparator))
    ensures forall p :: p in NonEmptyPages(pages) <==> p in pages && p != []
  {
    NonEmptyPagesKept(pages);
  }

  /** The paragraphs with some non-whitespace text, kept as written. */
  function KeptParagraphs(paragraphs: seq<string>): (r: seq<string>)
    ensures |r| <= |paragraphs|
    ensures forall k :: 0 <= k < |r| ==> !AllSpace(r[k])
  {
    if paragraphs == [] then []
    else
      var last := paragraphs[|paragraphs| - 1];
      KeptParagraphs(paragraphs[..|paragraphs| - 1]) + (if AllSpace(last) then [] else [last])
  }

  /** A kept cell or OCR result: stripped and not empty. */
  predicate IsCleanText(c: string) {
    c != [] && IsStripped(c)
  }

  /** The strings with some non-whitespace text, stripped: the cells of a
      table row the Word extractor keeps, and the OCR results kept. */
  function StrippedNonBlank(cells: seq<string>): (r: seq<string>)
    ensures |r| <= |cells|
    ensures forall k :: 0 <= k < |r| ==> IsCleanText(r[k])
  {
    if cells == [] then []
    else
      var last := cells[|cells| - 1];
      StripEmptyIffAllSpace(last);
      var init := StrippedNonBlank(cells[..|cells| - 1]);
      var tail := if AllSpace(last) then [] else [Strip(last)];
      assert forall k :: 0 <= k < |init| ==> (init + tail)[k] == init[k];
      init + tail
  }

  /** A table row has text when some cell is not all whitespace. */
  predicate RowHasText(row: seq<string>) {
    exists k :: 0 <= k < |row| && !AllSpace(row[k])
  }

  /** A row's line: its cleaned cells joined by " | ". */
  function RowBlock(row: seq<string>): string {
    Join(StrippedNonBlank(row), CellSeparator)
  }

  /** One block per table row that has some non-blank cell: its cleaned
      cells joined by " | ". */
  function RowBlocks(rows: seq<seq<string>>): (r: seq<string>)
    ensures |r| <= |rows|
  {
    if rows == [] then []
    else
      var last := rows[|rows| - 1];
      RowBlocks(rows[..|rows| - 1]) + (if StrippedNonBlank(last) == [] then [] else [RowBlock(last)])
  }

  /** Nothing is kept exactly when every string is blank. */
  lemma {:induction false} StrippedNonBlankEmptyIff(cells: seq<string>)
    ensures StrippedNonBlank(cells) == [] <==> forall k :: 0 <= k < |cells| ==> AllSpace(cells[k])
  {
    if cells != [] {
      var init := cells[..|cells| - 1];
      StrippedNonBlankEmptyIff(init);
      assert forall k :: 0 <= k < |init| ==> init[k] == cells[k];
    }
  }

  /** A paragraph is kept exactly when it is in the input and not all
      whitespace. */
  lemma {:induction false} KeptParagraphsIff(paragraphs: seq<string>)
    ensures forall p :: p in KeptParagraphs(paragraphs) <==> p in paragraphs && !AllSpace(p)
  {
    if paragraphs != [] {
      KeptParagraphsIff(paragraphs[..|paragraphs| - 1]);
      assert paragraphs == paragraphs[..|paragraphs| - 1] + [paragraphs[|paragraphs| - 1]];
    }
  }

  /** Filtering keeps the order: the paragraphs kept from `a + b` are
      those kept from `a`, then those kept from `b`. */
  lemma {:induction false} KeptParagraphsAppend(a: seq<string>, b: seq<string>)
    ensures KeptParagraphs(a + b) == KeptParagraphs(a) + KeptParagraphs(b)
  {
    if b == [] {
      assert a + b == a;
    } else {
      var init := b[..|b| - 1];
      assert (a + b)[..|a + b| - 1] == a + init;
      assert (a + b)[|a + b| - 1] == b[|b| - 1];
      KeptParagraphsAppend(a, init);
    }
  }

  /** The last row adds its line exactly when it has text. */
  lemma RowBlocksLast(rows: seq<seq<string>>)
    requires rows != []
    ensures RowBlocks(rows) ==
      RowBlocks(rows[..|rows| - 1]) + (if RowHasText(rows[|rows| - 1]) then [RowBlock(rows[|rows| - 1])] else [])
  {
    StrippedNonBlankEmptyIff(rows[|rows| - 1]);
  }

  /** A block is a row's line exactly when that row has text; the lines
      come in the order of the rows. */
  lemma {:induction false} RowBlocksIff(rows: seq<seq<string>>)
    ensures forall b :: b in RowBlocks(rows) <==>
      exists i :: 0 <= i < |rows| && RowHasText(rows[i]) && b == RowBlock(rows[i])
  {
    if rows != [] {
      var init, last := rows[..|rows| - 1], rows[|rows| - 1];
      RowBlocksIff(init);
      RowBlocksLast(rows);
      forall b | b in RowBlocks(rows)
        ensures exists i :: 0 <= i < |rows| && RowHasText(rows[i]) && b == RowBlock(rows[i])
      {
        if b in RowBlocks(init) {
          var i :| 0 <= i < |init| && RowHasText(init[i]) && b == RowBlock(init[i]);
          assert rows[i] == init[i];
        } else {
          assert rows[|rows| - 1] == last;
        }
      }
      assert |init| == |rows| - 1;
      forall i | 0 <= i < |rows| && RowHasText(rows[i])
        ensures RowBlock(rows[i]) in RowBlocks(rows)
      {
        if i < |init| {
          assert init[i] == rows[i];
          assert RowBlock(init[i]) in RowBlocks(init);
        } else {
          assert RowBlocks(rows)[|RowBlocks(rows)| - 1] == RowBlock(last);
        }
      }
    }
  }

  /** The lines of `a + b` are the lines of `a`, then those of `b`. */
  lemma {:induction false} RowBlocksAppend(a: seq<seq<string>>, b: seq<seq<string>>)
    ensures RowBlocks(a + b) == RowBlocks(a) + RowBlocks(b)
  {
    if b == [] {
      assert a + b == a;
    } else {
      var init := b[..|b| - 1];
      assert (a + b)[..|a + b| - 1] == a + init;
      assert (a + b)[|a + b| - 1] == b[|b| - 1];
      RowBlocksAppend(a, init);
    }
  }

  /** The Word extractor: the non-blank paragraphs, then one line per
      non-empty table row (rows of all tables in order), a blank line
      apart. */
  method WordText(paragraphs: seq<string>, rows: seq<seq<string>>) returns (text: string)
    ensures text == Join(KeptParagraphs(paragraphs) + RowBlocks(rows), BlockSeparator)
  {
    var blocks: seq<string> := [];
    var i := 0;
    while i < |paragraphs|
      invariant 0 <= i <= |paragraphs|
      invariant blocks == KeptParagraphs(paragraphs[..i])
    {
      assert paragraphs[..i + 1][..i] == paragraphs[..i];
      if !AllSpace(paragraphs[i]) {
        blocks := blocks + [paragraphs[i]];
      }
      i := i + 1;
    }
    assert paragraphs[..i] == paragraphs;
    var j := 0;
    while j < |rows|
      invariant 0 <= j <= |rows|
      invariant blocks == KeptParagraphs(paragraphs) + RowBlocks(rows[..j])
    {
      assert rows[..j + 1][..j] == rows[..j];
      var rowText: seq<string> := [];
      var c := 0;
      while c < |rows[j]|
        invariant 0 <= c <= |rows[j]|
        invariant rowText == StrippedNonBlank(rows[j][..c])
      {
        assert rows[j][..c + 1][..c] == rows[j][..c];
        if !AllSpace(rows[j][c]) {
          rowText := rowText + [Strip(rows[j][c])];
        }
        c := c + 1;
      }
      assert rows[j][..c] == rows[j];
      if rowText != [] {
        blocks := blocks + [Join(rowText, CellSeparator)];
      }
      j := j + 1;
    }
    assert rows[..j] == rows;
    text := Join(blocks, BlockSeparator);
  }

  // ---- OCR ----------------------------------------------------------------------------

  /** The longest candidate, the first one among equally long ones
      (Python's `max` with a length key). */
  function Longest(candidates: seq<string>): (best: nat)
    requires candidates != []
    ensures best < |candidates|
    ensures forall k :: 0 <= k < |candidates| ==> |candidates[k]| <= |candidates[best]|
    ensures forall k :: 0 <= k < best ==> |candidates[k]| < |candidates[best]|
  {
    if |candidates| == 1 then 0
    else
      var b := Longest(candidates[..|candidates| - 1]);
      if |candidates[|candidates| - 1]| > |candidates[b]| then |candidates| - 1 else b
  }

  /** The corrections applied in order. */
  function ApplyCorrections(corrections: seq<string -> string>, text: string): string {
    if corrections == [] then text else ApplyCorrections(corrections[1..], corrections[0](text))
  }

  /** `_correct_math_symbols`: each correction in turn, then whitespace
      collapsed to single spaces. */
  method CorrectMathSymbols(text: string, corrections: seq<string -> string>) returns (corrected: string)
    ensures corrected == NormalizeSpace(ApplyCorrections(corrections, text))
    ensures IsNormalized(corrected)
  {
    corrected := text;
    var i := 0;
    while i < |corrections|
      invariant 0 <= i <= |corrections|
      invariant ApplyCorrections(corrections[i..], corrected) == ApplyCorrections(corrections, text)
    {
      assert corrections[i..][1..] == corrections[i + 1..];
      corrected := corrections[i](corrected);
      i := i + 1;
    }
    assert corrections[i..] == [];
    corrected := NormalizeSpace(corrected);
  }

  /** The OCR extractor: nothing when every attempt came back blank,
      otherwise the longest stripped result, corrected. */
  function ImageText(candidates: seq<string>, corrections: seq<string -> string>): (r: Option<string>)
    ensures r.None? <==> forall k :: 0 <= k < |candidates| ==> AllSpace(candidates[k])
    ensures r.Some? ==> IsNormalized(r.value)
  {
    StrippedNonBlankEmptyIff(candidates);
    var results := StrippedNonBlank(candidates);
    if results == [] then None
    else Some(NormalizeSpace(ApplyCorrections(corrections, results[Longest(results)])))
  }
}
