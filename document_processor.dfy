/** `DocumentProcessor.process_document`: choose a reader from the file
    name's extension, then wrap each piece the splitter returns as a chunk
    record. The readers (PDF, Word, plain text) and the splitter are inputs:
    `extract` maps a format and a file path to the extracted text, and
    `split` maps text to its ordered pieces. */
module Processor {
  import opened Records
  import opened Text

  /** The three readers `process_document` knows. */
  datatype Format = Pdf | Docx | Txt

  // ----- os.path.splitext (POSIX) -----

  predicate AllDots(s: string)
  {
    forall i :: 0 <= i < |s| ==> s[i] == '.'
  }

  /** The final path component. */
  function Basename(p: string): string
  {
    p[LastIndex(p, '/') + 1..]
  }

  /** Position `i` holds a dot after which the path has no other dot and no
      separator: the only place an extension can start. */
  predicate IsExtStart(p: string, i: int)
  {
    0 <= i < |p| && p[i] == '.' && forall j :: i < j < |p| ==> p[j] != '.' && p[j] != '/'
  }

  /** `os.path.splitext(p)`: the extension runs from the last dot of the
      final component, unless everything before that dot in the component
      is dots (a leading dot does not start an extension). */
  function SplitExt(p: string): (string, string)
  {
    var sepIndex := LastIndex(p, '/');
    var dotIndex := LastIndex(p, '.');
    if dotIndex > sepIndex && !AllDots(p[sepIndex + 1..dotIndex]) then (p[..dotIndex], p[dotIndex..])
    else (p, "")
  }

  /** `LastIndex` is pinned down by its contract. */
  lemma LastIndexUnique(s: string, c: char, r: int)
    requires -1 <= r < |s|
    requires r >= 0 ==> s[r] == c
    requires forall j :: r < j < |s| ==> s[j] != c
    ensures LastIndex(s, c) == r
  {
  }

  /** A non-empty extension starts at the only possible place and has a
      non-dot before it in its component. */
  lemma ExtensionFound(p: string)
    requires SplitExt(p).1 != ""
    ensures var root := SplitExt(p).0;
      IsExtStart(p, |root|) && !AllDots(Basename(root))
  {
    var sepIndex := LastIndex(p, '/');
    var dotIndex := LastIndex(p, '.');
    assert SplitExt(p) == (p[..dotIndex], p[dotIndex..]);
    assert forall j :: dotIndex < j < |p| ==> p[j] != '/';
    LastIndexOfPrefix(p, '/', dotIndex);
  }

  /** A character absent from `s[i..]` is last found before `i`. */
  lemma LastIndexBefore(s: string, c: char, i: int)
    requires 0 <= i <= |s|
    requires forall j :: i <= j < |s| ==> s[j] != c
    ensures LastIndex(s, c) < i
  {
  }

  /** Cutting `s` after its last `c` does not move that last `c`. */
  lemma LastIndexOfPrefix(s: string, c: char, i: int)
    requires LastIndex(s, c) < i <= |s|
    ensures LastIndex(s[..i], c) == LastIndex(s, c)
  {
    LastIndexUnique(s[..i], c, LastIndex(s, c));
  }

  /** The final component of the part before an extension start is what
      lies between the last separator and that dot. */
  lemma BasenameBeforeExtStart(p: string, i: int)
    requires IsExtStart(p, i)
    ensures LastIndex(p, '.') == i
    ensures LastIndex(p, '/') < i
    ensures Basename(p[..i]) == p[LastIndex(p, '/') + 1..i]
  {
    LastIndexUnique(p, '.', i);
    LastIndexBefore(p, '/', i);
    LastIndexOfPrefix(p, '/', i);
  }

  /** An empty extension means every possible place has only dots before
      it in its component. */
  lemma NoExtensionFound(p: string)
    requires SplitExt(p).1 == ""
    ensures forall i :: IsExtStart(p, i) ==> AllDots(Basename(p[..i]))
  {
    forall i | IsExtStart(p, i)
      ensures AllDots(Basename(p[..i]))
    {
      BasenameBeforeExtStart(p, i);
    }
  }

  /** The two halves rebuild the path; a non-empty extension starts at the
      only possible place and has a non-dot before it in its component; an
      empty one means no such place exists. */
  lemma SplitExtCharacterised(p: string)
    ensures SplitExt(p).0 + SplitExt(p).1 == p
    ensures var root := SplitExt(p).0;
      SplitExt(p).1 != "" ==> IsExtStart(p, |root|) && !AllDots(Basename(root))
    ensures SplitExt(p).1 == "" ==> forall i :: IsExtStart(p, i) ==> AllDots(Basename(p[..i]))
  {
    if SplitExt(p).1 != "" {
      ExtensionFound(p);
    } else {
      NoExtensionFound(p);
    }
  }

  // ----- dispatch -----

  /** The extension as `process_document` compares it: lower-cased. */
  function FileExtension(filename: string): string
  {
    Lower(SplitExt(filename).1)
  }

  function ReaderFor(ext: string): Option<Format>
  {
    if ext == ".pdf" then Some(Pdf)
    else if ext == ".docx" then Some(Docx)
    else if ext == ".txt" then Some(Txt)
    else None
  }

  /** The `ValueError` message for an unknown extension. */
  function UnsupportedMessage(ext: string): string
  {
    "Sorry, I don't know how to read " + ext + " files yet!"
  }

  /** Each reader is chosen exactly for its extension in any mix of cases. */
  lemma ReaderChosenIgnoringCase(filename: string)
    ensures var e := SplitExt(filename).1;
      && (ReaderFor(FileExtension(filename)) == Some(Pdf) <==> MatchesIgnoringCase(e, ".pdf"))
      && (ReaderFor(FileExtension(filename)) == Some(Docx) <==> MatchesIgnoringCase(e, ".docx"))
      && (ReaderFor(FileExtension(filename)) == Some(Txt) <==> MatchesIgnoringCase(e, ".txt"))
      && (ReaderFor(FileExtension(filename)) == None <==>
            !MatchesIgnoringCase(e, ".pdf") && !MatchesIgnoringCase(e, ".docx")
            && !MatchesIgnoringCase(e, ".txt"))
  {
    var e := SplitExt(filename).1;
    ReaderForNames(Lower(e));
    ChosenIgnoringCase(e, ".pdf");
    ChosenIgnoringCase(e, ".docx");
    ChosenIgnoringCase(e, ".txt");
  }

  /** One reader's extension, in the form `LowerEqualsIff` needs. */
  lemma ChosenIgnoringCase(e: string, t: string)
    requires t == ".pdf" || t == ".docx" || t == ".txt"
    ensures Lower(e) == t <==> MatchesIgnoringCase(e, t)
  {
    LowerEqualsIff(e, t);
  }

  /** `ReaderFor` recognises exactly the three lower-case extensions. */
  lemma ReaderForNames(l: string)
    ensures ReaderFor(l) == Some(Pdf) <==> l == ".pdf"
    ensures ReaderFor(l) == Some(Docx) <==> l == ".docx"
    ensures ReaderFor(l) == Some(Txt) <==> l == ".txt"
    ensures ReaderFor(l) == None <==> l != ".pdf" && l != ".docx" && l != ".txt"
  {
  }

  /** A file named just `.pdf` has no extension and is refused. */
  lemma DotFileIsRefused()
    ensures SplitExt(".pdf") == (".pdf", "")
    ensures ReaderFor(FileExtension(".pdf")) == None
  {
    var p := ".pdf";
    LastIndexUnique(p, '/', -1);
    LastIndexUnique(p, '.', 0);
    assert AllDots(p[0..0]);
    assert Lower("") == "";
  }

  // ----- process_document -----

  /** `process_document(file_path, filename)`: an unknown extension fails
      before anything is read or split; otherwise the i-th piece becomes
      record i with its source, number and the piece count. */
  function ProcessDocument(
    filePath: string,
    filename: string,
    extract: (Format, string) -> string,
    split: string -> seq<string>)
    : (r: Result<seq<Chunk>, string>)
    ensures r.Failure? <==> ReaderFor(FileExtension(filename)) == None
    ensures r.Failure? ==> r.error == UnsupportedMessage(FileExtension(filename))
    ensures r.Success? ==>
      var pieces := split(extract(ReaderFor(FileExtension(filename)).value, filePath));
      && |r.value| == |pieces|
      && forall i :: 0 <= i < |pieces| ==>
           && r.value[i].content == pieces[i]
           && r.value[i].metadata.source == filename
           && r.value[i].metadata.chunkId == i
           && r.value[i].metadata.totalChunks == |pieces|
           && r.value[i].metadata.docId == None
           && !r.value[i].metadata.deleted
  {
    var ext := FileExtension(filename);
    match ReaderFor(ext)
    case None => Failure(UnsupportedMessage(ext))
    case Some(format) =>
      var pieces := split(extract(format, filePath));
      Success(seq(|pieces|, i requires 0 <= i < |pieces| =>
        Chunk(pieces[i], Metadata(filename, i, |pieces|, None, false))))
  }
}
