/**
 * The three document loaders of the ingestion pipeline
 * (new/multi_bot/ingest/custom_loaders.py). Reading the file system is an
 * input: a text file's content (None when opening or decoding raised), a PDF's
 * per-page extracted text (None for the whole file when the reader raised, None
 * for one page when its text extraction raised), and the glob result of a
 * directory with each path's "is a regular file" flag.
 */
module Loaders {
  import opened Common
  import opened Documents

  /** SimpleTextLoader.load: one document whose source is the path, or nothing when reading raised. */
  function LoadText(path: string, read: Option<string>): (docs: seq<Document>)
    ensures read.None? <==> docs == []
    ensures |docs| <= 1
    ensures forall d :: d in docs ==> d.metadata == Metadata(Some(path), None) && d.pageContent == read.value
  {
    match read
    case None => []
    case Some(text) => [Document(text, Metadata(Some(path), None))]
  }

  /** A text file's document carries no page, so no channel ever cites it. */
  lemma TextDocumentsNeverCited(path: string, read: Option<string>)
    ensures forall d :: d in LoadText(path, read) ==> !Citable(d)
  {
  }

  /** The text of each of the first `n` pages was extracted without raising. */
  predicate ExtractedUpTo(pages: seq<Option<string>>, n: nat)
    requires n <= |pages|
  {
    forall i :: 0 <= i < n ==> pages[i].Some?
  }

  /** Every page's text was extracted without raising. */
  predicate AllExtracted(pages: seq<Option<string>>)
  {
    ExtractedUpTo(pages, |pages|)
  }

  /** The text has a character that is not whitespace in Python's sense. */
  predicate NonBlank(text: string)
  {
    exists i :: 0 <= i < |text| && !IsPySpace(text[i])
  }

  /** The loader's test `text.strip()` (a non-empty result is truthy) is exactly `NonBlank`. */
  lemma StripTruthyIff(text: string)
    ensures PyStrip(text) != "" <==> NonBlank(text)
  {
    TrimNonEmptyIff(text, IsPySpace);
  }

  /** The documents of the first `n` pages: one per non-blank page, tagged with its zero-based index. */
  function NonBlankPages(path: string, pages: seq<Option<string>>, n: nat): seq<Document>
    requires n <= |pages| && ExtractedUpTo(pages, n)
  {
    if n == 0 then []
    else if NonBlank(pages[n - 1].value) then
      NonBlankPages(path, pages, n - 1) + [Document(pages[n - 1].value, Metadata(Some(path), Some(n - 1)))]
    else NonBlankPages(path, pages, n - 1)
  }

  /** What SimplePdfLoader.load returns for a PDF (None: the reader raised). */
  function PdfDocuments(path: string, pdf: Option<seq<Option<string>>>): seq<Document>
  {
    if pdf.None? || !AllExtracted(pdf.value) then [] else NonBlankPages(path, pdf.value, |pdf.value|)
  }

  /** The page index a PDF document was tagged with. */
  function PageOf(d: Document): int
  {
    match d.metadata.page
    case None => -1
    case Some(p) => p
  }

  /** Each document is a non-blank page among the first `n`, with its source and zero-based index. */
  ghost predicate OnlyNonBlankPages(path: string, pages: seq<Option<string>>, n: nat, docs: seq<Document>)
    requires n <= |pages| && ExtractedUpTo(pages, n)
  {
    forall k :: 0 <= k < |docs| ==>
      docs[k].metadata.source == Some(path) && docs[k].metadata.page.Some? &&
      0 <= PageOf(docs[k]) < n &&
      docs[k].pageContent == pages[PageOf(docs[k])].value && NonBlank(docs[k].pageContent)
  }

  /** Documents appear in page order. */
  ghost predicate InPageOrder(docs: seq<Document>)
  {
    forall k, l :: 0 <= k < l < |docs| ==> PageOf(docs[k]) < PageOf(docs[l])
  }

  /** Every non-blank page among the first `n` has its document. */
  ghost predicate AllNonBlankPages(pages: seq<Option<string>>, n: nat, docs: seq<Document>)
    requires n <= |pages| && ExtractedUpTo(pages, n)
  {
    forall i :: 0 <= i < n && NonBlank(pages[i].value) ==> exists k :: 0 <= k < |docs| && PageOf(docs[k]) == i
  }

  /** The PDF loader's output, page by page: blank pages dropped, order and zero-based index kept. */
  ghost predicate PagesExactly(path: string, pages: seq<Option<string>>, n: nat, docs: seq<Document>)
    requires n <= |pages| && ExtractedUpTo(pages, n)
  {
    OnlyNonBlankPages(path, pages, n, docs) && InPageOrder(docs) && AllNonBlankPages(pages, n, docs)
  }

  lemma {:induction false} NonBlankPagesMeaning(path: string, pages: seq<Option<string>>, n: nat)
    requires n <= |pages| && ExtractedUpTo(pages, n)
    ensures PagesExactly(path, pages, n, NonBlankPages(path, pages, n))
  {
    if n > 0 {
      assert ExtractedUpTo(pages, n - 1);
      NonBlankPagesMeaning(path, pages, n - 1);
      var prev := NonBlankPages(path, pages, n - 1);
      if NonBlank(pages[n - 1].value) {
        var d := Document(pages[n - 1].value, Metadata(Some(path), Some(n - 1)));
        assert NonBlankPages(path, pages, n) == prev + [d];
        ExtendOnlyNonBlank(path, pages, n, prev, d);
        ExtendInPageOrder(path, pages, n, prev, d);
        ExtendAllNonBlank(path, pages, n, prev, d);
      } else {
        assert NonBlankPages(path, pages, n) == prev;
        forall i | 0 <= i < n && NonBlank(pages[i].value)
          ensures exists k :: 0 <= k < |prev| && PageOf(prev[k]) == i
        {
          assert i < n - 1;
        }
      }
    }
  }

  lemma ExtendOnlyNonBlank(path: string, pages: seq<Option<string>>, n: nat, prev: seq<Document>, d: Document)
    requires 0 < n <= |pages| && ExtractedUpTo(pages, n) && NonBlank(pages[n - 1].value)
    requires d == Document(pages[n - 1].value, Metadata(Some(path), Some(n - 1)))
    requires OnlyNonBlankPages(path, pages, n - 1, prev)
    ensures OnlyNonBlankPages(path, pages, n, prev + [d])
  {
    var docs := prev + [d];
    forall k | 0 <= k < |docs|
      ensures docs[k].metadata.source == Some(path) && docs[k].metadata.page.Some? &&
              0 <= PageOf(docs[k]) < n &&
              docs[k].pageContent == pages[PageOf(docs[k])].value && NonBlank(docs[k].pageContent)
    {
      if k < |prev| { assert docs[k] == prev[k]; }
    }
  }

  lemma ExtendInPageOrder(path: string, pages: seq<Option<string>>, n: nat, prev: seq<Document>, d: Document)
    requires 0 < n <= |pages| && ExtractedUpTo(pages, n) && PageOf(d) == n - 1
    requires OnlyNonBlankPages(path, pages, n - 1, prev) && InPageOrder(prev)
    ensures InPageOrder(prev + [d])
  {
    var docs := prev + [d];
    forall k, l | 0 <= k < l < |docs| ensures PageOf(docs[k]) < PageOf(docs[l]) {
      assert docs[k] == prev[k];
      if l < |prev| { assert docs[l] == prev[l]; }
    }
  }

  lemma ExtendAllNonBlank(path: string, pages: seq<Option<string>>, n: nat, prev: seq<Document>, d: Document)
    requires 0 < n <= |pages| && ExtractedUpTo(pages, n) && PageOf(d) == n - 1
    requires AllNonBlankPages(pages, n - 1, prev)
    ensures AllNonBlankPages(pages, n, prev + [d])
  {
    var docs := prev + [d];
    forall i | 0 <= i < n && NonBlank(pages[i].value)
      ensures exists k :: 0 <= k < |docs| && PageOf(docs[k]) == i
    {
      if i < n - 1 {
        var k :| 0 <= k < |prev| && PageOf(prev[k]) == i;
        assert docs[k] == prev[k];
      } else {
        assert docs[|docs| - 1] == d;
      }
    }
  }

  /**
   * SimplePdfLoader.load's promise: nothing at all if any step raised; otherwise
   * exactly the pages with a non-whitespace character, in page order, each
   * tagged with its source path and zero-based page index.
   */
  lemma PdfDocumentsMeaning(path: string, pdf: Option<seq<Option<string>>>)
    ensures (pdf.None? || !AllExtracted(pdf.value)) ==> PdfDocuments(path, pdf) == []
    ensures pdf.Some? && AllExtracted(pdf.value) ==>
      PagesExactly(path, pdf.value, |pdf.value|, PdfDocuments(path, pdf))
  {
    if pdf.Some? && AllExtracted(pdf.value) {
      NonBlankPagesMeaning(path, pdf.value, |pdf.value|);
    }
  }

  /**
   * The first page of a PDF is tagged page 0, which the channels' `if source
   * and page` test treats as false: text from a PDF's first page is never cited.
   */
  lemma FirstPdfPageNeverCited(path: string, pdf: Option<seq<Option<string>>>)
    ensures forall d :: d in PdfDocuments(path, pdf) && PageOf(d) == 0 ==> !Citable(d)
  {
  }

  /** SimplePdfLoader.load: the enumerate loop with its append, abandoned wholesale on the first exception. */
  method LoadPdf(path: string, pdf: Option<seq<Option<string>>>) returns (documents: seq<Document>)
    ensures documents == PdfDocuments(path, pdf)
  {
    if pdf.None? {
      return [];
    }
    var pages := pdf.value;
    documents := [];
    for i := 0 to |pages|
      invariant ExtractedUpTo(pages, i)
      invariant documents == NonBlankPages(path, pages, i)
    {
      if pages[i].None? {
        return [];
      }
      var text := pages[i].value;
      StripTruthyIff(text);
      assert ExtractedUpTo(pages, i + 1);
      if PyStrip(text) != "" {
        documents := documents + [Document(text, Metadata(Some(path), Some(i)))];
      }
    }
  }

  /** One glob result: a path and whether `os.path.isfile` holds for it. */
  datatype GlobEntry = GlobEntry(path: string, isFile: bool)

  /**
   * A loader class applied to one path: its documents, or None when
   * constructing it or calling its `load` raised.
   */
  type FileLoader = string -> Option<seq<Document>>

  /** What one glob entry contributes to the directory's documents. */
  function EntryDocuments(e: GlobEntry, loader: Option<FileLoader>): seq<Document>
  {
    if !e.isFile || loader.None? then []
    else match loader.value(e.path)
      case None => []
      case Some(docs) => docs
  }

  /** SimpleDirectoryLoader.load's result: the per-file results concatenated in glob order. */
  function DirectoryDocuments(entries: seq<GlobEntry>, loader: Option<FileLoader>): seq<Document>
  {
    if entries == [] then []
    else DirectoryDocuments(entries[..|entries| - 1], loader) + EntryDocuments(entries[|entries| - 1], loader)
  }

  /** Loading two runs of glob results gives the concatenation of their documents. */
  lemma {:induction false} DirectoryDocumentsAppend(a: seq<GlobEntry>, b: seq<GlobEntry>, loader: Option<FileLoader>)
    ensures DirectoryDocuments(a + b, loader) == DirectoryDocuments(a, loader) + DirectoryDocuments(b, loader)
    decreases |b|
  {
    if b == [] {
      assert a + b == a;
    } else {
      var b' := b[..|b| - 1];
      assert (a + b)[..|a + b| - 1] == a + b';
      DirectoryDocumentsAppend(a, b', loader);
    }
  }

  /** Without a `loader_cls` the directory loader returns nothing. */
  lemma {:induction false} NoLoaderNoDocuments(entries: seq<GlobEntry>)
    ensures DirectoryDocuments(entries, None) == []
  {
    if entries != [] {
      NoLoaderNoDocuments(entries[..|entries| - 1]);
    }
  }

  /**
   * A path that is not a regular file, or whose loader raised, is skipped
   * without disturbing the others: the result is that of the glob list
   * without it.
   */
  lemma SkipsOnlyThatFile(entries: seq<GlobEntry>, loader: Option<FileLoader>, i: nat)
    requires i < |entries|
    requires !entries[i].isFile || (loader.Some? && loader.value(entries[i].path).None?)
    ensures DirectoryDocuments(entries, loader) == DirectoryDocuments(entries[..i] + entries[i + 1..], loader)
  {
    var pre, post := entries[..i], entries[i + 1..];
    assert entries == pre + [entries[i]] + post;
    SkipEntry(pre, entries[i], post, loader);
  }

  lemma SkipEntry(pre: seq<GlobEntry>, e: GlobEntry, post: seq<GlobEntry>, loader: Option<FileLoader>)
    requires !e.isFile || (loader.Some? && loader.value(e.path).None?)
    ensures DirectoryDocuments(pre + [e] + post, loader) == DirectoryDocuments(pre + post, loader)
  {
    DirectoryDocumentsAppend(pre + [e], post, loader);
    DirectoryDocumentsAppend(pre, [e], loader);
    DirectoryDocumentsAppend(pre, post, loader);
    SkippedEntry(e, loader);
    assert DirectoryDocuments(pre + [e], loader) == DirectoryDocuments(pre, loader) + [];
  }

  /** A single entry that is not a file, or whose loader raised, contributes nothing. */
  lemma SkippedEntry(e: GlobEntry, loader: Option<FileLoader>)
    requires !e.isFile || (loader.Some? && loader.value(e.path).None?)
    ensures DirectoryDocuments([e], loader) == []
  {
    assert [e][..0] == [];
    assert EntryDocuments(e, loader) == [];
  }

  /** SimpleDirectoryLoader.load: a loop over the glob results that extends one list. */
  method LoadDirectory(entries: seq<GlobEntry>, loader: Option<FileLoader>) returns (documents: seq<Document>)
    ensures documents == DirectoryDocuments(entries, loader)
  {
    documents := [];
    for i := 0 to |entries|
      invariant documents == DirectoryDocuments(entries[..i], loader)
    {
      var e := entries[i];
      assert entries[..i + 1][..i] == entries[..i];
      if !e.isFile {
        continue;
      }
      if loader.Some? {
        var docs := loader.value(e.path);
        if docs.Some? {
          documents := documents + docs.value;
        }
      }
    }
    assert entries[..|entries|] == entries;
  }
}
