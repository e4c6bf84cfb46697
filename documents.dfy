/**
 * Documents as the loaders produce them and the retrieval chain returns them,
 * and the citation rule that the three Python channel servers share: of the
 * first two source documents, cite each one whose source basename is
 * non-empty and whose page is truthy, labelled by its position (1 or 2).
 */
module Documents {
  import opened Common

  /** `metadata["source"]` and `metadata["page"]`; None where the key is absent. */
  datatype Metadata = Metadata(source: Option<string>, page: Option<int>)

  /** A langchain `Document(page_content, metadata)`. */
  datatype Document = Document(pageContent: string, metadata: Metadata)

  /** The result dictionary of the retrieval chain: `result["result"]` and `result["source_documents"]` (empty when absent). */
  datatype QaResult = QaResult(result: string, sourceDocuments: seq<Document>)

  /** `doc.metadata.get("source", "").split("/")[-1]` */
  function SourceName(d: Document): string
  {
    match d.metadata.source
    case None => ""
    case Some(s) => Basename(s)
  }

  /** `doc.metadata.get("page", "")` is truthy: the key is present and the page is not 0. */
  predicate HasTruthyPage(d: Document)
  {
    d.metadata.page.Some? && d.metadata.page.value != 0
  }

  /** The guard `if source and page:` */
  predicate Citable(d: Document)
  {
    SourceName(d) != "" && HasTruthyPage(d)
  }

  /** One citation: its 1-based position among the sources considered, the basename and the page. */
  datatype Citation = Citation(position: nat, source: string, page: int)

  /** The citations contributed by the first `n` documents, in order (the shape of the append loop). */
  function CitationsUpTo(docs: seq<Document>, n: nat): seq<Citation>
    requires n <= |docs|
  {
    if n == 0 then []
    else if Citable(docs[n - 1]) then
      CitationsUpTo(docs, n - 1) + [Citation(n, SourceName(docs[n - 1]), docs[n - 1].metadata.page.value)]
    else CitationsUpTo(docs, n - 1)
  }

  /** How many documents the channels look at: `source_documents[:2]`. */
  function Considered(docs: seq<Document>): nat
  {
    if |docs| < 2 then |docs| else 2
  }

  /** The citations of a source list, as all three Python channels build them. */
  function Citations(docs: seq<Document>): seq<Citation>
  {
    CitationsUpTo(docs, Considered(docs))
  }

  /** Every citation names a citable document among the first `n`, by its 1-based position. */
  ghost predicate CitesOnlyCitable(docs: seq<Document>, n: nat, cs: seq<Citation>)
    requires n <= |docs|
  {
    forall k :: 0 <= k < |cs| ==>
      1 <= cs[k].position <= n && Citable(docs[cs[k].position - 1]) &&
      cs[k].source == SourceName(docs[cs[k].position - 1]) &&
      cs[k].page == docs[cs[k].position - 1].metadata.page.value
  }

  /** Citations keep the order of the documents (and so name each one at most once). */
  ghost predicate Increasing(cs: seq<Citation>)
  {
    forall k, l :: 0 <= k < l < |cs| ==> cs[k].position < cs[l].position
  }

  /** Every citable document among the first `n` is cited. */
  ghost predicate CitesAll(docs: seq<Document>, n: nat, cs: seq<Citation>)
    requires n <= |docs|
  {
    forall i :: 0 <= i < n && Citable(docs[i]) ==> exists k :: 0 <= k < |cs| && cs[k].position == i + 1
  }

  /** Everything a caller may rely on about the citations of the first `n` documents. */
  ghost predicate CitesExactly(docs: seq<Document>, n: nat, cs: seq<Citation>)
    requires n <= |docs|
  {
    |cs| <= n && CitesOnlyCitable(docs, n, cs) && Increasing(cs) && CitesAll(docs, n, cs)
  }

  lemma CitationsUpToMeaning(docs: seq<Document>, n: nat)
    requires n <= |docs|
    ensures CitesExactly(docs, n, CitationsUpTo(docs, n))
  {
    CitationsUpToLength(docs, n);
    CitationsUpToOnlyCitable(docs, n);
    CitationsUpToIncreasing(docs, n);
    CitationsUpToAll(docs, n);
  }

  lemma {:induction false} CitationsUpToLength(docs: seq<Document>, n: nat)
    requires n <= |docs|
    ensures |CitationsUpTo(docs, n)| <= n
  {
    if n > 0 {
      CitationsUpToLength(docs, n - 1);
    }
  }

  lemma {:induction false} CitationsUpToBelow(docs: seq<Document>, n: nat)
    requires n <= |docs|
    ensures forall k :: 0 <= k < |CitationsUpTo(docs, n)| ==> CitationsUpTo(docs, n)[k].position <= n
  {
    if n > 0 {
      CitationsUpToBelow(docs, n - 1);
      var prev := CitationsUpTo(docs, n - 1);
      if Citable(docs[n - 1]) {
        var c := Citation(n, SourceName(docs[n - 1]), docs[n - 1].metadata.page.value);
        assert CitationsUpTo(docs, n) == prev + [c];
        forall k | 0 <= k < |prev + [c]| ensures (prev + [c])[k].position <= n {
          if k < |prev| { assert (prev + [c])[k] == prev[k]; }
        }
      } else {
        assert CitationsUpTo(docs, n) == prev;
      }
    }
  }

  lemma {:induction false} CitationsUpToOnlyCitable(docs: seq<Document>, n: nat)
    requires n <= |docs|
    ensures CitesOnlyCitable(docs, n, CitationsUpTo(docs, n))
  {
    if n > 0 {
      CitationsUpToOnlyCitable(docs, n - 1);
      var prev := CitationsUpTo(docs, n - 1);
      if Citable(docs[n - 1]) {
        var c := Citation(n, SourceName(docs[n - 1]), docs[n - 1].metadata.page.value);
        assert CitationsUpTo(docs, n) == prev + [c];
        ExtendOnlyCitable(docs, n, prev, c);
      } else {
        assert CitationsUpTo(docs, n) == prev;
      }
    }
  }

  lemma {:induction false} CitationsUpToIncreasing(docs: seq<Document>, n: nat)
    requires n <= |docs|
    ensures Increasing(CitationsUpTo(docs, n))
  {
    if n > 0 {
      CitationsUpToIncreasing(docs, n - 1);
      var prev := CitationsUpTo(docs, n - 1);
      if Citable(docs[n - 1]) {
        var c := Citation(n, SourceName(docs[n - 1]), docs[n - 1].metadata.page.value);
        assert CitationsUpTo(docs, n) == prev + [c];
        CitationsUpToBelow(docs, n - 1);
        ExtendIncreasing(prev, c);
      } else {
        assert CitationsUpTo(docs, n) == prev;
      }
    }
  }

  lemma {:induction false} CitationsUpToAll(docs: seq<Document>, n: nat)
    requires n <= |docs|
    ensures CitesAll(docs, n, CitationsUpTo(docs, n))
  {
    if n > 0 {
      CitationsUpToAll(docs, n - 1);
      var prev := CitationsUpTo(docs, n - 1);
      if Citable(docs[n - 1]) {
        var c := Citation(n, SourceName(docs[n - 1]), docs[n - 1].metadata.page.value);
        assert CitationsUpTo(docs, n) == prev + [c];
        ExtendAll(docs, n, prev, c);
      } else {
        assert CitationsUpTo(docs, n) == prev;
        forall i | 0 <= i < n && Citable(docs[i])
          ensures exists k :: 0 <= k < |prev| && prev[k].position == i + 1
        {
          assert i < n - 1;
        }
      }
    }
  }

  lemma ExtendOnlyCitable(docs: seq<Document>, n: nat, prev: seq<Citation>, c: Citation)
    requires 0 < n <= |docs| && Citable(docs[n - 1])
    requires c == Citation(n, SourceName(docs[n - 1]), docs[n - 1].metadata.page.value)
    requires CitesOnlyCitable(docs, n - 1, prev)
    ensures CitesOnlyCitable(docs, n, prev + [c])
  {
    var cs := prev + [c];
    forall k | 0 <= k < |cs|
      ensures 1 <= cs[k].position <= n && Citable(docs[cs[k].position - 1]) &&
              cs[k].source == SourceName(docs[cs[k].position - 1]) &&
              cs[k].page == docs[cs[k].position - 1].metadata.page.value
    {
      if k < |prev| { assert cs[k] == prev[k]; }
    }
  }

  lemma ExtendIncreasing(prev: seq<Citation>, c: Citation)
    requires forall k :: 0 <= k < |prev| ==> prev[k].position < c.position
    requires Increasing(prev)
    ensures Increasing(prev + [c])
  {
    var cs := prev + [c];
    forall k, l | 0 <= k < l < |cs| ensures cs[k].position < cs[l].position {
      assert cs[k] == prev[k];
      if l < |prev| { assert cs[l] == prev[l]; }
    }
  }

  lemma ExtendAll(docs: seq<Document>, n: nat, prev: seq<Citation>, c: Citation)
    requires 0 < n <= |docs| && c.position == n
    requires CitesAll(docs, n - 1, prev)
    ensures CitesAll(docs, n, prev + [c])
  {
    var cs := prev + [c];
    forall i | 0 <= i < n && Citable(docs[i])
      ensures exists k :: 0 <= k < |cs| && cs[k].position == i + 1
    {
      if i < n - 1 {
        var k :| 0 <= k < |prev| && prev[k].position == i + 1;
        assert cs[k] == prev[k];
      } else {
        assert cs[|cs| - 1] == c;
      }
    }
  }

  /**
   * The citation rule: at most two citations; each names a document among the
   * first two that has a non-empty basename and a non-zero page, labelled by
   * its position; every such document is cited; order is kept.
   */
  lemma CitationsMeaning(docs: seq<Document>)
    ensures Considered(docs) <= 2 && Considered(docs) <= |docs|
    ensures CitesExactly(docs, Considered(docs), Citations(docs))
  {
    CitationsUpToMeaning(docs, Considered(docs));
  }

  /** A source on page 0 is never cited, whatever else it carries. */
  lemma PageZeroNeverCited(docs: seq<Document>, i: nat)
    requires i < |docs| && docs[i].metadata.page == Some(0)
    ensures forall k :: 0 <= k < |Citations(docs)| ==> Citations(docs)[k].position != i + 1
  {
    CitationsMeaning(docs);
  }

  /** The JSON `sources` list of the web servers (`{"source": …, "page": …}` per citation): source and page of each citation. */
  function SourcePairs(cs: seq<Citation>): (ps: seq<(string, int)>)
    ensures |ps| == |cs| && forall k :: 0 <= k < |cs| ==> ps[k] == (cs[k].source, cs[k].page)
  {
    seq(|cs|, k requires 0 <= k < |cs| => (cs[k].source, cs[k].page))
  }

  /**
   * The append loop the channels run over `source_documents[:2]`; it collects
   * exactly `Citations(docs)`.
   */
  method CollectCitations(docs: seq<Document>) returns (cs: seq<Citation>)
    ensures cs == Citations(docs)
  {
    cs := [];
    var n := Considered(docs);
    assert n <= |docs|;
    for i := 0 to n
      invariant cs == CitationsUpTo(docs, i)
    {
      var d := docs[i];
      var source := SourceName(d);
      if source != "" && HasTruthyPage(d) {
        cs := cs + [Citation(i + 1, source, d.metadata.page.value)];
      }
      assert cs == CitationsUpTo(docs, i + 1);
    }
  }
}
