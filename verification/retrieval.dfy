/**
 * The retriever tool of the court-decision agent: the vector store returns
 * chunk hits, several of which may belong to one court decision; the tool keeps
 * the first hit of every decision, rebuilds it as a page holding the decision's
 * full summary, formats the pages with the document prompt and joins them.
 */
module Retrieval {
  import opened Wrappers
  import opened PyStr

  /**
   * One vector-store hit: a chunk of a case summary with the metadata the
   * indexer writes on every chunk (`decision_number`, `full_summary`).
   */
  datatype Hit = Hit(chunk: string, decisionNumber: string, fullSummary: string)

  /** A rebuilt document: its page content and its `decision_doc_id` metadata. */
  datatype Document = Document(pageContent: string, decisionDocId: string)

  /** One piece of a document prompt template: literal text or a `{variable}`. */
  datatype Segment = Text(text: string) | PageContentVar | DecisionDocIdVar

  /**
   * A document prompt: a template whose variables are the document's
   * `page_content` and its one metadata key `decision_doc_id`.
   */
  type DocumentPrompt = seq<Segment>

  /** The prompt used when the tool is built without one: `"{page_content}"`. */
  const DefaultPrompt: DocumentPrompt := [PageContentVar]

  /** The separator used when the tool is built without one. */
  const DefaultSeparator: string := "\n\n"

  const PageHeader: string := "Nomor Dokumen Putusan: "

  /** The page the tool builds for a surviving hit. */
  function PageOf(h: Hit): (d: Document)
    ensures d.decisionDocId == h.decisionNumber
    ensures StartsWith(d.pageContent, PageHeader + h.decisionNumber + "\n\n")
    ensures d.pageContent[|PageHeader + h.decisionNumber + "\n\n"|..] == h.fullSummary
  {
    Document(PageHeader + h.decisionNumber + "\n\n" + h.fullSummary, h.decisionNumber)
  }

  function Pages(hits: seq<Hit>): seq<Document>
  {
    seq(|hits|, i requires 0 <= i < |hits| => PageOf(hits[i]))
  }

  function Numbers(hits: seq<Hit>): seq<string>
  {
    seq(|hits|, i requires 0 <= i < |hits| => hits[i].decisionNumber)
  }

  /** `format_document(doc, prompt)`: fill the template's variables from the document. */
  function FormatDocument(prompt: DocumentPrompt, doc: Document): string
  {
    if |prompt| == 0 then ""
    else
      var piece := match prompt[0]
        case Text(t) => t
        case PageContentVar => doc.pageContent
        case DecisionDocIdVar => doc.decisionDocId;
      piece + FormatDocument(prompt[1..], doc)
  }

  function FormatAll(prompt: DocumentPrompt, docs: seq<Document>): seq<string>
  {
    seq(|docs|, i requires 0 <= i < |docs| => FormatDocument(prompt, docs[i]))
  }

  /**
   * Specification of the de-duplication: the hits whose decision number does
   * not occur earlier in the list, in their original order.
   */
  function FirstHits(hits: seq<Hit>): (r: seq<Hit>)
    ensures |r| <= |hits|
    ensures forall k :: 0 <= k < |r| ==> r[k] in hits
  {
    if |hits| == 0 then []
    else
      var init := hits[..|hits| - 1];
      var last := hits[|hits| - 1];
      FirstHits(init) + (if last.decisionNumber in Numbers(init) then [] else [last])
  }

  /** The position of the first hit carrying decision number `n`. */
  function FirstIndex(hits: seq<Hit>, n: string): (i: nat)
    requires n in Numbers(hits)
    ensures i < |hits| && hits[i].decisionNumber == n
    ensures forall j :: 0 <= j < i ==> hits[j].decisionNumber != n
  {
    var init := hits[..|hits| - 1];
    if n in Numbers(init) then FirstIndex(init, n)
    else
      assert Numbers(hits) == Numbers(init) + [hits[|hits| - 1].decisionNumber];
      assert forall j :: 0 <= j < |init| ==> Numbers(init)[j] == hits[j].decisionNumber;
      |hits| - 1
  }

  /** What the tool returns for a list of hits. */
  function RelevantText(hits: seq<Hit>, prompt: DocumentPrompt, separator: string): string
  {
    Join(separator, FormatAll(prompt, Pages(FirstHits(hits))))
  }

  /**
   * Every decision number of the input appears exactly once among the
   * surviving hits, and no other number appears there.
   */
  lemma {:induction false} FirstHitsExactlyOnce(hits: seq<Hit>, n: string)
    ensures multiset(Numbers(FirstHits(hits)))[n] == if n in Numbers(hits) then 1 else 0
  {
    if |hits| > 0 {
      var init := hits[..|hits| - 1];
      var last := hits[|hits| - 1];
      FirstHitsExactlyOnce(init, n);
      assert Numbers(hits) == Numbers(init) + [last.decisionNumber];
      if last.decisionNumber !in Numbers(init) {
        assert Numbers(FirstHits(hits)) == Numbers(FirstHits(init)) + [last.decisionNumber];
      } else {
        assert Numbers(FirstHits(hits)) == Numbers(FirstHits(init));
      }
    }
  }

  /** The surviving hits carry exactly the decision numbers of the input. */
  lemma FirstHitsSameNumbers(hits: seq<Hit>)
    ensures forall n :: n in Numbers(FirstHits(hits)) <==> n in Numbers(hits)
  {
    forall n ensures n in Numbers(FirstHits(hits)) <==> n in Numbers(hits) {
      FirstHitsExactlyOnce(hits, n);
    }
  }

  /**
   * Every surviving hit is the first hit of its decision number, and the
   * survivors keep the order of those first occurrences.
   */
  lemma {:induction false} FirstHitsAreFirstOccurrences(hits: seq<Hit>)
    ensures forall k :: 0 <= k < |FirstHits(hits)| ==>
      FirstHits(hits)[k].decisionNumber in Numbers(hits) &&
      FirstHits(hits)[k] == hits[FirstIndex(hits, FirstHits(hits)[k].decisionNumber)]
    ensures forall k, l :: 0 <= k < l < |FirstHits(hits)| ==>
      FirstIndex(hits, FirstHits(hits)[k].decisionNumber) < FirstIndex(hits, FirstHits(hits)[l].decisionNumber)
  {
    if |hits| > 0 {
      var init := hits[..|hits| - 1];
      var last := hits[|hits| - 1];
      FirstHitsAreFirstOccurrences(init);
      assert Numbers(hits) == Numbers(init) + [last.decisionNumber];
      var out, prev := FirstHits(hits), FirstHits(init);
      forall k | 0 <= k < |prev|
        ensures out[k] == prev[k]
        ensures prev[k].decisionNumber in Numbers(hits)
        ensures FirstIndex(hits, prev[k].decisionNumber) == FirstIndex(init, prev[k].decisionNumber)
        ensures FirstIndex(hits, prev[k].decisionNumber) < |init|
      {
      }
      if last.decisionNumber !in Numbers(init) {
        assert out == prev + [last];
        assert FirstIndex(hits, last.decisionNumber) == |hits| - 1;
      } else {
        assert out == prev;
      }
    }
  }

  /** No two surviving hits share a decision number. */
  lemma FirstHitsDistinct(hits: seq<Hit>)
    ensures forall k, l :: 0 <= k < l < |FirstHits(hits)| ==>
      FirstHits(hits)[k].decisionNumber != FirstHits(hits)[l].decisionNumber
  {
    FirstHitsAreFirstOccurrences(hits);
  }

  /**
   * The de-duplication loop: keep the first hit of every decision number and
   * rebuild it as a page.
   */
  method UniqueDocuments(hits: seq<Hit>) returns (uniqueDocs: seq<Document>)
    ensures uniqueDocs == Pages(FirstHits(hits))
  {
    var uniqueDocsNumber: seq<string> := [];
    uniqueDocs := [];
    for i := 0 to |hits|
      invariant uniqueDocsNumber == Numbers(FirstHits(hits[..i]))
      invariant uniqueDocs == Pages(FirstHits(hits[..i]))
    {
      assert hits[..i + 1][..i] == hits[..i];
      FirstHitsSameNumbers(hits[..i]);
      var doc := hits[i];
      if doc.decisionNumber in uniqueDocsNumber {
        continue;
      }
      uniqueDocs := uniqueDocs + [PageOf(doc)];
      uniqueDocsNumber := uniqueDocsNumber + [doc.decisionNumber];
    }
    assert hits[..|hits|] == hits;
  }

  /** The synchronous tool function, given the retriever's hits for the query. */
  method GetRelevantDocuments(hits: seq<Hit>, documentPrompt: DocumentPrompt, documentSeparator: string)
    returns (text: string)
    ensures text == RelevantText(hits, documentPrompt, documentSeparator)
  {
    var uniqueDocs := UniqueDocuments(hits);
    text := Join(documentSeparator, FormatAll(documentPrompt, uniqueDocs));
  }

  /** The asynchronous tool function: the same loop, awaiting each format. */
  method AGetRelevantDocuments(hits: seq<Hit>, documentPrompt: DocumentPrompt, documentSeparator: string)
    returns (text: string)
    ensures text == RelevantText(hits, documentPrompt, documentSeparator)
  {
    var uniqueDocs := UniqueDocuments(hits);
    var formatted := FormatAll(documentPrompt, uniqueDocs);
    text := Join(documentSeparator, formatted);
  }

  /** The first hit always survives and comes first. */
  lemma FirstHitSurvives(hits: seq<Hit>)
    requires |hits| > 0
    ensures |FirstHits(hits)| > 0 && FirstHits(hits)[0] == hits[0]
  {
    FirstHitsSameNumbers(hits);
    FirstHitsAreFirstOccurrences(hits);
    var out := FirstHits(hits);
    var n := hits[0].decisionNumber;
    assert Numbers(hits)[0] == n;
    assert n in Numbers(out);
    var k :| 0 <= k < |out| && Numbers(out)[k] == n;
    assert FirstIndex(hits, n) == 0;
  }

  /** The default prompt `{page_content}` formats a document as its page content. */
  lemma DefaultPromptIsPageContent(docs: seq<Document>)
    ensures FormatAll(DefaultPrompt, docs) == seq(|docs|, i requires 0 <= i < |docs| => docs[i].pageContent)
  {
    forall i | 0 <= i < |docs|
      ensures FormatDocument(DefaultPrompt, docs[i]) == docs[i].pageContent
    {
      assert DefaultPrompt[1..] == [];
    }
  }

  /**
   * With the default prompt, the tool returns the empty string exactly when
   * the retriever found nothing, and otherwise starts with the page of the
   * first hit.
   */
  lemma {:induction false} DefaultTextShape(hits: seq<Hit>, separator: string)
    ensures RelevantText(hits, DefaultPrompt, separator) == "" <==> |hits| == 0
    ensures |hits| > 0 ==> StartsWith(RelevantText(hits, DefaultPrompt, separator), PageOf(hits[0]).pageContent)
  {
    if |hits| > 0 {
      FirstHitSurvives(hits);
      var docs := Pages(FirstHits(hits));
      DefaultPromptIsPageContent(docs);
      JoinStartsWithFirst(separator, FormatAll(DefaultPrompt, docs));
      assert |PageOf(hits[0]).pageContent| > 0;
    }
  }

  /** A retriever tool: its name, its description and how it formats what it finds. */
  datatype RetrieverTool = RetrieverTool(name: string, description: string, prompt: DocumentPrompt, separator: string)

  /**
   * `create_retriever_tool`: a missing document prompt becomes
   * `"{page_content}"`; the separator defaults to a blank line.
   */
  function CreateRetrieverTool(name: string, description: string, documentPrompt: Option<DocumentPrompt>,
                               documentSeparator: string := DefaultSeparator): (tool: RetrieverTool)
    ensures tool.name == name && tool.description == description
    ensures tool.separator == documentSeparator
    ensures documentPrompt.Some? ==> tool.prompt == documentPrompt.value
    ensures documentPrompt.None? ==> tool.prompt == DefaultPrompt
  {
    RetrieverTool(name, description, documentPrompt.GetOr(DefaultPrompt), documentSeparator)
  }

  /** What the tool answers when the retriever returns `hits`. */
  function Invoke(tool: RetrieverTool, hits: seq<Hit>): string
  {
    RelevantText(hits, tool.prompt, tool.separator)
  }

  /** The agent's tool over the case-summary collection. */
  const CourtDecisionTool: RetrieverTool :=
    CreateRetrieverTool("retrieve_court_decision_document_summary",
                        "Search and return information about court decision document in Bahasa Indonesia",
                        None)

  /**
   * The agent's tool formats each page as itself and separates pages by a
   * blank line.
   */
  lemma CourtDecisionToolDefaults(hits: seq<Hit>)
    ensures CourtDecisionTool.name == "retrieve_court_decision_document_summary"
    ensures CourtDecisionTool.prompt == DefaultPrompt && CourtDecisionTool.separator == "\n\n"
    ensures Invoke(CourtDecisionTool, hits) ==
      Join("\n\n", seq(|FirstHits(hits)|, i requires 0 <= i < |FirstHits(hits)| => PageOf(FirstHits(hits)[i]).pageContent))
  {
    DefaultToolReturnsPages("retrieve_court_decision_document_summary",
                            "Search and return information about court decision document in Bahasa Indonesia", hits);
  }

  /**
   * A tool built with the defaults returns the rebuilt pages verbatim,
   * separated by blank lines.
   */
  lemma DefaultToolReturnsPages(name: string, description: string, hits: seq<Hit>)
    ensures Invoke(CreateRetrieverTool(name, description, None), hits) ==
      Join("\n\n", seq(|FirstHits(hits)|, i requires 0 <= i < |FirstHits(hits)| => PageOf(FirstHits(hits)[i]).pageContent))
  {
    var docs := Pages(FirstHits(hits));
    DefaultPromptIsPageContent(docs);
    assert seq(|docs|, i requires 0 <= i < |docs| => docs[i].pageContent) ==
      seq(|FirstHits(hits)|, i requires 0 <= i < |FirstHits(hits)| => PageOf(FirstHits(hits)[i]).pageContent);
  }
}
