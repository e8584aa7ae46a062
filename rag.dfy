/**
 * The question-answering setup: the cleaned document table built from the
 * scraped corpus, and the object that builds the table, the vector store and
 * the question-answering chain on first use and keeps them for later
 * questions. The vector store, the language model and the chain are
 * external services; the functions that build and invoke them are parameters.
 */
module SetupRag {
  import opened Wrappers
  import opened Cleaning

  /** One row of the document table: `title`, `page_content` and `urls`. */
  datatype Document = Document(title: string, pageContent: string, urls: string)

  /** What goes wrong while answering a question. */
  datatype RagError =
    | ColumnLengthMismatch  // building the data frame from columns of different lengths
    | NoDocumentTable       // loading documents from a table that was never built
    | NoVectorStore         // making a retriever from a store that was never built

  /** The name of the Pinecone index the store lives in, passed to the store builder. */
  const IndexName: string := "stackragapp"

  /** The chat model the chain answers with, and its settings. */
  datatype LlmConfig = LlmConfig(model: string, temperature: int)

  const Llm: LlmConfig := LlmConfig("meta-llama/Meta-Llama-3-70B-Instruct-Turbo", 0)

  /** The cleaned row for one article: its title and body cleaned, its link as it is. */
  function CleanRow(title: string, link: string, body: string): (d: Document)
    ensures d.urls == link
    ensures IsClean(d.title)
    ensures d.pageContent == Sentinel || IsClean(d.pageContent)
    ensures d.pageContent == Sentinel <==> CleanText(body) == ""
  {
    Document(CleanText(title), CleanBody(body), link)
  }

  /**
   * `wrangle_data` on the three scraped columns: one cleaned row per article,
   * in order, or the error pandas raises when the columns differ in length.
   */
  function CleanCorpus(titles: seq<string>, links: seq<string>, bodies: seq<string>): (r: Result<seq<Document>, RagError>)
    ensures r.Err? <==> !(|titles| == |links| == |bodies|)
    ensures r.Err? ==> r.error == ColumnLengthMismatch
    ensures r.Ok? ==> |r.value| == |links|
    ensures r.Ok? ==> forall i :: 0 <= i < |links| ==> r.value[i].urls == links[i]
  {
    if |titles| == |links| == |bodies| then
      Ok(seq(|links|, i requires 0 <= i < |links| => CleanRow(titles[i], links[i], bodies[i])))
    else Err(ColumnLengthMismatch)
  }

  /** Row `i` holds article `i`'s cleaned title and body: every row is clean, or its body is the sentinel. */
  lemma CleanCorpusRow(titles: seq<string>, links: seq<string>, bodies: seq<string>, i: nat)
    requires |titles| == |links| == |bodies| && i < |links|
    ensures CleanCorpus(titles, links, bodies).Ok?
    ensures var d := CleanCorpus(titles, links, bodies).value[i];
      && d.title == CleanText(titles[i])
      && IsClean(d.title)
      && (d.pageContent == Sentinel <==> CleanText(bodies[i]) == "")
      && (d.pageContent != Sentinel ==> d.pageContent == CleanText(bodies[i]) && IsClean(d.pageContent))
  {
    var d := CleanCorpus(titles, links, bodies).value[i];
    assert d == CleanRow(titles[i], links[i], bodies[i]);
  }

  /** Cleaning the table's titles again changes nothing: each title column entry is already clean. */
  lemma CleanTitlesStable(titles: seq<string>, links: seq<string>, bodies: seq<string>, i: nat)
    requires |titles| == |links| == |bodies| && i < |links|
    ensures var d := CleanCorpus(titles, links, bodies).value[i];
      CleanText(d.title) == d.title
  {
    CleanCorpusRow(titles, links, bodies, i);
    CleanTextIdempotent(titles[i]);
  }

  /**
   * The question-answering object. The three scraped columns stand for the
   * JSON file it reads; the table, the store, the model settings and the
   * chain start out unset and are filled in by the set-up steps.
   */
  class RagSetup<S, Q> {
    const titles: seq<string>
    const links: seq<string>
    const bodies: seq<string>
    var docDf: Option<seq<Document>>
    var docsearch: Option<S>
    var llm: Option<LlmConfig>
    var qaWithSources: Option<Q>

    /** Each set-up step needs the one before it: a store needs a table, a chain needs a store. */
    predicate Valid()
      reads this
    {
      && (docsearch.Some? ==> docDf.Some?)
      && (qaWithSources.Some? ==> docsearch.Some? && llm == Some(Llm))
    }

    constructor (titles: seq<string>, links: seq<string>, bodies: seq<string>)
      ensures this.titles == titles && this.links == links && this.bodies == bodies
      ensures docDf.None? && docsearch.None? && llm.None? && qaWithSources.None?
      ensures Valid()
    {
      this.titles, this.links, this.bodies := titles, links, bodies;
      docDf, docsearch, llm, qaWithSources := None, None, None, None;
    }

    /** `wrangle_data`: build the cleaned table and keep it; a failed build keeps nothing. */
    method WrangleData() returns (r: Result<seq<Document>, RagError>)
      modifies this
      ensures old(Valid()) ==> Valid()
      ensures r == CleanCorpus(titles, links, bodies)
      ensures docDf == (if r.Ok? then Some(r.value) else old(docDf))
      ensures docsearch == old(docsearch) && llm == old(llm) && qaWithSources == old(qaWithSources)
    {
      r := CleanCorpus(titles, links, bodies);
      if r.Ok? {
        docDf := Some(r.value);
      }
    }

    /**
     * `set_up_store`: the store the builder makes in the named index from the
     * table's documents, or an error when there is no table.
     */
    method SetUpStore(buildStore: (string, seq<Document>) -> S) returns (r: Result<S, RagError>)
      modifies this
      ensures old(Valid()) ==> Valid()
      ensures old(docDf).None? ==> r == Err(NoDocumentTable) && docsearch == old(docsearch)
      ensures old(docDf).Some? ==> r == Ok(buildStore(IndexName, old(docDf).value)) && docsearch == Some(r.value)
      ensures docDf == old(docDf) && llm == old(llm) && qaWithSources == old(qaWithSources)
    {
      if docDf.None? {
        return Err(NoDocumentTable);
      }
      var store := buildStore(IndexName, docDf.value);
      docsearch := Some(store);
      r := Ok(store);
    }

    /**
     * `setup_qa_chain`: the model settings are stored first, then the chain
     * over the store's retriever, which fails when there is no store.
     */
    method SetupQaChain(buildChain: (LlmConfig, S) -> Q) returns (r: Result<(), RagError>)
      modifies this
      ensures old(Valid()) ==> Valid()
      ensures llm == Some(Llm)
      ensures old(docsearch).None? ==> r == Err(NoVectorStore) && qaWithSources == old(qaWithSources)
      ensures old(docsearch).Some? ==> r == Ok(()) && qaWithSources == Some(buildChain(Llm, old(docsearch).value))
      ensures docDf == old(docDf) && docsearch == old(docsearch)
    {
      llm := Some(Llm);
      if docsearch.None? {
        return Err(NoVectorStore);
      }
      qaWithSources := Some(buildChain(Llm, docsearch.value));
      r := Ok(());
    }

    /**
     * `rag`: build whatever is still missing, in order, then ask the chain.
     * What was built before is reused; only the table can fail to build.
     */
    method Rag<A>(question: string, buildStore: (string, seq<Document>) -> S, buildChain: (LlmConfig, S) -> Q,
                  invoke: (Q, string) -> A) returns (r: Result<A, RagError>)
      requires Valid()
      modifies this
      ensures Valid()
      ensures r.Err? <==> old(docDf).None? && CleanCorpus(titles, links, bodies).Err?
      ensures r.Err? ==> r.error == ColumnLengthMismatch
      ensures r.Err? ==> docDf == old(docDf) && docsearch == old(docsearch)
      ensures r.Err? ==> llm == old(llm) && qaWithSources == old(qaWithSources)
      ensures r.Ok? ==> docDf == (if old(docDf).Some? then old(docDf) else Some(CleanCorpus(titles, links, bodies).value))
      ensures r.Ok? ==> docsearch == (if old(docsearch).Some? then old(docsearch) else Some(buildStore(IndexName, docDf.value)))
      ensures r.Ok? ==> qaWithSources == (if old(qaWithSources).Some? then old(qaWithSources) else Some(buildChain(Llm, docsearch.value)))
      ensures r.Ok? ==> r == Ok(invoke(qaWithSources.value, question))
    {
      if docDf.None? {
        var table := WrangleData();
        if table.Err? {
          return Err(table.error);
        }
      }
      if docsearch.None? {
        var store := SetUpStore(buildStore);
      }
      if qaWithSources.None? {
        var chain := SetupQaChain(buildChain);
      }
      r := Ok(invoke(qaWithSources.value, question));
    }
  }
}
