/** The chat agent adapter: before each generation it searches the knowledge
    base, builds a prompt that numbers and truncates the excerpts found, and
    falls back to the bare question when nothing is found or the search
    fails; it then forwards the model's non-empty chunks and turns a
    generation failure into one in-band error fragment. The knowledge search
    and the model's chunk stream are foreign calls, so their outcomes are
    parameters here. The module-level singletons `_db` and `_agent_instance`
    are the fields of `AgentRegistry`. */
module ChatAgentModel {
  import opened Wrappers
  import opened Text

  /** Each excerpt is cut to this many characters. */
  const ExcerptLength := 500

  /** How many results the knowledge search is asked for. */
  const MaxResults := 3

  /** One search result: an object with a `content` attribute, or without one. */
  datatype Doc = WithContent(content: string) | WithoutContent

  /** What `knowledge.search(message, max_results=3)` did. */
  datatype SearchOutcome = Results(docs: seq<Doc>) | SearchRaised(message: string)

  /** One chunk of the model's stream; a chunk without a `content` attribute
      and one whose content is empty are both skipped. */
  datatype Chunk = Chunk(content: string) | NoContent

  /** What `agent.run(..., stream=True)` did: the chunks it produced, then the
      exception that ended it, if any. */
  datatype RunOutcome = RunOutcome(chunks: seq<Chunk>, raised: Option<string>)

  /** The arguments passed to the knowledge search: the raw message and the
      number of results wanted. */
  datatype SearchCall = SearchCall(query: string, maxResults: nat)

  /** The arguments passed to the model: the (possibly enhanced) message and the user id. */
  datatype ModelCall = ModelCall(message: string, userId: string)

  /** Python's `session_id or "default"`: a missing or empty session id means "default". */
  function SessionOrDefault(sessionId: Option<string>): (r: string)
    ensures r != ""
    ensures sessionId.Some? && sessionId.value != "" ==> r == sessionId.value
    ensures sessionId.None? || sessionId.value == "" ==> r == "default"
  {
    if sessionId.None? || sessionId.value == "" then "default" else sessionId.value
  }

  // ---------------------------------------------------------------------------
  // Context building

  function DocumentHeader(number: nat): string {
    "[Document " + NatToDecimal(number) + "]\n"
  }

  /** `f"[Document {i}]\n{doc.content[:500]}"`. */
  function ContextPart(number: nat, content: string): string {
    DocumentHeader(number) + Take(content, ExcerptLength)
  }

  /** The context parts for `docs`: one per result that has content, numbered
      by the result's 1-based position in the whole list. */
  function ContextParts(docs: seq<Doc>): seq<string> {
    if docs == [] then []
    else
      var n := |docs|;
      match docs[n - 1]
      case WithContent(c) => ContextParts(docs[..n - 1]) + [ContextPart(n, c)]
      case WithoutContent => ContextParts(docs[..n - 1])
  }

  /** How many of `docs` have content. */
  function CountWithContent(docs: seq<Doc>): (r: nat)
    ensures r <= |docs|
  {
    if docs == [] then 0
    else CountWithContent(docs[..|docs| - 1]) + (if docs[|docs| - 1].WithContent? then 1 else 0)
  }

  /** There is one part per result with content; the part for result `j` is
      the one after the parts of the results before it, and it carries the
      number `j + 1` even when earlier results were skipped. */
  lemma {:induction false} ContextPartsNumbering(docs: seq<Doc>)
    ensures |ContextParts(docs)| == CountWithContent(docs)
    ensures forall j :: 0 <= j < |docs| && docs[j].WithContent? ==>
      CountWithContent(docs[..j]) < |ContextParts(docs)|
      && ContextParts(docs)[CountWithContent(docs[..j])] == ContextPart(j + 1, docs[j].content)
  {
    if docs != [] {
      var n := |docs|;
      var init := docs[..n - 1];
      ContextPartsNumbering(init);
      forall j | 0 <= j < n && docs[j].WithContent?
        ensures CountWithContent(docs[..j]) < |ContextParts(docs)|
        ensures ContextParts(docs)[CountWithContent(docs[..j])] == ContextPart(j + 1, docs[j].content)
      {
        if j < n - 1 {
          assert docs[..j] == init[..j];
          assert init[j] == docs[j];
        } else {
          assert docs[..j] == init;
        }
      }
    }
  }

  /** When every result has content, part `k` is result `k`'s excerpt under
      the header `[Document k+1]`. */
  lemma ContextPartsAllContent(docs: seq<Doc>)
    requires forall j :: 0 <= j < |docs| ==> docs[j].WithContent?
    ensures |ContextParts(docs)| == |docs|
    ensures forall k :: 0 <= k < |docs| ==> ContextParts(docs)[k] == ContextPart(k + 1, docs[k].content)
  {
    ContextPartsNumbering(docs);
    forall j | 0 <= j <= |docs| ensures CountWithContent(docs[..j]) == j {
      CountAllContent(docs, j);
    }
  }

  /** The excerpt in a part is the first min(len, 500) characters of the content. */
  lemma ExcerptIsPrefix(number: nat, content: string)
    ensures var part := ContextPart(number, content);
      var excerpt := part[|DocumentHeader(number)|..];
      StartsWith(part, DocumentHeader(number))
      && |excerpt| == (if |content| <= ExcerptLength then |content| else ExcerptLength)
      && excerpt == content[..|excerpt|]
  {
    var part := ContextPart(number, content);
    assert part[|DocumentHeader(number)|..] == Take(content, ExcerptLength);
  }

  lemma {:induction false} CountAllContent(docs: seq<Doc>, j: nat)
    requires j <= |docs|
    requires forall i :: 0 <= i < |docs| ==> docs[i].WithContent?
    ensures CountWithContent(docs[..j]) == j
  {
    if j > 0 {
      assert docs[..j][..j - 1] == docs[..j - 1];
      CountAllContent(docs, j - 1);
    }
  }

  /** The enumerate loop that collects the context parts. */
  method BuildContext(docs: seq<Doc>) returns (parts: seq<string>)
    ensures parts == ContextParts(docs)
  {
    parts := [];
    for i := 0 to |docs|
      invariant parts == ContextParts(docs[..i])
    {
      assert docs[..i + 1][..i] == docs[..i];
      match docs[i] {
        case WithContent(c) =>
          parts := parts + [ContextPart(i + 1, c)];
        case WithoutContent =>
      }
    }
    assert docs[..|docs|] == docs;
  }

  // ---------------------------------------------------------------------------
  // The prompt

  /** The indentation that the prompt's triple-quoted template carries. */
  const Indent := "                        "

  const PromptHead := "Based on the following information from uploaded documents:\n" + Indent
  const PromptMiddle := "\n\n" + Indent + "User question: "
  const PromptTail := "\n\n" + Indent + "Please answer the question using the information above."

  function EnhancedMessage(context: string, message: string): string {
    PromptHead + context + PromptMiddle + message + PromptTail
  }

  /** The message sent to the model for `message` given the search outcome. */
  function AugmentedMessage(message: string, search: SearchOutcome): string {
    match search
    case SearchRaised(_) => message
    case Results(docs) =>
      if docs == [] then message else EnhancedMessage(Join(ContextParts(docs), "\n\n"), message)
  }

  /** No results, or a failed search, leave the message unchanged. */
  lemma AugmentFallback(message: string, search: SearchOutcome)
    requires search.SearchRaised? || search.docs == []
    ensures AugmentedMessage(message, search) == message
  {
  }

  /** With results, the prompt contains the joined context and the question,
      and the question can be read back from its fixed place in the template. */
  lemma EnhancedMessageContains(message: string, docs: seq<Doc>)
    requires docs != []
    ensures var context := Join(ContextParts(docs), "\n\n");
      var prompt := AugmentedMessage(message, Results(docs));
      IsInfix(context, prompt) && IsInfix(message, prompt)
      && prompt[|PromptHead| + |context| + |PromptMiddle|..|prompt| - |PromptTail|] == message
  {
    var context := Join(ContextParts(docs), "\n\n");
    var prompt := AugmentedMessage(message, Results(docs));
    var i := |PromptHead|;
    assert prompt[i..][..|context|] == context;
    var k := |PromptHead| + |context| + |PromptMiddle|;
    assert prompt[k..][..|message|] == message;
  }

  // ---------------------------------------------------------------------------
  // Forwarding the model's chunks

  /** The contents of the chunks that have non-empty content, in order. */
  function NonEmptyContents(chunks: seq<Chunk>): seq<string> {
    if chunks == [] then []
    else
      var last := chunks[|chunks| - 1];
      if last.Chunk? && last.content != "" then NonEmptyContents(chunks[..|chunks| - 1]) + [last.content]
      else NonEmptyContents(chunks[..|chunks| - 1])
  }

  /** The text of every chunk, empty for one without content. */
  function ChunkText(c: Chunk): string {
    if c.Chunk? then c.content else ""
  }

  function AllText(chunks: seq<Chunk>): string {
    if chunks == [] then "" else AllText(chunks[..|chunks| - 1]) + ChunkText(chunks[|chunks| - 1])
  }

  /** Dropping the empty chunks loses no text, and what is forwarded is never empty. */
  lemma {:induction false} FilterKeepsText(chunks: seq<Chunk>)
    ensures Concat(NonEmptyContents(chunks)) == AllText(chunks)
    ensures forall k :: 0 <= k < |NonEmptyContents(chunks)| ==> NonEmptyContents(chunks)[k] != ""
  {
    if chunks != [] {
      var init := chunks[..|chunks| - 1];
      FilterKeepsText(init);
      var rest := NonEmptyContents(init);
      var last := chunks[|chunks| - 1];
      if last.Chunk? && last.content != "" {
        assert (rest + [last.content])[..|rest|] == rest;
      }
    }
  }

  /** The fragment that ends the stream when generation fails. */
  function ErrorFragment(message: string): string {
    "\n[Error: " + message + "]"
  }

  /** Everything `stream_response` yields for a given run of the model. */
  function Fragments(run: RunOutcome): seq<string> {
    NonEmptyContents(run.chunks) + (if run.raised.Some? then [ErrorFragment(run.raised.value)] else [])
  }

  /** A failed generation adds exactly one fragment, the error fragment, at
      the end; the fragments before it are the ones of a run that did not fail. */
  lemma FragmentsOnFailure(run: RunOutcome)
    ensures run.raised.None? ==> Fragments(run) == NonEmptyContents(run.chunks)
    ensures run.raised.Some? ==>
      |Fragments(run)| == |NonEmptyContents(run.chunks)| + 1
      && Fragments(run)[..|Fragments(run)| - 1] == NonEmptyContents(run.chunks)
      && Fragments(run)[|Fragments(run)| - 1] == ErrorFragment(run.raised.value)
  {
  }

  // ---------------------------------------------------------------------------
  // The objects

  /** The session database handle (`SqliteDb(db_file="data/agno.db")`). */
  class SqliteDb {
    constructor ()
    {
    }
  }

  /** A constructed chat agent, holding the database handle it was built with. */
  class ChatAgent {
    const db: SqliteDb

    constructor (db: SqliteDb)
      ensures this.db == db
    {
      this.db := db;
    }

    /** `stream_response`: search for the raw message, build the prompt,
        call the model and forward its chunks. It never raises: every
        failure is either the search fallback or the final error fragment. */
    method StreamResponse(message: string, sessionId: Option<string>, search: SearchOutcome, run: RunOutcome)
      returns (searched: SearchCall, call: ModelCall, fragments: seq<string>)
      ensures searched == SearchCall(message, MaxResults)
      ensures call == ModelCall(AugmentedMessage(message, search), SessionOrDefault(sessionId))
      ensures fragments == Fragments(run)
    {
      searched := SearchCall(message, MaxResults);
      var enhanced: string;
      match search {
        case SearchRaised(_) =>
          enhanced := message;
        case Results(docs) =>
          if |docs| > 0 {
            var parts := BuildContext(docs);
            enhanced := EnhancedMessage(Join(parts, "\n\n"), message);
          } else {
            enhanced := message;
          }
      }
      call := ModelCall(enhanced, SessionOrDefault(sessionId));

      fragments := [];
      var chunks := run.chunks;
      for i := 0 to |chunks|
        invariant fragments == NonEmptyContents(chunks[..i])
      {
        assert chunks[..i + 1][..i] == chunks[..i];
        if chunks[i].Chunk? && chunks[i].content != "" {
          fragments := fragments + [chunks[i].content];
        }
      }
      assert chunks[..|chunks|] == chunks;
      if run.raised.Some? {
        fragments := fragments + [ErrorFragment(run.raised.value)];
      }
    }
  }

  /** The module globals `_db` and `_agent_instance`, each built on first use. */
  class AgentRegistry {
    var db: SqliteDb?
    var agentInstance: ChatAgent?

    /** Once the agent exists, the database handle exists and is the one the
        agent was built with. */
    ghost predicate Valid()
      reads this
    {
      agentInstance != null ==> db != null && agentInstance.db == db
    }

    constructor ()
      ensures Valid()
      ensures db == null && agentInstance == null
    {
      db := null;
      agentInstance := null;
    }

    /** `get_db`: the one database handle, created on the first call. */
    method GetDb() returns (d: SqliteDb)
      requires Valid()
      modifies this`db
      ensures Valid()
      ensures old(db) != null ==> d == old(db)
      ensures old(db) == null ==> fresh(d)
      ensures db == d
    {
      if db == null {
        db := new SqliteDb();
      }
      d := db;
    }

    /** `get_agent`: the one agent, created on the first call with the one
        database handle. */
    method GetAgent() returns (a: ChatAgent)
      requires Valid()
      modifies this
      ensures Valid()
      ensures old(agentInstance) != null ==> a == old(agentInstance) && db == old(db)
      ensures old(agentInstance) == null ==>
        fresh(a) && db != null && a.db == db && (old(db) != null ==> db == old(db))
      ensures agentInstance == a
    {
      if agentInstance == null {
        var d := GetDb();
        agentInstance := new ChatAgent(d);
      }
      a := agentInstance;
    }
  }

  /** Two calls of each accessor return the identical objects, and the agent
      holds the same database handle that `get_db` returns. */
  method AccessorsAreStable(registry: AgentRegistry) returns (a1: ChatAgent, a2: ChatAgent, d1: SqliteDb, d2: SqliteDb)
    requires registry.Valid()
    modifies registry
    ensures registry.Valid()
    ensures a1 == a2 && d1 == d2 && a1.db == d1
  {
    a1 := registry.GetAgent();
    a2 := registry.GetAgent();
    d1 := registry.GetDb();
    d2 := registry.GetDb();
  }
}
