/**
 * The knowledge-base endpoints (main.py and their router copies in
 * app/routes_kb.py): ingestion of a file or a link into chunk records, the
 * query path that picks a diverse set of retrieved chunks and cites them, and
 * the flashcard endpoint's fallbacks.
 *
 * The vector store, the embedding model and the language model are outside
 * the model, each an oracle whose failure is an `Err` the handler lets
 * through (the client then gets HTTP 500): the embedding of one text, a store
 * query from (query vector, number of results, user id) to the three parallel
 * lists it returns, a store insertion of a batch of chunks, a store lookup of
 * a document's chunks, and the language model from a prompt to its reply. A
 * new document's id and the clock are parameters.
 */
module KnowledgeBase {
  import opened Common
  import opened Strings
  import opened Models
  import opened Utils

  // ---------------------------------------------------------------------------
  // Retrieval candidates and their redundancy keys

  /** One row of a store query: the chunk text, its metadata and its id. */
  datatype Candidate = Candidate(doc: Option<string>, meta: Option<ChunkMeta>, id: string)

  /** An embedding vector. */
  type Vector = seq<real>

  /** The first row of each of the store's `documents`, `metadatas` and `ids` lists. */
  datatype QueryResult = QueryResult(docs: seq<Option<string>>, metas: seq<Option<ChunkMeta>>, ids: seq<string>)

  /** `zip(docs, metas, ids)`: as long as the shortest list. */
  function Zip3(res: QueryResult): (cs: seq<Candidate>)
    ensures |cs| <= |res.docs| && |cs| <= |res.metas| && |cs| <= |res.ids|
    ensures |cs| == |res.docs| || |cs| == |res.metas| || |cs| == |res.ids|
    ensures forall i :: 0 <= i < |cs| ==> cs[i] == Candidate(res.docs[i], res.metas[i], res.ids[i])
    decreases |res.docs|
  {
    if res.docs == [] || res.metas == [] || res.ids == [] then []
    else [Candidate(res.docs[0], res.metas[0], res.ids[0])] + Zip3(QueryResult(res.docs[1..], res.metas[1..], res.ids[1..]))
  }

  /** `n_results=max(8, k+2)`: the store is asked for at least 8 rows and two more than `k`. */
  function QueryCount(k: int): (n: int)
    ensures n >= 8 && n >= k + 2
    ensures n == 8 || n == k + 2
  {
    if k + 2 > 8 then k + 2 else 8
  }

  /** A candidate whose metadata is present and not an empty dict. */
  predicate HasMeta(c: Candidate)
  {
    c.meta.Some? && !c.meta.value.Empty()
  }

  /** The redundancy key `(doc_id, order // 2)`: chunks 0 and 1, 2 and 3, ... of a document share one. */
  datatype Key = Key(docId: Option<string>, bucket: int)

  function KeyOf(c: Candidate): Key
    requires HasMeta(c)
  {
    Key(c.meta.value.docId, c.meta.value.order.GetOr(0) / 2)
  }

  /** The keys of the eligible candidates of `cs`. */
  function EligibleKeys(cs: seq<Candidate>): set<Key>
  {
    set j | 0 <= j < |cs| && HasMeta(cs[j]) :: KeyOf(cs[j])
  }

  /** Candidate `i` is eligible and no earlier eligible candidate has its key. */
  predicate IsFirstOfKey(cs: seq<Candidate>, i: int)
    requires 0 <= i < |cs|
  {
    HasMeta(cs[i]) && KeyOf(cs[i]) !in EligibleKeys(cs[..i])
  }

  /** The candidates that are the first of their key, in order: the reference for the greedy pick. */
  function FirstOfEachKey(cs: seq<Candidate>): (r: seq<Candidate>)
    ensures |r| <= |cs|
  {
    if cs == [] then []
    else FirstOfEachKey(cs[..|cs| - 1]) + (if IsFirstOfKey(cs, |cs| - 1) then [cs[|cs| - 1]] else [])
  }

  /** The break is tested after an append, so at least one pick is allowed whatever `k` is. */
  function PickLimit(k: int): (n: nat)
    ensures n >= 1 && n >= k
    ensures k >= 1 ==> n == k
  {
    if k >= 1 then k else 1
  }

  function Prefix<T>(s: seq<T>, n: nat): (r: seq<T>)
    ensures |r| == if |s| <= n then |s| else n
    ensures r == s[..|r|]
  {
    if |s| <= n then s else s[..n]
  }

  lemma EligibleKeysSnoc(cs: seq<Candidate>, c: Candidate)
    ensures EligibleKeys(cs + [c]) == EligibleKeys(cs) + (if HasMeta(c) then {KeyOf(c)} else {})
  {
    var s := cs + [c];
    assert forall j :: 0 <= j < |cs| ==> s[j] == cs[j];
    assert s[|cs|] == c;
    forall key | key in EligibleKeys(s)
      ensures key in EligibleKeys(cs) + (if HasMeta(c) then {KeyOf(c)} else {})
    {
      var j :| 0 <= j < |s| && HasMeta(s[j]) && KeyOf(s[j]) == key;
      if j < |cs| {
        assert HasMeta(cs[j]) && KeyOf(cs[j]) == key;
      }
    }
  }

  /** One more candidate: it is picked when it is eligible with a key not seen before, and
      its key joins the seen keys when it is eligible. */
  lemma SelectStep(cs: seq<Candidate>, i: int)
    requires 0 <= i < |cs|
    ensures var c, pre := cs[i], cs[..i];
      && FirstOfEachKey(cs[..i + 1]) == FirstOfEachKey(pre) + (if HasMeta(c) && KeyOf(c) !in EligibleKeys(pre) then [c] else [])
      && EligibleKeys(cs[..i + 1]) == EligibleKeys(pre) + (if HasMeta(c) then {KeyOf(c)} else {})
  {
    assert cs[..i + 1] == cs[..i] + [cs[i]];
    assert cs[..i + 1][..i] == cs[..i];
    EligibleKeysSnoc(cs[..i], cs[i]);
  }

  /** The picks made from a prefix are a prefix of the picks made from the whole. */
  lemma {:induction false} FirstOfEachKeyPrefix(cs: seq<Candidate>, m: nat)
    requires m <= |cs|
    ensures FirstOfEachKey(cs[..m]) <= FirstOfEachKey(cs)
  {
    if m < |cs| {
      var init := cs[..|cs| - 1];
      assert init[..m] == cs[..m];
      FirstOfEachKeyPrefix(init, m);
    } else {
      assert cs[..m] == cs;
    }
  }

  /** `kb_query`'s selection loop: walk the ranked candidates, skip those without metadata
      or whose key was already taken, and stop once `k` picks are made (checked after each
      pick). */
  method SelectChunks(cands: seq<Candidate>, k: int) returns (picks: seq<Candidate>)
    ensures picks == Prefix(FirstOfEachKey(cands), PickLimit(k))
  {
    var seen: set<Key> := {};
    picks := [];
    var i := 0;
    while i < |cands|
      invariant 0 <= i <= |cands|
      invariant picks == FirstOfEachKey(cands[..i])
      invariant seen == EligibleKeys(cands[..i])
      invariant |picks| < PickLimit(k)
    {
      var c := cands[i];
      SelectStep(cands, i);
      if c.meta.None? || c.meta.value.Empty() {
        i := i + 1;
        continue;
      }
      var key := KeyOf(c);
      if key in seen {
        i := i + 1;
        continue;
      }
      seen := seen + {key};
      picks := picks + [c];
      if |picks| >= k {
        FirstOfEachKeyPrefix(cands, i + 1);
        assert |picks| == PickLimit(k);
        return;
      }
      i := i + 1;
    }
    assert cands[..i] == cands;
  }

  /** `cs[idx[t]] == picks[t]` along strictly increasing indices: `picks` is a subsequence. */
  ghost predicate IsEmbedding(idx: seq<int>, picks: seq<Candidate>, cs: seq<Candidate>)
  {
    && |idx| == |picks|
    && (forall t, u :: 0 <= t < u < |idx| ==> idx[t] < idx[u])
    && (forall t :: 0 <= t < |idx| ==> 0 <= idx[t] < |cs| && cs[idx[t]] == picks[t])
  }

  lemma EmbeddingSnoc(idx: seq<int>, a: seq<Candidate>, cs: seq<Candidate>, x: Candidate)
    requires IsEmbedding(idx, a, cs)
    ensures IsEmbedding(idx, a, cs + [x])
    ensures IsEmbedding(idx + [|cs|], a + [x], cs + [x])
  {
    assert forall j :: 0 <= j < |cs| ==> (cs + [x])[j] == cs[j];
  }

  /** The reference picks are an in-order subsequence of the candidates. */
  lemma {:induction false} FirstOfEachKeySubsequence(cs: seq<Candidate>)
    ensures exists idx :: IsEmbedding(idx, FirstOfEachKey(cs), cs)
  {
    if cs == [] {
      assert FirstOfEachKey(cs) == [];
      assert IsEmbedding([], [], cs);
    } else {
      var n := |cs| - 1;
      var init := cs[..n];
      FirstOfEachKeySubsequence(init);
      var idx :| IsEmbedding(idx, FirstOfEachKey(init), init);
      assert cs == init + [cs[n]];
      EmbeddingSnoc(idx, FirstOfEachKey(init), init, cs[n]);
      if IsFirstOfKey(cs, n) {
        assert FirstOfEachKey(cs) == FirstOfEachKey(init) + [cs[n]];
        assert IsEmbedding(idx + [n], FirstOfEachKey(cs), cs);
      } else {
        assert FirstOfEachKey(cs) == FirstOfEachKey(init);
        assert IsEmbedding(idx, FirstOfEachKey(cs), cs);
      }
    }
  }

  /** The reference picks all have metadata, and they hold exactly the keys of the eligible
      candidates. */
  lemma {:induction false} FirstOfEachKeyKeys(cs: seq<Candidate>)
    ensures forall p :: p in FirstOfEachKey(cs) ==> HasMeta(p)
    ensures EligibleKeys(FirstOfEachKey(cs)) == EligibleKeys(cs)
  {
    if cs != [] {
      var n := |cs| - 1;
      var init := cs[..n];
      FirstOfEachKeyKeys(init);
      assert cs == init + [cs[n]];
      EligibleKeysSnoc(init, cs[n]);
      if IsFirstOfKey(cs, n) {
        assert FirstOfEachKey(cs) == FirstOfEachKey(init) + [cs[n]];
        EligibleKeysSnoc(FirstOfEachKey(init), cs[n]);
      } else {
        assert FirstOfEachKey(cs) == FirstOfEachKey(init);
      }
    }
  }

  /** No two reference picks share a key. */
  lemma {:induction false} FirstOfEachKeyDistinct(cs: seq<Candidate>)
    ensures forall p :: p in FirstOfEachKey(cs) ==> HasMeta(p)
    ensures forall t, u :: 0 <= t < u < |FirstOfEachKey(cs)| ==>
      KeyOf(FirstOfEachKey(cs)[t]) != KeyOf(FirstOfEachKey(cs)[u])
  {
    FirstOfEachKeyKeys(cs);
    if cs != [] {
      var n := |cs| - 1;
      var init := cs[..n];
      var fi := FirstOfEachKey(init);
      FirstOfEachKeyDistinct(init);
      FirstOfEachKeyKeys(init);
      if IsFirstOfKey(cs, n) {
        forall t | 0 <= t < |fi| ensures KeyOf(fi[t]) != KeyOf(cs[n]) {
          assert KeyOf(fi[t]) in EligibleKeys(fi);
        }
      }
    }
  }

  /** What the selection promises: the picks are an in-order subsequence of the candidates,
      all with metadata and with pairwise different keys; there are at most `k` of them
      (one when `k <= 0`); and while the limit is not reached, every eligible candidate's
      key is held by a pick, so a candidate is skipped only for an earlier pick's key. */
  lemma SelectionProperties(cands: seq<Candidate>, k: int)
    ensures var picks := Prefix(FirstOfEachKey(cands), PickLimit(k));
      && (exists idx :: IsEmbedding(idx, picks, cands))
      && (forall p :: p in picks ==> HasMeta(p))
      && (forall t, u :: 0 <= t < u < |picks| ==> KeyOf(picks[t]) != KeyOf(picks[u]))
      && |picks| <= PickLimit(k) && |picks| <= |cands|
      && (k <= 0 ==> |picks| <= 1)
      && (cands == [] ==> picks == [])
      && (|picks| < PickLimit(k) ==> EligibleKeys(picks) == EligibleKeys(cands))
  {
    var all := FirstOfEachKey(cands);
    var picks := Prefix(all, PickLimit(k));
    FirstOfEachKeySubsequence(cands);
    var idx :| IsEmbedding(idx, all, cands);
    assert IsEmbedding(idx[..|picks|], picks, cands);
    FirstOfEachKeyDistinct(cands);
    FirstOfEachKeyKeys(cands);
    assert forall p :: p in picks ==> p in all;
  }

  /** Coverage spelled out: below the limit, every eligible candidate shares its key with
      some pick. */
  lemma SelectionCoversKeys(cands: seq<Candidate>, k: int, i: int)
    requires 0 <= i < |cands| && HasMeta(cands[i])
    requires |Prefix(FirstOfEachKey(cands), PickLimit(k))| < PickLimit(k)
    ensures var picks := Prefix(FirstOfEachKey(cands), PickLimit(k));
      exists t :: 0 <= t < |picks| && HasMeta(picks[t]) && KeyOf(picks[t]) == KeyOf(cands[i])
  {
    SelectionProperties(cands, k);
    assert KeyOf(cands[i]) in EligibleKeys(cands);
  }

  /** Chunks 4 and 5 of one document share a bucket, so only the better-ranked one is
      picked; chunks 4 and 6 lie in different buckets and are both picked. */
  lemma BucketExample(m4: ChunkMeta, m5: ChunkMeta, m6: ChunkMeta)
    requires m4.docId == m5.docId == m6.docId == Some("d")
    requires m4.order == Some(4) && m5.order == Some(5) && m6.order == Some(6)
    ensures var a, b, c := Candidate(Some("x"), Some(m4), "d:4"), Candidate(Some("y"), Some(m5), "d:5"),
                           Candidate(Some("z"), Some(m6), "d:6");
      && Prefix(FirstOfEachKey([a, b]), PickLimit(6)) == [a]
      && Prefix(FirstOfEachKey([a, c]), PickLimit(6)) == [a, c]
  {
    var a, b, c := Candidate(Some("x"), Some(m4), "d:4"), Candidate(Some("y"), Some(m5), "d:5"),
                   Candidate(Some("z"), Some(m6), "d:6");
    assert [a, b][..1] == [a] && [a, c][..1] == [a];
    assert [a][..0] == [];
    assert EligibleKeys([a]) == {Key(Some("d"), 2)} by {
      EligibleKeysSnoc([], a);
      assert [] + [a] == [a];
    }
    assert KeyOf(b) == Key(Some("d"), 2) && KeyOf(c) == Key(Some("d"), 3);
    assert !IsFirstOfKey([a, b], 1);
    assert IsFirstOfKey([a, c], 1);
  }
  // ---------------------------------------------------------------------------
  // Answer assembly

  const NotEnoughInfo: string := "I don't have enough information to answer that yet."

  /** What the language model call gave: it raised, it answered nothing, or a text. */
  datatype LlmReply = CallFailed(error: Error) | NoReply | Reply(text: string)

  /** `(doc or "")[:200]`. */
  function Preview(doc: Option<string>): (p: string)
    ensures |p| <= 200
  {
    Take(doc.GetOr(""), 200)
  }

  function MetaOf(c: Candidate): ChunkMeta
  {
    c.meta.GetOr(ChunkMeta(None, None, None, None, None, None))
  }

  /** The citation of one pick. */
  function CitationOf(c: Candidate): Citation
  {
    Citation(MetaOf(c).docId, MetaOf(c).title, MetaOf(c).url, Preview(c.doc))
  }

  /** The context block numbered `i` (from 1). */
  function ContextBlock(i: nat, c: Candidate): string
  {
    "[" + NatToString(i) + "] Title: " + Show(MetaOf(c).title) + "\nURL: " + Show(MetaOf(c).url)
      + "\nExcerpt:\n" + Show(c.doc) + "\n"
  }

  /** The numbered context blocks of the picks. */
  function ContextBlocks(picks: seq<Candidate>): (bs: seq<string>)
    ensures |bs| == |picks|
    ensures forall t :: 0 <= t < |picks| ==> bs[t] == ContextBlock(t + 1, picks[t])
  {
    seq(|picks|, t requires 0 <= t < |picks| => ContextBlock(t + 1, picks[t]))
  }

  /** The context blocks and citations, one per pick, built by appending in pick order. */
  method BuildContext(picks: seq<Candidate>) returns (blocks: seq<string>, cits: seq<Citation>)
    ensures blocks == ContextBlocks(picks)
    ensures |cits| == |picks|
    ensures forall t :: 0 <= t < |picks| ==> cits[t] == CitationOf(picks[t]) && |cits[t].chunkPreview| <= 200
  {
    blocks, cits := [], [];
    for i := 0 to |picks|
      invariant |blocks| == |cits| == i
      invariant forall t :: 0 <= t < i ==> blocks[t] == ContextBlock(t + 1, picks[t]) && cits[t] == CitationOf(picks[t])
    {
      blocks := blocks + [ContextBlock(i + 1, picks[i])];
      cits := cits + [CitationOf(picks[i])];
    }
  }

  /** The prompt handed to the language model. */
  function Prompt(system: string, blocks: seq<string>, q: string): string
  {
    system + "\n\nCONTEXT:\n" + Join(blocks, "\n\n") + "\n\nQUESTION: " + q + "\n\nANSWER WITH CITATIONS:"
  }

  const MainSystemPrompt: string :=
    "You are a precise research assistant. Answer using ONLY the provided context. "
    + "If missing, say you don't have enough info. Cite sources inline like [1], [2]. "
    + "Provide a concise, actionable answer."

  const RouterSystemPrompt: string :=
    "You are a precise research assistant. Answer using ONLY the provided context. If missing, say you don't have enough info.\n"
    + "Cite sources inline like [1], [2]. Provide a concise, actionable answer."

  /** The picks a query makes from what the store returns. */
  function Selection(res: QueryResult, k: int): (picks: seq<Candidate>)
    ensures |picks| <= PickLimit(k) && |picks| <= |Zip3(res)|
    ensures forall p :: p in picks ==> HasMeta(p) && p in Zip3(res)
    ensures forall t, u :: 0 <= t < u < |picks| ==> KeyOf(picks[t]) != KeyOf(picks[u])
  {
    var cands := Zip3(res);
    SelectionProperties(cands, k);
    var picks := Prefix(FirstOfEachKey(cands), PickLimit(k));
    assert forall p :: p in picks ==> p in cands by {
      var idx :| IsEmbedding(idx, picks, cands);
      forall p | p in picks ensures p in cands {
        var t :| 0 <= t < |picks| && picks[t] == p;
        assert cands[idx[t]] == p;
      }
    }
    picks
  }

  /** The answer built around the picks, once the model's text is accepted. */
  ghost predicate AnswersWith(a: KBAnswer, picks: seq<Candidate>, text: string)
  {
    && a.answer == Strip(text)
    && a.usedChunks == |picks|
    && |a.citations| == |picks|
    && (forall t :: 0 <= t < |picks| ==> a.citations[t] == CitationOf(picks[t]) && |a.citations[t].chunkPreview| <= 200)
  }

  /** `kb_query` in main.py: the question is embedded (`embed_batch([q])[0]`, the vector of
      the one text) and the store is asked for `max(8, k + 2)` rows of the user's chunks; a
      failure of either is the handler's error. No picks gives the fixed answer; otherwise
      the model's reply, stripped, with one citation per pick. A failed call or an empty
      reply makes `generate_text` raise. */
  method KbQueryMain(q: string, userId: string, k: int, embed: string -> Result<Vector>,
                     query: (Vector, int, string) -> Result<QueryResult>, llm: string -> LlmReply)
    returns (r: Result<KBAnswer>)
    ensures embed(q).Err? ==> r == Err(embed(q).error)
    ensures embed(q).Ok? && query(embed(q).value, QueryCount(k), userId).Err? ==>
      r == Err(query(embed(q).value, QueryCount(k), userId).error)
    ensures embed(q).Ok? && query(embed(q).value, QueryCount(k), userId).Ok? ==>
      var picks := Selection(query(embed(q).value, QueryCount(k), userId).value, k);
      && (picks == [] ==> r == Ok(KBAnswer(NotEnoughInfo, [], 0)))
      && (picks != [] ==>
            var reply := llm(Prompt(MainSystemPrompt, ContextBlocks(picks), q));
            && (reply.CallFailed? ==> r == Err(reply.error))
            && (reply.NoReply? || (reply.Reply? && reply.text == "") ==> r == Err(ExternalError("LLM returned empty.")))
            && (reply.Reply? && reply.text != "" ==> r.Ok? && AnswersWith(r.value, picks, reply.text)))
  {
    var qvec := embed(q);
    if qvec.Err? {
      return Err(qvec.error);
    }
    var res := query(qvec.value, QueryCount(k), userId);
    if res.Err? {
      return Err(res.error);
    }
    var picks := SelectChunks(Zip3(res.value), k);
    if picks == [] {
      return Ok(KBAnswer(NotEnoughInfo, [], 0));
    }
    var blocks, cits := BuildContext(picks);
    var reply := llm(Prompt(MainSystemPrompt, blocks, q));
    if reply.CallFailed? {
      return Err(reply.error);
    }
    if reply.NoReply? || reply.text == "" {
      return Err(ExternalError("LLM returned empty."));
    }
    r := Ok(KBAnswer(Strip(reply.text), cits, |picks|));
  }

  /** `kb_query` in app/routes_kb.py: as in main.py, but a reply that is missing or blank
      after stripping is answered with HTTP 502 (a call that raises is still the handler's
      error). */
  method KbQueryRouter(q: string, userId: string, k: int, embed: string -> Result<Vector>,
                       query: (Vector, int, string) -> Result<QueryResult>, llm: string -> LlmReply)
    returns (r: Result<KBAnswer>)
    ensures embed(q).Err? ==> r == Err(embed(q).error)
    ensures embed(q).Ok? && query(embed(q).value, QueryCount(k), userId).Err? ==>
      r == Err(query(embed(q).value, QueryCount(k), userId).error)
    ensures embed(q).Ok? && query(embed(q).value, QueryCount(k), userId).Ok? ==>
      var picks := Selection(query(embed(q).value, QueryCount(k), userId).value, k);
      && (picks == [] ==> r == Ok(KBAnswer(NotEnoughInfo, [], 0)))
      && (picks != [] ==>
            var reply := llm(Prompt(RouterSystemPrompt, ContextBlocks(picks), q));
            && (reply.CallFailed? ==> r == Err(reply.error))
            && (reply.NoReply? || (reply.Reply? && Strip(reply.text) == "") ==> r == Err(HttpError(502, "LLM returned empty.")))
            && (reply.Reply? && Strip(reply.text) != "" ==> r.Ok? && AnswersWith(r.value, picks, reply.text)))
  {
    var qvec := embed(q);
    if qvec.Err? {
      return Err(qvec.error);
    }
    var res := query(qvec.value, QueryCount(k), userId);
    if res.Err? {
      return Err(res.error);
    }
    var picks := SelectChunks(Zip3(res.value), k);
    if picks == [] {
      return Ok(KBAnswer(NotEnoughInfo, [], 0));
    }
    var blocks, cits := BuildContext(picks);
    var reply := llm(Prompt(RouterSystemPrompt, blocks, q));
    if reply.CallFailed? {
      return Err(reply.error);
    }
    if reply.NoReply? || Strip(reply.text) == "" {
      return Err(HttpError(502, "LLM returned empty."));
    }
    r := Ok(KBAnswer(Strip(reply.text), cits, |picks|));
  }

  // ---------------------------------------------------------------------------
  // Flashcards

  /** What came back for the flashcard prompt: the call itself raised, the text is not JSON,
      or a JSON object with or without a "cards" entry. */
  datatype CardsReply = CallRaised(error: Error) | NotJson | Parsed(cards: Option<seq<Flashcard>>)

  /** What the store's lookup of one document gives: its chunk texts and their metadata. */
  datatype StoredChunks = StoredChunks(docs: seq<string>, metas: seq<Option<ChunkMeta>>)

  /** The title of the first metadata dict, or "Untitled" when there is none. */
  function FlashcardTitle(metas: seq<Option<ChunkMeta>>): (t: Option<string>)
    ensures t.None? <==> metas != [] && metas[0].Some? && metas[0].value.title.None?
    ensures metas == [] || metas[0].None? ==> t == Some("Untitled")
    ensures metas != [] && metas[0].Some? ==> t == metas[0].value.title
  {
    if metas != [] && metas[0].Some? then metas[0].value.title else Some("Untitled")
  }

  /** The single card given when the model's answer is unusable. */
  function FallbackCards(text: string): (cs: seq<Flashcard>)
    ensures |cs| == 1 && cs[0].q == "What is the main idea?"
    ensures |cs[0].a| <= 200 && StartsWith(text, cs[0].a)
    ensures |text| <= 200 ==> cs[0].a == text
  {
    [Flashcard("What is the main idea?", Take(text, 200))]
  }

  /** `kb_flashcards`: `got` is what the store's lookup of the user's document gave; a
      failed lookup is the handler's error. `guardedCall` says whether the model call itself
      sits inside the `try` (it does in main.py, not in app/routes_kb.py). */
  function Flashcards(got: Result<StoredChunks>, reply: CardsReply, guardedCall: bool): (r: Result<FlashcardSet>)
    ensures got.Err? ==> r == Err(got.error)
    ensures got.Ok? && got.value.docs == [] ==> r == Err(HttpError(404, "Doc not found for this user."))
    ensures got.Ok? && got.value.docs != [] && FlashcardTitle(got.value.metas).None? ==> r.Err?
    ensures got.Ok? && got.value.docs != [] && FlashcardTitle(got.value.metas).Some? && reply.CallRaised? ==>
      (r.Ok? <==> guardedCall) && (!guardedCall ==> r == Err(reply.error))
    ensures got.Ok? && got.value.docs != [] && got.value.metas == [] && !reply.CallRaised? ==>
      r.Ok? && r.value.sourceTitle == "Untitled"
    ensures r.Ok? ==> got.Ok? && (|r.value.cards| >= 1 || (reply.Parsed? && reply.cards == Some([])))
    ensures r.Ok? && !(reply.Parsed? && reply.cards.Some?) ==>
      r.value.cards == FallbackCards(Join(got.value.docs, "\n\n")) && |r.value.cards[0].a| <= 200
    ensures reply.Parsed? && reply.cards.Some? && r.Ok? ==> r.value.cards == reply.cards.value
    ensures r.Ok? ==>
      got.Ok? && FlashcardTitle(got.value.metas).Some? && r.value.sourceTitle == FlashcardTitle(got.value.metas).value
  {
    match got
    case Err(e) => Err(e)
    case Ok(StoredChunks(docs, metas)) =>
      if docs == [] then Err(HttpError(404, "Doc not found for this user."))
      else
        var text := Join(docs, "\n\n");
        match FlashcardTitle(metas)
        case None => Err(ValidationError("source_title"))
        case Some(title) =>
          match reply
          case CallRaised(e) =>
            if guardedCall then Ok(FlashcardSet(title, FallbackCards(text)))
            else Err(e)
          case NotJson => Ok(FlashcardSet(title, FallbackCards(text)))
          case Parsed(cards) =>
            match cards
            case Some(cs) => Ok(FlashcardSet(title, cs))
            case None => Ok(FlashcardSet(title, FallbackCards(text)))
  }

  // ---------------------------------------------------------------------------
  // Ingestion

  /** The parallel lists one `add` hands to the store. */
  datatype StoreBatch = StoreBatch(ids: seq<string>, documents: seq<string>, metas: seq<ChunkMeta>, vectors: seq<Vector>)

  /** What one ingestion added to the store, and the response. */
  datatype Ingestion = Ingestion(stored: StoreBatch, response: KBIngestResponse)

  /** The id of chunk `i` of a document. */
  function ChunkId(docId: string, i: nat): string
  {
    docId + ":" + NatToString(i)
  }

  /** Chunk ids of one document are pairwise different. */
  lemma ChunkIdsDistinct(docId: string, i: nat, j: nat)
    requires i != j
    ensures ChunkId(docId, i) != ChunkId(docId, j)
  {
    if ChunkId(docId, i) == ChunkId(docId, j) {
      var p := docId + ":";
      assert NatToString(i) == ChunkId(docId, i)[|p|..];
      assert NatToString(j) == ChunkId(docId, j)[|p|..];
      NatToStringInjective(i, j);
    }
  }

  /** The ids and metadata records of a document's chunks. */
  function ChunkRecords(docId: string, title: string, userId: string, url: Option<string>, n: nat, nowMs: int): (r: (seq<string>, seq<ChunkMeta>))
    ensures |r.0| == n && |r.1| == n
    ensures forall i :: 0 <= i < n ==> r.0[i] == ChunkId(docId, i) && r.1[i] == MakeMeta(docId, title, userId, i, url, nowMs)
  {
    (seq(n, i requires 0 <= i => ChunkId(docId, i)), seq(n, i requires 0 <= i => MakeMeta(docId, title, userId, i, url, nowMs)))
  }

  /** Ingestion gives chunk `i` the id "<doc_id>:<i>" and order `i`; ids are distinct. */
  lemma ChunkRecordsProperties(docId: string, title: string, userId: string, url: Option<string>, n: nat, nowMs: int)
    ensures var (ids, metas) := ChunkRecords(docId, title, userId, url, n, nowMs);
      && (forall i :: 0 <= i < n ==> metas[i].order == Some(i) && metas[i].docId == Some(docId))
      && (forall i :: 0 <= i < n ==> (metas[i].url.Some? <==> url.Some?))
      && (forall i, j :: 0 <= i < j < n ==> ids[i] != ids[j])
  {
    forall i, j | 0 <= i < j < n ensures ChunkId(docId, i) != ChunkId(docId, j) {
      ChunkIdsDistinct(docId, i, j);
    }
  }

  /** The steps both ingestion endpoints take once the chunks are cut: embed them
      (`embed_batch`, which stops at the first text whose embedding fails), build their ids
      and metadata, and hand the batch to the store; a failure of either is the handler's
      error. */
  function StoreChunks(chunks: seq<string>, docId: string, title: string, userId: string, url: Option<string>,
                       nowMs: int, embed: string -> Result<Vector>, add: StoreBatch -> Option<Error>): Result<Ingestion>
  {
    match MapUntilErr(chunks, embed)
    case Err(e) => Err(e)
    case Ok(vectors) =>
      var (ids, metas) := ChunkRecords(docId, title, userId, url, |chunks|, nowMs);
      var batch := StoreBatch(ids, chunks, metas, vectors);
      match add(batch)
      case Some(e) => Err(e)
      case None => Ok(Ingestion(batch, KBIngestResponse(docId, |chunks|, title, url)))
  }

  /** What storing promises. When some chunk's embedding fails, the error is that of the
      first one to fail. When all succeed, the store is handed the chunks with their ids, their
      metadata and their vectors in order, and the outcome is the store's: its error, or the
      response counting the chunks. */
  lemma StoreChunksProperties(chunks: seq<string>, docId: string, title: string, userId: string, url: Option<string>,
                              nowMs: int, embed: string -> Result<Vector>, add: StoreBatch -> Option<Error>)
    ensures var r := StoreChunks(chunks, docId, title, userId, url, nowMs, embed, add);
      && ((exists i :: 0 <= i < |chunks| && embed(chunks[i]).Err?) ==>
            exists i :: 0 <= i < |chunks| && embed(chunks[i]).Err? && r == Err(embed(chunks[i]).error) && forall j :: 0 <= j < i ==> embed(chunks[j]).Ok?)
      && ((forall i :: 0 <= i < |chunks| ==> embed(chunks[i]).Ok?) ==>
            var (ids, metas) := ChunkRecords(docId, title, userId, url, |chunks|, nowMs);
            exists vs: seq<Vector> ::
              && |vs| == |chunks|
              && (forall i :: 0 <= i < |chunks| ==> embed(chunks[i]) == Ok(vs[i]))
              && var batch := StoreBatch(ids, chunks, metas, vs);
              && (add(batch).Some? ==> r == Err(add(batch).value))
              && (add(batch).None? ==> r == Ok(Ingestion(batch, KBIngestResponse(docId, |chunks|, title, url)))))
  {
    MapUntilErrProperties(chunks, embed);
    var m := MapUntilErr(chunks, embed);
    if m.Ok? {
      var (ids, metas) := ChunkRecords(docId, title, userId, url, |chunks|, nowMs);
      var batch := StoreBatch(ids, chunks, metas, m.value);
      assert |m.value| == |chunks| && (forall i :: 0 <= i < |chunks| ==> embed(chunks[i]) == Ok(m.value[i]));
    }
  }

  /** The title of an upload: the given one unless it is missing or empty, else the file name. */
  function UploadTitle(title: Option<string>, filename: string): (t: string)
    ensures t == filename || (title.Some? && t == title.value && t != "")
    ensures title.Some? && title.value != "" ==> t == title.value
  {
    if title.Some? && title.value != "" then title.value else filename
  }

  /** `kb_upload` on the extracted text: blank text is refused with HTTP 400, and text that
      is not blank gives at least one chunk, which are stored. */
  method KbUpload(text: string, title: Option<string>, filename: string, userId: string, docId: string, nowMs: int,
                  embed: string -> Result<Vector>, add: StoreBatch -> Option<Error>)
    returns (r: Result<Ingestion>)
    ensures Strip(text) == [] ==> r == Err(HttpError(400, "No text extracted."))
    ensures Strip(text) != [] ==>
      var chunks := DropBlank(Windows(Normalise(text), 1200, 200));
      && chunks != []
      && r == StoreChunks(chunks, docId, UploadTitle(title, filename), userId, None, nowMs, embed, add)
  {
    var t := UploadTitle(title, filename);
    if Strip(text) == [] {
      return Err(HttpError(400, "No text extracted."));
    }
    StripEmptyIffBlank(text);
    NonBlankTextHasChunks(text, 1200, 200);
    var chunks := ChunkText(text, 1200, 200);
    r := StoreChunks(chunks, docId, t, userId, None, nowMs, embed, add);
  }

  /** `text.split("\n", 1)[0]`: the text up to its first line break. */
  function FirstLine(text: string): (r: string)
    ensures StartsWith(text, r)
    ensures '\n' !in r
    ensures |r| < |text| ==> text[|r|] == '\n'
  {
    if text == [] || text[0] == '\n' then [] else [text[0]] + FirstLine(text[1..])
  }

  /** `kb_link`: a failed fetch is answered with HTTP 400; the title is the first line of the
      fetched text as fetched, cut to 120 characters; the chunks come from the normalised
      text and every chunk's metadata carries the url. */
  method KbLink(url: string, fetched: Result<string>, userId: string, docId: string, nowMs: int,
                embed: string -> Result<Vector>, add: StoreBatch -> Option<Error>)
    returns (r: Result<Ingestion>)
    ensures fetched.Err? ==> r.Err? && r.error.HttpError? && r.error.status == 400
    ensures fetched.Ok? ==>
      var t := Take(FirstLine(fetched.value), 120);
      && |t| <= 120
      && r == StoreChunks(DropBlank(Windows(Normalise(fetched.value), 1200, 200)), docId, t, userId, Some(url), nowMs, embed, add)
  {
    if fetched.Err? {
      return Err(HttpError(400, "Fetch failed"));
    }
    var text := fetched.value;
    var t := Take(FirstLine(text), 120);
    var chunks := ChunkText(text, 1200, 200);
    r := StoreChunks(chunks, docId, t, userId, Some(url), nowMs, embed, add);
  }
}
