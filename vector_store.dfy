/**
  The long-term memory index: a collection of points, each an embedded
  text with a payload, addressed by id. Embedding and cosine similarity
  are an oracle `score(query, text)`; the index answers a search with the
  exact top `k` points by that score.
 */
module VectorStore {
  import opened Wrappers
  import opened Exceptions
  import opened Text

  /** The environment variables the store needs, in declaration order. */
  const RequiredEnvVars: seq<string> := ["QDRANT_URL", "QDRANT_API_KEY"]

  /** Name of the collection holding the memories. */
  const CollectionName: string := "long_term_memory"

  /** Scores at or above this mark a near-duplicate. */
  const SimilarityThreshold: real := 0.9

  /** `not os.getenv(name)`: the variable is unset or empty. */
  predicate IsMissing(env: map<string, string>, name: string) {
    name !in env || env[name] == ""
  }

  /** The names that are missing from `env`, in the order of `names`. */
  function MissingVars(names: seq<string>, env: map<string, string>): (r: seq<string>)
    ensures |r| <= |names|
    ensures forall v :: v in r <==> v in names && IsMissing(env, v)
  {
    if names == [] then []
    else (if IsMissing(env, names[0]) then [names[0]] else []) + MissingVars(names[1..], env)
  }

  /** `_validate_env_vars`: raises when a required variable is missing, naming all that are. */
  function ValidateEnvVars(env: map<string, string>): (r: Result<()>)
    ensures r.Ok? <==> forall v :: v in RequiredEnvVars ==> !IsMissing(env, v)
    ensures r.Err? ==> r.error == ValueError(
      "Missing required environment variables: " + Join(MissingVars(RequiredEnvVars, env), ", "))
  {
    var missing := MissingVars(RequiredEnvVars, env);
    if missing != [] then
      assert missing[0] in missing;
      Err(ValueError("Missing required environment variables: " + Join(missing, ", ")))
    else
      Ok(())
  }

  /** With both variables missing, both are named, in declaration order. */
  lemma BothMissing(env: map<string, string>)
    requires IsMissing(env, "QDRANT_URL") && IsMissing(env, "QDRANT_API_KEY")
    ensures MissingVars(RequiredEnvVars, env) == RequiredEnvVars
    ensures Join(RequiredEnvVars, ", ") == "QDRANT_URL, QDRANT_API_KEY"
  {
    var names := RequiredEnvVars;
    assert names[1..][1..] == [];
    assert MissingVars(names[1..], env) == [names[1]];
  }

  /** A memory as search returns it: its text, the rest of its payload, and its score. */
  datatype Memory = Memory(text: string, metadata: map<string, string>, score: Option<real>) {

    /** The `id` property: the metadata's id, if it has one. */
    function Id(): (r: Option<string>)
      ensures r.Some? <==> "id" in metadata
      ensures r.Some? ==> r.value == metadata["id"]
    {
      if "id" in metadata then Some(metadata["id"]) else None
    }

    /**
      The `timestamp` property: the metadata's ISO timestamp, absent when the
      key is missing or empty. (Parsing it into a datetime is not modelled.)
     */
    function Timestamp(): (r: Option<string>)
      ensures r.Some? <==> "timestamp" in metadata && metadata["timestamp"] != ""
      ensures r.Some? ==> r.value == metadata["timestamp"]
    {
      if "timestamp" in metadata && metadata["timestamp"] != "" then Some(metadata["timestamp"]) else None
    }
  }

  /** A point id: a string id from the metadata, or the hash of the text. */
  datatype PointId = Named(name: string) | Hashed(hash: int)

  /** A stored point: the text its vector embeds, and its payload. */
  datatype Point = Point(embedded: string, payload: map<string, string>)

  /** The caller's metadata dictionary, which storing may change in place. */
  class Metadata {
    var entries: map<string, string>

    constructor(entries: map<string, string>)
      ensures this.entries == entries
    {
      this.entries := entries;
    }
  }

  /** `ids` lists the `k` best-scoring keys of `scores` (all, if fewer), best first. */
  predicate IsTopK(scores: map<PointId, real>, k: nat, ids: seq<PointId>) {
    && (forall i :: 0 <= i < |ids| ==> ids[i] in scores)
    && (forall i, j :: 0 <= i < j < |ids| ==> ids[i] != ids[j])
    && |ids| == (if k < |scores.Keys| then k else |scores.Keys|)
    && (forall i, j :: 0 <= i < j < |ids| ==> scores[ids[i]] >= scores[ids[j]])
    && (forall o, i :: o in scores && o !in ids && 0 <= i < |ids| ==> scores[o] <= scores[ids[i]])
  }

  /** `b` scores at least as well as every key of `s`. */
  predicate IsMaxIn(scores: map<PointId, real>, s: set<PointId>, b: PointId)
    requires s <= scores.Keys
  {
    b in s && forall o :: o in s ==> scores[o] <= scores[b]
  }

  /** A non-empty set of scored keys has a best one. */
  lemma {:induction false} MaxExists(scores: map<PointId, real>, s: set<PointId>)
    requires s != {} && s <= scores.Keys
    ensures exists b :: IsMaxIn(scores, s, b)
    decreases s
  {
    var x :| x in s;
    if s == {x} {
      assert IsMaxIn(scores, s, x);
    } else {
      var rest := s - {x};
      MaxExists(scores, rest);
      var b :| IsMaxIn(scores, rest, b);
      if scores[x] <= scores[b] {
        assert IsMaxIn(scores, s, b);
      } else {
        assert IsMaxIn(scores, s, x);
      }
    }
  }

  /**
    A search in progress: `ids` are the best keys, best first, and
    `remaining` the keys not yet taken, none scoring above any taken one.
   */
  predicate Selecting(scores: map<PointId, real>, ids: seq<PointId>, remaining: set<PointId>) {
    && remaining <= scores.Keys
    && (forall i :: 0 <= i < |ids| ==> ids[i] in scores && ids[i] !in remaining)
    && (forall p :: p in scores && p !in remaining ==> p in ids)
    && (forall i, j :: 0 <= i < j < |ids| ==> ids[i] != ids[j])
    && |ids| + |remaining| == |scores.Keys|
    && (forall i, j :: 0 <= i < j < |ids| ==> scores[ids[i]] >= scores[ids[j]])
    && (forall o, i :: o in remaining && 0 <= i < |ids| ==> scores[o] <= scores[ids[i]])
  }

  /** Taking a best remaining key keeps the search in order. */
  lemma SelectingStep(scores: map<PointId, real>, ids: seq<PointId>, remaining: set<PointId>, best: PointId)
    requires Selecting(scores, ids, remaining) && IsMaxIn(scores, remaining, best)
    ensures Selecting(scores, ids + [best], remaining - {best})
  {
    var ids', rest := ids + [best], remaining - {best};
    assert |rest| == |remaining| - 1;
    forall i, j | 0 <= i < j < |ids'|
      ensures scores[ids'[i]] >= scores[ids'[j]]
    {
      if j == |ids| {
        assert ids'[i] == ids[i] && ids'[j] == best;
      }
    }
    forall p | p in scores && p !in rest
      ensures p in ids'
    {
      if p != best {
        assert p in ids;
      }
    }
  }

  /** A search that has taken `k` keys, or every key, has found the top `k`. */
  lemma SelectingDone(scores: map<PointId, real>, ids: seq<PointId>, remaining: set<PointId>, k: nat)
    requires Selecting(scores, ids, remaining) && |ids| <= k && (|ids| == k || remaining == {})
    ensures IsTopK(scores, k, ids)
  {
  }

  /** The memory collection of the vector database. */
  class Store {
    /** Cosine similarity of the embeddings of a query and a stored text. */
    const score: (string, string) -> real
    /** Python's (salted) `hash` of a string. */
    const hash: string -> int
    var hasCollection: bool
    var points: map<PointId, Point>

    /**
      No points without a collection; every payload holds the text; a
      payload `id` is the id the point is stored under.
     */
    ghost predicate Valid()
      reads this
    {
      && (!hasCollection ==> points == map[])
      && (forall p :: p in points ==> "text" in points[p].payload)
      && (forall p :: p in points && "id" in points[p].payload ==> p == Named(points[p].payload["id"]))
    }

    /** A store whose collection has not been created yet. */
    constructor(score: (string, string) -> real, hash: string -> int)
      ensures Valid() && !hasCollection && points == map[]
      ensures this.score == score && this.hash == hash
    {
      this.score := score;
      this.hash := hash;
      hasCollection := false;
      points := map[];
    }

    /** `_collection_exists`. */
    function CollectionExists(): bool
      reads this
    {
      hasCollection
    }

    /** `_create_collection`: an empty collection. */
    method CreateCollection()
      requires Valid() && !hasCollection
      modifies this
      ensures Valid() && hasCollection && points == map[]
    {
      hasCollection := true;
    }

    /** The score of every stored point against `query`. */
    function Scores(query: string): (r: map<PointId, real>)
      reads this
      ensures r.Keys == points.Keys
      ensures forall p :: p in r ==> r[p] == score(query, points[p].embedded)
    {
      map p | p in points :: score(query, points[p].embedded)
    }

    /** The search result for point `p`: payload text, the rest of the payload, and the score. */
    function MemoryOf(query: string, p: PointId): (m: Memory)
      reads this
      requires Valid() && p in points
      ensures m.text == points[p].payload["text"] && "text" !in m.metadata
      ensures forall key :: key in m.metadata <==> key in points[p].payload && key != "text"
      ensures m.score == Some(score(query, points[p].embedded))
    {
      var payload := points[p].payload;
      Memory(payload["text"], map key | key in payload && key != "text" :: payload[key],
        Some(score(query, points[p].embedded)))
    }

    /** The id a hit reports is the id its point is stored under. */
    lemma HitIdIsKey(query: string, p: PointId)
      requires Valid() && p in points
      ensures MemoryOf(query, p).Id().Some? ==> p == Named(MemoryOf(query, p).Id().value)
    {
    }

    /**
      Storing and searching round-trip: a point written with the payload
      `{"text": text, **entries}` comes back from a search with the text
      (unless the metadata holds a `text` of its own, which wins), the
      metadata without `text`, the score of the stored text, and, when the
      metadata had an id, that id, which is the point's key.
     */
    lemma StoredComesBack(query: string, text: string, entries: map<string, string>)
      requires Valid() && KeyFor(text, entries) in points
      requires points[KeyFor(text, entries)] == Point(text, map["text" := text] + entries)
      ensures var m := MemoryOf(query, KeyFor(text, entries));
        && m.text == (if "text" in entries then entries["text"] else text)
        && m.metadata == entries - {"text"}
        && m.score == Some(score(query, text))
        && (m.Id().Some? <==> "id" in entries)
        && (m.Id().Some? ==> m.Id().value == entries["id"] && KeyFor(text, entries) == Named(m.Id().value))
    {
      var m := MemoryOf(query, KeyFor(text, entries));
      assert m.metadata.Keys == (entries - {"text"}).Keys;
    }

    predicate AllStored(ids: seq<PointId>)
      reads this
    {
      forall i :: 0 <= i < |ids| ==> ids[i] in points
    }

    /** The memories of the points `ids`, in order. */
    function MemoriesOf(query: string, ids: seq<PointId>): (r: seq<Memory>)
      reads this
      requires Valid() && AllStored(ids)
      ensures |r| == |ids| && forall i :: 0 <= i < |ids| ==> r[i] == MemoryOf(query, ids[i])
    {
      seq(|ids|, i requires 0 <= i < |ids| reads this requires Valid() && AllStored(ids) =>
        MemoryOf(query, ids[i]))
    }

    /**
      `search_memories`: nothing without a collection (and nothing is
      created); otherwise the memories of the `k` best-scoring points, best
      first. Among equal scores the order is left open.
     */
    method SearchMemories(query: string, k: nat) returns (hits: seq<Memory>)
      requires Valid()
      ensures !hasCollection ==> hits == []
      ensures |hits| <= k
      ensures exists ids ::
        (AllStored(ids) && IsTopK(Scores(query), k, ids) && hits == MemoriesOf(query, ids))
    {
      var scores := Scores(query);
      if !hasCollection {
        assert IsTopK(scores, k, []) && [] == MemoriesOf(query, []);
        return [];
      }
      var remaining := scores.Keys;
      ghost var ids: seq<PointId> := [];
      hits := [];
      while |hits| < k && remaining != {}
        invariant Selecting(scores, ids, remaining)
        invariant AllStored(ids) && |ids| <= k
        invariant hits == MemoriesOf(query, ids)
        decreases remaining
      {
        MaxExists(scores, remaining);
        var best :| IsMaxIn(scores, remaining, best);
        SelectingStep(scores, ids, remaining, best);
        hits := hits + [MemoryOf(query, best)];
        ids := ids + [best];
        remaining := remaining - {best};
      }
      SelectingDone(scores, ids, remaining, k);
    }

    /** Point `p` scores at least as well as every stored point. */
    predicate IsBest(query: string, p: PointId)
      reads this
    {
      p in points && forall o :: o in points ==> score(query, points[o].embedded) <= score(query, points[p].embedded)
    }

    /** Some stored point scores at or above the similarity threshold. */
    predicate HasNearDuplicate(text: string)
      reads this
    {
      exists p :: p in points && score(text, points[p].embedded) >= SimilarityThreshold
    }

    /**
      `find_similar_memory`: the best match, when its score reaches the
      threshold (inclusive); nothing otherwise, including when the store is
      empty or has no collection.
     */
    method FindSimilarMemory(text: string) returns (r: Option<Memory>)
      requires Valid()
      ensures r.Some? <==> HasNearDuplicate(text)
      ensures r.Some? ==> exists p :: IsBest(text, p) && r.value == MemoryOf(text, p)
    {
      var results := SearchMemories(text, 1);
      ghost var scores := Scores(text);
      ghost var ids :| AllStored(ids) && IsTopK(scores, 1, ids) && results == MemoriesOf(text, ids);
      if results != [] {
        assert results[0] == MemoryOf(text, ids[0]);
        assert results[0].score.value == scores[ids[0]];
        forall o | o in points
          ensures scores[o] <= scores[ids[0]]
        {
          if o != ids[0] {
            assert o in scores && o !in ids;
          }
        }
        assert IsBest(text, ids[0]);
      }
      if results != [] && results[0].score.value >= SimilarityThreshold {
        return Some(results[0]);
      }
      forall p | p in points
        ensures score(text, points[p].embedded) < SimilarityThreshold
      {
        assert p in scores;
        assert |ids| == 1;
      }
      return None;
    }

    /** The id a store with metadata `entries` writes under: its `id`, or the text's hash. */
    function KeyFor(text: string, entries: map<string, string>): PointId
      reads this
    {
      if "id" in entries then Named(entries["id"]) else Hashed(hash(text))
    }

    /**
      `store_memory`: creates the collection on first write; when a
      near-duplicate with a non-empty id exists, writes that id into the
      caller's metadata; then upserts a point embedding `text`, whose payload
      is the text overlaid by the metadata, under the metadata's id or the
      text's hash. Every other point is left as it was.
     */
    method StoreMemory(text: string, md: Metadata) returns (ghost similar: Option<Memory>)
      requires Valid()
      modifies this, md
      ensures Valid() && hasCollection
      ensures similar.Some? <==> old(HasNearDuplicate(text))
      ensures similar.Some? ==> exists p :: old(IsBest(text, p)) && similar.value == old(MemoryOf(text, p))
      ensures md.entries ==
        if similar.Some? && similar.value.Id().Some? && similar.value.Id().value != ""
        then old(md.entries)["id" := similar.value.Id().value]
        else old(md.entries)
      ensures points == old(points)[KeyFor(text, md.entries) := Point(text, map["text" := text] + md.entries)]
      ensures similar.Some? && similar.value.Id().Some? && similar.value.Id().value != "" ==>
        points.Keys == old(points).Keys
    {
      if !CollectionExists() {
        CreateCollection();
      }
      var found := FindSimilarMemory(text);
      similar := found;
      if found.Some? && found.value.Id().Some? && found.value.Id().value != "" {
        md.entries := md.entries["id" := found.value.Id().value];
      }
      var key := KeyFor(text, md.entries);
      var payload := map["text" := text] + md.entries;
      points := points[key := Point(text, payload)];
    }
  }
}
