/**
  The state the turn graph threads through its nodes (`AICompanionState`),
  the partial updates nodes return, and the way an update is merged into
  the state: returned messages are appended, then the messages whose ids
  were named for removal are dropped, and every other key a node returns
  overwrites the stored value.
 */
module GraphState {
  import opened Wrappers

  /** The message types the core distinguishes (`message.type`). */
  datatype Role = Human | Ai | System | Tool

  datatype Message = Message(id: string, role: Role, content: string)

  /** A key of the state that is either absent or holds a value. */
  datatype Slot<+T> = Unset | Set(value: T) {

    /** `state.get(key, default)`. */
    function GetOr(default: T): T {
      match this
      case Set(v) => v
      case Unset => default
    }
  }

  /**
    The graph state. `current_activity` may hold `None`, which the schedule
    lookup returns when no range matches; `memory_context` is written by
    memory injection although the state class does not declare it.
   */
  datatype State = State(
    messages: seq<Message>,
    summary: Slot<string>,
    workflow: Slot<string>,
    currentActivity: Slot<Option<string>>,
    applyActivity: Slot<bool>,
    memoryContext: Slot<string>,
    imagePath: Slot<string>,
    audioBuffer: Slot<seq<bv8>>)

  /** What a node returns: messages to add, ids to remove, and keys to overwrite. */
  datatype Update = Update(
    added: seq<Message>,
    removed: seq<string>,
    summary: Slot<string>,
    workflow: Slot<string>,
    currentActivity: Slot<Option<string>>,
    applyActivity: Slot<bool>,
    memoryContext: Slot<string>,
    imagePath: Slot<string>,
    audioBuffer: Slot<seq<bv8>>)

  /** The empty update `{}`. */
  const NoUpdate: Update := Update([], [], Unset, Unset, Unset, Unset, Unset, Unset, Unset)

  /** A returned key replaces the stored one; an absent key leaves it. */
  function Overwrite<T>(stored: Slot<T>, returned: Slot<T>): (r: Slot<T>)
    ensures returned.Set? ==> r == returned
    ensures returned.Unset? ==> r == stored
  {
    if returned.Set? then returned else stored
  }

  /** The messages of `ms` whose id is not in `ids`, in their order. */
  function RemoveIds(ms: seq<Message>, ids: seq<string>): (r: seq<Message>)
    ensures |r| <= |ms|
    ensures forall m :: m in r <==> m in ms && m.id !in ids
  {
    if ms == [] then []
    else (if ms[0].id in ids then [] else [ms[0]]) + RemoveIds(ms[1..], ids)
  }

  /** Merging an update into the state. */
  function Merge(s: State, u: Update): State {
    State(
      RemoveIds(s.messages + u.added, u.removed),
      Overwrite(s.summary, u.summary),
      Overwrite(s.workflow, u.workflow),
      Overwrite(s.currentActivity, u.currentActivity),
      Overwrite(s.applyActivity, u.applyActivity),
      Overwrite(s.memoryContext, u.memoryContext),
      Overwrite(s.imagePath, u.imagePath),
      Overwrite(s.audioBuffer, u.audioBuffer))
  }

  /** The ids of `ms`, in order. */
  function Ids(ms: seq<Message>): (r: seq<string>)
    ensures |r| == |ms| && forall i :: 0 <= i < |ms| ==> r[i] == ms[i].id
  {
    seq(|ms|, i requires 0 <= i < |ms| => ms[i].id)
  }

  /** No two messages share an id. */
  predicate UniqueIds(ms: seq<Message>) {
    forall i, j :: 0 <= i < j < |ms| ==> ms[i].id != ms[j].id
  }

  /** Python's `s[-k:]` for `k > 0`: the last `k` elements, or all of them. */
  function Last<T>(s: seq<T>, k: nat): (r: seq<T>)
    requires k > 0
    ensures |r| == if |s| <= k then |s| else k
    ensures r == s[|s| - |r|..]
  {
    if |s| <= k then s else s[|s| - k..]
  }

  /** Python's `s[:-k]` for `k > 0`: everything but the last `k` elements. */
  function DropLast<T>(s: seq<T>, k: nat): (r: seq<T>)
    requires k > 0
    ensures |r| == if |s| <= k then 0 else |s| - k
    ensures r == s[..|r|]
  {
    if |s| <= k then [] else s[..|s| - k]
  }

  /** The two slices split the sequence. */
  lemma DropLastThenLast<T>(s: seq<T>, k: nat)
    requires k > 0
    ensures DropLast(s, k) + Last(s, k) == s
  {
  }

  /** The empty update changes nothing. */
  lemma MergeNoUpdate(s: State)
    ensures Merge(s, NoUpdate) == s
  {
    assert s.messages + [] == s.messages;
    RemoveNothing(s.messages, []);
  }

  /** An update that removes nothing appends its messages. */
  lemma MergeAppends(s: State, u: Update)
    requires u.removed == []
    ensures Merge(s, u).messages == s.messages + u.added
  {
    RemoveNothing(s.messages + u.added, []);
  }

  /** Removal distributes over concatenation. */
  lemma {:induction false} RemoveIdsAppend(a: seq<Message>, b: seq<Message>, ids: seq<string>)
    ensures RemoveIds(a + b, ids) == RemoveIds(a, ids) + RemoveIds(b, ids)
  {
    if a != [] {
      assert (a + b)[0] == a[0] && (a + b)[1..] == a[1..] + b;
      RemoveIdsAppend(a[1..], b, ids);
    } else {
      assert a + b == b;
    }
  }

  /** Removing ids no message carries keeps every message. */
  lemma {:induction false} RemoveNothing(ms: seq<Message>, ids: seq<string>)
    requires forall i :: 0 <= i < |ms| ==> ms[i].id !in ids
    ensures RemoveIds(ms, ids) == ms
  {
    if ms != [] {
      RemoveNothing(ms[1..], ids);
      assert ms == [ms[0]] + ms[1..];
    }
  }

  /** Removing the ids of every message removes them all. */
  lemma {:induction false} RemoveEverything(ms: seq<Message>, ids: seq<string>)
    requires forall i :: 0 <= i < |ms| ==> ms[i].id in ids
    ensures RemoveIds(ms, ids) == []
  {
    if ms != [] {
      RemoveEverything(ms[1..], ids);
    }
  }

  /**
    With unique ids, removing the ids of all but the last `k` messages
    leaves exactly the last `k` (all of them when there are no more than `k`).
   */
  lemma KeepLast(ms: seq<Message>, k: nat)
    requires k > 0 && UniqueIds(ms)
    ensures RemoveIds(ms, Ids(DropLast(ms, k))) == Last(ms, k)
  {
    var a, b := DropLast(ms, k), Last(ms, k);
    var ids := Ids(a);
    DropLastThenLast(ms, k);
    RemoveIdsAppend(a, b, ids);
    RemoveEverything(a, ids);
    forall i | 0 <= i < |b|
      ensures b[i].id !in ids
    {
      assert b[i] == ms[|a| + i];
      forall p | 0 <= p < |a|
        ensures ids[p] != b[i].id
      {
        assert ids[p] == ms[p].id;
      }
    }
    RemoveNothing(b, ids);
  }
}
