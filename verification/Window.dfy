/** The bounded window of decided attempts (src/engine.cpp:198-274): a deque of keys, a map from key to
    entry and a map from attempt id to key, kept in step by `insert`. */
module Windows {
  import opened Types
  import opened Digests

  datatype Key = Key(incarnation: u64, sequence: u64)

  datatype Entry = Entry(
    key: Key, attempt: Digest128, request: Digest, status: Status, applied: bool, view: CreditView)

  datatype Window = Window(order: seq<Key>, byKey: map<Key, Entry>, byAttempt: map<Digest128, Key>, limit: nat)

  function EmptyWindow(limit: nat): Window {
    Window([], map[], map[], if limit == 0 then 1 else limit)
  }

  function Push(w: Window, e: Entry): Window {
    var byAttempt := if e.key in w.byKey then w.byAttempt - {w.byKey[e.key].attempt} else w.byAttempt;
    Window(w.order + [e.key], w.byKey[e.key := e], byAttempt[e.attempt := e.key], w.limit)
  }

  function Drop(w: Window): Window
    requires w.order != []
  {
    var oldest := w.order[0];
    if oldest in w.byKey
    then Window(w.order[1..], w.byKey - {oldest}, w.byAttempt - {w.byKey[oldest].attempt}, w.limit)
    else w.(order := w.order[1..])
  }

  function Evict(w: Window): Window
    decreases |w.order|
  {
    if |w.order| > w.limit then Evict(Drop(w)) else w
  }

  function Insert(w: Window, e: Entry): Window { Evict(Push(w, e)) }

  /** The attempt id is known to the window. */
  predicate KnowsAttempt(w: Window, id: Digest128) {
    id in w.byAttempt && w.byAttempt[id] in w.byKey
  }

  ghost predicate NoDuplicates<T(!new)>(s: seq<T>) {
    forall i, j :: 0 <= i < j < |s| ==> s[i] != s[j]
  }

  /** The three containers describe the same attempts, at most `limit` of them. */
  ghost predicate Agrees(w: Window) {
    && 0 < w.limit
    && |w.order| <= w.limit
    && Linked(w)
  }

  ghost predicate Linked(w: Window) {
    && NoDuplicates(w.order)
    && (forall k :: k in w.byKey <==> k in w.order)
    && (forall k :: k in w.byKey ==> w.byKey[k].key == k)
    && (forall k :: k in w.byKey ==> w.byKey[k].attempt in w.byAttempt && w.byAttempt[w.byKey[k].attempt] == k)
    && (forall a :: a in w.byAttempt ==> w.byAttempt[a] in w.byKey && w.byKey[w.byAttempt[a]].attempt == a)
  }

  /** The last `n` elements of `s`. */
  function Last<T>(s: seq<T>, n: nat): seq<T> {
    if |s| <= n then s else s[|s| - n..]
  }

  lemma DropKeepsLinked(w: Window)
    requires Linked(w) && w.order != []
    ensures Linked(Drop(w)) && Drop(w).order == w.order[1..]
    ensures forall k :: k in Drop(w).byKey ==> Drop(w).byKey[k] == w.byKey[k]
  {
    var d := Drop(w);
    var oldest := w.order[0];
    forall k ensures k in d.byKey <==> k in d.order {
      if k in d.byKey {
        var i :| 0 <= i < |w.order| && w.order[i] == k;
        assert i != 0;
        assert d.order[i - 1] == k;
      }
      if k in d.order {
        var i :| 0 <= i < |d.order| && d.order[i] == k;
        assert w.order[i + 1] == k;
        assert k != oldest;
      }
    }
  }

  /** `insert` into a window within its limit evicts at most the oldest key. */
  lemma InsertCases(w: Window, e: Entry)
    requires |w.order| <= w.limit && 0 < w.limit
    ensures Insert(w, e) == if |w.order| < w.limit then Push(w, e) else Drop(Push(w, e))
  {
    var p := Push(w, e);
    if |p.order| > p.limit {
      assert Evict(p) == Evict(Drop(p));
    }
  }

  /** `insert` pushes the key at the back and pops from the front while over the limit, whatever the maps hold. */
  lemma InsertOrder(w: Window, e: Entry)
    requires |w.order| <= w.limit && 0 < w.limit
    ensures Insert(w, e).order == Last(w.order + [e.key], w.limit)
    ensures Insert(w, e).limit == w.limit
  {
    InsertCases(w, e);
  }

  lemma PushKeepsLinked(w: Window, e: Entry)
    requires Linked(w) && e.key !in w.byKey && e.attempt !in w.byAttempt
    ensures Linked(Push(w, e))
  {
    var p := Push(w, e);
    forall k ensures k in p.byKey <==> k in p.order {
      if k in p.byKey && k != e.key { assert k in w.order; }
      assert p.order[|w.order|] == e.key;
    }
    forall i, j | 0 <= i < j < |p.order| ensures p.order[i] != p.order[j] {
      assert p.order[i] in w.order;
    }
  }

  /** A fresh attempt under a fresh key keeps the three containers in agreement; what stays is the newest
      `limit` keys, with their entries. */
  lemma InsertKeepsAgreement(w: Window, e: Entry)
    requires Agrees(w) && e.key !in w.byKey && !KnowsAttempt(w, e.attempt)
    ensures Agrees(Insert(w, e))
    ensures Insert(w, e).order == Last(w.order + [e.key], w.limit)
    ensures e.key in Insert(w, e).byKey && Insert(w, e).byKey[e.key] == e
    ensures forall k :: k in Insert(w, e).byKey && k != e.key ==> k in w.byKey && Insert(w, e).byKey[k] == w.byKey[k]
    ensures Insert(w, e).byAttempt.Keys <= w.byAttempt.Keys + {e.attempt} && Insert(w, e).limit == w.limit
  {
    InsertCases(w, e);
    InsertOrder(w, e);
    PushKeepsLinked(w, e);
    if |w.order| == w.limit {
      DropKeepsLinked(Push(w, e));
    }
    var order := Insert(w, e).order;
    assert order[|order| - 1] == e.key;
    assert e.key in order;
  }

  /** The window as the code holds it, updated in place. */
  class AttemptWindow {
    var order: seq<Key>
    var byKey: map<Key, Entry>
    var byAttempt: map<Digest128, Key>
    const limit: nat

    function Contents(): Window
      reads this
    {
      Window(order, byKey, byAttempt, limit)
    }

    constructor (bound: nat)
      ensures Contents() == EmptyWindow(bound)
    {
      order, byKey, byAttempt := [], map[], map[];
      limit := if bound == 0 then 1 else bound;
    }

    /** The window an account holds, as an object. */
    constructor Of(w: Window)
      ensures Contents() == w
    {
      order, byKey, byAttempt, limit := w.order, w.byKey, w.byAttempt, w.limit;
    }

    method Find(key: Key) returns (e: Option<Entry>)
      ensures e.Some? <==> key in byKey
      ensures e.Some? ==> e.value == byKey[key]
    {
      e := if key in byKey then Some(byKey[key]) else None;
    }

    method FindByAttempt(id: Digest128) returns (e: Option<Entry>)
      ensures e.Some? <==> KnowsAttempt(Contents(), id)
      ensures e.Some? ==> e.value == byKey[byAttempt[id]]
    {
      if id !in byAttempt { return None; }
      e := Find(byAttempt[id]);
    }

    method Add(entry: Entry)
      modifies this
      ensures Contents() == Insert(old(Contents()), entry)
    {
      if entry.key in byKey {
        byAttempt := byAttempt - {byKey[entry.key].attempt};
      }
      byKey := byKey[entry.key := entry];
      byAttempt := byAttempt[entry.attempt := entry.key];
      order := order + [entry.key];
      ghost var target := Insert(old(Contents()), entry);
      while |order| > limit
        invariant Evict(Contents()) == target
      {
        var oldest := order[0];
        order := order[1..];
        if oldest in byKey {
          byAttempt := byAttempt - {byKey[oldest].attempt};
          byKey := byKey - {oldest};
        }
      }
    }

    method Identities() returns (out: seq<(u64, u64)>)
      ensures |out| == |order|
      ensures forall i :: 0 <= i < |order| ==> out[i] == (order[i].incarnation, order[i].sequence)
    {
      out := [];
      for i := 0 to |order|
        invariant |out| == i
        invariant forall j :: 0 <= j < i ==> out[j] == (order[j].incarnation, order[j].sequence)
      {
        out := out + [(order[i].incarnation, order[i].sequence)];
      }
    }
  }
}
