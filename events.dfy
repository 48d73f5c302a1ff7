/**
 * The event broker of src/components/base/Events.ts.
 *
 * The broker keeps a JavaScript `Map` from event keys (a literal name or a
 * regular expression) to a `Set` of callbacks. Both structures iterate in
 * insertion order, so the registry is a sequence of entries with distinct keys,
 * and each subscriber set a duplicate-free, non-empty sequence.
 *
 * Callbacks are opaque identities; a regular expression is an identity too
 * (a `Map` compares object keys by reference), and an emission is given the set
 * `matched` of the patterns whose `test(eventName)` holds. The payload type is a
 * parameter `D`. `Emit` does not run the callbacks: it returns, in order, the
 * calls it would make.
 */
module Events {
  import opened Js

  type CallbackId = nat

  /** An opaque value carried in an event payload. */
  type ValueId = nat

  /** A payload object: property names to values. */
  type Obj = map<string, ValueId>

  /** A registry key: `Lit("*")` is the wildcard subscription. */
  datatype Key = Lit(name: string) | Pat(regex: nat)

  type Entry = (Key, seq<CallbackId>)
  type Registry = seq<Entry>

  /** What a callback receives: the payload, or for the wildcard `{eventName, data}`. */
  datatype Arg<D> = Plain(data: D) | Wrapped(eventName: string, data: D)

  datatype Invocation<D> = Call(callback: CallbackId, arg: Arg<D>)

  const Wildcard: Key := Lit("*")

  predicate NoDuplicates(s: seq<CallbackId>)
  {
    s == [] || (s[0] !in s[1..] && NoDuplicates(s[1..]))
  }

  /** The keys of the registry, in insertion order. */
  function Keys(r: Registry): (ks: seq<Key>)
    ensures |ks| == |r|
    ensures forall i :: 0 <= i < |r| ==> ks[i] == r[i].0
  {
    if r == [] then [] else [r[0].0] + Keys(r[1..])
  }

  /** The registry invariant kept by `on`, `off` and `offAll`: distinct keys, non-empty sets. */
  predicate WellFormed(r: Registry)
  {
    r == [] || (r[0].0 !in Keys(r[1..]) && r[0].1 != [] && NoDuplicates(r[0].1) && WellFormed(r[1..]))
  }

  // ---------------------------------------------------------------------------
  // `Set` and `Map` operations, in insertion order

  /** `Set.prototype.add`: appends the element unless it is already there. */
  function SetAdd(s: seq<CallbackId>, c: CallbackId): (r: seq<CallbackId>)
    ensures c in r
    ensures forall x :: x in r <==> x in s || x == c
  {
    if c in s then s else s + [c]
  }

  lemma {:induction false} SetAddNoDuplicates(s: seq<CallbackId>, c: CallbackId)
    requires NoDuplicates(s)
    ensures NoDuplicates(SetAdd(s, c))
  {
    if c !in s && s != [] {
      assert (s + [c])[1..] == s[1..] + [c];
      SetAddNoDuplicates(s[1..], c);
    }
  }

  /** `Set.prototype.delete`: removes the element, keeping the others in order. */
  function SetDelete(s: seq<CallbackId>, c: CallbackId): (r: seq<CallbackId>)
    ensures forall x :: x in r <==> x in s && x != c
  {
    if s == [] then []
    else if s[0] == c then SetDelete(s[1..], c)
    else [s[0]] + SetDelete(s[1..], c)
  }

  lemma {:induction false} SetDeleteNoDuplicates(s: seq<CallbackId>, c: CallbackId)
    requires NoDuplicates(s)
    ensures NoDuplicates(SetDelete(s, c))
  {
    if s != [] {
      SetDeleteNoDuplicates(s[1..], c);
      if s[0] != c {
        assert ([s[0]] + SetDelete(s[1..], c))[1..] == SetDelete(s[1..], c);
      }
    }
  }

  /** A duplicate-free sequence holds each of its elements exactly once. */
  lemma {:induction false} OccursOnce(s: seq<CallbackId>, c: CallbackId)
    requires NoDuplicates(s) && c in s
    ensures multiset(s)[c] == 1
  {
    assert s == [s[0]] + s[1..];
    if s[0] != c {
      OccursOnce(s[1..], c);
    }
  }

  /** `Map.prototype.get`. */
  function Get(r: Registry, k: Key): (o: Option<seq<CallbackId>>)
    ensures o.None? <==> k !in Keys(r)
  {
    if r == [] then None
    else if r[0].0 == k then Some(r[0].1)
    else Get(r[1..], k)
  }

  /** The callbacks registered under `k` (none when the key is absent). */
  function SubscribersOf(r: Registry, k: Key): seq<CallbackId>
  {
    match Get(r, k)
    case Some(s) => s
    case None => []
  }

  /** In a well-formed registry, the entry at position `i` is what `get` finds for its key. */
  lemma {:induction false} GetAt(r: Registry, i: int)
    requires WellFormed(r) && 0 <= i < |r|
    ensures Get(r, r[i].0) == Some(r[i].1)
  {
    if i > 0 {
      assert Keys(r[1..])[i - 1] == r[i].0;
      GetAt(r[1..], i - 1);
    }
  }

  /** Whatever `get` finds is the value of some entry. */
  lemma {:induction false} GetSome(r: Registry, k: Key)
    requires Get(r, k).Some?
    ensures exists i :: 0 <= i < |r| && r[i] == (k, Get(r, k).value)
  {
    if r[0].0 == k {
      assert r[0] == (k, Get(r, k).value);
    } else {
      GetSome(r[1..], k);
      var i :| 0 <= i < |r[1..]| && r[1..][i] == (k, Get(r[1..], k).value);
      assert r[i + 1] == r[1..][i];
    }
  }

  /** In a well-formed registry every subscriber set is duplicate-free, and non-empty when present. */
  lemma {:induction false} SubscribersWellFormed(r: Registry, k: Key)
    requires WellFormed(r)
    ensures NoDuplicates(SubscribersOf(r, k))
    ensures k in Keys(r) ==> SubscribersOf(r, k) != []
  {
    if r != [] && r[0].0 != k {
      SubscribersWellFormed(r[1..], k);
    }
  }

  /** Every entry of a well-formed registry holds a non-empty, duplicate-free set. */
  lemma {:induction false} EntriesWellFormed(r: Registry, i: int)
    requires WellFormed(r) && 0 <= i < |r|
    ensures r[i].1 != [] && NoDuplicates(r[i].1)
  {
    if i > 0 {
      EntriesWellFormed(r[1..], i - 1);
    }
  }

  /** `Map.prototype.set`: replaces the value in place, or appends a new entry. */
  function Put(r: Registry, k: Key, v: seq<CallbackId>): Registry
  {
    if r == [] then [(k, v)]
    else if r[0].0 == k then [(k, v)] + r[1..]
    else [r[0]] + Put(r[1..], k, v)
  }

  /** `set` leaves the order of the keys alone, or appends a new key at the end. */
  lemma {:induction false} PutKeys(r: Registry, k: Key, v: seq<CallbackId>)
    ensures Keys(Put(r, k, v)) == if k in Keys(r) then Keys(r) else Keys(r) + [k]
  {
    if r != [] && r[0].0 != k {
      PutKeys(r[1..], k, v);
    }
  }

  /** After `set(k, v)`, `get(k)` is `v` and every other key reads as before. */
  lemma {:induction false} PutGet(r: Registry, k: Key, v: seq<CallbackId>, k': Key)
    ensures Get(Put(r, k, v), k') == if k' == k then Some(v) else Get(r, k')
  {
    if r != [] && r[0].0 != k {
      PutGet(r[1..], k, v, k');
    }
  }

  /** `set` with a non-empty, duplicate-free value keeps the registry well formed. */
  lemma {:induction false} PutWellFormed(r: Registry, k: Key, v: seq<CallbackId>)
    requires WellFormed(r) && v != [] && NoDuplicates(v)
    ensures WellFormed(Put(r, k, v))
  {
    if r != [] && r[0].0 != k {
      PutWellFormed(r[1..], k, v);
      PutKeys(r[1..], k, v);
    }
  }

  /** A second `set` of the same key overrides the first. */
  lemma {:induction false} PutPut(r: Registry, k: Key, v: seq<CallbackId>, w: seq<CallbackId>)
    ensures Put(Put(r, k, v), k, w) == Put(r, k, w)
  {
    if r != [] && r[0].0 != k {
      PutPut(r[1..], k, v, w);
    }
  }

  /** Setting a key to the value it already has changes nothing. */
  lemma {:induction false} PutExisting(r: Registry, k: Key)
    requires k in Keys(r)
    ensures Put(r, k, SubscribersOf(r, k)) == r
  {
    if r[0].0 != k {
      PutExisting(r[1..], k);
    }
  }

  /** `Map.prototype.delete`: removes the entry of the key, if there is one. */
  function Remove(r: Registry, k: Key): Registry
  {
    if r == [] then []
    else if r[0].0 == k then r[1..]
    else [r[0]] + Remove(r[1..], k)
  }

  /** Deleting right after a `set` of the same key is deleting the key. */
  lemma {:induction false} RemovePut(r: Registry, k: Key, v: seq<CallbackId>)
    requires k in Keys(r)
    ensures Remove(Put(r, k, v), k) == Remove(r, k)
  {
    if r[0].0 != k {
      RemovePut(r[1..], k, v);
    }
  }

  /** Deleting a key that is not there changes nothing. */
  lemma {:induction false} RemoveAbsent(r: Registry, k: Key)
    requires k !in Keys(r)
    ensures Remove(r, k) == r
  {
    if r != [] {
      assert Keys(r)[0] == r[0].0;
      assert Keys(r[1..]) == Keys(r)[1..];
      RemoveAbsent(r[1..], k);
    }
  }

  /** Deleting a key cuts out its first entry and keeps the others in order. */
  lemma {:induction false} RemoveAt(r: Registry, k: Key, i: nat)
    requires i < |r| && r[i].0 == k
    requires forall j :: 0 <= j < i ==> r[j].0 != k
    ensures Remove(r, k) == r[..i] + r[i + 1..]
  {
    if i == 0 {
      assert r[..0] + r[1..] == r[1..];
    } else {
      var t := r[1..];
      assert forall j :: 0 <= j < i - 1 ==> t[j].0 != k by {
        forall j | 0 <= j < i - 1 ensures t[j].0 != k {
          assert t[j] == r[j + 1];
        }
      }
      assert r[0].0 != k;
      assert Remove(r, k) == [r[0]] + Remove(t, k);
      RemoveAt(t, k, i - 1);
      assert r[..i] == [r[0]] + t[..i - 1];
      assert r[i + 1..] == t[i..];
    }
  }

  /** Deleting a key that is there cuts its entry out of the sequence. */
  lemma {:induction false} RemoveCutsEntry(r: Registry, k: Key)
    requires k in Keys(r)
    ensures exists i :: 0 <= i < |r| && r[i].0 == k && Remove(r, k) == r[..i] + r[i + 1..]
  {
    var i := FirstKeyIndex(r, k);
    RemoveAt(r, k, i);
  }

  /** The position of the first entry of `k`. */
  function FirstKeyIndex(r: Registry, k: Key): (i: nat)
    requires k in Keys(r)
    ensures i < |r| && r[i].0 == k
    ensures forall j :: 0 <= j < i ==> r[j].0 != k
  {
    if r[0].0 == k then 0
    else
      assert Keys(r[1..]) == Keys(r)[1..];
      var i := FirstKeyIndex(r[1..], k);
      assert forall j :: 1 <= j < i + 1 ==> r[j] == r[1..][j - 1];
      i + 1
  }

  /**
   * `delete(k)` drops exactly the entry of `k`: other keys keep their values,
   * and the remaining entries keep their order.
   */
  lemma {:induction false} RemoveEffect(r: Registry, k: Key)
    requires WellFormed(r)
    ensures WellFormed(Remove(r, k))
    ensures forall k' :: k' in Keys(Remove(r, k)) <==> k' in Keys(r) && k' != k
    ensures forall k' :: k' != k ==> Get(Remove(r, k), k') == Get(r, k')
    ensures k !in Keys(r) ==> Remove(r, k) == r
    ensures k in Keys(r) ==> exists i :: 0 <= i < |r| && r[i].0 == k && Remove(r, k) == r[..i] + r[i + 1..]
  {
    RemoveEffectKeys(r, k);
    if k in Keys(r) {
      RemoveCutsEntry(r, k);
    } else {
      RemoveAbsent(r, k);
    }
  }

  lemma {:induction false} RemoveEffectKeys(r: Registry, k: Key)
    requires WellFormed(r)
    ensures WellFormed(Remove(r, k))
    ensures forall k' :: k' in Keys(Remove(r, k)) <==> k' in Keys(r) && k' != k
    ensures forall k' :: k' != k ==> Get(Remove(r, k), k') == Get(r, k')
  {
    if r != [] && r[0].0 != k {
      RemoveEffectKeys(r[1..], k);
    }
  }

  // ---------------------------------------------------------------------------
  // The effect of `on` and `off` on the registry

  /** The registry after `on(k, c)`. */
  function Subscribe(r: Registry, k: Key, c: CallbackId): Registry
  {
    Put(r, k, SetAdd(SubscribersOf(r, k), c))
  }

  /** The registry after `off(k, c)`. */
  function Unsubscribe(r: Registry, k: Key, c: CallbackId): Registry
  {
    if k !in Keys(r) then r
    else
      var rest := SetDelete(SubscribersOf(r, k), c);
      if rest == [] then Remove(r, k) else Put(r, k, rest)
  }

  /**
   * `on(k, c)` adds `c` to the set of `k` (a new key goes last), leaves every
   * other key as it was, and keeps the registry well formed.
   */
  lemma SubscribeEffect(r: Registry, k: Key, c: CallbackId)
    ensures SubscribersOf(Subscribe(r, k, c), k) == SetAdd(SubscribersOf(r, k), c)
    ensures forall k' :: k' != k ==> Get(Subscribe(r, k, c), k') == Get(r, k')
    ensures Keys(Subscribe(r, k, c)) == if k in Keys(r) then Keys(r) else Keys(r) + [k]
    ensures WellFormed(r) ==> WellFormed(Subscribe(r, k, c))
  {
    var v := SetAdd(SubscribersOf(r, k), c);
    PutKeys(r, k, v);
    PutGet(r, k, v, k);
    forall k' | k' != k ensures Get(Subscribe(r, k, c), k') == Get(r, k') {
      PutGet(r, k, v, k');
    }
    if WellFormed(r) {
      SubscribersWellFormed(r, k);
      SetAddNoDuplicates(SubscribersOf(r, k), c);
      PutWellFormed(r, k, v);
    }
  }

  /**
   * `off(k, c)` removes `c` from the set of `k`, drops the key exactly when no
   * other callback is left under it, leaves every other key as it was, and
   * changes nothing when `k` is not registered.
   */
  lemma UnsubscribeEffect(r: Registry, k: Key, c: CallbackId)
    requires WellFormed(r)
    ensures WellFormed(Unsubscribe(r, k, c))
    ensures k !in Keys(r) ==> Unsubscribe(r, k, c) == r
    ensures c !in SubscribersOf(Unsubscribe(r, k, c), k)
    ensures forall x :: x != c ==> (x in SubscribersOf(Unsubscribe(r, k, c), k) <==> x in SubscribersOf(r, k))
    ensures k in Keys(Unsubscribe(r, k, c)) <==> exists x :: x in SubscribersOf(r, k) && x != c
    ensures forall k' :: k' != k ==> Get(Unsubscribe(r, k, c), k') == Get(r, k')
  {
    SubscribersWellFormed(r, k);
    if k in Keys(r) {
      var rest := SetDelete(SubscribersOf(r, k), c);
      SetDeleteNoDuplicates(SubscribersOf(r, k), c);
      if rest == [] {
        RemoveEffect(r, k);
        forall x | x in SubscribersOf(r, k) ensures x == c {
          assert x !in rest;
        }
      } else {
        assert rest[0] in SubscribersOf(r, k) && rest[0] != c;
        PutKeys(r, k, rest);
        PutGet(r, k, rest, k);
        forall k' | k' != k ensures Get(Unsubscribe(r, k, c), k') == Get(r, k') {
          PutGet(r, k, rest, k');
        }
        PutWellFormed(r, k, rest);
      }
    }
  }

  /**
   * Subscribing the same callback twice under the same key is the same as
   * subscribing it once, and leaves exactly one registration of it.
   */
  lemma SubscribeIdempotent(r: Registry, k: Key, c: CallbackId)
    requires WellFormed(r)
    ensures Subscribe(Subscribe(r, k, c), k, c) == Subscribe(r, k, c)
    ensures multiset(SubscribersOf(Subscribe(r, k, c), k))[c] == 1
  {
    var r1 := Subscribe(r, k, c);
    var s := SubscribersOf(r, k);
    SubscribersWellFormed(r, k);
    SetAddNoDuplicates(s, c);
    SubscribeEffect(r, k, c);
    assert SetAdd(SetAdd(s, c), c) == SetAdd(s, c);
    PutExisting(r1, k);
    OccursOnce(SetAdd(s, c), c);
  }

  // ---------------------------------------------------------------------------
  // What `emit` calls

  /** Whether a registry key selects the literal event name `name`. */
  predicate KeyMatches(k: Key, name: string, matched: set<nat>)
  {
    match k
    case Lit(s) => s == name
    case Pat(p) => p in matched
  }

  /** The calls of `subscribers` with the wildcard argument `{eventName, data}`. */
  function WrappedCalls<D>(subscribers: seq<CallbackId>, eventName: string, data: D): (calls: seq<Invocation<D>>)
    ensures |calls| == |subscribers|
  {
    if subscribers == [] then []
    else WrappedCalls(subscribers[..|subscribers| - 1], eventName, data) + [Call(subscribers[|subscribers| - 1], Wrapped(eventName, data))]
  }

  /** The calls of `subscribers` with the payload alone. */
  function PlainCalls<D>(subscribers: seq<CallbackId>, data: D): (calls: seq<Invocation<D>>)
    ensures |calls| == |subscribers|
  {
    if subscribers == [] then []
    else PlainCalls(subscribers[..|subscribers| - 1], data) + [Call(subscribers[|subscribers| - 1], Plain(data))]
  }

  lemma {:induction false} WrappedCallsMembers<D>(s: seq<CallbackId>, eventName: string, data: D, x: Invocation<D>)
    ensures x in WrappedCalls(s, eventName, data) <==> x.arg == Wrapped(eventName, data) && x.callback in s
  {
    if s != [] {
      WrappedCallsMembers(s[..|s| - 1], eventName, data, x);
      assert s == s[..|s| - 1] + [s[|s| - 1]];
    }
  }

  lemma {:induction false} PlainCallsCount<D>(s: seq<CallbackId>, data: D, x: Invocation<D>)
    ensures multiset(PlainCalls(s, data))[x] == if x.arg == Plain(data) then multiset(s)[x.callback] else 0
  {
    if s != [] {
      PlainCallsCount(s[..|s| - 1], data, x);
      assert s == s[..|s| - 1] + [s[|s| - 1]];
    }
  }

  lemma PlainCallsMembers<D>(s: seq<CallbackId>, data: D, x: Invocation<D>)
    ensures x in PlainCalls(s, data) <==> x.arg == Plain(data) && x.callback in s
  {
    PlainCallsCount(s, data, x);
  }

  /** The calls one registry entry contributes to an emission: wildcard first, then a match. */
  function EntryCalls<D>(e: Entry, eventName: string, data: D, matched: set<nat>): seq<Invocation<D>>
  {
    (if e.0 == Wildcard then WrappedCalls(e.1, eventName, data) else [])
    + (if KeyMatches(e.0, eventName, matched) then PlainCalls(e.1, data) else [])
  }

  /** The calls of `emit(eventName, data)`, entry by entry in insertion order. */
  function Dispatch<D>(r: Registry, eventName: string, data: D, matched: set<nat>): seq<Invocation<D>>
  {
    if r == [] then []
    else Dispatch(r[..|r| - 1], eventName, data, matched) + EntryCalls(r[|r| - 1], eventName, data, matched)
  }

  lemma WrappedCallsStep<D>(s: seq<CallbackId>, j: int, eventName: string, data: D)
    requires 0 <= j < |s|
    ensures WrappedCalls(s[..j + 1], eventName, data) == WrappedCalls(s[..j], eventName, data) + [Call(s[j], Wrapped(eventName, data))]
  {
    assert s[..j + 1][..j] == s[..j];
  }

  lemma PlainCallsStep<D>(s: seq<CallbackId>, j: int, data: D)
    requires 0 <= j < |s|
    ensures PlainCalls(s[..j + 1], data) == PlainCalls(s[..j], data) + [Call(s[j], Plain(data))]
  {
    assert s[..j + 1][..j] == s[..j];
  }

  lemma DispatchStep<D>(r: Registry, i: int, eventName: string, data: D, matched: set<nat>)
    requires 0 <= i < |r|
    ensures Dispatch(r[..i + 1], eventName, data, matched) == Dispatch(r[..i], eventName, data, matched) + EntryCalls(r[i], eventName, data, matched)
  {
    assert r[..i + 1][..i] == r[..i];
  }

  /** Which calls one entry contributes, by argument shape. */
  lemma EntryCallsMembers<D>(e: Entry, eventName: string, data: D, matched: set<nat>, c: CallbackId)
    ensures Call(c, Plain(data)) in EntryCalls(e, eventName, data, matched) <==> KeyMatches(e.0, eventName, matched) && c in e.1
    ensures Call(c, Wrapped(eventName, data)) in EntryCalls(e, eventName, data, matched) <==> e.0 == Wildcard && c in e.1
  {
    WrappedCallsMembers(e.1, eventName, data, Call(c, Plain(data)));
    WrappedCallsMembers(e.1, eventName, data, Call(c, Wrapped(eventName, data)));
    PlainCallsMembers(e.1, data, Call(c, Plain(data)));
    PlainCallsMembers(e.1, data, Call(c, Wrapped(eventName, data)));
  }

  /** A call is made by the whole registry when it is made by the entries before the last, or by the last. */
  lemma DispatchMembers<D>(r: Registry, eventName: string, data: D, matched: set<nat>, x: Invocation<D>)
    requires r != []
    ensures x in Dispatch(r, eventName, data, matched)
            <==> x in Dispatch(r[..|r| - 1], eventName, data, matched) || x in EntryCalls(r[|r| - 1], eventName, data, matched)
  {
  }

  /** Every payload call of an emission comes from a selecting entry that holds the callback. */
  lemma {:induction false} DispatchPlainFrom<D>(r: Registry, eventName: string, data: D, matched: set<nat>, c: CallbackId)
    requires Call(c, Plain(data)) in Dispatch(r, eventName, data, matched)
    ensures exists i :: 0 <= i < |r| && KeyMatches(r[i].0, eventName, matched) && c in r[i].1
  {
    var init := r[..|r| - 1];
    var x := Call(c, Plain(data));
    DispatchMembers(r, eventName, data, matched, x);
    EntryCallsMembers(r[|r| - 1], eventName, data, matched, c);
    if x in Dispatch(init, eventName, data, matched) {
      DispatchPlainFrom(init, eventName, data, matched, c);
      var i :| 0 <= i < |init| && KeyMatches(init[i].0, eventName, matched) && c in init[i].1;
      assert r[i] == init[i];
    }
  }

  /** Every selecting entry that holds a callback makes the emission call it with the payload. */
  lemma {:induction false} DispatchPlainTo<D>(r: Registry, eventName: string, data: D, matched: set<nat>, c: CallbackId, i: int)
    requires 0 <= i < |r| && KeyMatches(r[i].0, eventName, matched) && c in r[i].1
    ensures Call(c, Plain(data)) in Dispatch(r, eventName, data, matched)
  {
    var init := r[..|r| - 1];
    var last := EntryCalls(r[|r| - 1], eventName, data, matched);
    assert Dispatch(r, eventName, data, matched) == Dispatch(init, eventName, data, matched) + last;
    if i < |init| {
      assert init[i] == r[i];
      DispatchPlainTo(init, eventName, data, matched, c, i);
    } else {
      EntryCallsMembers(r[i], eventName, data, matched, c);
      assert Call(c, Plain(data)) in last;
    }
  }

  /**
   * A callback is called with the bare payload exactly when some key that
   * equals the name, or a pattern that matches it, holds that callback.
   */
  lemma DispatchPlainIff<D>(r: Registry, eventName: string, data: D, matched: set<nat>, c: CallbackId)
    ensures Call(c, Plain(data)) in Dispatch(r, eventName, data, matched)
            <==> exists i :: 0 <= i < |r| && KeyMatches(r[i].0, eventName, matched) && c in r[i].1
  {
    if Call(c, Plain(data)) in Dispatch(r, eventName, data, matched) {
      DispatchPlainFrom(r, eventName, data, matched, c);
    }
    forall i | 0 <= i < |r| && KeyMatches(r[i].0, eventName, matched) && c in r[i].1
      ensures Call(c, Plain(data)) in Dispatch(r, eventName, data, matched)
    {
      DispatchPlainTo(r, eventName, data, matched, c, i);
    }
  }

  /** Every wildcard call of an emission comes from the `"*"` entry holding the callback. */
  lemma {:induction false} DispatchWrappedFrom<D>(r: Registry, eventName: string, data: D, matched: set<nat>, c: CallbackId)
    requires Call(c, Wrapped(eventName, data)) in Dispatch(r, eventName, data, matched)
    ensures exists i :: 0 <= i < |r| && r[i].0 == Wildcard && c in r[i].1
  {
    var init := r[..|r| - 1];
    var x := Call(c, Wrapped(eventName, data));
    DispatchMembers(r, eventName, data, matched, x);
    EntryCallsMembers(r[|r| - 1], eventName, data, matched, c);
    if x in Dispatch(init, eventName, data, matched) {
      DispatchWrappedFrom(init, eventName, data, matched, c);
      var i :| 0 <= i < |init| && init[i].0 == Wildcard && c in init[i].1;
      assert r[i] == init[i];
    }
  }

  /** A callback subscribed under `"*"` is called with `{eventName, data}`. */
  lemma {:induction false} DispatchWrappedTo<D>(r: Registry, eventName: string, data: D, matched: set<nat>, c: CallbackId, i: int)
    requires 0 <= i < |r| && r[i].0 == Wildcard && c in r[i].1
    ensures Call(c, Wrapped(eventName, data)) in Dispatch(r, eventName, data, matched)
  {
    var init := r[..|r| - 1];
    var last := EntryCalls(r[|r| - 1], eventName, data, matched);
    assert Dispatch(r, eventName, data, matched) == Dispatch(init, eventName, data, matched) + last;
    if i < |init| {
      assert init[i] == r[i];
      DispatchWrappedTo(init, eventName, data, matched, c, i);
    } else {
      EntryCallsMembers(r[i], eventName, data, matched, c);
      assert Call(c, Wrapped(eventName, data)) in last;
    }
  }

  /** A callback receives `{eventName, data}` exactly when it is subscribed under `"*"`. */
  lemma DispatchWrappedIff<D>(r: Registry, eventName: string, data: D, matched: set<nat>, c: CallbackId)
    ensures Call(c, Wrapped(eventName, data)) in Dispatch(r, eventName, data, matched)
            <==> exists i :: 0 <= i < |r| && r[i].0 == Wildcard && c in r[i].1
  {
    if Call(c, Wrapped(eventName, data)) in Dispatch(r, eventName, data, matched) {
      DispatchWrappedFrom(r, eventName, data, matched, c);
    }
    forall i | 0 <= i < |r| && r[i].0 == Wildcard && c in r[i].1
      ensures Call(c, Wrapped(eventName, data)) in Dispatch(r, eventName, data, matched)
    {
      DispatchWrappedTo(r, eventName, data, matched, c, i);
    }
  }

  /** An emission that no key selects, with no wildcard subscription, calls nothing. */
  lemma {:induction false} DispatchNone<D>(r: Registry, eventName: string, data: D, matched: set<nat>)
    requires forall i :: 0 <= i < |r| ==> r[i].0 != Wildcard && !KeyMatches(r[i].0, eventName, matched)
    ensures Dispatch(r, eventName, data, matched) == []
  {
    if r != [] {
      var init := r[..|r| - 1];
      assert forall i :: 0 <= i < |init| ==> init[i] == r[i];
      DispatchNone(init, eventName, data, matched);
    }
  }

  /** The number of entries that select `eventName` and hold `c`. */
  function MatchingRegistrations(r: Registry, eventName: string, matched: set<nat>, c: CallbackId): nat
  {
    if r == [] then 0
    else MatchingRegistrations(r[..|r| - 1], eventName, matched, c)
         + (if KeyMatches(r[|r| - 1].0, eventName, matched) && c in r[|r| - 1].1 then 1 else 0)
  }

  /**
   * Each subscriber set holds a callback at most once, so an emission calls a
   * callback with the payload once per selecting key that holds it: never
   * twice for one key, however often it was subscribed.
   */
  lemma {:induction false} DispatchCount<D>(r: Registry, eventName: string, data: D, matched: set<nat>, c: CallbackId)
    requires forall i :: 0 <= i < |r| ==> NoDuplicates(r[i].1)
    ensures multiset(Dispatch(r, eventName, data, matched))[Call(c, Plain(data))]
            == MatchingRegistrations(r, eventName, matched, c)
  {
    if r != [] {
      var init, last := r[..|r| - 1], r[|r| - 1];
      assert forall i :: 0 <= i < |init| ==> init[i] == r[i];
      DispatchCount(init, eventName, data, matched, c);
      var x := Call(c, Plain(data));
      WrappedCallsMembers(last.1, eventName, data, x);
      PlainCallsCount(last.1, data, x);
      if c in last.1 {
        OccursOnce(last.1, c);
      }
    }
  }

  /** In a well-formed registry, every entry's set is duplicate-free, so `DispatchCount` applies. */
  lemma WellFormedDispatchCount<D>(r: Registry, eventName: string, data: D, matched: set<nat>, c: CallbackId)
    requires WellFormed(r)
    ensures multiset(Dispatch(r, eventName, data, matched))[Call(c, Plain(data))]
            == MatchingRegistrations(r, eventName, matched, c)
  {
    forall i | 0 <= i < |r| ensures NoDuplicates(r[i].1) {
      EntriesWellFormed(r, i);
    }
    DispatchCount(r, eventName, data, matched, c);
  }

  /**
   * After `off(k, c)`, an emission no longer calls `c` with the payload,
   * provided `k` was the only selecting key that held it.
   */
  lemma OffStopsCalls<D>(r: Registry, k: Key, c: CallbackId, eventName: string, data: D, matched: set<nat>)
    requires WellFormed(r)
    requires forall i :: 0 <= i < |r| && r[i].0 != k && KeyMatches(r[i].0, eventName, matched) ==> c !in r[i].1
    ensures Call(c, Plain(data)) !in Dispatch(Unsubscribe(r, k, c), eventName, data, matched)
  {
    var r' := Unsubscribe(r, k, c);
    UnsubscribeEffect(r, k, c);
    DispatchPlainIff(r', eventName, data, matched, c);
    forall i | 0 <= i < |r'| && KeyMatches(r'[i].0, eventName, matched) ensures c !in r'[i].1 {
      var key := r'[i].0;
      GetAt(r', i);
      if key != k {
        assert Get(r, key) == Some(r'[i].1);
        GetSome(r, key);
      }
    }
  }

  /** `{ ...(event || {}), ...(context || {}) }`: the context's properties win. */
  function TriggerData(event: Option<Obj>, context: Option<Obj>): (d: Obj)
    ensures d.Keys == (if event.Some? then event.value.Keys else {}) + (if context.Some? then context.value.Keys else {})
    ensures context.Some? ==> forall p :: p in context.value ==> d[p] == context.value[p]
    ensures event.Some? ==> forall p :: p in event.value && (context.None? || p !in context.value) ==> d[p] == event.value[p]
  {
    (match event case Some(e) => e case None => map[])
    + (match context case Some(c) => c case None => map[])
  }

  /**
   * The body of the `forEach` over the registry in `emit`: the calls one
   * entry makes, wildcard subscribers first, then a matching key's subscribers.
   */
  method EmitEntry<D>(entry: Entry, eventName: string, data: D, matched: set<nat>) returns (calls: seq<Invocation<D>>)
    ensures calls == EntryCalls(entry, eventName, data, matched)
  {
    var (name, subscribers) := entry;
    calls := [];
    if name == Wildcard {
      var j := 0;
      while j < |subscribers|
        invariant 0 <= j <= |subscribers|
        invariant calls == WrappedCalls(subscribers[..j], eventName, data)
      {
        WrappedCallsStep(subscribers, j, eventName, data);
        calls := calls + [Call(subscribers[j], Wrapped(eventName, data))];
        j := j + 1;
      }
      assert subscribers[..j] == subscribers;
    }
    ghost var wrapped := calls;
    if KeyMatches(name, eventName, matched) {
      var j := 0;
      while j < |subscribers|
        invariant 0 <= j <= |subscribers|
        invariant calls == wrapped + PlainCalls(subscribers[..j], data)
      {
        PlainCallsStep(subscribers, j, data);
        calls := calls + [Call(subscribers[j], Plain(data))];
        j := j + 1;
      }
      assert subscribers[..j] == subscribers;
    }
  }

  /** `EventEmitter`: the registry `_events`, mutated by `on`, `off` and `offAll`. */
  class EventEmitter {
    var events: Registry

    ghost predicate Valid()
      reads this
    {
      WellFormed(events)
    }

    constructor ()
      ensures Valid() && events == []
    {
      events := [];
    }

    /** `on`: create the key's set if it is missing, then add the callback to it. */
    method On(key: Key, callback: CallbackId)
      requires Valid()
      modifies this
      ensures Valid()
      ensures events == Subscribe(old(events), key, callback)
    {
      SubscribeEffect(events, key, callback);
      ghost var r := events;
      if Get(events, key).None? {
        events := Put(events, key, []);
        PutGet(r, key, [], key);
      }
      var subscribers := Get(events, key).value;
      assert subscribers == SubscribersOf(r, key);
      PutPut(r, key, [], SetAdd(subscribers, callback));
      events := Put(events, key, SetAdd(subscribers, callback));
    }

    /** `off`: delete the callback from the key's set, and the key once its set is empty. */
    method Off(key: Key, callback: CallbackId)
      requires Valid()
      modifies this
      ensures Valid()
      ensures events == Unsubscribe(old(events), key, callback)
    {
      UnsubscribeEffect(events, key, callback);
      ghost var r := events;
      if Get(events, key).Some? {
        var rest := SetDelete(Get(events, key).value, callback);
        events := Put(events, key, rest);
        PutGet(r, key, rest, key);
        if Get(events, key).value == [] {
          RemovePut(r, key, rest);
          events := Remove(events, key);
        }
      }
    }

    /**
     * `emit`: walk the entries in insertion order; a `"*"` entry calls each of
     * its subscribers with `{eventName, data}`, and an entry whose key is the
     * name, or a pattern that matches it, calls each with `data`.
     */
    method Emit<D>(eventName: string, data: D, matched: set<nat>) returns (calls: seq<Invocation<D>>)
      ensures calls == Dispatch(events, eventName, data, matched)
    {
      calls := [];
      var i := 0;
      while i < |events|
        invariant 0 <= i <= |events|
        invariant calls == Dispatch(events[..i], eventName, data, matched)
      {
        var entryCalls := EmitEntry(events[i], eventName, data, matched);
        DispatchStep(events, i, eventName, data, matched);
        calls := calls + entryCalls;
        i := i + 1;
      }
      assert events[..i] == events;
    }

    /** `onAll`: subscribe to every event through the `"*"` key. */
    method OnAll(callback: CallbackId)
      requires Valid()
      modifies this
      ensures Valid()
      ensures events == Subscribe(old(events), Wildcard, callback)
    {
      On(Wildcard, callback);
    }

    /** `offAll`: replace the registry with an empty one. */
    method OffAll()
      modifies this
      ensures Valid() && events == []
    {
      events := [];
    }

    /** Calling the function returned by `trigger(eventName, context)` with `event`. */
    method Trigger(eventName: string, context: Option<Obj>, event: Option<Obj>, matched: set<nat>)
      returns (calls: seq<Invocation<Option<Obj>>>)
      ensures calls == Dispatch(events, eventName, Some(TriggerData(event, context)), matched)
    {
      calls := Emit(eventName, Some(TriggerData(event, context)), matched);
    }
  }
}
