/** Job result subscriptions: a table of entry lists edited in place. */
module Subscriptions {
  import opened Machine

  /** A job type or a related id. */
  datatype Key = Key(name: string)

  datatype SubID = SubID(name: string)

  /** A subscription: its id and the callback, which is not interpreted. */
  datatype Entry = Entry(subID: SubID, subFunc: nat)

  datatype Error = SubscriptionExists | SubscriptionNotFound

  type Table = map<Key, seq<Entry>>

  /** A key's list; a missing key reads as an empty one. */
  function At(subs: Table, key: Key): seq<Entry> {
    if key in subs then subs[key] else []
  }

  predicate HasID(es: seq<Entry>, subID: SubID) {
    exists i :: 0 <= i < |es| && es[i].subID == subID
  }

  /** The list without the first entry of an id, the others in their order. */
  function Removed(es: seq<Entry>, subID: SubID): seq<Entry> {
    if es == [] then [] else if es[0].subID == subID then es[1..] else [es[0]] + Removed(es[1..], subID)
  }

  /** No key holds two entries of one id. */
  ghost predicate UniqueIDs(subs: Table) {
    forall key :: Distinct(At(subs, key))
  }

  ghost predicate Distinct(es: seq<Entry>) {
    forall i, j :: 0 <= i < j < |es| ==> es[i].subID != es[j].subID
  }

  /** Two tables that list the same entries under every key. */
  ghost predicate SameLists(s: Table, t: Table) {
    forall key :: At(s, key) == At(t, key)
  }

  /** Every one of the keys gains the entry at the end of its list, no other key changes. */
  ghost predicate Gained(before: Table, after: Table, keys: seq<Key>, e: Entry) {
    forall key :: At(after, key) == At(before, key) + if key in keys then [e] else []
  }

  /** Every one of the keys lost its entry of the id, no other key changes. */
  ghost predicate Lost(before: Table, after: Table, keys: seq<Key>, subID: SubID) {
    forall key :: At(after, key) == if key in keys then Removed(At(before, key), subID) else At(before, key)
  }

  /** The keys are distinct, and none of them has the id yet. */
  ghost predicate CanSubscribe(subs: Table, keys: seq<Key>, subID: SubID) {
    && (forall i, j :: 0 <= i < j < |keys| ==> keys[i] != keys[j])
    && forall i :: 0 <= i < |keys| ==> !HasID(At(subs, keys[i]), subID)
  }

  /** The keys are distinct, and all of them have the id. */
  ghost predicate CanUnsubscribe(subs: Table, keys: seq<Key>, subID: SubID) {
    && (forall i, j :: 0 <= i < j < |keys| ==> keys[i] != keys[j])
    && forall i :: 0 <= i < |keys| ==> HasID(At(subs, keys[i]), subID)
  }

  /** The entries of all other ids, in their order. */
  function Others(es: seq<Entry>, subID: SubID): seq<Entry> {
    if es == [] then [] else (if es[0].subID == subID then [] else [es[0]]) + Others(es[1..], subID)
  }

  // ---- list facts ----

  lemma {:induction false} RemovedAt(es: seq<Entry>, subID: SubID, i: nat)
    requires i < |es| && es[i].subID == subID && !HasID(es[..i], subID)
    ensures Removed(es, subID) == es[..i] + es[i + 1..]
  {
    if i > 0 {
      assert es[..i][0].subID != subID;
      var front := es[1..][..i - 1];
      forall k | 0 <= k < |front| ensures front[k].subID != subID {
        assert es[..i][k + 1].subID != subID;
      }
      RemovedAt(es[1..], subID, i - 1);
    }
  }

  lemma RemovedAppended(es: seq<Entry>, e: Entry)
    requires !HasID(es, e.subID)
    ensures Removed(es + [e], e.subID) == es
  {
    assert (es + [e])[..|es|] == es;
    RemovedAt(es + [e], e.subID, |es|);
  }

  lemma {:induction false} RemovedAbsent(es: seq<Entry>, subID: SubID)
    requires !HasID(es, subID)
    ensures Removed(es, subID) == es
  {
    if es != [] {
      assert es[0].subID != subID;
      forall k | 0 <= k < |es| - 1 ensures es[1..][k].subID != subID {
        assert es[k + 1].subID != subID;
      }
      RemovedAbsent(es[1..], subID);
    }
  }

  lemma {:induction false} RemovedDistinct(es: seq<Entry>, subID: SubID)
    requires Distinct(es)
    ensures Distinct(Removed(es, subID)) && !HasID(Removed(es, subID), subID)
    ensures forall e :: e in Removed(es, subID) ==> e in es
  {
    if es != [] {
      RemovedDistinct(es[1..], subID);
      if es[0].subID == subID {
        assert forall k :: 0 <= k < |es[1..]| ==> es[1..][k].subID == es[k + 1].subID;
      } else {
        var rest := Removed(es[1..], subID);
        forall k | 0 <= k < |rest| ensures rest[k].subID != es[0].subID && rest[k] in es {
          assert rest[k] in es[1..];
        }
      }
    }
  }

  /** Where ids are unique, removing one keeps exactly the others, in their order. */
  lemma {:induction false} RemovedIsOthers(es: seq<Entry>, subID: SubID)
    requires Distinct(es)
    ensures Removed(es, subID) == Others(es, subID)
  {
    if es != [] {
      assert Distinct(es[1..]);
      if es[0].subID == subID {
        forall k | 0 <= k < |es| - 1 ensures es[1..][k].subID != subID {
          assert es[k + 1].subID != es[0].subID;
        }
        RemovedAbsent(es[1..], subID);
      }
      RemovedIsOthers(es[1..], subID);
    }
  }

  // ---- one key of many ----

  function Subscribed(subs: Table, key: Key, e: Entry): Table {
    if HasID(At(subs, key), e.subID) then subs else subs[key := At(subs, key) + [e]]
  }

  function Unsubscribed(subs: Table, key: Key, subID: SubID): Table {
    if HasID(At(subs, key), subID) then subs[key := Removed(At(subs, key), subID)] else subs
  }

  lemma LastHasID(es: seq<Entry>, e: Entry)
    ensures HasID(es + [e], e.subID)
  {
    assert (es + [e])[|es|] == e;
  }

  lemma GainedStep(start: Table, before: Table, keys: seq<Key>, key: Key, e: Entry)
    requires Gained(start, before, keys, e) && CanSubscribe(start, keys, e.subID)
    requires !HasID(At(before, key), e.subID)
    ensures key !in keys && CanSubscribe(start, keys + [key], e.subID)
    ensures Gained(start, Subscribed(before, key, e), keys + [key], e)
  {
    assert At(before, key) == At(start, key) + if key in keys then [e] else [];
    if key in keys {
      LastHasID(At(start, key), e);
    }
    assert At(before, key) == At(start, key);
    var after := Subscribed(before, key, e);
    forall k ensures At(after, k) == At(start, k) + if k in keys + [key] then [e] else [] {
      assert At(before, k) == At(start, k) + if k in keys then [e] else [];
    }
  }

  lemma DistinctAppend(es: seq<Entry>, e: Entry)
    requires Distinct(es) && !HasID(es, e.subID)
    ensures Distinct(es + [e])
  {
  }

  lemma RefusedStep(start: Table, before: Table, keys: seq<Key>, i: nat, e: Entry)
    requires i < |keys| && Gained(start, before, keys[..i], e)
    requires HasID(At(before, keys[i]), e.subID)
    ensures !CanSubscribe(start, keys, e.subID)
  {
    if keys[i] in keys[..i] {
      var j :| 0 <= j < i && keys[..i][j] == keys[i];
      assert keys[j] == keys[i];
    } else {
      assert At(before, keys[i]) == At(start, keys[i]);
    }
  }

  lemma RollbackStep(start: Table, mid: Table, key: Key, rest: seq<Key>, e: Entry)
    requires Gained(start, mid, [key] + rest, e)
    requires key !in rest && !HasID(At(start, key), e.subID)
    ensures Gained(start, Unsubscribed(mid, key, e.subID), rest, e)
  {
    var after := Unsubscribed(mid, key, e.subID);
    RemovedAppended(At(start, key), e);
    LastHasID(At(start, key), e);
    assert At(mid, key) == At(start, key) + [e];
    forall k ensures At(after, k) == At(start, k) + if k in rest then [e] else [] {
      assert At(mid, k) == At(start, k) + if k in [key] + rest then [e] else [];
    }
  }

  lemma LostStep(start: Table, before: Table, keys: seq<Key>, key: Key, subID: SubID)
    requires UniqueIDs(start) && Lost(start, before, keys, subID)
    ensures Lost(start, Unsubscribed(before, key, subID), keys + [key], subID)
    ensures HasID(At(before, key), subID) <==> key !in keys && HasID(At(start, key), subID)
  {
    var after := Unsubscribed(before, key, subID);
    assert Distinct(At(start, key));
    RemovedDistinct(At(start, key), subID);
    assert At(before, key) == if key in keys then Removed(At(start, key), subID) else At(start, key);
    if !HasID(At(before, key), subID) {
      RemovedAbsent(At(before, key), subID);
    }
    forall k ensures At(after, k) == if k in keys + [key] then Removed(At(start, k), subID) else At(start, k) {
      assert At(before, k) == if k in keys then Removed(At(start, k), subID) else At(start, k);
    }
  }

  lemma LostKeepsUnique(start: Table, after: Table, keys: seq<Key>, subID: SubID)
    requires UniqueIDs(start) && Lost(start, after, keys, subID)
    ensures UniqueIDs(after)
  {
    forall k ensures Distinct(At(after, k)) {
      assert Distinct(At(start, k));
      RemovedDistinct(At(start, k), subID);
    }
  }

  lemma GainedKeepsUnique(start: Table, after: Table, keys: seq<Key>, e: Entry)
    requires UniqueIDs(start) && Gained(start, after, keys, e) && CanSubscribe(start, keys, e.subID)
    ensures UniqueIDs(after)
  {
    forall k ensures Distinct(At(after, k)) {
      assert Distinct(At(start, k));
      if k in keys {
        var i :| 0 <= i < |keys| && keys[i] == k;
        DistinctAppend(At(start, k), e);
      }
    }
  }

  /** Unsubscribe undoes Subscribe: every list is what it was before. */
  lemma UnsubscribeUndoesSubscribe(s: Table, t: Table, u: Table, keys: seq<Key>, e: Entry)
    requires CanSubscribe(s, keys, e.subID)
    requires Gained(s, t, keys, e) && Lost(t, u, keys, e.subID)
    ensures SameLists(s, u)
  {
    forall k ensures At(s, k) == At(u, k) {
      assert At(t, k) == At(s, k) + if k in keys then [e] else [];
      if k in keys {
        var i :| 0 <= i < |keys| && keys[i] == k;
        RemovedAppended(At(s, k), e);
      }
    }
  }

  // ---- the table in place ----

  class Queue {
    var subs: Table

    constructor ()
      ensures subs == map[]
    {
      subs := map[];
    }

    method SubscribeKey(key: Key, e: Entry) returns (err: Option<Error>)
      modifies this
      ensures subs == Subscribed(old(subs), key, e)
      ensures err == if HasID(At(old(subs), key), e.subID) then Some(SubscriptionExists) else None
    {
      var list := At(subs, key);
      for i := 0 to |list|
        invariant subs == old(subs)
        invariant !HasID(list[..i], e.subID)
      {
        if list[i].subID == e.subID {
          return Some(SubscriptionExists);
        }
      }
      assert list[..|list|] == list;
      subs := subs[key := list + [e]];
      return None;
    }

    /** The key stays in the table with an empty list when its last entry goes. */
    method UnsubscribeKey(key: Key, subID: SubID) returns (err: Option<Error>)
      modifies this
      ensures subs == Unsubscribed(old(subs), key, subID)
      ensures err == if HasID(At(old(subs), key), subID) then None else Some(SubscriptionNotFound)
    {
      var list := At(subs, key);
      for i := 0 to |list|
        invariant subs == old(subs)
        invariant !HasID(list[..i], subID)
      {
        if list[i].subID == subID {
          RemovedAt(list, subID, i);
          subs := subs[key := list[..i] + list[i + 1..]];
          return None;
        }
      }
      assert list[..|list|] == list;
      return Some(SubscriptionNotFound);
    }

    /** The rollback of a refused subscription: the keys already served lose the entry again. */
    method Rollback(keys: seq<Key>, e: Entry, ghost before: Table)
      requires Gained(before, subs, keys, e) && CanSubscribe(before, keys, e.subID)
      modifies this
      ensures SameLists(before, subs)
    {
      for j := 0 to |keys|
        invariant Gained(before, subs, keys[j..], e)
      {
        assert keys[j..] == [keys[j]] + keys[j + 1..];
        RollbackStep(before, subs, keys[j], keys[j + 1..], e);
        var _ := UnsubscribeKey(keys[j], e.subID);
      }
    }

    /** All or nothing: either every key gains the entry, or every list is what it was. */
    method Subscribe(keys: seq<Key>, e: Entry) returns (err: Option<Error>)
      requires UniqueIDs(subs)
      modifies this
      ensures UniqueIDs(subs)
      ensures err.None? <==> CanSubscribe(old(subs), keys, e.subID)
      ensures err.None? ==> Gained(old(subs), subs, keys, e)
      ensures err.Some? ==> err.value == SubscriptionExists && SameLists(old(subs), subs)
    {
      for i := 0 to |keys|
        invariant Gained(old(subs), subs, keys[..i], e)
        invariant CanSubscribe(old(subs), keys[..i], e.subID)
      {
        assert keys[..i + 1] == keys[..i] + [keys[i]];
        ghost var before := subs;
        err := SubscribeKey(keys[i], e);
        if err.Some? {
          RefusedStep(old(subs), before, keys, i, e);
          Rollback(keys[..i], e, old(subs));
          return err;
        }
        GainedStep(old(subs), before, keys[..i], keys[i], e);
      }
      assert keys[..|keys|] == keys;
      GainedKeepsUnique(old(subs), subs, keys, e);
      return None;
    }

    /** Every key is tried; the first error is returned. */
    method Unsubscribe(keys: seq<Key>, subID: SubID) returns (err: Option<Error>)
      requires UniqueIDs(subs)
      modifies this
      ensures UniqueIDs(subs)
      ensures Lost(old(subs), subs, keys, subID)
      ensures err == UnsubscribeError(old(subs), keys, subID)
    {
      err := None;
      for i := 0 to |keys|
        invariant Lost(old(subs), subs, keys[..i], subID)
        invariant err == UnsubscribeError(old(subs), keys[..i], subID)
      {
        assert keys[..i + 1] == keys[..i] + [keys[i]];
        UnsubscribeStep(old(subs), subs, keys[..i], keys[i], subID);
        var err2 := UnsubscribeKey(keys[i], subID);
        if err.None? {
          err := err2;
        }
      }
      assert keys[..|keys|] == keys;
      LostKeepsUnique(old(subs), subs, keys, subID);
    }
  }

  /** No error exactly if the keys are distinct and all subscribed. */
  ghost function UnsubscribeError(subs: Table, keys: seq<Key>, subID: SubID): Option<Error> {
    if CanUnsubscribe(subs, keys, subID) then None else Some(SubscriptionNotFound)
  }

  lemma UnsubscribeStep(start: Table, before: Table, keys: seq<Key>, key: Key, subID: SubID)
    requires UniqueIDs(start) && Lost(start, before, keys, subID)
    ensures Lost(start, Unsubscribed(before, key, subID), keys + [key], subID)
    ensures UnsubscribeError(start, keys + [key], subID)
         == if UnsubscribeError(start, keys, subID).None? && HasID(At(before, key), subID) then None
            else Some(SubscriptionNotFound)
  {
    LostStep(start, before, keys, key, subID);
    CanUnsubscribeStep(start, keys, key, subID);
  }

  lemma CanUnsubscribeStep(subs: Table, keys: seq<Key>, key: Key, subID: SubID)
    ensures CanUnsubscribe(subs, keys + [key], subID)
       <==> CanUnsubscribe(subs, keys, subID) && key !in keys && HasID(At(subs, key), subID)
  {
    var all := keys + [key];
    if CanUnsubscribe(subs, all, subID) {
      forall i | 0 <= i < |keys| ensures keys[i] != key && HasID(At(subs, keys[i]), subID) {
        assert all[i] == keys[i] && all[|keys|] == key;
      }
      forall i, j | 0 <= i < j < |keys| ensures keys[i] != keys[j] {
        assert all[i] == keys[i] && all[j] == keys[j];
      }
      assert all[|keys|] == key;
    }
  }
}
