/**
 * The shared context: a keyed store that the coordinator and the sub-agents use
 * to hand results to each other within one analysis session. Each method runs
 * under one lock in the original, so each is one atomic step here.
 *
 * Timestamps are a logical clock: the store is created at time 0 and every
 * refresh of `updatedAt` advances it by one.
 */
module Context {
  import opened Json
  import opened Wrappers
  import opened Seqs

  /** What `to_dict` returns: a copy of the data together with both timestamps. */
  datatype Snapshot = Snapshot(data: map<string, Json>, keys: seq<string>, createdAt: nat, updatedAt: nat)

  /** The `ValueError` raised by `update` when the stored value or the partial value is not a dictionary. */
  datatype UpdateError = NotADictionary(key: string)

  /** `d.update(partial)` on a dictionary: keys of `partial` override, all other keys of `base` stay. */
  function Merge(base: map<string, Json>, partial: map<string, Json>): (r: map<string, Json>)
    ensures r.Keys == base.Keys + partial.Keys
    ensures forall k :: k in partial ==> r[k] == partial[k]
    ensures forall k :: k in base && k !in partial ==> r[k] == base[k]
  {
    base + partial
  }

  /** Merging the same partial value twice has the effect of merging it once. */
  lemma MergeIdempotent(base: map<string, Json>, partial: map<string, Json>)
    ensures Merge(Merge(base, partial), partial) == Merge(base, partial)
  {
    var once := Merge(base, partial);
    assert Merge(once, partial).Keys == once.Keys;
  }

  /** The key order after binding `key`: a new key goes to the end, a bound one keeps its place. */
  function KeysAfterSet(keys: seq<string>, key: string): (r: seq<string>)
    ensures key in r && forall k :: k in r <==> k in keys || k == key
    ensures |keys| <= |r| <= |keys| + 1 && r[..|keys|] == keys
  {
    if key in keys then keys else keys + [key]
  }

  class SharedContext {
    var data: map<string, Json>
    /** The keys of `data` in insertion order, as a Python dict keeps them. */
    var keys: seq<string>
    const createdAt: nat
    var updatedAt: nat

    ghost predicate Valid()
      reads this
    {
      && NoDuplicates(keys)
      && (forall i :: 0 <= i < |keys| ==> keys[i] in data)
      && (forall k :: k in data ==> k in keys)
      && createdAt <= updatedAt
    }

    constructor ()
      ensures Valid()
      ensures data == map[] && keys == []
      ensures createdAt == 0 && updatedAt == createdAt
    {
      data := map[];
      keys := [];
      createdAt := 0;
      updatedAt := 0;
    }

    /** `set(key, value)`: replaces the binding and refreshes `updatedAt`. */
    method Set(key: string, value: Json)
      requires Valid()
      modifies this
      ensures Valid()
      ensures data == old(data)[key := value]
      ensures keys == KeysAfterSet(old(keys), key)
      ensures updatedAt == old(updatedAt) + 1
    {
      if key !in data {
        keys := keys + [key];
      }
      data := data[key := value];
      updatedAt := updatedAt + 1;
    }

    /** `get(key, default)`: a missing key yields the default, and nothing changes. */
    method Get(key: string, default: Json) returns (r: Json)
      requires Valid()
      ensures key in data ==> r == data[key]
      ensures key !in data ==> r == default
    {
      r := if key in data then data[key] else default;
    }

    /**
     * `update(key, partial)`: an absent key is first bound to an empty dictionary
     * (and stays bound to it even when the merge then fails); the merge succeeds
     * only when both the stored value and `partial` are dictionaries.
     */
    method Update(key: string, partial: Json) returns (err: Option<UpdateError>)
      requires Valid()
      modifies this
      ensures Valid()
      ensures keys == KeysAfterSet(old(keys), key)
      ensures var base := if key in old(data) then old(data)[key] else Obj(map[]);
              && (err.None? <==> base.Obj? && partial.Obj?)
              && (err.None? ==> data == old(data)[key := Obj(Merge(base.fields, partial.fields))]
                                && updatedAt == old(updatedAt) + 1)
              && (err.Some? ==> err.value == NotADictionary(key)
                                && data == old(data)[key := base]
                                && updatedAt == old(updatedAt))
    {
      var base := if key in data then data[key] else Obj(map[]);
      if key !in data {
        keys := keys + [key];
      }
      if base.Obj? && partial.Obj? {
        data := data[key := Obj(Merge(base.fields, partial.fields))];
        updatedAt := updatedAt + 1;
        err := None;
      } else {
        data := data[key := base];
        err := Some(NotADictionary(key));
      }
    }

    /** `clear()`: drops every binding and refreshes `updatedAt`. */
    method Clear()
      requires Valid()
      modifies this
      ensures Valid()
      ensures data == map[] && keys == []
      ensures updatedAt == old(updatedAt) + 1
    {
      data := map[];
      keys := [];
      updatedAt := updatedAt + 1;
    }

    /** `list_keys()`: every current key once, in insertion order. */
    method ListKeys() returns (r: seq<string>)
      requires Valid()
      ensures NoDuplicates(r)
      ensures forall k :: k in r <==> k in data
      ensures r == keys
    {
      r := keys;
    }

    /** `to_dict()`: a copy of the bindings with both timestamps. */
    method ToDict() returns (s: Snapshot)
      requires Valid()
      ensures s.data == data && s.keys == keys
      ensures s.createdAt == createdAt && s.updatedAt == updatedAt
      ensures s.createdAt <= s.updatedAt
    {
      s := Snapshot(data, keys, createdAt, updatedAt);
    }
  }

  /**
   * Merging `{"a": x}` and then `{"b": y}` into a fresh key yields both entries;
   * a later merge of a list fails and leaves the stored dictionary as it was.
   */
  method MergeThenReject(ctx: SharedContext, k: string, x: Json, y: Json, items: seq<Json>)
    returns (first: Option<UpdateError>, second: Option<UpdateError>, third: Option<UpdateError>, stored: Json)
    requires ctx.Valid() && k !in ctx.data
    modifies ctx
    ensures first.None? && second.None? && third == Some(NotADictionary(k))
    ensures stored == Obj(map["a" := x, "b" := y])
  {
    MergeLiterals(x, y);
    first := ctx.Update(k, Obj(map["a" := x]));
    assert ctx.data[k] == Obj(map["a" := x]);
    second := ctx.Update(k, Obj(map["b" := y]));
    assert ctx.data[k] == Obj(map["a" := x, "b" := y]);
    third := ctx.Update(k, Arr(items));
    stored := ctx.Get(k, Null);
  }

  /** The two merges `MergeThenReject` performs, on literal dictionaries. */
  lemma MergeLiterals(x: Json, y: Json)
    ensures Merge(map[], map["a" := x]) == map["a" := x]
    ensures Merge(map["a" := x], map["b" := y]) == map["a" := x, "b" := y]
  {
  }

  /** A snapshot is a copy: binding a key afterwards leaves the snapshot as it was taken. */
  method SnapshotIsCopy(ctx: SharedContext, key: string, value: Json) returns (snapshot: Snapshot, later: Snapshot)
    requires ctx.Valid()
    modifies ctx
    ensures snapshot.data == old(ctx.data) && snapshot.updatedAt == old(ctx.updatedAt)
    ensures later.data == snapshot.data[key := value] && later.updatedAt == snapshot.updatedAt + 1
    ensures later.createdAt == snapshot.createdAt
  {
    snapshot := ctx.ToDict();
    ctx.Set(key, value);
    later := ctx.ToDict();
  }
}
