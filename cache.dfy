/** The list transformations the data hook applies to its cached rows after
    a successful mutation (hooks/use-data.tsx): the prepend after an insert,
    the `map` after an update and the `filter` after a delete. */
module DataCache {
  import opened Schema

  /** Some row of `s` has identifier `id`. */
  predicate HasId(s: seq<DataItem>, id: string) {
    exists i :: 0 <= i < |s| && s[i].id == id
  }

  /** No two rows of `s` share an identifier (the store's primary key). */
  predicate UniqueIds(s: seq<DataItem>) {
    forall i, j :: 0 <= i < j < |s| ==> s[i].id != s[j].id
  }

  /** How many rows of `s` have identifier `id`. */
  function CountId(s: seq<DataItem>, id: string): (n: nat)
    ensures n <= |s|
    ensures n == 0 <==> !HasId(s, id)
  {
    if s == [] then 0
    else
      var rest := CountId(s[1..], id);
      assert HasId(s, id) <==> s[0].id == id || HasId(s[1..], id) by {
        if HasId(s[1..], id) {
          var i :| 0 <= i < |s[1..]| && s[1..][i].id == id;
          assert s[i + 1].id == id;
        }
        if HasId(s, id) && s[0].id != id {
          var i :| 0 <= i < |s| && s[i].id == id;
          assert s[1..][i - 1].id == id;
        }
      }
      (if s[0].id == id then 1 else 0) + rest
  }

  /** `[created, ...prev]`: the row the store returned after an insert goes
      in front of the cached rows. */
  function Prepend(created: DataItem, cache: seq<DataItem>): (r: seq<DataItem>)
    ensures |r| == |cache| + 1
    ensures r[0] == created && r[1..] == cache
  {
    [created] + cache
  }

  /** `prev.map(item => item.id === id ? updated : item)`: every cached row
      whose identifier is `id` becomes `updated`; every other row stays. */
  function ReplaceById(cache: seq<DataItem>, id: string, updated: DataItem): (r: seq<DataItem>)
    ensures |r| == |cache|
    ensures forall i :: 0 <= i < |cache| && cache[i].id == id ==> r[i] == updated
    ensures forall i :: 0 <= i < |cache| && cache[i].id != id ==> r[i] == cache[i]
  {
    if cache == [] then []
    else [if cache[0].id == id then updated else cache[0]] + ReplaceById(cache[1..], id, updated)
  }

  /** `prev.filter(item => item.id !== id)`: the cached rows whose identifier
      is not `id`, in their original order. */
  function RemoveById(cache: seq<DataItem>, id: string): (r: seq<DataItem>)
    ensures !HasId(r, id)
    ensures forall x :: x in r <==> x in cache && x.id != id
    ensures |r| == |cache| - CountId(cache, id)
  {
    if cache == [] then []
    else if cache[0].id == id then RemoveById(cache[1..], id)
    else [cache[0]] + RemoveById(cache[1..], id)
  }

  // ---------------------------------------------------------------------
  // Counting rows by identifier

  /** With unique identifiers an identifier occurs at most once. */
  lemma {:induction false} UniqueCountAtMostOne(s: seq<DataItem>, id: string)
    requires UniqueIds(s)
    ensures CountId(s, id) <= 1
    ensures HasId(s, id) ==> CountId(s, id) == 1
  {
    if s != [] {
      UniqueCountAtMostOne(s[1..], id);
      if s[0].id == id {
        assert !HasId(s[1..], id) by {
          forall i | 0 <= i < |s[1..]| ensures s[1..][i].id != id {
            assert s[1..][i] == s[i + 1];
          }
        }
      }
    }
  }

  // ---------------------------------------------------------------------
  // Create

  /** After a successful create the returned row is counted once more. */
  lemma PrependCountsCreated(created: DataItem, cache: seq<DataItem>)
    ensures CountId(Prepend(created, cache), created.id) == CountId(cache, created.id) + 1
    ensures forall x :: x in Prepend(created, cache) <==> x == created || x in cache
  {
  }

  /** When the store hands out a fresh identifier, identifiers stay unique and
      the created row is the only one with its identifier, at index 0. */
  lemma PrependFreshKeepsUnique(created: DataItem, cache: seq<DataItem>)
    requires UniqueIds(cache)
    requires !HasId(cache, created.id)
    ensures UniqueIds(Prepend(created, cache))
    ensures CountId(Prepend(created, cache), created.id) == 1
    ensures forall i :: 0 < i < |cache| + 1 ==> Prepend(created, cache)[i].id != created.id
  {
  }

  /** Deleting the row just created brings the cache back, when its
      identifier was fresh. */
  lemma {:induction false} DeleteUndoesCreate(created: DataItem, cache: seq<DataItem>)
    requires !HasId(cache, created.id)
    ensures RemoveById(Prepend(created, cache), created.id) == cache
  {
    assert Prepend(created, cache)[1..] == cache;
    RemoveByIdAbsent(cache, created.id);
  }

  // ---------------------------------------------------------------------
  // Update

  /** An update whose identifier is not cached leaves the cache as it is. */
  lemma ReplaceByIdAbsent(cache: seq<DataItem>, id: string, updated: DataItem)
    requires !HasId(cache, id)
    ensures ReplaceById(cache, id, updated) == cache
  {
  }

  /** When the returned row keeps the identifier, every identifier is
      counted as often as before. */
  lemma ReplaceByIdKeepsCounts(cache: seq<DataItem>, id: string, updated: DataItem, other: string)
    requires updated.id == id
    ensures CountId(ReplaceById(cache, id, updated), other) == CountId(cache, other)
  {
  }

  lemma {:induction false} SameIdsSameCount(a: seq<DataItem>, b: seq<DataItem>, id: string)
    requires |a| == |b|
    requires forall i :: 0 <= i < |a| ==> a[i].id == b[i].id
    ensures CountId(a, id) == CountId(b, id)
  {
    if a != [] {
      SameIdsSameCount(a[1..], b[1..], id);
    }
  }

  /** With unique identifiers and the row cached at index `k`, the update
      replaces exactly that one entry and keeps identifiers unique. */
  lemma ReplaceByIdUnique(cache: seq<DataItem>, k: nat, updated: DataItem)
    requires UniqueIds(cache)
    requires k < |cache| && updated.id == cache[k].id
    ensures ReplaceById(cache, cache[k].id, updated) == cache[k := updated]
    ensures UniqueIds(ReplaceById(cache, cache[k].id, updated))
  {
  }

  // ---------------------------------------------------------------------
  // Delete

  /** Deleting an identifier that is not cached leaves the cache as it is. */
  lemma {:induction false} RemoveByIdAbsent(cache: seq<DataItem>, id: string)
    requires !HasId(cache, id)
    ensures RemoveById(cache, id) == cache
  {
    if cache != [] {
      assert cache[0].id != id;
      assert !HasId(cache[1..], id) by {
        forall i | 0 <= i < |cache[1..]| ensures cache[1..][i].id != id {
          assert cache[1..][i] == cache[i + 1];
        }
      }
      RemoveByIdAbsent(cache[1..], id);
      assert cache == [cache[0]] + cache[1..];
    }
  }

  /** The filter distributes over concatenation, so the surviving rows keep
      their relative order. */
  lemma {:induction false} RemoveByIdConcat(a: seq<DataItem>, b: seq<DataItem>, id: string)
    ensures RemoveById(a + b, id) == RemoveById(a, id) + RemoveById(b, id)
  {
    if a == [] {
      assert a + b == b;
    } else {
      assert (a + b)[0] == a[0];
      assert (a + b)[1..] == a[1..] + b;
      RemoveByIdConcat(a[1..], b, id);
    }
  }

  /** Deleting twice is deleting once. */
  lemma RemoveByIdIdempotent(cache: seq<DataItem>, id: string)
    ensures RemoveById(RemoveById(cache, id), id) == RemoveById(cache, id)
  {
  }

  /** With unique identifiers, deleting a cached identifier drops exactly one
      row and keeps identifiers unique. */
  lemma {:induction false} RemoveByIdUnique(cache: seq<DataItem>, id: string)
    requires UniqueIds(cache)
    ensures HasId(cache, id) ==> |RemoveById(cache, id)| == |cache| - 1
    ensures UniqueIds(RemoveById(cache, id))
  {
    UniqueCountAtMostOne(cache, id);
    RemoveByIdKeepsUnique(cache, id);
  }

  lemma {:induction false} RemoveByIdKeepsUnique(cache: seq<DataItem>, id: string)
    requires UniqueIds(cache)
    ensures UniqueIds(RemoveById(cache, id))
  {
    if cache != [] {
      var tail := cache[1..];
      assert UniqueIds(tail) by {
        forall i, j | 0 <= i < j < |tail| ensures tail[i].id != tail[j].id {
          assert tail[i] == cache[i + 1] && tail[j] == cache[j + 1];
        }
      }
      RemoveByIdKeepsUnique(tail, id);
      if cache[0].id != id {
        var rest := RemoveById(tail, id);
        assert !HasId(tail, cache[0].id) by {
          forall m | 0 <= m < |tail| ensures tail[m].id != cache[0].id {
            assert tail[m] == cache[m + 1];
          }
        }
        assert !HasId(rest, cache[0].id) by {
          forall j | 0 <= j < |rest| ensures rest[j].id != cache[0].id {
            InHasId(tail, rest[j]);
          }
        }
        UniqueCons(cache[0], rest);
      }
    }
  }

  lemma InHasId(s: seq<DataItem>, x: DataItem)
    requires x in s
    ensures HasId(s, x.id)
  {
  }

  lemma UniqueCons(x: DataItem, s: seq<DataItem>)
    requires UniqueIds(s) && !HasId(s, x.id)
    ensures UniqueIds([x] + s)
  {
  }
}
