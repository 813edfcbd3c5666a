/**
 * `MemStorage` from server/storage.ts: an in-memory store of users and plant
 * analyses, each a JavaScript `Map` from id to row. A `Map` iterates in
 * insertion order, which `getUserByUsername` and `getAllPlantAnalyses`
 * observe, so each map comes with the sequence of its keys in that order.
 */
module Storage {
  import opened JsString
  import opened Schema

  ghost predicate Distinct(s: seq<string>)
  {
    forall i, j :: 0 <= i < j < |s| ==> s[i] != s[j]
  }

  /** `order` is the iteration order of a `Map` whose keys are `keys`: each key exactly once. */
  ghost predicate IsKeyOrder(order: seq<string>, keys: set<string>)
  {
    Distinct(order) && (forall k :: k in order <==> k in keys)
  }

  /** `a` is `b` with some elements left out and the rest in their order. */
  predicate IsSubsequence<T(==)>(a: seq<T>, b: seq<T>)
    decreases |b|
  {
    if a == [] then true
    else if b == [] then false
    else (a[0] == b[0] && IsSubsequence(a[1..], b[1..])) || IsSubsequence(a, b[1..])
  }

  /** The iteration order after `Map.delete(k)`: `k` leaves, the others keep their order. */
  function RemoveKey(order: seq<string>, k: string): (r: seq<string>)
    ensures forall x :: x in r <==> x in order && x != k
    ensures IsSubsequence(r, order)
    ensures k !in order ==> r == order
    ensures Distinct(order) ==> Distinct(r)
  {
    if order == [] then []
    else if order[0] == k then RemoveKey(order[1..], k)
    else
      var rest := RemoveKey(order[1..], k);
      assert Distinct(order) ==> Distinct(order[1..]) && order[0] !in order[1..] by {
        if Distinct(order) {
          forall j | 0 <= j < |order[1..]| ensures order[1..][j] != order[0] {
            assert order[1..][j] == order[j + 1];
          }
        }
      }
      assert ([order[0]] + rest)[1..] == rest;
      [order[0]] + rest
  }

  /** `Array.from(map.values())`: the values in key order. */
  function ValuesInOrder<V>(order: seq<string>, m: map<string, V>): (r: seq<V>)
    requires forall k :: k in order ==> k in m
    ensures |r| == |order|
    ensures forall i :: 0 <= i < |order| ==> r[i] == m[order[i]]
  {
    if order == [] then [] else [m[order[0]]] + ValuesInOrder(order[1..], m)
  }

  /** With every key of `m` in `order`, the values in key order are exactly the map's values. */
  lemma ValuesInOrderMembers<V>(order: seq<string>, m: map<string, V>)
    requires forall k :: k in order <==> k in m
    ensures forall v :: v in ValuesInOrder(order, m) <==> v in m.Values
  {
    var vs := ValuesInOrder(order, m);
    forall v | v in m.Values ensures v in vs {
      var k :| k in m && m[k] == v;
      var i :| 0 <= i < |order| && order[i] == k;
      assert vs[i] == v;
    }
  }

  /** `new Date(a.analysisDate!).getTime()`; a `null` date reads as time 0. */
  function DateKey(a: PlantAnalysis): (t: int)
    ensures a.analysisDate.Some? ==> t == a.analysisDate.value
    ensures a.analysisDate.None? ==> t == 0
  {
    if a.analysisDate.Some? then a.analysisDate.value else 0
  }

  /** Most recent first. */
  predicate SortedByDateDesc(s: seq<PlantAnalysis>)
  {
    forall i, j :: 0 <= i < j < |s| ==> DateKey(s[i]) >= DateKey(s[j])
  }

  /** The head of a most-recent-first list is at least as recent as every entry. */
  lemma SortedHeadIsLatest(s: seq<PlantAnalysis>)
    requires SortedByDateDesc(s)
    ensures forall y :: y in s ==> DateKey(y) <= DateKey(s[0])
  {
    forall y | y in s ensures DateKey(y) <= DateKey(s[0]) {
      var k :| 0 <= k < |s| && s[k] == y;
    }
  }

  /** A record at least as recent as a sorted list can go in front of it. */
  lemma ConsSorted(x: PlantAnalysis, rest: seq<PlantAnalysis>)
    requires SortedByDateDesc(rest)
    requires forall y :: y in rest ==> DateKey(y) <= DateKey(x)
    ensures SortedByDateDesc([x] + rest)
  {
    var r := [x] + rest;
    forall i, j | 0 <= i < j < |r| ensures DateKey(r[i]) >= DateKey(r[j]) {
      assert r[j] == rest[j - 1];
      if i > 0 {
        assert r[i] == rest[i - 1];
      } else {
        assert rest[j - 1] in rest;
      }
    }
  }

  /** Places `a` before the first entry that is not more recent than it. */
  function InsertByDate(a: PlantAnalysis, s: seq<PlantAnalysis>): (r: seq<PlantAnalysis>)
    requires SortedByDateDesc(s)
    ensures SortedByDateDesc(r)
    ensures multiset(r) == multiset(s) + multiset{a}
  {
    if s == [] || DateKey(a) >= DateKey(s[0]) then
      SortedHeadIsLatest(s);
      ConsSorted(a, s);
      [a] + s
    else
      var tail := s[1..];
      assert s == [s[0]] + tail;
      assert SortedByDateDesc(tail) by {
        forall i, j | 0 <= i < j < |tail| ensures DateKey(tail[i]) >= DateKey(tail[j]) {
          assert tail[i] == s[i + 1] && tail[j] == s[j + 1];
        }
      }
      var rest := InsertByDate(a, tail);
      SortedHeadIsLatest(s);
      assert forall x :: x in rest ==> DateKey(x) <= DateKey(s[0]) by {
        forall x | x in rest ensures DateKey(x) <= DateKey(s[0]) {
          assert x in multiset(rest);
          if x != a {
            assert x in multiset(tail);
            assert x in s;
          }
        }
      }
      ConsSorted(s[0], rest);
      [s[0]] + rest
  }

  /**
   * `values.sort((a, b) => time(b) - time(a))`: an insertion sort, stable like
   * `Array.prototype.sort`.
   */
  function SortByDateDesc(s: seq<PlantAnalysis>): (r: seq<PlantAnalysis>)
    ensures SortedByDateDesc(r)
    ensures multiset(r) == multiset(s)
  {
    if s == [] then []
    else
      assert s == [s[0]] + s[1..];
      InsertByDate(s[0], SortByDateDesc(s[1..]))
  }

  class MemStorage {
    var users: map<string, User>
    var userOrder: seq<string>
    var plantAnalyses: map<string, PlantAnalysis>
    var analysisOrder: seq<string>

    /** Each order lists its map's keys once; every row is stored under its own id. */
    ghost predicate Valid()
      reads this
    {
      && IsKeyOrder(userOrder, users.Keys)
      && IsKeyOrder(analysisOrder, plantAnalyses.Keys)
      && (forall id :: id in users ==> users[id].id == id)
      && (forall id :: id in plantAnalyses ==> plantAnalyses[id].id == id)
    }

    /** The stored analyses in insertion order (`Array.from(this.plantAnalyses.values())`). */
    ghost function StoredAnalyses(): seq<PlantAnalysis>
      reads this
      requires Valid()
    {
      ValuesInOrder(analysisOrder, plantAnalyses)
    }

    constructor ()
      ensures Valid()
      ensures users == map[] && userOrder == []
      ensures plantAnalyses == map[] && analysisOrder == []
    {
      users := map[];
      userOrder := [];
      plantAnalyses := map[];
      analysisOrder := [];
    }

    /** `users.get(id)`: the stored user, or undefined. */
    method GetUser(id: string) returns (user: Option<User>)
      ensures user.Some? <==> id in users
      ensures user.Some? ==> user.value == users[id]
    {
      user := if id in users then Some(users[id]) else None;
    }

    /** `Array.from(users.values()).find(u => u.username === username)`. */
    method GetUserByUsername(username: string) returns (user: Option<User>)
      requires Valid()
      ensures user.None? <==> forall id :: id in users ==> users[id].username != username
      ensures user.Some? ==> user.value.username == username && user.value.id in users && users[user.value.id] == user.value
      ensures user.Some? ==>
        exists k :: 0 <= k < |userOrder| && userOrder[k] == user.value.id &&
          (forall j :: 0 <= j < k ==> users[userOrder[j]].username != username)
    {
      var i := 0;
      while i < |userOrder|
        invariant 0 <= i <= |userOrder|
        invariant forall j :: 0 <= j < i ==> users[userOrder[j]].username != username
      {
        var u := users[userOrder[i]];
        if u.username == username {
          return Some(u);
        }
        i := i + 1;
      }
      forall id | id in users ensures users[id].username != username {
        var k :| 0 <= k < |userOrder| && userOrder[k] == id;
      }
      return None;
    }

    /** `createUser`: a new user under a fresh id; nothing else changes. */
    method CreateUser(insertUser: InsertUser, id: string) returns (user: User)
      requires Valid()
      requires id !in users
      modifies this
      ensures Valid()
      ensures user == UserFromInsert(insertUser, id)
      ensures users == old(users)[id := user] && userOrder == old(userOrder) + [id]
      ensures plantAnalyses == old(plantAnalyses) && analysisOrder == old(analysisOrder)
    {
      user := UserFromInsert(insertUser, id);
      users := users[id := user];
      userOrder := userOrder + [id];
    }

    /** `plantAnalyses.get(id)`: the stored analysis, or undefined. */
    method GetPlantAnalysis(id: string) returns (analysis: Option<PlantAnalysis>)
      ensures analysis.Some? <==> id in plantAnalyses
      ensures analysis.Some? ==> analysis.value == plantAnalyses[id]
    {
      analysis := if id in plantAnalyses then Some(plantAnalyses[id]) else None;
    }

    /** `getAllPlantAnalyses`: exactly the stored analyses, most recent first. */
    method GetAllPlantAnalyses() returns (analyses: seq<PlantAnalysis>)
      requires Valid()
      ensures SortedByDateDesc(analyses)
      ensures multiset(analyses) == multiset(StoredAnalyses())
      ensures |analyses| == |analysisOrder|
      ensures forall a :: a in analyses <==> a in plantAnalyses.Values
    {
      var stored := ValuesInOrder(analysisOrder, plantAnalyses);
      analyses := SortByDateDesc(stored);
      ValuesInOrderMembers(analysisOrder, plantAnalyses);
      assert |multiset(analyses)| == |multiset(stored)|;
      forall a
        ensures a in analyses <==> a in stored
      {
        assert a in analyses <==> a in multiset(analyses);
        assert a in stored <==> a in multiset(stored);
      }
    }

    /**
     * `createPlantAnalysis`: the insert object, `?? null`-normalised, stored
     * under a fresh id with the creation time; nothing else changes.
     */
    method CreatePlantAnalysis(insertAnalysis: InsertPlantAnalysis, id: string, now: Timestamp)
      returns (analysis: PlantAnalysis)
      requires Valid()
      requires id !in plantAnalyses
      modifies this
      ensures Valid()
      ensures analysis == FromInsert(insertAnalysis, id, now)
      ensures plantAnalyses == old(plantAnalyses)[id := analysis]
      ensures analysisOrder == old(analysisOrder) + [id]
      ensures users == old(users) && userOrder == old(userOrder)
    {
      analysis := FromInsert(insertAnalysis, id, now);
      plantAnalyses := plantAnalyses[id := analysis];
      analysisOrder := analysisOrder + [id];
    }

    /** `plantAnalyses.delete(id)`: true iff the id was present; only that entry goes. */
    method DeletePlantAnalysis(id: string) returns (deleted: bool)
      requires Valid()
      modifies this
      ensures Valid()
      ensures deleted <==> id in old(plantAnalyses)
      ensures plantAnalyses == old(plantAnalyses) - {id}
      ensures analysisOrder == RemoveKey(old(analysisOrder), id)
      ensures !deleted ==> plantAnalyses == old(plantAnalyses) && analysisOrder == old(analysisOrder)
      ensures users == old(users) && userOrder == old(userOrder)
    {
      deleted := id in plantAnalyses;
      plantAnalyses := plantAnalyses - {id};
      analysisOrder := RemoveKey(analysisOrder, id);
    }
  }

  /** What is created can be read back by id, listed, and deleted once; a second delete finds nothing. */
  method AnalysisScenario(first: InsertPlantAnalysis, second: InsertPlantAnalysis)
  {
    var store := new MemStorage();
    var a := store.CreatePlantAnalysis(first, "a", 100);
    var b := store.CreatePlantAnalysis(second, "b", 200);
    var got := store.GetPlantAnalysis("a");
    assert got == Some(a);
    assert store.plantAnalyses["a"] == a && store.plantAnalyses["b"] == b;
    var all := store.GetAllPlantAnalyses();
    assert a in all && b in all;
    var deleted := store.DeletePlantAnalysis("a");
    assert deleted;
    deleted := store.DeletePlantAnalysis("a");
    assert !deleted;
    got := store.GetPlantAnalysis("a");
    assert got == None;
  }

  /** A created user is found by id and by name, and the analyses are not touched. */
  method UserScenario(insertUser: InsertUser)
  {
    var store := new MemStorage();
    var u := store.CreateUser(insertUser, "u1");
    var byId := store.GetUser("u1");
    assert byId == Some(u);
    var byName := store.GetUserByUsername(insertUser.username);
    assert byName == Some(u);
    assert store.plantAnalyses == map[];
  }
}
