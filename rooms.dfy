/**
 * The rooms page's list logic: the sorted set of every tag any room
 * carries, and the filter that reorders or narrows the room list. Both
 * work on copies; the input list is a value and is never changed.
 */
module Rooms {
  import opened Base

  datatype CurrentSong = CurrentSong(artist: string, title: string)

  /** A room card; `createdAt` is the instant (ms) of the creation date. */
  datatype Room = Room(
    id: string,
    name: string,
    coverImage: string,
    currentSong: CurrentSong,
    usersCount: int,
    tags: seq<string>,
    createdAt: int)

  /** The active filter: its `type` and optional `value`. */
  datatype RoomFilter = RoomFilter(kind: string, value: Option<string>)

  // ---------------------------------------------------------------------
  // The default string order of `Array.prototype.sort`
  // ---------------------------------------------------------------------

  /** `a` sorts strictly before `b`: a proper prefix, or smaller at the first difference. */
  predicate StrLess(a: string, b: string)
    decreases |a|
  {
    b != [] && (a == [] || a[0] < b[0] || (a[0] == b[0] && StrLess(a[1..], b[1..])))
  }

  lemma {:induction false} StrLessIrreflexive(a: string)
    ensures !StrLess(a, a)
  {
    if a != [] {
      StrLessIrreflexive(a[1..]);
    }
  }

  lemma {:induction false} StrLessTransitive(a: string, b: string, c: string)
    requires StrLess(a, b) && StrLess(b, c)
    ensures StrLess(a, c)
    decreases |a|
  {
    if a != [] && a[0] == b[0] && b[0] == c[0] {
      StrLessTransitive(a[1..], b[1..], c[1..]);
    }
  }

  lemma {:induction false} StrLessTotal(a: string, b: string)
    requires a != b
    ensures StrLess(a, b) || StrLess(b, a)
    decreases |a|
  {
    if a != [] && b != [] && a[0] == b[0] {
      assert a == [a[0]] + a[1..] && b == [b[0]] + b[1..];
      StrLessTotal(a[1..], b[1..]);
    }
  }

  /** Strictly ascending: sorted, and no element twice. */
  predicate StrictlySorted(s: seq<string>)
  {
    forall i, j :: 0 <= i < j < |s| ==> StrLess(s[i], s[j])
  }

  lemma StrictlySortedNoDup(s: seq<string>)
    requires StrictlySorted(s)
    ensures NoDup(s)
  {
    forall i, j | 0 <= i < j < |s|
      ensures s[i] != s[j]
    {
      StrLessIrreflexive(s[i]);
    }
  }

  lemma BelowHeadBelowAll(t: string, s: seq<string>)
    requires StrictlySorted(s) && s != [] && StrLess(t, s[0])
    ensures forall y :: y in s ==> StrLess(t, y)
  {
    forall j | 0 < j < |s|
      ensures StrLess(t, s[j])
    {
      StrLessTransitive(t, s[0], s[j]);
    }
  }

  lemma ConsSorted(x: string, s: seq<string>)
    requires StrictlySorted(s) && forall y :: y in s ==> StrLess(x, y)
    ensures StrictlySorted([x] + s)
  {
    var r := [x] + s;
    forall i, j | 0 <= i < j < |r|
      ensures StrLess(r[i], r[j])
    {
      if i == 0 {
        assert r[j] == s[j - 1];
      } else {
        assert r[i] == s[i - 1] && r[j] == s[j - 1];
      }
    }
  }

  /** `set.add(t)` on the sorted view of the set. */
  function InsertSorted(s: seq<string>, t: string): (r: seq<string>)
    requires StrictlySorted(s)
    ensures StrictlySorted(r)
    ensures forall x :: x in r <==> x in s || x == t
  {
    if s == [] then [t]
    else if t == s[0] then s
    else if StrLess(t, s[0]) then
      BelowHeadBelowAll(t, s);
      ConsSorted(t, s);
      [t] + s
    else
      StrLessTotal(t, s[0]);
      var rest := InsertSorted(s[1..], t);
      assert forall y :: y in s[1..] ==> StrLess(s[0], y);
      ConsSorted(s[0], rest);
      [s[0]] + rest
  }

  /** Add every tag of one room. */
  function AddAll(s: seq<string>, tags: seq<string>): (r: seq<string>)
    requires StrictlySorted(s)
    ensures StrictlySorted(r)
    ensures forall x :: x in r <==> x in s || x in tags
    decreases |tags|
  {
    if tags == [] then s else AddAll(InsertSorted(s, tags[0]), tags[1..])
  }

  /** Some room of `rooms` carries tag `t`. */
  predicate Carried(rooms: seq<Room>, t: string)
  {
    exists i :: 0 <= i < |rooms| && t in rooms[i].tags
  }

  /** `getAllTags`: every tag of every room, once each, in ascending order. */
  function GetAllTags(rooms: seq<Room>): (r: seq<string>)
    ensures StrictlySorted(r)
    ensures forall t :: t in r <==> Carried(rooms, t)
  {
    if rooms == [] then []
    else
      var init := rooms[..|rooms| - 1];
      var r := AddAll(GetAllTags(init), rooms[|rooms| - 1].tags);
      assert forall t :: Carried(rooms, t) <==> Carried(init, t) || t in rooms[|rooms| - 1].tags by {
        forall t | Carried(rooms, t)
          ensures Carried(init, t) || t in rooms[|rooms| - 1].tags
        {
          var i :| 0 <= i < |rooms| && t in rooms[i].tags;
          if i < |rooms| - 1 {
            assert init[i] == rooms[i];
          }
        }
        forall t | Carried(init, t)
          ensures Carried(rooms, t)
        {
          var i :| 0 <= i < |init| && t in init[i].tags;
          assert rooms[i] == init[i];
        }
      }
      r
  }

  /** The tag list has no duplicates. */
  lemma GetAllTagsUnique(rooms: seq<Room>)
    ensures NoDup(GetAllTags(rooms))
  {
    StrictlySortedNoDup(GetAllTags(rooms));
  }

  /** Two strictly ascending lists with the same elements are equal. */
  lemma {:induction false} SortedSetUnique(a: seq<string>, b: seq<string>)
    requires StrictlySorted(a) && StrictlySorted(b)
    requires forall x :: x in a <==> x in b
    ensures a == b
  {
    assert a != [] ==> a[0] in b;
    assert b != [] ==> b[0] in a;
    if a != [] && b != [] {
      if a[0] != b[0] {
        HeadIsLeast(a);
        HeadIsLeast(b);
        assert a[0] in b && b[0] in a;
        StrLessTransitive(a[0], b[0], a[0]);
        StrLessIrreflexive(a[0]);
        assert false;
      }
      forall x
        ensures x in a[1..] <==> x in b[1..]
      {
        if x in a[1..] {
          var i :| 1 <= i < |a| && a[i] == x;
          StrLessIrreflexive(a[0]);
          assert x != a[0];
          assert x in b;
        }
        if x in b[1..] {
          var i :| 1 <= i < |b| && b[i] == x;
          StrLessIrreflexive(b[0]);
          assert x != b[0];
          assert x in a;
        }
      }
      SortedSetUnique(a[1..], b[1..]);
      assert a == [a[0]] + a[1..] && b == [b[0]] + b[1..];
    }
  }

  /** The head of a strictly ascending list is below every other element. */
  lemma HeadIsLeast(a: seq<string>)
    requires StrictlySorted(a) && a != []
    ensures forall x :: x in a && x != a[0] ==> StrLess(a[0], x)
  {
  }

  /** Listing the rooms in another order yields the same tag list. */
  lemma GetAllTagsOrderFree(rooms: seq<Room>, others: seq<Room>)
    requires multiset(rooms) == multiset(others)
    ensures GetAllTags(rooms) == GetAllTags(others)
  {
    forall t
      ensures t in GetAllTags(rooms) <==> t in GetAllTags(others)
    {
      if Carried(rooms, t) {
        var i :| 0 <= i < |rooms| && t in rooms[i].tags;
        assert rooms[i] in multiset(others);
        var j :| 0 <= j < |others| && others[j] == rooms[i];
      }
      if Carried(others, t) {
        var i :| 0 <= i < |others| && t in others[i].tags;
        assert others[i] in multiset(rooms);
        var j :| 0 <= j < |rooms| && rooms[j] == others[i];
      }
    }
    SortedSetUnique(GetAllTags(rooms), GetAllTags(others));
  }

  // ---------------------------------------------------------------------
  // Stable descending sort by a numeric key
  // ---------------------------------------------------------------------

  predicate SortedDesc(s: seq<Room>, key: Room -> int)
  {
    forall i, j :: 0 <= i < j < |s| ==> key(s[i]) >= key(s[j])
  }

  /** Place `x` before the first room whose key is not larger than its own. */
  function InsertDesc(x: Room, s: seq<Room>, key: Room -> int): (r: seq<Room>)
    requires SortedDesc(s, key)
    ensures SortedDesc(r, key)
    ensures multiset(r) == multiset(s) + multiset{x}
  {
    if s == [] || key(x) >= key(s[0]) then
      ConsDesc(x, s, key);
      [x] + s
    else
      var rest := InsertDesc(x, s[1..], key);
      assert s == [s[0]] + s[1..];
      assert forall y :: y in rest ==> key(y) <= key(s[0]) by {
        forall y | y in rest
          ensures key(y) <= key(s[0])
        {
          assert y in multiset(rest);
        }
      }
      ConsDesc(s[0], rest, key);
      [s[0]] + rest
  }

  lemma ConsDesc(x: Room, s: seq<Room>, key: Room -> int)
    requires SortedDesc(s, key)
    requires forall y :: y in s ==> key(y) <= key(x)
    ensures SortedDesc([x] + s, key)
  {
    var r := [x] + s;
    forall i, j | 0 <= i < j < |r|
      ensures key(r[i]) >= key(r[j])
    {
      assert r[j] == s[j - 1];
      if i > 0 {
        assert r[i] == s[i - 1];
      }
    }
  }

  /**
   * `[...rooms].sort((a, b) => key(b) - key(a))`: the rooms by
   * non-increasing key, rooms with equal keys in their original order.
   */
  function SortDesc(rooms: seq<Room>, key: Room -> int): (r: seq<Room>)
    ensures SortedDesc(r, key)
    ensures multiset(r) == multiset(rooms)
  {
    if rooms == [] then []
    else
      assert rooms == [rooms[0]] + rooms[1..];
      InsertDesc(rooms[0], SortDesc(rooms[1..], key), key)
  }

  /** The rooms whose key is `k`. */
  function KeyIs(key: Room -> int, k: int): Room -> bool
  {
    (r: Room) => key(r) == k
  }

  lemma {:induction false} InsertDescStable(x: Room, s: seq<Room>, key: Room -> int, k: int)
    requires SortedDesc(s, key)
    ensures Filter(InsertDesc(x, s, key), KeyIs(key, k)) == (if key(x) == k then [x] else []) + Filter(s, KeyIs(key, k))
  {
    var p := KeyIs(key, k);
    if s == [] || key(x) >= key(s[0]) {
      FilterCons(x, s, p);
    } else {
      var rest := InsertDesc(x, s[1..], key);
      InsertDescStable(x, s[1..], key, k);
      assert InsertDesc(x, s, key) == [s[0]] + rest;
      FilterCons(s[0], rest, p);
      FilterHead(s, p);
      var head := if key(s[0]) == k then [s[0]] else [];
      var mine := if key(x) == k then [x] else [];
      // x goes after s[0] only when its key is smaller, so at most one of them has key k
      assert head == [] || mine == [];
      assert head + (mine + Filter(s[1..], p)) == mine + (head + Filter(s[1..], p));
    }
  }

  /** Stability: among rooms with equal keys, the sorted list keeps their original order. */
  lemma {:induction false} SortDescStable(rooms: seq<Room>, key: Room -> int, k: int)
    ensures Filter(SortDesc(rooms, key), KeyIs(key, k)) == Filter(rooms, KeyIs(key, k))
  {
    if rooms != [] {
      SortDescStable(rooms[1..], key, k);
      InsertDescStable(rooms[0], SortDesc(rooms[1..], key), key, k);
    }
  }

  function UsersCount(r: Room): int
  {
    r.usersCount
  }

  function CreatedAt(r: Room): int
  {
    r.createdAt
  }

  function HasTag(tag: string): Room -> bool
  {
    (r: Room) => tag in r.tags
  }

  /**
   * `filterRooms`: 'popular' and 'recent' reorder, 'tag' with a value
   * narrows, and every other filter gives the list back as it is.
   */
  function FilterRooms(rooms: seq<Room>, f: RoomFilter): (r: seq<Room>)
    ensures f.kind == "popular" ==> multiset(r) == multiset(rooms) && SortedDesc(r, UsersCount)
    ensures f.kind == "recent" ==> multiset(r) == multiset(rooms) && SortedDesc(r, CreatedAt)
    ensures f.kind == "tag" && Present(f.value) ==>
      && Subseq(r, rooms)
      && (forall x :: x in r <==> x in rooms && f.value.value in x.tags)
      && (forall x :: multiset(r)[x] == if f.value.value in x.tags then multiset(rooms)[x] else 0)
    ensures f.kind !in {"popular", "recent", "tag"} || (f.kind == "tag" && !Present(f.value)) ==> r == rooms
  {
    if f.kind == "all" then rooms
    else if f.kind == "popular" then SortDesc(rooms, UsersCount)
    else if f.kind == "recent" then SortDesc(rooms, CreatedAt)
    else if f.kind == "tag" && Present(f.value) then
      FilterCounts(rooms, HasTag(f.value.value));
      Filter(rooms, HasTag(f.value.value))
    else rooms
  }

  /** 'popular' and 'recent' are stable: rooms that tie keep their original order. */
  lemma FilterRoomsStable(rooms: seq<Room>, f: RoomFilter, k: int)
    requires f.kind == "popular" || f.kind == "recent"
    ensures var key := if f.kind == "popular" then UsersCount else CreatedAt;
      Filter(FilterRooms(rooms, f), KeyIs(key, k)) == Filter(rooms, KeyIs(key, k))
  {
    if f.kind == "popular" {
      SortDescStable(rooms, UsersCount, k);
    } else {
      SortDescStable(rooms, CreatedAt, k);
    }
  }
}
