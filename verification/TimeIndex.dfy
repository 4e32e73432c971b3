/** The dashboard's list of resource names, kept in the order of their creation times. */
module TimeIndex {
  import opened Seqs

  datatype Name = Name(space: string, name: string)

  datatype Meta = Meta(uid: string, created: int)

  /** What looking up a name yields at the moment; a failing lookup is a missing key. */
  type Cache = map<Name, Meta>

  /** The walk from the back goes on past an entry that is not older and is another resource. */
  predicate Passes(cache: Cache, e: Name, meta: Meta) {
    e in cache && cache[e].uid != meta.uid && meta.created <= cache[e].created
  }

  predicate AllPass(list: seq<Name>, cache: Cache, meta: Meta) {
    forall x :: x in list ==> Passes(cache, x, meta)
  }

  /** The walk from the back splits the list: it passes `back` and stops at the last entry of `front`, if any. */
  datatype Split = Split(front: seq<Name>, back: seq<Name>)

  predicate StopsAtFront(front: seq<Name>, cache: Cache, meta: Meta) {
    front != [] ==> !Passes(cache, front[|front| - 1], meta)
  }

  function Walk(list: seq<Name>, cache: Cache, meta: Meta): (s: Split)
    ensures s.front + s.back == list
    ensures AllPass(s.back, cache, meta) && StopsAtFront(s.front, cache, meta)
  {
    if list == [] || !Passes(cache, list[|list| - 1], meta) then Split(list, [])
    else
      var s := Walk(list[..|list| - 1], cache, meta);
      Split(s.front, s.back + [list[|list| - 1]])
  }

  lemma {:induction false} WalkIs(list: seq<Name>, rest: nat, cache: Cache, meta: Meta)
    requires rest <= |list| && AllPass(list[rest..], cache, meta) && StopsAtFront(list[..rest], cache, meta)
    ensures Walk(list, cache, meta) == Split(list[..rest], list[rest..])
  {
    if rest < |list| {
      var front, last := list[..|list| - 1], list[|list| - 1];
      assert front[..rest] == list[..rest];
      assert list[rest..] == front[rest..] + [last];
      WalkIs(front, rest, cache, meta);
    }
  }

  predicate Stale(front: seq<Name>, cache: Cache) {
    front != [] && front[|front| - 1] !in cache
  }

  predicate Met(front: seq<Name>, cache: Cache, meta: Meta) {
    front != [] && front[|front| - 1] in cache && cache[front[|front| - 1]].uid == meta.uid
  }

  function Put(s: Split, cache: Cache, name: Name, meta: Meta): (r: seq<Name>) {
    if Stale(s.front, cache) then [name] + (s.front[..|s.front| - 1] + s.back)
    else if Met(s.front, cache, meta) then s.front + s.back
    else s.front + ([name] + s.back)
  }

  function Added(list: seq<Name>, cache: Cache, name: Name, meta: Meta): (r: seq<Name>) {
    Put(Walk(list, cache, meta), cache, name, meta)
  }

  function Removed(list: seq<Name>, name: Name): (r: seq<Name>) {
    if list == [] then [] else if list[0] == name then list[1..] else [list[0]] + Removed(list[1..], name)
  }

  class TimeOrderedIndexes {
    var list: seq<Name>

    constructor ()
      ensures list == []
    {
      list := [];
    }

    /** Puts a name behind the last older entry. An entry that cannot be looked up is dropped; its links are
        gone then, so the walk ends there and the name goes to the front. */
    method AddIndex(name: Name, meta: Meta, cache: Cache)
      modifies this
      ensures list == Added(old(list), cache, name, meta)
    {
      var rest: nat := |list|;
      while rest > 0
        invariant rest <= |list| && list == old(list)
        invariant AllPass(list[rest..], cache, meta)
      {
        var e := rest - 1;
        var current := list[e];
        if !Passes(cache, current, meta) {
          WalkIs(list, rest, cache, meta);
        }
        if current !in cache {
          list := list[..e] + list[rest..];
          assert [name] + list == Added(old(list), cache, name, meta);
          break;
        }
        if meta.uid == cache[current].uid {
          return;
        }
        if meta.created > cache[current].created {
          list := list[..rest] + ([name] + list[rest..]);
          return;
        }
        assert list[e..] == [current] + list[rest..];
        rest := e;
      }
      if rest == 0 {
        WalkIs(list, 0, cache, meta);
      }
      list := [name] + list;
    }

    method RemoveIndex(name: Name)
      modifies this
      ensures list == Removed(old(list), name)
    {
      var e := 0;
      while e < |list|
        invariant 0 <= e <= |list|
        invariant list == old(list)
        invariant Removed(list, name) == list[..e] + Removed(list[e..], name)
      {
        if list[e] == name {
          list := list[..e] + list[e + 1..];
          return;
        }
        e := e + 1;
      }
    }

    method Debug() returns (names: seq<Name>)
      ensures names == list
    {
      names := [];
      var e := 0;
      while e < |list|
        invariant 0 <= e <= |list|
        invariant names == list[..e]
      {
        names := names + [list[e]];
        e := e + 1;
      }
    }
  }

  // ---------- one call ----------

  /** Where both can be looked up, `x` is no newer than `y` and another resource. */
  predicate Precedes(cache: Cache, x: Name, y: Name) {
    x in cache && y in cache ==> cache[x].created <= cache[y].created && cache[x].uid != cache[y].uid
  }

  /** The entries that can be looked up have ascending creation times and distinct UIDs. */
  predicate Ordered(list: seq<Name>, cache: Cache) {
    forall i, j :: 0 <= i < j < |list| ==> Precedes(cache, list[i], list[j])
  }

  ghost predicate AllPrecede(a: seq<Name>, b: seq<Name>, cache: Cache) {
    forall x, y :: x in a && y in b ==> Precedes(cache, x, y)
  }

  lemma OrderedParts(a: seq<Name>, b: seq<Name>, cache: Cache)
    requires Ordered(a + b, cache)
    ensures Ordered(a, cache) && Ordered(b, cache) && AllPrecede(a, b, cache)
  {
    var ab := a + b;
    forall i, j | 0 <= i < j < |a| ensures Precedes(cache, a[i], a[j]) {
      assert Precedes(cache, ab[i], ab[j]);
    }
    forall i, j | 0 <= i < j < |b| ensures Precedes(cache, b[i], b[j]) {
      assert Precedes(cache, ab[|a| + i], ab[|a| + j]);
    }
    forall x, y | x in a && y in b ensures Precedes(cache, x, y) {
      var i :| 0 <= i < |a| && a[i] == x;
      var j :| 0 <= j < |b| && b[j] == y;
      assert Precedes(cache, ab[i], ab[|a| + j]);
    }
  }

  lemma OrderedWhole(a: seq<Name>, b: seq<Name>, cache: Cache)
    requires Ordered(a, cache) && Ordered(b, cache) && AllPrecede(a, b, cache)
    ensures Ordered(a + b, cache)
  {
    forall i, j | 0 <= i < j < |a + b| ensures Precedes(cache, (a + b)[i], (a + b)[j]) {
      if i < |a| <= j {
        assert a[i] in a && b[j - |a|] in b;
      }
    }
  }

  lemma OrderedConcat(a: seq<Name>, b: seq<Name>, cache: Cache)
    ensures Ordered(a + b, cache) <==> Ordered(a, cache) && Ordered(b, cache) && AllPrecede(a, b, cache)
  {
    if Ordered(a + b, cache) {
      OrderedParts(a, b, cache);
    } else if Ordered(a, cache) && Ordered(b, cache) && AllPrecede(a, b, cache) {
      OrderedWhole(a, b, cache);
    }
  }

  predicate AllKnown(list: seq<Name>, cache: Cache) {
    forall x :: x in list ==> x in cache
  }

  predicate Lists(list: seq<Name>, cache: Cache, uid: string) {
    exists x :: x in list && x in cache && cache[x].uid == uid
  }

  /** A UID belongs to one resource, so it fixes the creation time. */
  predicate UidFixesTime(list: seq<Name>, cache: Cache, meta: Meta) {
    forall x :: x in list && x in cache && cache[x].uid == meta.uid ==> cache[x].created == meta.created
  }

  /** The list falls into older entries and entries that are not older. */
  predicate Splits(s: Split, cache: Cache, meta: Meta) {
    && AllKnown(s.front, cache) && AllKnown(s.back, cache)
    && (forall x :: x in s.front ==> cache[x].created < meta.created)
    && (forall x :: x in s.back ==> cache[x].created >= meta.created)
  }

  lemma WalkMeets(front: seq<Name>, back: seq<Name>, cache: Cache, meta: Meta)
    requires AllPass(back, cache, meta) && StopsAtFront(front, cache, meta)
    requires AllKnown(front, cache) && Ordered(front, cache) && UidFixesTime(front, cache, meta)
    ensures Met(front, cache, meta) <==> Lists(front + back, cache, meta.uid)
    ensures !Met(front, cache, meta) ==> Splits(Split(front, back), cache, meta)
  {
    if front != [] {
      var last := front[|front| - 1];
      assert last in front && last in front + back;
      forall x | x in front && cache[last].uid != meta.uid
        ensures cache[x].created < meta.created && cache[x].uid != meta.uid
      {
        var i :| 0 <= i < |front| && front[i] == x;
        if i < |front| - 1 {
          assert Precedes(cache, front[i], last);
        }
      }
    }
  }

  /** The name goes in between the older entries and those that are not older. */
  predicate GoesBetween(s: Split, list: seq<Name>, cache: Cache, name: Name, meta: Meta) {
    && Splits(s, cache, meta) && list == s.front + s.back
    && Added(list, cache, name, meta) == s.front + ([name] + s.back)
  }

  /** With every lookup succeeding: a listed resource leaves the list alone, and another one goes in at the one
      place between the older entries and those that are not older. */
  lemma AddedInOrder(list: seq<Name>, cache: Cache, name: Name, meta: Meta)
    requires AllKnown(list, cache) && Ordered(list, cache) && UidFixesTime(list, cache, meta)
    ensures Lists(list, cache, meta.uid) ==> Added(list, cache, name, meta) == list
    ensures !Lists(list, cache, meta.uid) ==>
      exists s :: GoesBetween(s, list, cache, name, meta)
  {
    var s := Walk(list, cache, meta);
    OrderedConcat(s.front, s.back, cache);
    assert forall x :: x in s.front ==> x in list;
    assert AllKnown(s.front, cache);
    WalkMeets(s.front, s.back, cache, meta);
    assert !Lists(list, cache, meta.uid) ==> GoesBetween(s, list, cache, name, meta);
  }

  /** No entry of the part of the list that the walk did not see is older, nor is it the resource itself. */
  predicate FitsInFront(unseen: seq<Name>, cache: Cache, meta: Meta) {
    forall x :: x in unseen && x in cache ==> meta.created <= cache[x].created && cache[x].uid != meta.uid
  }

  /** What a caller could check before the call: the walk meets no failing lookup, or what lies in front of the
      failing one is all newer. */
  predicate Harmless(list: seq<Name>, cache: Cache, meta: Meta) {
    var front := Walk(list, cache, meta).front;
    Stale(front, cache) ==> FitsInFront(front[..|front| - 1], cache, meta)
  }

  lemma StaleShape(front: seq<Name>, back: seq<Name>, cache: Cache) returns (a: seq<Name>, stale: Name)
    requires Stale(front, cache)
    ensures a == front[..|front| - 1] && front + back == a + ([stale] + back) && stale !in cache
  {
    a, stale := front[..|front| - 1], front[|front| - 1];
    assert front == a + [stale];
  }

  lemma StaleOrderedIff(a: seq<Name>, stale: Name, b: seq<Name>, cache: Cache, name: Name)
    requires name in cache && stale !in cache && Ordered(a + ([stale] + b), cache)
    requires AllPass(b, cache, cache[name])
    ensures Ordered([name] + (a + b), cache) <==> FitsInFront(a, cache, cache[name])
  {
    OrderedConcat(a, [stale] + b, cache);
    OrderedConcat([stale], b, cache);
    OrderedConcat(a, b, cache);
    OrderedConcat([name], a + b, cache);
    if FitsInFront(a, cache, cache[name]) {
      assert AllPrecede([name], a + b, cache);
    } else {
      var x :| x in a && x in cache && !(cache[name].created <= cache[x].created && cache[x].uid != cache[name].uid);
      assert name in [name] && x in a + b && !Precedes(cache, name, x);
    }
  }

  lemma InsertOrdered(a: seq<Name>, b: seq<Name>, cache: Cache, name: Name)
    requires name in cache && Ordered(a + b, cache) && UidFixesTime(a, cache, cache[name])
    requires AllPass(b, cache, cache[name])
    requires a != [] ==> a[|a| - 1] in cache && cache[a[|a| - 1]].created < cache[name].created
    ensures Ordered(a + ([name] + b), cache)
  {
    OrderedConcat(a, b, cache);
    OrderedConcat([name], b, cache);
    OrderedConcat(a, [name] + b, cache);
    forall x | x in a ensures Precedes(cache, x, name) {
      var i :| 0 <= i < |a| && a[i] == x;
      if i < |a| - 1 {
        assert Precedes(cache, a[i], a[|a| - 1]);
      }
    }
  }

  /** One call keeps the order exactly when it is harmless. */
  lemma AddKeepsOrderIff(list: seq<Name>, cache: Cache, name: Name)
    requires name in cache && Ordered(list, cache) && UidFixesTime(list, cache, cache[name])
    ensures Ordered(Added(list, cache, name, cache[name]), cache) <==> Harmless(list, cache, cache[name])
  {
    var meta := cache[name];
    var s := Walk(list, cache, meta);
    if Stale(s.front, cache) {
      var a, stale := StaleShape(s.front, s.back, cache);
      StaleOrderedIff(a, stale, s.back, cache, name);
    } else if !Met(s.front, cache, meta) {
      assert forall x :: x in s.front ==> x in list;
      InsertOrdered(s.front, s.back, cache, name);
    }
  }

  /** With a failing lookup, even a list of two can lose its order and list a resource twice. */
  lemma StaleEntryBreaksOrder()
    ensures var a, b := Name("default", "a"), Name("default", "b");
      var cache := map[a := Meta("1", 10)];
      Ordered([a, b], cache) && Added([a, b], cache, a, cache[a]) == [a, a] && !Ordered([a, a], cache)
  {
    var a, b := Name("default", "a"), Name("default", "b");
    var cache := map[a := Meta("1", 10)];
    assert Walk([a, b], cache, cache[a]) == Split([a, b], []);
    assert [a, b][..1] == [a];
    assert !Precedes(cache, [a, a][0], [a, a][1]);
  }

  // ---------- any sequence of calls ----------

  /** `members` are the names added since they appeared and not removed. */
  datatype State = State(cache: Cache, list: seq<Name>, members: set<Name>)

  datatype Event =
    | Appear(name: Name, meta: Meta)
    | Vanish(name: Name)
    | Add(name: Name)
    | Remove(name: Name)

  /** A name that appears is not listed, and brings a UID of its own. */
  predicate Enabled(s: State, e: Event) {
    match e
    case Appear(name, meta) =>
      name !in s.cache && name !in s.list && forall x :: x in s.cache ==> s.cache[x].uid != meta.uid
    case Vanish(name) => name in s.cache
    case Add(name) => name in s.cache && Harmless(s.list, s.cache, s.cache[name])
    case Remove(_) => true
  }

  function After(s: State, e: Event): (r: State)
    requires Enabled(s, e)
  {
    match e
    case Appear(name, meta) => s.(cache := s.cache[name := meta])
    case Vanish(name) => s.(cache := s.cache - {name}, members := s.members - {name})
    case Add(name) => s.(list := Added(s.list, s.cache, name, s.cache[name]), members := s.members + {name})
    case Remove(name) => s.(list := Removed(s.list, name), members := s.members - {name})
  }

  predicate UidsDiffer(cache: Cache) {
    forall x, y :: x in cache && y in cache && x != y ==> cache[x].uid != cache[y].uid
  }

  ghost predicate Valid(s: State) {
    && Ordered(s.list, s.cache) && Distinct(s.list) && UidsDiffer(s.cache)
    && s.members <= s.cache.Keys
    && (forall x :: x in s.cache ==> (x in s.list <==> x in s.members))
  }

  lemma InsertDistinct(a: seq<Name>, b: seq<Name>, cache: Cache, name: Name)
    requires name in cache && Distinct(a + b) && Ordered(a + b, cache)
    requires AllPass(b, cache, cache[name])
    requires a != [] ==> a[|a| - 1] in cache && cache[a[|a| - 1]].created < cache[name].created
    ensures Distinct(a + ([name] + b))
  {
    DistinctConcat(a, b);
    DistinctConcat([name], b);
    DistinctConcat(a, [name] + b);
    OrderedConcat(a, b, cache);
    forall i | 0 <= i < |a| ensures a[i] != name {
      if i < |a| - 1 {
        assert Precedes(cache, a[i], a[|a| - 1]);
      }
    }
  }

  lemma StaleDistinct(a: seq<Name>, stale: Name, b: seq<Name>, cache: Cache, name: Name)
    requires name in cache && Distinct(a + ([stale] + b)) && FitsInFront(a, cache, cache[name])
    requires AllPass(b, cache, cache[name])
    ensures Distinct([name] + (a + b))
  {
    DistinctConcat(a, [stale] + b);
    DistinctConcat([stale], b);
    DistinctConcat(a, b);
    DistinctConcat([name], a + b);
  }

  lemma AddedNames(list: seq<Name>, cache: Cache, name: Name)
    requires name in cache && Distinct(list) && UidsDiffer(cache) && Harmless(list, cache, cache[name])
    requires Ordered(list, cache)
    ensures Distinct(Added(list, cache, name, cache[name]))
    ensures forall x :: x in cache ==> (x in Added(list, cache, name, cache[name]) <==> x in list || x == name)
  {
    var meta := cache[name];
    var s := Walk(list, cache, meta);
    if Stale(s.front, cache) {
      var a, stale := StaleShape(s.front, s.back, cache);
      StaleDistinct(a, stale, s.back, cache, name);
    } else if Met(s.front, cache, meta) {
      assert s.front[|s.front| - 1] in list;
    } else {
      InsertDistinct(s.front, s.back, cache, name);
    }
  }

  /** Removing takes away the one place of the name, if it has one. */
  lemma {:induction false} RemovedKeeps(list: seq<Name>, cache: Cache, name: Name)
    requires Ordered(list, cache) && Distinct(list)
    ensures Ordered(Removed(list, name), cache) && Distinct(Removed(list, name))
    ensures forall x :: x in Removed(list, name) <==> x in list && x != name
  {
    if list != [] {
      var front, rest := [list[0]], list[1..];
      assert list == front + rest;
      OrderedConcat(front, rest, cache);
      DistinctConcat(front, rest);
      if list[0] != name {
        RemovedKeeps(rest, cache, name);
        OrderedConcat(front, Removed(rest, name), cache);
        DistinctConcat(front, Removed(rest, name));
      }
    }
  }

  lemma EventKeeps(s: State, e: Event)
    requires Enabled(s, e) && Valid(s)
    ensures Valid(After(s, e))
  {
    match e {
      case Add(name) =>
        AddKeepsOrderIff(s.list, s.cache, name);
        AddedNames(s.list, s.cache, name);
      case Remove(name) => RemovedKeeps(s.list, s.cache, name);
      case Appear(name, meta) =>
        assert Ordered(s.list, s.cache[name := meta]);
      case Vanish(name) =>
        assert Ordered(s.list, s.cache - {name});
    }
  }

  ghost predicate Leads(s: State, events: seq<Event>, t: State)
    decreases |events|
  {
    if events == [] then s == t
    else Enabled(s, events[0]) && Leads(After(s, events[0]), events[1..], t)
  }

  /** Over any run from a valid state, such as the empty index, the list is in order, repeats no UID, and its names
      that can be looked up are exactly those added and not removed. */
  lemma {:induction false} IndexStaysOrdered(s: State, events: seq<Event>, t: State)
    requires Leads(s, events, t) && Valid(s)
    ensures Ordered(t.list, t.cache) && Distinct(t.list)
    ensures forall x :: x in t.cache ==> (x in t.list <==> x in t.members)
    decreases |events|
  {
    if events != [] {
      EventKeeps(s, events[0]);
      IndexStaysOrdered(After(s, events[0]), events[1..], t);
    }
  }
}
