// Snapshots of Go maps: slices that hold every value exactly once, in any order.
module Listings {

  // Every value sits under its own key.
  ghost predicate KeyedBy<T>(key: T -> string, m: map<string, T>) {
    forall id | id in m :: key(m[id]) == id
  }

  ghost predicate ListsBy<T>(key: T -> string, xs: seq<T>, m: map<string, T>) {
    && (forall i | 0 <= i < |xs| :: key(xs[i]) in m && m[key(xs[i])] == xs[i])
    && (forall id | id in m :: m[id] in xs)
    && (forall i, j | 0 <= i < j < |xs| :: xs[i] != xs[j])
  }

  // make([]T, 0, len(m)) and an append loop over the map, whose order is arbitrary.
  method ListValues<T(==)>(ghost key: T -> string, m: map<string, T>) returns (xs: seq<T>)
    requires KeyedBy(key, m)
    ensures ListsBy(key, xs, m)
  {
    xs := [];
    var todo := m.Keys;
    while todo != {}
      invariant todo <= m.Keys
      invariant forall i | 0 <= i < |xs| :: key(xs[i]) in m && key(xs[i]) !in todo && m[key(xs[i])] == xs[i]
      invariant forall id | id in m && id !in todo :: m[id] in xs
      invariant forall i, j | 0 <= i < j < |xs| :: xs[i] != xs[j]
      decreases todo
    {
      var id :| id in todo;
      xs := xs + [m[id]];
      todo := todo - {id};
    }
  }

  lemma PrefixSnoc<T>(s: seq<T>, i: nat)
    requires i < |s|
    ensures s[..i + 1] == s[..i] + [s[i]]
  {
  }

  // A snapshot has as many entries as the map.
  lemma {:induction false} ListingLength<T>(key: T -> string, xs: seq<T>, m: map<string, T>)
    requires KeyedBy(key, m) && ListsBy(key, xs, m)
    ensures |xs| == |m|
    decreases |xs|
  {
    if xs == [] {
      assert m == map[];
    } else {
      var x := xs[|xs| - 1];
      var rest := m - {key(x)};
      forall id | id in rest
        ensures rest[id] in xs[..|xs| - 1]
      {
        var i :| 0 <= i < |xs| && xs[i] == m[id];
        assert xs[..|xs| - 1][i] == m[id];
      }
      ListingLength(key, xs[..|xs| - 1], rest);
      assert m.Keys == rest.Keys + {key(x)};
    }
  }
}
