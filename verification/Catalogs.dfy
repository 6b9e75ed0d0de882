/**
 Dictionaries keyed by a number and their canonical listings.

 The bridge builds every stored array the same way: fill a dictionary keyed by id, later
 entries replacing earlier ones, then list its values in ascending key order. `Index` is the
 dictionary built from a list, `Listing` the ascending list of a dictionary, and the lemmas say
 that on canonical lists the two are inverse.
 */
module Catalogs {

  datatype Option<+T> = None | Some(value: T)

  datatype Result<+T> = Ok(value: T) | Err(error: string)

  // ------------------------------------------------------------------ sorted()

  predicate Ascending(s: seq<nat>) {
    forall i, j :: 0 <= i < j < |s| ==> s[i] < s[j]
  }

  lemma LeastExists(s: set<nat>, x: nat)
    requires x in s
    ensures exists m :: m in s && forall y :: y in s ==> m <= y
    decreases x
  {
    if y :| y in s && y < x {
      LeastExists(s, y);
    }
  }

  function Least(s: set<nat>): (m: nat)
    requires s != {}
    ensures m in s && forall x :: x in s ==> m <= x
  {
    assert exists m :: m in s && forall x :: x in s ==> m <= x by {
      var x :| x in s;
      LeastExists(s, x);
    }
    var m :| m in s && forall x :: x in s ==> m <= x;
    m
  }

  /** The elements of a set in ascending order. */
  function Sorted(s: set<nat>): seq<nat> {
    if s == {} then [] else
    var m := Least(s);
    [m] + Sorted(s - {m})
  }

  /** Each element once, ascending. */
  lemma {:induction false} SortedFacts(s: set<nat>)
    ensures Ascending(Sorted(s)) && |Sorted(s)| == |s|
    ensures forall x :: x in Sorted(s) <==> x in s
  {
    if s != {} {
      var m := Least(s);
      var rest := Sorted(s - {m});
      SortedFacts(s - {m});
      assert forall j :: 0 <= j < |rest| ==> rest[j] in rest && m < rest[j];
    }
  }

  lemma RestElements(r: seq<nat>, s: set<nat>, m: nat)
    requires r != [] && r[0] == m && Ascending(r)
    requires forall x :: x in r <==> x in s
    ensures forall x :: x in r[1..] <==> x in s - {m}
  {
    var rest := r[1..];
    assert r == [m] + rest;
    assert m !in rest;
    forall x ensures x in rest <==> x in s - {m} {
      assert x in r <==> x == m || x in rest;
    }
  }

  /** An ascending sequence is determined by its set of elements. */
  lemma {:induction false} SortedUnique(r: seq<nat>, s: set<nat>)
    requires Ascending(r)
    requires forall x :: x in r <==> x in s
    ensures r == Sorted(s)
  {
    if r == [] {
      assert s == {};
    } else {
      assert r[0] in s;
      var m := Least(s);
      assert m in r;
      assert r[0] == m;
      var rest := r[1..];
      RestElements(r, s, m);
      SortedUnique(rest, s - {m});
      assert r == [m] + rest;
    }
  }

  // ------------------------------------------------------- dictionaries and listings

  /** The dictionary filled from a list; a later entry replaces an earlier one. */
  function Index<T>(xs: seq<T>, key: T -> nat): map<nat, T> {
    if xs == [] then map[] else
    var last := xs[|xs| - 1];
    Index(xs[..|xs| - 1], key)[key(last) := last]
  }

  predicate Keyed<T>(m: map<nat, T>, key: T -> nat) {
    forall k :: k in m ==> key(m[k]) == k
  }

  /** The dictionary has an entry for each key of the list, taken from the list. */
  lemma {:induction false} IndexEntries<T>(xs: seq<T>, key: T -> nat)
    ensures Keyed(Index(xs, key), key)
    ensures forall k :: k in Index(xs, key) ==> Index(xs, key)[k] in xs
    ensures forall x :: x in xs ==> key(x) in Index(xs, key)
  {
    if xs != [] {
      IndexEntries(xs[..|xs| - 1], key);
    }
  }

  function Get<T>(m: map<nat, T>, k: nat): Option<T> {
    if k in m then Some(m[k]) else None
  }

  function OrElse<T>(first: Option<T>, second: Option<T>): Option<T> {
    if first.Some? then first else second
  }

  lemma SameEntries<T>(m: map<nat, T>, n: map<nat, T>)
    requires forall k :: Get(m, k) == Get(n, k)
    ensures m == n
  {
    forall k ensures k in m <==> k in n {
      assert Get(m, k) == Get(n, k);
    }
    forall k | k in m ensures m[k] == n[k] {
      assert Get(m, k) == Get(n, k);
    }
  }

  /** The values of a dictionary in ascending key order. */
  function Listing<T>(m: map<nat, T>): seq<T> {
    var keys := Sorted(m.Keys);
    SortedFacts(m.Keys);
    seq(|keys|, i requires 0 <= i < |keys| => assert keys[i] in keys; m[keys[i]])
  }

  lemma ListingEntries<T>(m: map<nat, T>)
    ensures |Listing(m)| == |Sorted(m.Keys)| == |m|
    ensures forall k :: k in m ==> m[k] in Listing(m)
    ensures forall x :: x in Listing(m) ==> exists k :: k in m && m[k] == x
  {
    var keys, xs := Sorted(m.Keys), Listing(m);
    SortedFacts(m.Keys);
    assert |m.Keys| == |m|;
    forall k | k in m ensures m[k] in xs {
      assert k in keys;
      var i :| 0 <= i < |keys| && keys[i] == k;
      assert xs[i] == m[k];
    }
    forall x | x in xs ensures exists k :: k in m && m[k] == x {
      var i :| 0 <= i < |xs| && xs[i] == x;
      assert keys[i] in keys;
    }
  }

  predicate Canonical<T>(xs: seq<T>, key: T -> nat) {
    forall i, j :: 0 <= i < j < |xs| ==> key(xs[i]) < key(xs[j])
  }

  /** On a canonical list every entry is found in the dictionary: none is replaced. */
  lemma {:induction false} IndexCanonical<T>(xs: seq<T>, key: T -> nat)
    requires Canonical(xs, key)
    ensures forall x :: x in xs ==> key(x) in Index(xs, key) && Index(xs, key)[key(x)] == x
  {
    IndexEntries(xs, key);
    if xs != [] {
      var init, last := xs[..|xs| - 1], xs[|xs| - 1];
      IndexCanonical(init, key);
      forall x | x in xs ensures Index(xs, key)[key(x)] == x {
        if x != last {
          var i :| 0 <= i < |xs| && xs[i] == x;
          assert init[i] == x;
          assert key(xs[i]) < key(xs[|xs| - 1]);
        }
      }
    }
  }

  lemma LastIsNew<T>(xs: seq<T>, key: T -> nat)
    requires xs != [] && Canonical(xs, key)
    ensures key(xs[|xs| - 1]) !in Index(xs[..|xs| - 1], key)
  {
    var init := xs[..|xs| - 1];
    IndexEntries(init, key);
    forall x | x in init ensures key(x) != key(xs[|xs| - 1]) {
      var i :| 0 <= i < |init| && init[i] == x;
      assert key(xs[i]) < key(xs[|xs| - 1]);
    }
  }

  lemma ListingCanonical<T>(m: map<nat, T>, key: T -> nat)
    requires Keyed(m, key)
    ensures Canonical(Listing(m), key)
  {
    var keys := Sorted(m.Keys);
    SortedFacts(m.Keys);
    forall i, j | 0 <= i < j < |Listing(m)| ensures key(Listing(m)[i]) < key(Listing(m)[j]) {
      assert keys[i] in keys && keys[j] in keys;
    }
  }

  /** Listing a dictionary and indexing it again gives the dictionary back. */
  lemma IndexListing<T>(m: map<nat, T>, key: T -> nat)
    requires Keyed(m, key)
    ensures Index(Listing(m), key) == m
  {
    ListingCanonical(m, key);
    ListingEntries(m);
    var xs := Listing(m);
    IndexCanonical(xs, key);
    IndexEntries(xs, key);
    var r := Index(xs, key);
    forall k | k in m ensures k in r && r[k] == m[k] {
      assert m[k] in xs;
    }
    forall k | k in r ensures k in m {
      assert r[k] in xs;
    }
  }

  /** Indexing a canonical list and listing it again gives the list back. */
  lemma ListingIndex<T>(xs: seq<T>, key: T -> nat)
    requires Canonical(xs, key)
    ensures Listing(Index(xs, key)) == xs
  {
    var m := Index(xs, key);
    IndexCanonical(xs, key);
    IndexEntries(xs, key);
    var ks := seq(|xs|, i requires 0 <= i < |xs| => key(xs[i]));
    assert Ascending(ks);
    forall k ensures k in ks <==> k in m.Keys {
      if k in ks {
        var i :| 0 <= i < |ks| && ks[i] == k;
        assert xs[i] in xs;
      }
      if k in m {
        assert m[k] in xs;
        var i :| 0 <= i < |xs| && xs[i] == m[k];
        assert ks[i] == k;
      }
    }
    SortedUnique(ks, m.Keys);
    assert |Listing(m)| == |xs|;
    forall i | 0 <= i < |xs| ensures Listing(m)[i] == xs[i] {
      assert xs[i] in xs;
    }
  }

  /** Two canonical lists with the same dictionary are the same list. */
  lemma CanonicalEqual<T>(xs: seq<T>, ys: seq<T>, key: T -> nat)
    requires Canonical(xs, key) && Canonical(ys, key)
    requires Index(xs, key) == Index(ys, key)
    ensures xs == ys
  {
    ListingIndex(xs, key);
    ListingIndex(ys, key);
  }

  lemma OverlayKeyed<T>(xs: seq<T>, ys: seq<T>, key: T -> nat)
    ensures Keyed(Index(xs, key) + Index(ys, key), key)
  {
    IndexEntries(xs, key);
    IndexEntries(ys, key);
  }
}
