/** Sorted lists of distinct strings: the canonical form of a set of filters or keys. */
module Ordering {
  import opened Text

  predicate Increasing(s: seq<string>) {
    forall i, j :: 0 <= i < j < |s| ==> Less(s[i], s[j])
  }

  function Members(s: seq<string>): set<string> {
    set x | x in s
  }

  /** An increasing list is determined by its members. */
  lemma {:induction false} IncreasingUnique(a: seq<string>, b: seq<string>)
    requires Increasing(a) && Increasing(b) && Members(a) == Members(b)
    ensures a == b
  {
    if a == [] {
      assert forall i :: 0 <= i < |b| ==> b[i] in Members(b);
    } else {
      assert a[0] in Members(a);
      Least(a, b);
      Least(b, a);
      LessTotal(a[0], b[0]);
      TailMembers(a);
      TailMembers(b);
      IncreasingUnique(a[1..], b[1..]);
    }
  }

  /** Nothing in the other list is below the first element. */
  lemma Least(a: seq<string>, b: seq<string>)
    requires Increasing(a) && a != [] && b != [] && Members(a) == Members(b)
    ensures !Less(b[0], a[0])
  {
    assert b[0] in Members(b);
    var i :| 0 <= i < |a| && a[i] == b[0];
    LessIrreflexive(a[0]);
    if i > 0 {
      LessAsymmetric(a[0], a[i]);
    }
  }

  lemma TailMembers(a: seq<string>)
    requires Increasing(a) && a != []
    ensures Members(a[1..]) == Members(a) - {a[0]}
  {
    LessIrreflexive(a[0]);
    assert a == [a[0]] + a[1..];
    assert forall i :: 0 < i < |a| ==> Less(a[0], a[i]);
  }

  // ----- sorting -----

  function Insert(x: string, s: seq<string>): seq<string> {
    if s == [] || Less(x, s[0]) then [x] + s else [s[0]] + Insert(x, s[1..])
  }

  function Sort(s: seq<string>): seq<string> {
    if s == [] then [] else Insert(s[0], Sort(s[1..]))
  }

  predicate Distinct(s: seq<string>) {
    forall i, j :: 0 <= i < j < |s| ==> s[i] != s[j]
  }

  lemma {:induction false} InsertOrdered(x: string, s: seq<string>)
    requires Increasing(s) && x !in s
    ensures Increasing(Insert(x, s)) && Members(Insert(x, s)) == Members(s) + {x}
  {
    if s != [] {
      if Less(x, s[0]) {
        forall j | 0 < j < |s|
          ensures Less(x, s[j])
        {
          LessTransitive(x, s[0], s[j]);
        }
      } else {
        LessTotal(x, s[0]);
        InsertOrdered(x, s[1..]);
        var rest := Insert(x, s[1..]);
        assert s == [s[0]] + s[1..];
        forall j | 0 <= j < |rest|
          ensures Less(s[0], rest[j])
        {
          assert rest[j] in Members(rest);
        }
      }
    }
  }

  /** Sorting distinct strings yields the one increasing list with the same members. */
  lemma {:induction false} SortOrdered(s: seq<string>)
    requires Distinct(s)
    ensures Increasing(Sort(s)) && Members(Sort(s)) == Members(s)
  {
    if s != [] {
      SortOrdered(s[1..]);
      assert s[0] !in s[1..];
      assert s[0] !in Members(Sort(s[1..]));
      InsertOrdered(s[0], Sort(s[1..]));
      assert s == [s[0]] + s[1..];
    }
  }

  /** The increasing list of a finite set. */
  ghost function Listing(members: set<string>): (s: seq<string>)
    ensures Increasing(s) && Members(s) == members
  {
    ListingExists(members);
    var s :| Increasing(s) && Members(s) == members;
    s
  }

  lemma {:induction false} ListingExists(members: set<string>)
    ensures exists s :: Increasing(s) && Members(s) == members
    decreases |members|
  {
    if members == {} {
      assert Increasing([]) && Members([]) == members;
    } else {
      var x :| x in members;
      ListingExists(members - {x});
      var s :| Increasing(s) && Members(s) == members - {x};
      assert x !in Members(s);
      InsertOrdered(x, s);
      assert Members(Insert(x, s)) == members;
    }
  }
}
