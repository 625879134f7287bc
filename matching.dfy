/** Location lookup. Every store query filters with `new RegExp(location, "i")`: for a
    location name without regular-expression metacharacters that is a case-insensitive
    search for the name anywhere inside the stored `location`. */
module Matching {

  function LowerChar(c: char): char
  {
    if 'A' <= c <= 'Z' then (c as int + 32) as char else c
  }

  /** The string with every ASCII capital letter replaced by its small letter. */
  function Lower(s: string): (r: string)
    ensures |r| == |s|
    ensures forall i :: 0 <= i < |s| ==> r[i] == LowerChar(s[i])
  {
    if s == [] then [] else [LowerChar(s[0])] + Lower(s[1..])
  }

  predicate IsPrefix(p: string, s: string)
  {
    |p| <= |s| && s[..|p|] == p
  }

  /** `p` occurs in `s` starting at some position. */
  predicate Occurs(p: string, s: string)
    decreases |s|
  {
    IsPrefix(p, s) || (0 < |s| && Occurs(p, s[1..]))
  }

  /** The stored `location` is selected by the query. */
  predicate Matches(query: string, location: string)
  {
    Occurs(Lower(query), Lower(location))
  }

  /** `p` is the slice of `s` that starts at position `i`. */
  predicate OccursAt(p: string, s: string, i: int)
  {
    0 <= i && i + |p| <= |s| && s[i..i + |p|] == p
  }

  /** `Occurs` is the search for a position where `p` is a slice of `s`. */
  lemma {:induction false} OccursIff(p: string, s: string)
    ensures Occurs(p, s) <==> exists i :: OccursAt(p, s, i)
  {
    if IsPrefix(p, s) {
      assert OccursAt(p, s, 0);
    } else if |s| == 0 {
    } else {
      OccursIff(p, s[1..]);
      if Occurs(p, s[1..]) {
        var i :| OccursAt(p, s[1..], i);
        assert s[i + 1..i + 1 + |p|] == s[1..][i..i + |p|];
        assert OccursAt(p, s, i + 1);
      }
      if exists i :: OccursAt(p, s, i) {
        var i :| OccursAt(p, s, i);
        assert i != 0;
        assert s[1..][i - 1..i - 1 + |p|] == s[i..i + |p|];
        assert OccursAt(p, s[1..], i - 1);
      }
    }
  }

  lemma {:induction false} LowerIdempotent(s: string)
    ensures Lower(Lower(s)) == Lower(s)
  {
    var l := Lower(s);
    assert forall i :: 0 <= i < |l| ==> Lower(l)[i] == LowerChar(LowerChar(s[i])) == l[i];
  }

  lemma {:induction false} LowerAppend(a: string, b: string)
    ensures Lower(a + b) == Lower(a) + Lower(b)
  {
    var l, r := Lower(a + b), Lower(a) + Lower(b);
    assert forall i :: 0 <= i < |a + b| ==> l[i] == r[i] by {
      forall i | 0 <= i < |a + b|
        ensures l[i] == r[i]
      {
        if i < |a| {
          assert (a + b)[i] == a[i];
        } else {
          assert (a + b)[i] == b[i - |a|];
        }
      }
    }
  }

  /** A name written in any mix of capitals and small letters selects its own document. */
  lemma SameNameMatches(query: string, location: string)
    requires Lower(query) == Lower(location)
    ensures Matches(query, location)
  {
    var l := Lower(location);
    assert l[..|l|] == l;
  }

  /** The query is searched for, not compared: "york" selects "New York". */
  lemma {:induction false} ContainedNameMatches(before: string, name: string, after: string)
    ensures Matches(name, before + name + after)
  {
    LowerAppend(before + name, after);
    LowerAppend(before, name);
    OccursIn(Lower(before), Lower(name), Lower(after));
  }

  lemma {:induction false} OccursIn(a: string, p: string, b: string)
    ensures Occurs(p, a + p + b)
    decreases |a|
  {
    if a == [] {
      assert a + p + b == p + b;
      assert (p + b)[..|p|] == p;
    } else {
      assert (a + p + b)[1..] == a[1..] + p + b;
      OccursIn(a[1..], p, b);
    }
  }

  /** Matching ignores the letter case of the query: "Paris", "paris" and "PARIS" select
      the same documents. */
  lemma MatchesIgnoresQueryCase(query: string, location: string)
    ensures Matches(Lower(query), location) == Matches(query, location)
  {
    LowerIdempotent(query);
  }

  /** The empty query, `new RegExp("", "i")`, selects every document. */
  lemma EmptyQueryMatchesAll(location: string)
    ensures Matches("", location)
  {
    assert Lower(location)[..0] == [];
  }
}
