/** The name search both selectors run: a palette is kept when its lower-cased name contains
    the lower-cased query. The program scans with `.find` and a callback that pushes the
    matching palettes and never returns true, so every element is visited; FilterByName is
    that scan, and Matching is the list it builds. */
module Search {
  import opened Palettes
  import opened Text

  /** `c.name.toLowerCase().includes(query.toLowerCase())` */
  predicate NameMatches(c: Colorway, query: string)
    ensures query == "" ==> NameMatches(c, query)
  {
    assert query == "" ==> OccursAt(Lower(c.name), Lower(query), 0);
    Contains(Lower(c.name), Lower(query))
  }

  /** The palettes of `xs` whose names match `query`, in the order of `xs`. */
  function Matching(xs: seq<Colorway>, query: string): (r: seq<Colorway>)
    ensures |r| <= |xs|
  {
    if xs == [] then []
    else Matching(xs[..|xs| - 1], query) + (if NameMatches(xs[|xs| - 1], query) then [xs[|xs| - 1]] else [])
  }

  /** The scan with `results.push` for every matching palette. */
  method FilterByName(xs: seq<Colorway>, query: string) returns (results: seq<Colorway>)
    ensures results == Matching(xs, query)
    ensures forall c :: c in results <==> c in xs && NameMatches(c, query)
  {
    results := [];
    var i := 0;
    while i < |xs|
      invariant 0 <= i <= |xs|
      invariant results == Matching(xs[..i], query)
    {
      assert xs[..i + 1][..i] == xs[..i];
      if NameMatches(xs[i], query) {
        results := results + [xs[i]];
      }
      i := i + 1;
    }
    assert xs[..|xs|] == xs;
    MatchingMembers(xs, query);
  }

  /** A palette is in the result exactly when it is in the input and its name matches. */
  lemma {:induction false} MatchingMembers(xs: seq<Colorway>, query: string)
    ensures forall c :: c in Matching(xs, query) <==> c in xs && NameMatches(c, query)
  {
    if xs != [] {
      var init := xs[..|xs| - 1];
      MatchingMembers(init, query);
      assert xs == init + [xs[|xs| - 1]];
    }
  }

  /** Searching a concatenation searches each part and keeps them in order. */
  lemma {:induction false} MatchingAppend(xs: seq<Colorway>, ys: seq<Colorway>, query: string)
    ensures Matching(xs + ys, query) == Matching(xs, query) + Matching(ys, query)
  {
    if ys == [] {
      assert xs + ys == xs;
    } else {
      var zs := xs + ys;
      assert zs[..|zs| - 1] == xs + ys[..|ys| - 1];
      assert zs[|zs| - 1] == ys[|ys| - 1];
      MatchingAppend(xs, ys[..|ys| - 1], query);
    }
  }

  /** `a` is `b` with some elements dropped and the rest in their order. */
  predicate IsSubsequence(a: seq<Colorway>, b: seq<Colorway>) {
    if a == [] then true
    else if b == [] then false
    else (a[|a| - 1] == b[|b| - 1] && IsSubsequence(a[..|a| - 1], b[..|b| - 1]))
         || IsSubsequence(a, b[..|b| - 1])
  }

  /** The kept palettes stay in their original relative order. */
  lemma {:induction false} MatchingIsSubsequence(xs: seq<Colorway>, query: string)
    ensures IsSubsequence(Matching(xs, query), xs)
  {
    if xs != [] {
      var init := xs[..|xs| - 1];
      MatchingIsSubsequence(init, query);
      var m := Matching(init, query);
      if NameMatches(xs[|xs| - 1], query) {
        assert Matching(xs, query) == m + [xs[|xs| - 1]];
        assert (m + [xs[|xs| - 1]])[..|m|] == m;
      } else {
        assert Matching(xs, query) == m + [];
        assert m + [] == m;
      }
    }
  }

  /** Searching the results again with the same query changes nothing. */
  lemma {:induction false} MatchingIdempotent(xs: seq<Colorway>, query: string)
    ensures Matching(Matching(xs, query), query) == Matching(xs, query)
  {
    if xs != [] {
      var init := xs[..|xs| - 1];
      var last := xs[|xs| - 1];
      MatchingIdempotent(init, query);
      var tail := if NameMatches(last, query) then [last] else [];
      MatchingAppend(Matching(init, query), tail, query);
      if NameMatches(last, query) {
        assert [last][..0] == [];
      }
    }
  }

  /** Queries that lower-case alike select the same palettes: the search ignores case. */
  lemma {:induction false} QueryCaseIrrelevant(xs: seq<Colorway>, q1: string, q2: string)
    requires Lower(q1) == Lower(q2)
    ensures Matching(xs, q1) == Matching(xs, q2)
  {
    if xs != [] {
      QueryCaseIrrelevant(xs[..|xs| - 1], q1, q2);
    }
  }

  /** Filtering the two lists and then building the visible list gives the same list as
      filtering the visible list built from the unfiltered ones. */
  lemma SearchCommutesWithView(visibility: string, official: seq<Colorway>, custom: seq<Colorway>, query: string)
    ensures View(visibility, Matching(official, query), Matching(custom, query))
         == Matching(View(visibility, official, custom), query)
  {
    MatchingAppend(official, custom, query);
  }
}
