/** The passport list page: search by name or manufacturer and filter by category and status. */
module MaterialPassports {
  import opened Wrappers
  import opened Strings

  /** The columns of a listed passport the filter reads; the manufacturer may be null. */
  datatype Listed = Listed(name: string, manufacturer: Option<string>, category: string, status: string)

  datatype Criteria = Criteria(searchTerm: string, categoryFilter: string, statusFilter: string)

  /** Case-insensitive search on the name, or on the manufacturer when there is one. */
  predicate MatchesSearch(p: Listed, term: string) {
    Contains(Lower(p.name), Lower(term)) || (p.manufacturer.Some? && Contains(Lower(p.manufacturer.value), Lower(term)))
  }

  /** An empty filter accepts every value. */
  predicate Matches(p: Listed, c: Criteria) {
    && MatchesSearch(p, c.searchTerm)
    && (c.categoryFilter == "" || p.category == c.categoryFilter)
    && (c.statusFilter == "" || p.status == c.statusFilter)
  }

  function FilterSeq(ps: seq<Listed>, c: Criteria): (r: seq<Listed>)
    ensures |r| <= |ps|
    ensures forall p | p in r :: p in ps && Matches(p, c)
    ensures forall p | p in ps && Matches(p, c) :: p in r
  {
    if ps == [] then []
    else (if Matches(ps[0], c) then [ps[0]] else []) + FilterSeq(ps[1..], c)
  }

  /** `passports?.filter(...) || []`: no data yet gives the empty list. */
  function FilteredPassports(ps: Option<seq<Listed>>, c: Criteria): (r: seq<Listed>)
    ensures ps.None? ==> r == []
    ensures ps.Some? ==> r == FilterSeq(ps.value, c)
  {
    if ps.Some? then FilterSeq(ps.value, c) else []
  }

  /** `a` is `b` with some entries left out and the rest in their order. */
  predicate Subsequence(a: seq<Listed>, b: seq<Listed>)
    decreases |b|
  {
    if a == [] then true
    else if b == [] then false
    else (a[0] == b[0] && Subsequence(a[1..], b[1..])) || Subsequence(a, b[1..])
  }

  lemma {:induction false} FilterIsSubsequence(ps: seq<Listed>, c: Criteria)
    ensures Subsequence(FilterSeq(ps, c), ps)
    decreases |ps|
  {
    if ps != [] {
      FilterIsSubsequence(ps[1..], c);
      var rest := FilterSeq(ps[1..], c);
      if Matches(ps[0], c) {
        assert FilterSeq(ps, c) == [ps[0]] + rest;
        assert ([ps[0]] + rest)[1..] == rest;
      } else {
        assert FilterSeq(ps, c) == rest;
      }
    }
  }

  /** With an empty search term and no filters, every passport is listed. */
  lemma {:induction false} EmptyCriteriaKeepAll(ps: seq<Listed>)
    ensures FilterSeq(ps, Criteria("", "", "")) == ps
    decreases |ps|
  {
    if ps != [] {
      assert Lower("") == "";
      ContainsEmpty(Lower(ps[0].name));
      EmptyCriteriaKeepAll(ps[1..]);
      assert ps == [ps[0]] + ps[1..];
    }
  }

  /** Filtering again with the same criteria changes nothing. */
  lemma {:induction false} FilterIdempotent(ps: seq<Listed>, c: Criteria)
    ensures FilterSeq(FilterSeq(ps, c), c) == FilterSeq(ps, c)
    decreases |ps|
  {
    if ps != [] {
      FilterIdempotent(ps[1..], c);
      var rest := FilterSeq(ps[1..], c);
      if Matches(ps[0], c) {
        var once := [ps[0]] + rest;
        assert FilterSeq(ps, c) == once;
        assert once[0] == ps[0] && once[1..] == rest;
        assert FilterSeq(once, c) == [ps[0]] + FilterSeq(rest, c);
      } else {
        assert FilterSeq(ps, c) == rest;
      }
    }
  }

  /** The search ignores ASCII case in the term. */
  lemma SearchIgnoresTermCase(p: Listed, term: string)
    ensures MatchesSearch(p, Lower(term)) <==> MatchesSearch(p, term)
  {
    LowerIdempotent(term);
  }
}
