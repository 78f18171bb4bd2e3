/** The search view over the ticket list: a ticket is shown when its text or
    its user name contains the search term, ignoring case, and the category
    filter is "All" or names the ticket's category. */
module Search {
  import opened Text
  import opened Registry
  import opened Tickets

  /** The category filter's wildcard. */
  const ALL: string := "All"

  /** The filter's test for one ticket. The empty term with the wildcard
      matches every ticket, and a term longer than both the text and the user
      name matches none. */
  predicate Matches(t: Ticket, term: string, category: string)
    ensures term == [] && category == ALL ==> Matches(t, term, category)
    ensures Matches(t, term, category) ==> |term| <= |t.text| || |term| <= |t.user|
  {
    var needle := Lower(term);
    && (Contains(Lower(t.text), needle) || Contains(Lower(t.user), needle))
    && (category == ALL || Name(t.category) == category)
  }

  /** `r` is `ts` with some elements left out, the rest in their order. */
  predicate IsSubsequence(r: seq<Ticket>, ts: seq<Ticket>)
    decreases |ts|
  {
    if r == [] then true
    else if ts == [] then false
    else (r[0] == ts[0] && IsSubsequence(r[1..], ts[1..])) || IsSubsequence(r, ts[1..])
  }

  /** The filtered list: matching tickets only, in list order, none of the
      matching ones missing. `FilterCounts` adds that each is kept as often as
      it occurs. */
  function Filter(ts: seq<Ticket>, term: string, category: string): (r: seq<Ticket>)
    ensures IsSubsequence(r, ts) && |r| <= |ts|
    ensures forall i :: 0 <= i < |r| ==> Matches(r[i], term, category)
    ensures forall i :: 0 <= i < |ts| && Matches(ts[i], term, category) ==> ts[i] in r
    ensures |r| == |ts| <==> forall i :: 0 <= i < |ts| ==> Matches(ts[i], term, category)
  {
    if ts == [] then []
    else
      var rest := Filter(ts[1..], term, category);
      if Matches(ts[0], term, category) then
        assert ([ts[0]] + rest)[1..] == rest;
        [ts[0]] + rest
      else
        assert rest != [] ==> IsSubsequence(rest, ts);
        rest
  }

  /** An empty term with the wildcard shows every ticket, in order. */
  lemma FilterNothing(ts: seq<Ticket>)
    ensures Filter(ts, "", ALL) == ts
  {
    SubsequenceSameLength(Filter(ts, "", ALL), ts);
  }

  /** Every matching ticket is kept as many times as it occurs in the list,
      and a ticket that does not match is not kept at all: the filtered list
      is exactly the matching tickets, counted with multiplicity. */
  lemma {:induction false} FilterCounts(ts: seq<Ticket>, term: string, category: string, t: Ticket)
    ensures multiset(Filter(ts, term, category))[t] == if Matches(t, term, category) then multiset(ts)[t] else 0
    decreases |ts|
  {
    if ts != [] {
      var rest := Filter(ts[1..], term, category);
      var here := if ts[0] == t then 1 else 0;
      FilterCounts(ts[1..], term, category, t);
      CountSplit(ts, t);
      if Matches(ts[0], term, category) {
        assert Filter(ts, term, category) == [ts[0]] + rest;
        CountCons(ts[0], rest, t);
        assert multiset(Filter(ts, term, category))[t] == here + multiset(rest)[t];
      } else {
        assert Filter(ts, term, category) == rest;
        assert ts[0] == t ==> !Matches(t, term, category);
      }
    }
  }

  lemma CountCons<T>(x: T, s: seq<T>, t: T)
    ensures multiset([x] + s)[t] == (if x == t then 1 else 0) + multiset(s)[t]
  {
    assert multiset([x] + s) == multiset{x} + multiset(s);
  }

  lemma CountSplit<T>(s: seq<T>, t: T)
    requires s != []
    ensures multiset(s)[t] == (if s[0] == t then 1 else 0) + multiset(s[1..])[t]
  {
    assert s == [s[0]] + s[1..];
    CountCons(s[0], s[1..], t);
  }

  /** A subsequence as long as the whole is the whole. */
  lemma {:induction false} SubsequenceSameLength(r: seq<Ticket>, ts: seq<Ticket>)
    requires IsSubsequence(r, ts) && |r| == |ts|
    ensures r == ts
    decreases |ts|
  {
    if r != [] {
      if r[0] == ts[0] && IsSubsequence(r[1..], ts[1..]) {
        SubsequenceSameLength(r[1..], ts[1..]);
      } else {
        SubsequenceNoLonger(r, ts[1..]);
      }
    }
  }

  lemma {:induction false} SubsequenceNoLonger(r: seq<Ticket>, ts: seq<Ticket>)
    requires IsSubsequence(r, ts)
    ensures |r| <= |ts|
    decreases |ts|
  {
    if r != [] {
      if r[0] == ts[0] && IsSubsequence(r[1..], ts[1..]) {
        SubsequenceNoLonger(r[1..], ts[1..]);
      } else {
        SubsequenceNoLonger(r, ts[1..]);
      }
    }
  }

  /** Filtering by a category's name keeps only tickets of that category. */
  lemma FilterByCategory(ts: seq<Ticket>, term: string, c: Category)
    ensures forall t :: t in Filter(ts, term, Name(c)) ==> t.category == c
  {
    forall t | t in Filter(ts, term, Name(c)) ensures t.category == c {
      NamesDistinct(t.category, c);
    }
  }

  /** The search ignores letter case in the term. */
  lemma FilterIgnoresCase(ts: seq<Ticket>, term: string, category: string)
    ensures Filter(ts, Lower(term), category) == Filter(ts, term, category)
  {
    LowerIdempotent(term);
  }
}
