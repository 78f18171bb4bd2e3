/** The category statistics: how many tickets each category has, and the
    share each category has of all tickets, rounded to a whole percent. */
module Stats {
  import opened Registry
  import opened Tickets

  /** The number of tickets of category `c`: none exactly when no ticket has
      that category, all exactly when every ticket has it. */
  function CountOf(ts: seq<Ticket>, c: Category): (n: nat)
    ensures n <= |ts|
    ensures n == 0 <==> forall i :: 0 <= i < |ts| ==> ts[i].category != c
    ensures n == |ts| <==> forall i :: 0 <= i < |ts| ==> ts[i].category == c
  {
    if ts == [] then 0 else (if ts[0].category == c then 1 else 0) + CountOf(ts[1..], c)
  }

  /** The categories that occur in `ts`. */
  function CategoriesIn(ts: seq<Ticket>): set<Category>
  {
    set i | 0 <= i < |ts| :: ts[i].category
  }

  /** A count from the accumulator, 0 when the category has no entry yet. */
  function Get(acc: map<Category, nat>, c: Category): nat
  {
    if c in acc then acc[c] else 0
  }

  /** The stats `reduce`: each ticket adds one to its category's entry,
      creating the entry at 1 when it is missing. */
  function TallyFrom(acc: map<Category, nat>, ts: seq<Ticket>): (m: map<Category, nat>)
    decreases |ts|
    ensures m.Keys == acc.Keys + CategoriesIn(ts)
    ensures forall c :: c in m ==> m[c] == Get(acc, c) + CountOf(ts, c)
  {
    if ts == [] then acc
    else
      var c := ts[0].category;
      CategoriesInCons(ts);
      TallyFrom(acc[c := Get(acc, c) + 1], ts[1..])
  }

  lemma CategoriesInCons(ts: seq<Ticket>)
    requires ts != []
    ensures CategoriesIn(ts) == {ts[0].category} + CategoriesIn(ts[1..])
  {
    var c := ts[0].category;
    forall x | x in CategoriesIn(ts) ensures x in {c} + CategoriesIn(ts[1..]) {
      var i :| 0 <= i < |ts| && ts[i].category == x;
      if i > 0 {
        assert ts[1..][i - 1] == ts[i];
      }
    }
    forall x | x in CategoriesIn(ts[1..]) ensures x in CategoriesIn(ts) {
      var i :| 0 <= i < |ts[1..]| && ts[1..][i].category == x;
      assert ts[i + 1] == ts[1..][i];
    }
  }

  /** The stats of a ticket list, starting from the empty accumulator: an
      entry exactly for the categories that occur, and each category's entry
      (0 when it has none) is its number of tickets. */
  function Tally(ts: seq<Ticket>): (m: map<Category, nat>)
    ensures m.Keys == CategoriesIn(ts)
    ensures forall c :: Get(m, c) == CountOf(ts, c)
  {
    TallyFrom(map[], ts)
  }

  /** Sum of the counts of the categories in `cs`. */
  function SumCounts(cs: seq<Category>, ts: seq<Ticket>): nat
  {
    if cs == [] then 0 else CountOf(ts, cs[0]) + SumCounts(cs[1..], ts)
  }

  predicate Distinct(cs: seq<Category>)
  {
    forall i, j :: 0 <= i < j < |cs| ==> cs[i] != cs[j]
  }

  lemma {:induction false} SumCountsStep(cs: seq<Category>, ts: seq<Ticket>)
    requires ts != [] && Distinct(cs)
    ensures SumCounts(cs, ts) == SumCounts(cs, ts[1..]) + (if ts[0].category in cs then 1 else 0)
  {
    if cs != [] {
      assert Distinct(cs[1..]) by {
        forall i, j | 0 <= i < j < |cs[1..]| ensures cs[1..][i] != cs[1..][j] {
          assert cs[1..][i] == cs[i + 1] && cs[1..][j] == cs[j + 1];
        }
      }
      SumCountsStep(cs[1..], ts);
      assert ts[0].category in cs <==> ts[0].category == cs[0] || ts[0].category in cs[1..];
    }
  }

  /** The per-category counts add up to the number of tickets. */
  lemma {:induction false} CountsSumToTotal(ts: seq<Ticket>)
    ensures SumCounts(CATEGORIES, ts) == |ts|
  {
    if ts == [] {
      NoTicketsNoCounts(CATEGORIES);
    } else {
      assert ts[0].category in CATEGORIES by {
        assert CATEGORIES[Index(ts[0].category)] == ts[0].category;
      }
      assert Distinct(CATEGORIES);
      SumCountsStep(CATEGORIES, ts);
      CountsSumToTotal(ts[1..]);
    }
  }

  lemma {:induction false} NoTicketsNoCounts(cs: seq<Category>)
    ensures SumCounts(cs, []) == 0
  {
    if cs != [] {
      NoTicketsNoCounts(cs[1..]);
    }
  }

  /** `Math.round(count / total * 100)`, or 0 when there are no tickets, in
      integer arithmetic: the nearest whole percent, halves rounded up. */
  function Percentage(count: nat, total: nat): (p: nat)
    ensures total == 0 ==> p == 0
    ensures total > 0 ==> (2 * total) * p <= 200 * count + total < (2 * total) * p + 2 * total
    ensures count <= total ==> p <= 100
  {
    if total > 0 then
      var d := 2 * total;
      var p := (200 * count + total) / d;
      DivBounds(200 * count + total, d);
      assert count <= total ==> p <= 100 by {
        if count <= total && p > 100 {
          MulMonotone(101, p, d);
        }
      }
      p
    else 0
  }

  lemma DivBounds(a: nat, d: nat)
    requires d > 0
    ensures d * (a / d) <= a < d * (a / d) + d
  {
  }

  lemma MulAdd(a: int, b: int, c: int)
    ensures a * (b + c) == a * b + a * c
  {
  }

  lemma MulMonotone(a: int, b: int, c: nat)
    requires a <= b
    ensures c * a <= c * b
  {
  }

  /** The shares of the categories in `cs`, summed. */
  function SumPercentages(cs: seq<Category>, ts: seq<Ticket>): nat
  {
    if cs == [] then 0 else Percentage(CountOf(ts, cs[0]), |ts|) + SumPercentages(cs[1..], ts)
  }

  /** Each share is off by at most half a percent, so summing `|cs|` of them
      lands within `|cs| / 2` of the exact sum of the shares. */
  lemma {:induction false} SumPercentagesBounds(cs: seq<Category>, ts: seq<Ticket>)
    requires |ts| > 0
    ensures var n := |ts|;
      && 200 * SumCounts(cs, ts) - |cs| * n <= (2 * n) * SumPercentages(cs, ts)
      && (2 * n) * SumPercentages(cs, ts) <= 200 * SumCounts(cs, ts) + |cs| * n
  {
    if cs != [] {
      var n := |ts|;
      var d := 2 * n;
      SumPercentagesBounds(cs[1..], ts);
      var p := Percentage(CountOf(ts, cs[0]), n);
      var rest := SumPercentages(cs[1..], ts);
      MulAdd(d, p, rest);
      MulAdd(n, 1, |cs[1..]|);
      assert |cs| == 1 + |cs[1..]|;
      assert n * |cs| == |cs| * n && n * |cs[1..]| == |cs[1..]| * n;
    }
  }

  /** With at least one ticket, the displayed percentages of all categories add
      up to between 98 and 102. */
  lemma PercentagesNearHundred(ts: seq<Ticket>)
    requires |ts| > 0
    ensures 98 <= SumPercentages(CATEGORIES, ts) <= 102
  {
    var n := |ts|;
    var d := 2 * n;
    var total := SumPercentages(CATEGORIES, ts);
    SumPercentagesBounds(CATEGORIES, ts);
    CountsSumToTotal(ts);
    assert 195 * n <= d * total <= 205 * n;
    if total < 98 {
      MulMonotone(total, 97, d);
    }
    if total > 102 {
      MulMonotone(103, total, d);
    }
  }
}
