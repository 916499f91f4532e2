/** The fair-pricing advisory: a recommended budget range for a new task from
    the average budget of completed tasks in the same domain (or a flat daily
    rate when there are none), a difficulty multiplier, a discount for long
    tasks, and a band of 20% either side, each end rounded. The history the
    aggregation query scans is an input. */
module PricingService {
  import opened Common
  import opened TaskModel

  /** The fallback rate per day of duration. */
  const BaseRatePerDay: int := 500

  /** `DIFFICULTY_MULTIPLIER[difficulty] || 1.0`. */
  function DifficultyMultiplier(difficulty: int): (m: real)
    ensures 1.0 <= m <= 2.0
    ensures m == 1.0 <==> difficulty != 2 && difficulty != 3
  {
    if difficulty == 2 then 1.4 else if difficulty == 3 then 2.0 else 1.0
  }

  /** 0.9 for tasks longer than a week, else 1.0. */
  function DurationFactor(duration: int): (f: real)
    ensures f == 0.9 || f == 1.0
    ensures f < 1.0 <==> duration > 7
  {
    if duration > 7 then 0.9 else 1.0
  }

  /** The aggregation's `$match`: Completed, a positive budget, and the
      domain equal ignoring case. */
  predicate CountsFor(t: Task, domain: string) {
    t.status == Completed && t.budget > 0.0 && SameName(t.domain, domain)
  }

  /** The budgets the aggregation averages, in history order. */
  function MatchedBudgets(history: seq<Task>, domain: string): (bs: seq<real>)
    ensures |bs| <= |history|
    ensures forall i :: 0 <= i < |bs| ==> bs[i] > 0.0
    decreases |history|
  {
    if history == [] then []
    else
      var last := history[|history| - 1];
      MatchedBudgets(history[..|history| - 1], domain) + (if CountsFor(last, domain) then [last.budget] else [])
  }

  function Sum(xs: seq<real>): real
    decreases |xs|
  {
    if xs == [] then 0.0 else Sum(xs[..|xs| - 1]) + xs[|xs| - 1]
  }

  /** `domainAvg`: `$avg` over the matched budgets, or 500 per day of
      duration when nothing matches. */
  function DomainAverage(history: seq<Task>, domain: string, duration: int): real {
    var bs := MatchedBudgets(history, domain);
    if bs == [] then (BaseRatePerDay * duration) as real else Sum(bs) / |bs| as real
  }

  /** The centre of the range: average, times the difficulty multiplier, times
      the duration factor. */
  function Adjusted(history: seq<Task>, domain: string, duration: int, difficulty: int): real {
    DomainAverage(history, domain, duration) * DifficultyMultiplier(difficulty) * DurationFactor(duration)
  }

  /** `computeBudgetRange`: the centre scaled by 0.8 and by 1.2, each rounded
      half up. The client's own budget is passed in and never read. When the
      centre is not negative the range is ordered and contains the rounded
      centre. */
  function ComputeBudgetRange(history: seq<Task>, domain: string, duration: int, difficulty: int,
                              clientBudget: real): (r: BudgetRange)
    ensures Adjusted(history, domain, duration, difficulty) >= 0.0 ==>
      r.min <= Round(Adjusted(history, domain, duration, difficulty)) <= r.max
  {
    var adjusted := Adjusted(history, domain, duration, difficulty);
    if adjusted >= 0.0 then
      RoundMonotone(adjusted * 0.8, adjusted);
      RoundMonotone(adjusted, adjusted * 1.2);
      BudgetRange(Round(adjusted * 0.8), Round(adjusted * 1.2))
    else
      BudgetRange(Round(adjusted * 0.8), Round(adjusted * 1.2))
  }

  /** The client's own budget never influences the recommendation. */
  lemma ClientBudgetIgnored(history: seq<Task>, domain: string, duration: int, difficulty: int, b1: real, b2: real)
    ensures ComputeBudgetRange(history, domain, duration, difficulty, b1)
            == ComputeBudgetRange(history, domain, duration, difficulty, b2)
  {
  }

  /** A sum of positive numbers, one or more of them, is positive. */
  lemma {:induction false} SumPositive(xs: seq<real>)
    requires xs != [] && forall i :: 0 <= i < |xs| ==> xs[i] > 0.0
    ensures Sum(xs) > 0.0
    decreases |xs|
  {
    var init := xs[..|xs| - 1];
    if init != [] {
      SumPositive(init);
    }
  }

  /** A sum of numbers in [lo,hi] lies between |xs|*lo and |xs|*hi. */
  lemma {:induction false} SumBounds(xs: seq<real>, lo: real, hi: real)
    requires forall i :: 0 <= i < |xs| ==> lo <= xs[i] <= hi
    ensures lo * |xs| as real <= Sum(xs) <= hi * |xs| as real
    decreases |xs|
  {
    if xs != [] {
      SumBounds(xs[..|xs| - 1], lo, hi);
    }
  }

  /** The mean of one or more positive numbers in [lo,hi] is positive and lies
      in [lo,hi]. */
  lemma MeanBounds(xs: seq<real>, lo: real, hi: real)
    requires xs != [] && forall i :: 0 <= i < |xs| ==> 0.0 < xs[i] && lo <= xs[i] <= hi
    ensures 0.0 < Sum(xs) / |xs| as real
    ensures lo <= Sum(xs) / |xs| as real <= hi
  {
    SumPositive(xs);
    SumBounds(xs, lo, hi);
    QuotientBounds(Sum(xs), |xs| as real, lo, hi);
  }

  /** A positive total over a positive count, between count*lo and
      count*hi: the quotient is positive and in [lo,hi]. */
  lemma QuotientBounds(total: real, c: real, lo: real, hi: real)
    requires c > 0.0 && total > 0.0 && lo * c <= total <= hi * c
    ensures 0.0 < total / c
    ensures lo <= total / c <= hi
  {
    DivBounds(total, c, lo, hi);
  }

  /** With history, the average is positive and lies between the smallest and
      the largest matched budget. */
  lemma DomainAverageWithinBudgets(history: seq<Task>, domain: string, duration: int, lo: real, hi: real)
    requires MatchedBudgets(history, domain) != []
    requires forall i :: 0 <= i < |MatchedBudgets(history, domain)| ==> lo <= MatchedBudgets(history, domain)[i] <= hi
    ensures 0.0 < DomainAverage(history, domain, duration)
    ensures lo <= DomainAverage(history, domain, duration) <= hi
  {
    MeanBounds(MatchedBudgets(history, domain), lo, hi);
  }

  /** The centre is never negative for a duration that is not negative. */
  lemma AdjustedNonNegative(history: seq<Task>, domain: string, duration: int, difficulty: int)
    requires duration >= 0
    ensures Adjusted(history, domain, duration, difficulty) >= 0.0
  {
    var bs := MatchedBudgets(history, domain);
    if bs != [] {
      SumPositive(bs);
    }
  }

  /** For any duration that is not negative, the minimum never exceeds the
      maximum. */
  lemma RangeOrdered(history: seq<Task>, domain: string, duration: int, difficulty: int, clientBudget: real)
    requires duration >= 0
    ensures ComputeBudgetRange(history, domain, duration, difficulty, clientBudget).min
            <= ComputeBudgetRange(history, domain, duration, difficulty, clientBudget).max
  {
    AdjustedNonNegative(history, domain, duration, difficulty);
  }

  /** A harder task is never recommended a lower range. */
  lemma RangeMonotoneInDifficulty(history: seq<Task>, domain: string, duration: int, d1: int, d2: int,
                                  clientBudget: real)
    requires duration >= 0 && 1 <= d1 <= d2 <= 3
    ensures var r1 := ComputeBudgetRange(history, domain, duration, d1, clientBudget);
      var r2 := ComputeBudgetRange(history, domain, duration, d2, clientBudget);
      r1.min <= r2.min && r1.max <= r2.max
  {
    AdjustedNonNegative(history, domain, duration, d1);
    var base := DomainAverage(history, domain, duration) * DurationFactor(duration);
    assert base >= 0.0 by {
      AdjustedNonNegative(history, domain, duration, 1);
    }
    var a1 := Adjusted(history, domain, duration, d1);
    var a2 := Adjusted(history, domain, duration, d2);
    assert a1 == base * DifficultyMultiplier(d1);
    assert a2 == base * DifficultyMultiplier(d2);
    assert a1 <= a2;
    RoundMonotone(a1 * 0.8, a2 * 0.8);
    RoundMonotone(a1 * 1.2, a2 * 1.2);
  }

  /** A task that counts adds its budget after those of the tasks before it;
      one that does not count adds nothing. */
  lemma MatchedBudgetsSnoc(history: seq<Task>, t: Task, domain: string)
    ensures MatchedBudgets(history + [t], domain)
            == MatchedBudgets(history, domain) + (if CountsFor(t, domain) then [t.budget] else [])
  {
    assert (history + [t])[..|history|] == history;
  }

  /** The matched budgets are exactly the budgets of the tasks that count. */
  lemma {:induction false} MatchedBudgetsExactly(history: seq<Task>, domain: string, b: real)
    ensures b in MatchedBudgets(history, domain)
            <==> exists i :: 0 <= i < |history| && CountsFor(history[i], domain) && history[i].budget == b
    decreases |history|
  {
    if history != [] {
      var init := history[..|history| - 1];
      var last := history[|history| - 1];
      MatchedBudgetsExactly(init, domain, b);
      assert history == init + [last];
      MatchedBudgetsSnoc(init, last, domain);
      if exists i :: 0 <= i < |history| && CountsFor(history[i], domain) && history[i].budget == b {
        var i :| 0 <= i < |history| && CountsFor(history[i], domain) && history[i].budget == b;
        if i < |init| {
          assert init[i] == history[i];
        }
      }
      if exists i :: 0 <= i < |init| && CountsFor(init[i], domain) && init[i].budget == b {
        var i :| 0 <= i < |init| && CountsFor(init[i], domain) && init[i].budget == b;
        assert history[i] == init[i];
      }
    }
  }

  /** Tasks outside the match (another domain, not Completed, or no positive
      budget) never influence the range. */
  lemma UnmatchedTaskIgnored(history: seq<Task>, t: Task, domain: string, duration: int, difficulty: int,
                             clientBudget: real)
    requires !CountsFor(t, domain)
    ensures ComputeBudgetRange(history + [t], domain, duration, difficulty, clientBudget)
            == ComputeBudgetRange(history, domain, duration, difficulty, clientBudget)
  {
    assert (history + [t])[..|history|] == history;
    assert MatchedBudgets(history + [t], domain) == MatchedBudgets(history, domain);
  }

  /** The domain is matched ignoring case. */
  lemma {:induction false} MatchedBudgetsIgnoreCase(history: seq<Task>, domain: string)
    ensures MatchedBudgets(history, Upper(domain)) == MatchedBudgets(history, domain)
    decreases |history|
  {
    LowerOfUpper(domain);
    if history != [] {
      MatchedBudgetsIgnoreCase(history[..|history| - 1], domain);
    }
  }

  lemma RangeIgnoresDomainCase(history: seq<Task>, domain: string, duration: int, difficulty: int,
                               clientBudget: real)
    ensures ComputeBudgetRange(history, Upper(domain), duration, difficulty, clientBudget)
            == ComputeBudgetRange(history, domain, duration, difficulty, clientBudget)
  {
    MatchedBudgetsIgnoreCase(history, domain);
  }

  /** No history, 10 days, difficulty 2: 500 * 10 * 1.4 * 0.9 = 6300, so the
      range is 5040 to 7560. */
  lemma NoHistoryExample(domain: string)
    ensures ComputeBudgetRange([], domain, 10, 2, 0.0) == BudgetRange(5040, 7560)
  {
    assert Adjusted([], domain, 10, 2) == 6300.0;
    RoundOfInt(5040);
    RoundOfInt(7560);
  }

  /** Two completed Web Development tasks at 3000 and 5000, and an open one at
      9000 that does not count; asking for "web development", 10 days,
      difficulty 2: average 4000, centre 5040, range 4032 to 6048. */
  lemma HistoryExample()
    ensures var history := [
        Task(0, "A", "a", Individual, "Web Development", 5, 3000.0, 1, BudgetRange(0, 0), 9, [], None, Completed, None, None, None),
        Task(1, "B", "b", Individual, "Web Development", 5, 5000.0, 1, BudgetRange(0, 0), 9, [], None, Completed, None, None, None),
        Task(2, "C", "c", Individual, "Web Development", 5, 9000.0, 1, BudgetRange(0, 0), 9, [], None, Open, None, None, None)];
      ComputeBudgetRange(history, "web development", 10, 2, 1.0) == BudgetRange(4032, 6048)
  {
    var history := [
        Task(0, "A", "a", Individual, "Web Development", 5, 3000.0, 1, BudgetRange(0, 0), 9, [], None, Completed, None, None, None),
        Task(1, "B", "b", Individual, "Web Development", 5, 5000.0, 1, BudgetRange(0, 0), 9, [], None, Completed, None, None, None),
        Task(2, "C", "c", Individual, "Web Development", 5, 9000.0, 1, BudgetRange(0, 0), 9, [], None, Open, None, None, None)];
    assert Lower("Web Development") == Lower("web development");
    assert history[..2][..1] == [history[0]];
    assert history[..1][..0] == [];
    assert MatchedBudgets(history, "web development") == [3000.0, 5000.0];
    assert [3000.0, 5000.0][..1] == [3000.0] && [3000.0][..0] == [];
    assert Sum([3000.0, 5000.0]) == 8000.0;
    assert DomainAverage(history, "web development", 10) == 4000.0;
    assert Adjusted(history, "web development", 10, 2) == 5040.0;
    RoundOfInt(4032);
    RoundOfInt(6048);
  }
}
