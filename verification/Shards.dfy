/** How the test targets are shared out among the runners (ci-tests.py): longest first, each to
    the least loaded shard. Times are exact real numbers. */
module Shards {

  /** A test executable, by its label, with its committed cost (1 when none is). */
  datatype Target = Target(name: string, cost: real)

  function Weight(t: Target): real {
    if t.cost > 0.01 then t.cost else 0.01
  }

  // ------------------------------------------------------------------ the order

  predicate LabelLeq(a: string, b: string) {
    a == "" || (b != "" && (a[0] < b[0] || (a[0] == b[0] && LabelLeq(a[1..], b[1..]))))
  }

  /** Longest first, then by label. */
  predicate Before(a: Target, b: Target) {
    a.cost > b.cost || (a.cost == b.cost && LabelLeq(a.name, b.name))
  }

  function Insert(t: Target, sorted: seq<Target>): (r: seq<Target>)
    ensures |r| == |sorted| + 1
  {
    if sorted == [] || Before(t, sorted[0]) then [t] + sorted else [sorted[0]] + Insert(t, sorted[1..])
  }

  function Sorted(targets: seq<Target>): (r: seq<Target>)
    ensures |r| == |targets|
  {
    if targets == [] then [] else Insert(targets[0], Sorted(targets[1..]))
  }

  ghost predicate LongestFirst(targets: seq<Target>) {
    forall i, j :: 0 <= i <= j < |targets| ==> targets[i].cost >= targets[j].cost
  }

  lemma BeforeByCost(a: Target, b: Target)
    ensures if Before(a, b) then a.cost >= b.cost else b.cost >= a.cost
  {
    hide LabelLeq;
  }

  lemma {:induction false} InsertSorts(t: Target, sorted: seq<Target>)
    requires LongestFirst(sorted)
    ensures LongestFirst(Insert(t, sorted)) && multiset(Insert(t, sorted)) == multiset(sorted) + multiset{t}
  {
    hide Before;
    if sorted != [] { BeforeByCost(t, sorted[0]); }
    if sorted == [] || Before(t, sorted[0]) {
      assert forall i :: 0 <= i < |sorted| ==> sorted[0].cost >= sorted[i].cost;
    } else {
      var rest := Insert(t, sorted[1..]);
      InsertSorts(t, sorted[1..]);
      assert sorted == [sorted[0]] + sorted[1..];
      AllBelow(sorted[0], t, sorted[1..], rest);
    }
  }

  lemma AllBelow(first: Target, t: Target, others: seq<Target>, rest: seq<Target>)
    requires multiset(rest) == multiset(others) + multiset{t} && LongestFirst(rest)
    requires first.cost >= t.cost && forall i :: 0 <= i < |others| ==> first.cost >= others[i].cost
    ensures LongestFirst([first] + rest)
  {
    forall i | 0 <= i < |rest| ensures first.cost >= rest[i].cost {
      assert rest[i] in multiset(rest);
      assert rest[i] == t || rest[i] in multiset(others);
    }
  }

  /** Sorting loses and repeats no target. */
  lemma {:induction false} SortedKeeps(targets: seq<Target>)
    ensures LongestFirst(Sorted(targets)) && multiset(Sorted(targets)) == multiset(targets)
  {
    if targets != [] {
      SortedKeeps(targets[1..]);
      InsertSorts(targets[0], Sorted(targets[1..]));
      assert targets == [targets[0]] + targets[1..];
    }
  }

  // ------------------------------------------------------------------ loads

  /** What the first `n` jobs put on machine `k`. */
  function Load(w: seq<real>, a: seq<nat>, n: nat, k: nat): real
    requires n <= |w| && n <= |a|
  {
    if n == 0 then 0.0 else Load(w, a, n - 1, k) + if a[n - 1] == k then w[n - 1] else 0.0
  }

  function Total(w: seq<real>, n: nat): real
    requires n <= |w|
  {
    if n == 0 then 0.0 else Total(w, n - 1) + w[n - 1]
  }

  function LoadSum(w: seq<real>, a: seq<nat>, n: nat, m: nat): real
    requires n <= |w| && n <= |a|
  {
    if m == 0 then 0.0 else LoadSum(w, a, n, m - 1) + Load(w, a, n, m - 1)
  }

  /** Jobs `0 .. n` go to machines below `m`. */
  predicate Assigns(a: seq<nat>, n: nat, m: nat) {
    n <= |a| && forall t :: 0 <= t < n ==> a[t] < m
  }

  lemma {:induction false} SumStep(w: seq<real>, a: seq<nat>, n: nat, m: nat)
    requires n < |w| && n < |a|
    ensures LoadSum(w, a, n + 1, m) == LoadSum(w, a, n, m) + if a[n] < m then w[n] else 0.0
  {
    if m > 0 {
      SumStep(w, a, n, m - 1);
    }
  }

  lemma {:induction false} NothingLoaded(w: seq<real>, a: seq<nat>, m: nat)
    ensures LoadSum(w, a, 0, m) == 0.0
  {
    if m > 0 {
      NothingLoaded(w, a, m - 1);
    }
  }

  /** The loads add up to all the work. */
  lemma {:induction false} LoadsAddUp(w: seq<real>, a: seq<nat>, n: nat, m: nat)
    requires n <= |w| && Assigns(a, n, m)
    ensures LoadSum(w, a, n, m) == Total(w, n)
  {
    if n == 0 {
      NothingLoaded(w, a, m);
    } else {
      LoadsAddUp(w, a, n - 1, m);
      SumStep(w, a, n - 1, m);
    }
  }

  lemma {:induction false} SumAtMost(w: seq<real>, a: seq<nat>, n: nat, m: nat, bound: real)
    requires n <= |w| && n <= |a| && forall k :: 0 <= k < m ==> Load(w, a, n, k) <= bound
    ensures LoadSum(w, a, n, m) <= m as real * bound
  {
    hide Load;
    if m > 0 {
      SumAtMost(w, a, n, m - 1, bound);
    }
  }

  lemma {:induction false} SumAtLeast(w: seq<real>, a: seq<nat>, n: nat, m: nat, bound: real)
    requires n <= |w| && n <= |a| && forall k :: 0 <= k < m ==> Load(w, a, n, k) >= bound
    ensures LoadSum(w, a, n, m) >= m as real * bound
  {
    hide Load;
    if m > 0 {
      SumAtLeast(w, a, n, m - 1, bound);
    }
  }

  lemma {:induction false} LoadGrows(w: seq<real>, a: seq<nat>, n: nat, l: nat, k: nat)
    requires n <= l <= |w| && l <= |a| && forall t :: 0 <= t < l ==> w[t] >= 0.0
    ensures 0.0 <= Load(w, a, n, k) <= Load(w, a, l, k)
    decreases l
  {
    if n < l {
      LoadGrows(w, a, n, l - 1, k);
    } else if n > 0 {
      LoadGrows(w, a, n - 1, l - 1, k);
    }
  }

  // ------------------------------------------------------------------ greedy

  /** Each job goes to a machine with the least load at that time. */
  ghost predicate Greedy(w: seq<real>, g: seq<nat>, n: nat, m: nat)
    requires n <= |w|
  {
    Assigns(g, n, m) && forall t :: 0 <= t < n ==> LeastAt(w, g, t, m)
  }

  ghost predicate LeastAt(w: seq<real>, g: seq<nat>, t: nat, m: nat)
    requires t < |w| && t < |g|
  {
    forall k :: 0 <= k < m ==> Load(w, g, t, g[t]) <= Load(w, g, t, k)
  }

  ghost predicate AtMost(w: seq<real>, n: nat, bound: real)
    requires n <= |w|
  {
    forall t :: 0 <= t < n ==> 0.0 <= w[t] <= bound
  }

  /** No two loads differ by more than one job. */
  lemma {:induction false} LoadsAreClose(w: seq<real>, g: seq<nat>, n: nat, m: nat, heaviest: real, i: nat, j: nat)
    requires n <= |w| && Greedy(w, g, n, m) && AtMost(w, n, heaviest) && heaviest >= 0.0 && i < m && j < m
    ensures Load(w, g, n, i) - Load(w, g, n, j) <= heaviest
  {
    if n > 0 {
      LoadsAreClose(w, g, n - 1, m, heaviest, i, j);
      assert LeastAt(w, g, n - 1, m);
      assert Load(w, g, n - 1, g[n - 1]) <= Load(w, g, n - 1, j);
    }
  }

  /** The last job of a machine, and the load it found there. */
  lemma {:induction false} LastJob(w: seq<real>, g: seq<nat>, n: nat, i: nat) returns (t: nat)
    requires n <= |w| && n <= |g| && Load(w, g, n, i) != 0.0
    ensures t < n && g[t] == i && Load(w, g, n, i) == Load(w, g, t, i) + w[t]
  {
    if g[n - 1] == i {
      t := n - 1;
    } else {
      t := LastJob(w, g, n - 1, i);
    }
  }

  /** The least load is at most the average. */
  lemma LeastIsBelowAverage(w: seq<real>, g: seq<nat>, t: nat, n: nat, m: nat)
    requires t < n <= |w| && Greedy(w, g, n, m)
    ensures m as real * Load(w, g, t, g[t]) <= Total(w, t)
  {
    hide Load;
    assert LeastAt(w, g, t, m);
    SumAtLeast(w, g, t, m, Load(w, g, t, g[t]));
    LoadsAddUp(w, g, t, m);
  }

  /** What any assignment whose loads stay within `best` says about the first `n` jobs. */
  ghost predicate Within(w: seq<real>, a: seq<nat>, n: nat, m: nat, best: real)
    requires n <= |w|
  {
    Assigns(a, n, m) && forall k :: 0 <= k < m ==> Load(w, a, n, k) <= best
  }

  lemma {:induction false} WithinPrefix(w: seq<real>, a: seq<nat>, n: nat, l: nat, m: nat, best: real)
    requires n <= l <= |w| && Within(w, a, l, m, best) && forall t :: 0 <= t < l ==> w[t] >= 0.0
    ensures Within(w, a, n, m, best) && Total(w, n) <= m as real * best
  {
    forall k | 0 <= k < m ensures Load(w, a, n, k) <= best {
      LoadGrows(w, a, n, l, k);
    }
    SumAtMost(w, a, n, m, best);
    LoadsAddUp(w, a, n, m);
  }

  lemma JobFits(w: seq<real>, a: seq<nat>, t: nat, l: nat, m: nat, best: real)
    requires t < l <= |w| && Within(w, a, l, m, best) && forall s :: 0 <= s < l ==> w[s] >= 0.0
    ensures w[t] <= best
  {
    LoadGrows(w, a, t + 1, l, a[t]);
    LoadGrows(w, a, t, t, a[t]);
  }

  /** With the last job of the fullest machine: `m` times its load is within `m` times the best
      and `m - 1` times that job. */
  lemma LoadOfLast(w: seq<real>, g: seq<nat>, a: seq<nat>, n: nat, m: nat, best: real, t: nat)
    requires t < n <= |w| && Greedy(w, g, n, m) && Within(w, a, n, m, best) && forall s :: 0 <= s < n ==> w[s] >= 0.0
    ensures m as real * (Load(w, g, t, g[t]) + w[t]) <= m as real * best + (m as real - 1.0) * w[t]
  {
    hide Load;
    LeastIsBelowAverage(w, g, t, n, m);
    WithinPrefix(w, a, t + 1, n, m, best);
    assert Total(w, t + 1) == Total(w, t) + w[t];
  }

  /** In any order, the largest load is at most 2 - 1/m times that of any other assignment. */
  lemma {:induction false} ListBound(w: seq<real>, g: seq<nat>, a: seq<nat>, n: nat, m: nat, best: real, i: nat)
    requires n <= |w| && Greedy(w, g, n, m) && Within(w, a, n, m, best) && forall s :: 0 <= s < n ==> w[s] >= 0.0
    requires i < m
    ensures m as real * Load(w, g, n, i) <= (2.0 * m as real - 1.0) * best
  {
    LoadGrows(w, a, 0, n, 0);
    if Load(w, g, n, i) == 0.0 {
      Product(2.0 * m as real - 1.0, best);
    } else {
      var t := LastJob(w, g, n, i);
      LoadOfLast(w, g, a, n, m, best, t);
      JobFits(w, a, t, n, m, best);
      CombineList(m as real, Load(w, g, n, i), best, w[t]);
    }
  }

  lemma Product(x: real, y: real)
    requires x >= 0.0 && y >= 0.0
    ensures x * y >= 0.0
  {
  }

  lemma Scale(x: real, y: real, z: real)
    requires x >= 0.0 && y <= z
    ensures x * y <= x * z
  {
    Product(x, z - y);
    assert x * (z - y) == x * z - x * y;
  }

  lemma CombineList(m: real, load: real, best: real, last: real)
    requires m >= 1.0 && last <= best && m * load <= m * best + (m - 1.0) * last
    ensures m * load <= (2.0 * m - 1.0) * best
  {
    Scale(m - 1.0, last, best);
    assert (2.0 * m - 1.0) * best == m * best + (m - 1.0) * best;
  }

  lemma CombineLongest(m: real, load: real, best: real, last: real)
    requires m >= 1.0 && last <= best / 3.0 && m * load <= m * best + (m - 1.0) * last
    ensures 3.0 * m * load <= (4.0 * m - 1.0) * best
  {
    Scale(m - 1.0, last, best / 3.0);
    var third := best / 3.0;
    assert best == 3.0 * third;
    assert 3.0 * m * load == 3.0 * (m * load);
    assert (4.0 * m - 1.0) * best == 3.0 * (m * best) + 3.0 * ((m - 1.0) * third);
  }

  lemma CombineLong(m: real, load: real, best: real)
    requires m >= 1.0 && 0.0 <= load <= best
    ensures 3.0 * m * load <= (4.0 * m - 1.0) * best
  {
    Scale(3.0 * m, load, best);
    Product(m - 1.0, best);
    assert (4.0 * m - 1.0) * best == 3.0 * m * best + (m - 1.0) * best;
  }

  // ------------------------------------------------------------------ longest first

  /** Jobs that leave no room for the `t`-th count double. */
  function Units(w: seq<real>, t: nat, best: real): (v: seq<real>)
    requires t < |w|
    ensures |v| == |w|
  {
    seq(|w|, s requires 0 <= s < |w| => if w[s] > best - w[t] then 2.0 else 1.0)
  }

  /** A machine within `best` holds at most two units of jobs longer than a third of it. */
  lemma {:induction false} TwoUnits(w: seq<real>, a: seq<nat>, t: nat, n: nat, best: real, k: nat)
    requires t < |w| && n <= |w| && n <= |a| && w[t] > best / 3.0 && best >= w[t]
    requires forall s :: 0 <= s < n ==> w[s] >= w[t]
    ensures var v, units, load := Units(w, t, best), Load(Units(w, t, best), a, n, k), Load(w, a, n, k);
            || (units == 0.0 && load == 0.0)
            || (units == 1.0 && load >= w[t])
            || (units == 2.0 && load > best - w[t])
            || (units >= 3.0 && load > best)
  {
    if n > 0 {
      TwoUnits(w, a, t, n - 1, best, k);
    }
  }

  /** A machine with more than `best - w[t]` holds at least two. */
  lemma {:induction false} LoadedMeansTwo(w: seq<real>, g: seq<nat>, t: nat, n: nat, best: real, k: nat)
    requires t < |w| && n <= |w| && n <= |g| && best >= w[t]
    ensures var units, load := Load(Units(w, t, best), g, n, k), Load(w, g, n, k);
            (units == 0.0 && load == 0.0) || (units == 1.0 && load <= best - w[t]) || units >= 2.0
  {
    if n > 0 {
      LoadedMeansTwo(w, g, t, n - 1, best, k);
    }
  }

  /** A job longer than a third of the best finds room: otherwise the machines would already
      hold more of the long jobs than any assignment can. */
  lemma {:induction false} LongJobFits(w: seq<real>, g: seq<nat>, a: seq<nat>, n: nat, m: nat, best: real, t: nat)
    requires t < n <= |w| && Greedy(w, g, n, m) && Within(w, a, n, m, best)
    requires forall i, j :: 0 <= i <= j < n ==> w[i] >= w[j] >= 0.0
    requires w[t] > best / 3.0
    ensures Load(w, g, t, g[t]) + w[t] <= best
  {
    JobFits(w, a, t, n, m, best);
    if Load(w, g, t, g[t]) + w[t] > best {
      var v, next := Units(w, t, best), t + 1;
      UnitsArePositive(w, t, best);
      assert Total(v, next) == Total(v, t) + v[t];
      LoadsAddUp(v, a, next, m);
      LoadsAddUp(v, g, t, m);
      WithinPrefix(w, a, next, n, m, best);
      forall k | 0 <= k < m ensures Load(v, a, next, k) <= 2.0 {
        TwoUnits(w, a, t, next, best, k);
      }
      assert LeastAt(w, g, t, m);
      forall k | 0 <= k < m ensures Load(v, g, t, k) >= 2.0 {
        LoadedMeansTwo(w, g, t, t, best, k);
      }
      hide Load, Units, LoadSum, Total;
      SumAtMost(v, a, next, m, 2.0);
      SumAtLeast(v, g, t, m, 2.0);
      assert false;
    }
  }

  lemma UnitsArePositive(w: seq<real>, t: nat, best: real)
    requires t < |w|
    ensures Units(w, t, best)[t] >= 1.0
  {
  }

  /** Longest first, the largest load is at most 4/3 - 1/(3m) times that of any other assignment. */
  lemma {:induction false} LongestFirstBound(w: seq<real>, g: seq<nat>, a: seq<nat>, n: nat, m: nat, best: real, i: nat)
    requires n <= |w| && Greedy(w, g, n, m) && Within(w, a, n, m, best)
    requires forall i, j :: 0 <= i <= j < n ==> w[i] >= w[j] >= 0.0
    requires i < m
    ensures 3.0 * m as real * Load(w, g, n, i) <= (4.0 * m as real - 1.0) * best
  {
    LoadGrows(w, a, n, n, i);
    LoadGrows(w, g, n, n, i);
    if Load(w, g, n, i) == 0.0 {
      assert Load(w, a, n, i) <= best;
      Product(4.0 * m as real - 1.0, best);
    } else {
      var t := LastJob(w, g, n, i);
      hide Load;
      if w[t] > best / 3.0 {
        LongJobFits(w, g, a, n, m, best, t);
        hide Greedy, Within;
        CombineLong(m as real, Load(w, g, n, i), best);
      } else {
        LoadOfLast(w, g, a, n, m, best, t);
        hide Greedy, Within;
        CombineLongest(m as real, Load(w, g, n, i), best, w[t]);
      }
    }
  }

  // ------------------------------------------------------------------ the shards

  function Weights(targets: seq<Target>): (w: seq<real>)
    ensures |w| == |targets| && forall i :: 0 <= i < |targets| ==> w[i] == Weight(targets[i]) > 0.0
  {
    seq(|targets|, i requires 0 <= i < |targets| => Weight(targets[i]))
  }

  /** The targets a machine got, in order. */
  function Chosen(targets: seq<Target>, g: seq<nat>, n: nat, k: nat): seq<Target>
    requires n <= |targets| && n <= |g|
  {
    if n == 0 then [] else Chosen(targets, g, n - 1, k) + if g[n - 1] == k then [targets[n - 1]] else []
  }

  lemma {:induction false} SameLoad(w: seq<real>, g: seq<nat>, h: seq<nat>, n: nat, k: nat)
    requires n <= |w| && n <= |g| && g <= h
    ensures Load(w, g, n, k) == Load(w, h, n, k)
  {
    if n > 0 {
      SameLoad(w, g, h, n - 1, k);
    }
  }

  lemma {:induction false} SameChosen(targets: seq<Target>, g: seq<nat>, h: seq<nat>, n: nat, k: nat)
    requires n <= |targets| && n <= |g| && g <= h
    ensures Chosen(targets, g, n, k) == Chosen(targets, h, n, k)
  {
    if n > 0 {
      SameChosen(targets, g, h, n - 1, k);
    }
  }

  lemma ChosenStep(targets: seq<Target>, g: seq<nat>, n: nat, k: nat)
    requires n < |targets| && n < |g|
    ensures Chosen(targets, g, n + 1, k) == Chosen(targets, g, n, k) + if g[n] == k then [targets[n]] else []
  {
  }

  // ------------------------------------------------------------------ the one assignment

  /** How many of the first `n` jobs machine `k` got. */
  function Count(g: seq<nat>, n: nat, k: nat): nat
    requires n <= |g|
  {
    if n == 0 then 0 else Count(g, n - 1, k) + if g[n - 1] == k then 1 else 0
  }

  /** Less load, then fewer jobs, then the lower number. */
  predicate Precedes(load: real, count: nat, i: nat, load': real, count': nat, j: nat) {
    load < load' || (load == load' && (count < count' || (count == count' && i <= j)))
  }

  /** The machine the next job goes to, of the first `m`. */
  function NextSlot(w: seq<real>, g: seq<nat>, n: nat, m: nat): (slot: nat)
    requires n <= |w| && n <= |g| && m >= 1
    ensures slot < m && forall k :: 0 <= k < m ==> ComesFirst(w, g, n, slot, k)
  {
    hide Load, Count;
    if m == 1 then 0
    else
      var slot := NextSlot(w, g, n, m - 1);
      assert ComesFirst(w, g, n, m - 1, m - 1);
      if ComesFirst(w, g, n, slot, m - 1) then slot
      else
        LaterComesFirst(w, g, n, slot, m - 1);
        m - 1
  }

  lemma LaterComesFirst(w: seq<real>, g: seq<nat>, n: nat, i: nat, j: nat)
    requires n <= |w| && n <= |g| && i < j && !ComesFirst(w, g, n, i, j)
    ensures ComesFirst(w, g, n, j, i)
    ensures forall k: nat :: ComesFirst(w, g, n, i, k) ==> ComesFirst(w, g, n, j, k)
  {
    hide Load, Count;
  }

  predicate ComesFirst(w: seq<real>, g: seq<nat>, n: nat, i: nat, j: nat)
    requires n <= |w| && n <= |g|
  {
    Precedes(Load(w, g, n, i), Count(g, n, i), i, Load(w, g, n, j), Count(g, n, j), j)
  }

  /** What the tie-break makes of the first `n` jobs. */
  function Assignment(w: seq<real>, n: nat, m: nat): (g: seq<nat>)
    requires n <= |w| && m >= 1
    ensures |g| == n
  {
    if n == 0 then []
    else
      var g := Assignment(w, n - 1, m);
      g + [NextSlot(w, g, n - 1, m)]
  }

  /** Only one machine comes before all others. */
  lemma SlotUnique(w: seq<real>, g: seq<nat>, n: nat, m: nat, a: nat, b: nat)
    requires n <= |w| && n <= |g| && a < m && b < m
    requires forall k :: 0 <= k < m ==> ComesFirst(w, g, n, a, k)
    requires forall k :: 0 <= k < m ==> ComesFirst(w, g, n, b, k)
    ensures a == b
  {
    hide Load, Count;
    assert ComesFirst(w, g, n, a, b) && ComesFirst(w, g, n, b, a);
  }

  lemma {:induction false} CountIsLength(targets: seq<Target>, g: seq<nat>, n: nat, k: nat)
    requires n <= |targets| && n <= |g|
    ensures |Chosen(targets, g, n, k)| == Count(g, n, k)
  {
    if n > 0 {
      CountIsLength(targets, g, n - 1, k);
    }
  }

  /** The assignment is greedy: each job goes to a machine with the least load. */
  lemma {:induction false} AssignmentIsGreedy(w: seq<real>, n: nat, m: nat)
    requires n <= |w| && m >= 1
    ensures Greedy(w, Assignment(w, n, m), n, m)
  {
    hide Load, Count;
    if n > 0 {
      var t := n - 1;
      var g := Assignment(w, t, m);
      AssignmentIsGreedy(w, t, m);
      var slot := NextSlot(w, g, t, m);
      forall k | 0 <= k < m ensures Load(w, g, t, slot) <= Load(w, g, t, k) {
        assert ComesFirst(w, g, t, slot, k);
      }
      GreedyGrows(w, g, g + [slot], t, m);
    }
  }

  lemma GreedyGrows(w: seq<real>, g: seq<nat>, h: seq<nat>, t: nat, m: nat)
    requires t < |w| && |g| == t && |h| == t + 1 && g <= h && h[t] < m && Greedy(w, g, t, m)
    requires forall k :: 0 <= k < m ==> Load(w, g, t, h[t]) <= Load(w, g, t, k)
    ensures Greedy(w, h, t + 1, m)
  {
    hide Load;
    forall s | 0 <= s < t + 1 ensures LeastAt(w, h, s, m) {
      forall k | 0 <= k < m ensures Load(w, h, s, h[s]) <= Load(w, h, s, k) {
        SameLoad(w, g, h, s, k);
        SameLoad(w, g, h, s, h[s]);
        if s < t {
          assert LeastAt(w, g, s, m);
        }
      }
    }
  }

  /** The shard with the least load, then the fewest targets, then the lowest number. */
  method LeastLoaded(loads: seq<real>, buckets: seq<seq<Target>>) returns (slot: nat)
    requires |loads| == |buckets| > 0
    ensures slot < |loads|
    ensures forall k :: 0 <= k < |loads| ==> Precedes(loads[slot], |buckets[slot]|, slot, loads[k], |buckets[k]|, k)
  {
    slot := 0;
    for k := 1 to |loads|
      invariant slot < k && forall j :: 0 <= j < k ==>
                Precedes(loads[slot], |buckets[slot]|, slot, loads[j], |buckets[j]|, j)
    {
      if loads[k] < loads[slot] || (loads[k] == loads[slot] && |buckets[k]| < |buckets[slot]|) {
        slot := k;
      }
    }
  }

  /** The shards as far as the first `t` targets are assigned. */
  ghost predicate Filled(loads: seq<real>, buckets: seq<seq<Target>>, sorted: seq<Target>, t: nat, shards: nat)
    requires t <= |sorted| && shards >= 1
  {
    var w := Weights(sorted);
    var g := Assignment(w, t, shards);
    |buckets| == |loads| == shards
    && forall k :: 0 <= k < shards ==> loads[k] == Load(w, g, t, k) && buckets[k] == Chosen(sorted, g, t, k)
  }

  /** The loop of `shard_targets`: the shards hold what the one assignment gives them, in order. */
  method FillShards(sorted: seq<Target>, shards: nat) returns (buckets: seq<seq<Target>>)
    requires shards >= 1
    ensures |buckets| == shards
    ensures forall k :: 0 <= k < shards ==>
              buckets[k] == Chosen(sorted, Assignment(Weights(sorted), |sorted|, shards), |sorted|, k)
  {
    buckets := seq(shards, i => []);
    var loads := seq(shards, i => 0.0);
    hide Load, Chosen, Weight, Assignment, Precedes;
    NoneYet(sorted, shards);
    for t := 0 to |sorted|
      invariant Filled(loads, buckets, sorted, t, shards)
    {
      var slot := LeastLoaded(loads, buckets);
      LeastIsNext(loads, buckets, sorted, t, shards, slot);
      FillOne(loads, buckets, sorted, t, shards, slot);
      buckets := buckets[slot := buckets[slot] + [sorted[t]]];
      loads := loads[slot := loads[slot] + Weight(sorted[t])];
    }
  }

  lemma NoneYet(sorted: seq<Target>, shards: nat)
    requires shards >= 1
    ensures Filled(seq(shards, i => 0.0), seq(shards, i => []), sorted, 0, shards)
  {
  }

  lemma LeastIsNext(loads: seq<real>, buckets: seq<seq<Target>>, sorted: seq<Target>, t: nat, shards: nat, slot: nat)
    requires t <= |sorted| && shards >= 1 && Filled(loads, buckets, sorted, t, shards) && slot < shards
    requires forall k :: 0 <= k < shards ==> Precedes(loads[slot], |buckets[slot]|, slot, loads[k], |buckets[k]|, k)
    ensures slot == NextSlot(Weights(sorted), Assignment(Weights(sorted), t, shards), t, shards)
  {
    hide Load, Chosen, Count, Precedes, Assignment;
    var w := Weights(sorted);
    var g := Assignment(w, t, shards);
    forall k | 0 <= k < shards ensures ComesFirst(w, g, t, slot, k) {
      CountIsLength(sorted, g, t, slot);
      CountIsLength(sorted, g, t, k);
    }
    SlotUnique(w, g, t, shards, slot, NextSlot(w, g, t, shards));
  }

  lemma FillOne(loads: seq<real>, buckets: seq<seq<Target>>, sorted: seq<Target>, t: nat, shards: nat, slot: nat)
    requires t < |sorted| && shards >= 1 && Filled(loads, buckets, sorted, t, shards)
    requires slot == NextSlot(Weights(sorted), Assignment(Weights(sorted), t, shards), t, shards)
    ensures Filled(loads[slot := loads[slot] + Weight(sorted[t])], buckets[slot := buckets[slot] + [sorted[t]]],
                   sorted, t + 1, shards)
  {
    hide Weight, Chosen, Load, NextSlot;
    var w := Weights(sorted);
    var g := Assignment(w, t, shards);
    var h := Assignment(w, t + 1, shards);
    assert h == g + [slot];
    forall k | 0 <= k < shards ensures
      Load(w, h, t + 1, k) == Load(w, g, t, k) + (if k == slot then w[t] else 0.0)
      && Chosen(sorted, h, t + 1, k) == Chosen(sorted, g, t, k) + if k == slot then [sorted[t]] else []
    {
      SameLoad(w, g, h, t, k);
      LoadStep(w, h, t, k);
      SameChosen(sorted, g, h, t, k);
      ChosenStep(sorted, h, t, k);
    }
  }

  lemma LoadStep(w: seq<real>, g: seq<nat>, n: nat, k: nat)
    requires n < |w| && n < |g|
    ensures Load(w, g, n + 1, k) == Load(w, g, n, k) + if g[n] == k then w[n] else 0.0
  {
  }

  /** What runner `shard` of `shards` runs: a function of the targets and their costs alone. */
  function ShardOf(targets: seq<Target>, shard: nat, shards: nat): seq<Target>
    requires 1 <= shard <= shards
  {
    var sorted := Sorted(targets);
    Chosen(sorted, Assignment(Weights(sorted), |targets|, shards), |targets|, shard - 1)
  }

  /** `shard_targets`. */
  method ShardTargets(targets: seq<Target>, shard: nat, shards: nat) returns (bucket: seq<Target>)
    requires 1 <= shard <= shards
    ensures bucket == ShardOf(targets, shard, shards)
  {
    hide Chosen, Sorted, Assignment;
    var buckets := FillShards(Sorted(targets), shards);
    bucket := buckets[shard - 1];
  }

  // ------------------------------------------------------------------ what sharding gives

  /** What the first `m` shards hold together. */
  function All(targets: seq<Target>, g: seq<nat>, n: nat, m: nat): multiset<Target>
    requires n <= |targets| && n <= |g|
  {
    if m == 0 then multiset{} else All(targets, g, n, m - 1) + multiset(Chosen(targets, g, n, m - 1))
  }

  lemma {:induction false} AllStep(targets: seq<Target>, g: seq<nat>, n: nat, m: nat)
    requires n < |targets| && n < |g|
    ensures All(targets, g, n + 1, m) == All(targets, g, n, m) + if g[n] < m then multiset{targets[n]} else multiset{}
  {
    hide Chosen;
    if m > 0 {
      AllStep(targets, g, n, m - 1);
      ChosenStep(targets, g, n, m - 1);
      OneMore(Chosen(targets, g, n, m - 1), targets[n]);
    }
  }

  lemma OneMore(s: seq<Target>, t: Target)
    ensures multiset(s + [t]) == multiset(s) + multiset{t} && s + [] == s
  {
  }

  lemma {:induction false} AllNone(targets: seq<Target>, g: seq<nat>, m: nat)
    ensures All(targets, g, 0, m) == multiset{}
  {
    if m > 0 {
      AllNone(targets, g, m - 1);
    }
  }

  /** Any assignment to the shards loses no target and repeats none. */
  lemma {:induction false} AssignmentPartitions(targets: seq<Target>, g: seq<nat>, n: nat, m: nat)
    requires n <= |targets| && Assigns(g, n, m)
    ensures All(targets, g, n, m) == multiset(targets[..n])
  {
    hide All;
    if n == 0 {
      AllNone(targets, g, m);
    } else {
      AssignmentPartitions(targets, g, n - 1, m);
      AllStep(targets, g, n - 1, m);
      assert targets[..n] == targets[..n - 1] + [targets[n - 1]];
    }
  }

  /** What runners 1 to `runners` run together. */
  function RunTogether(targets: seq<Target>, runners: nat, shards: nat): multiset<Target>
    requires runners <= shards
  {
    if runners == 0 then multiset{}
    else RunTogether(targets, runners - 1, shards) + multiset(ShardOf(targets, runners, shards))
  }

  lemma {:induction false} TogetherIsAll(targets: seq<Target>, runners: nat, shards: nat)
    requires runners <= shards && shards >= 1
    ensures RunTogether(targets, runners, shards) ==
            All(Sorted(targets), Assignment(Weights(Sorted(targets)), |targets|, shards), |targets|, runners)
  {
    hide Chosen, Sorted, Assignment, Weights;
    if runners > 0 {
      TogetherIsAll(targets, runners - 1, shards);
    }
  }

  /** The runners, each computing its own shard, together run every target, each once: nothing is
      lost and nothing runs twice. */
  lemma {:induction false} ShardsPartition(targets: seq<Target>, shards: nat)
    requires shards >= 1
    ensures RunTogether(targets, shards, shards) == multiset(targets)
  {
    hide Sorted, Assignment, Weights, All, Greedy, RunTogether;
    var sorted := Sorted(targets);
    var w := Weights(sorted);
    var g := Assignment(w, |targets|, shards);
    TogetherIsAll(targets, shards, shards);
    AssignmentIsGreedy(w, |targets|, shards);
    GreedyAssigns(w, g, |targets|, shards);
    AssignmentPartitions(sorted, g, |targets|, shards);
    SortedKeeps(targets);
    assert sorted[..|targets|] == sorted;
  }

  // ------------------------------------------------------------------ whatever order they come in

  lemma {:induction false} LabelsCompare(a: string, b: string)
    ensures LabelLeq(a, b) || LabelLeq(b, a)
    ensures LabelLeq(a, b) && LabelLeq(b, a) ==> a == b
  {
    if a != "" && b != "" {
      LabelsCompare(a[1..], b[1..]);
      assert a == [a[0]] + a[1..] && b == [b[0]] + b[1..];
    }
  }

  lemma {:induction false} LabelsChain(a: string, b: string, c: string)
    requires LabelLeq(a, b) && LabelLeq(b, c)
    ensures LabelLeq(a, c)
  {
    if a != "" && a[0] == b[0] == c[0] {
      LabelsChain(a[1..], b[1..], c[1..]);
    }
  }

  lemma BeforeCompares(a: Target, b: Target)
    ensures Before(a, b) || Before(b, a)
    ensures Before(a, b) && Before(b, a) ==> a == b
  {
    hide LabelLeq;
    LabelsCompare(a.name, b.name);
  }

  lemma BeforeChains(a: Target, b: Target, c: Target)
    requires Before(a, b) && Before(b, c)
    ensures Before(a, c)
  {
    hide LabelLeq;
    if a.cost == b.cost == c.cost {
      LabelsChain(a.name, b.name, c.name);
    }
  }

  lemma {:induction false} InsertsCommute(x: Target, y: Target, s: seq<Target>)
    ensures Insert(x, Insert(y, s)) == Insert(y, Insert(x, s))
  {
    hide Before;
    BeforeCompares(x, y);
    if s == [] {
      assert [y][1..] == [] && [x][1..] == [];
    } else {
      InsertsCommute(x, y, s[1..]);
      if Before(x, y) && Before(y, s[0]) { BeforeChains(x, y, s[0]); }
      if Before(y, x) && Before(x, s[0]) { BeforeChains(y, x, s[0]); }
      InsertBehind(x, y, s);
      InsertBehind(y, x, s);
    }
  }

  lemma InsertBehind(x: Target, y: Target, s: seq<Target>)
    requires s != []
    ensures Insert(x, Insert(y, s)) ==
            if Before(y, s[0]) then (if Before(x, y) then [x, y] + s else [y] + Insert(x, s))
            else if Before(x, s[0]) then [x] + Insert(y, s) else [s[0]] + Insert(x, Insert(y, s[1..]))
  {
    hide Before;
    if Before(y, s[0]) {
      assert ([y] + s)[1..] == s;
    } else {
      assert ([s[0]] + Insert(y, s[1..]))[1..] == Insert(y, s[1..]);
    }
  }

  /** Sorting may take any element first. */
  lemma {:induction false} SortedFrom(targets: seq<Target>, i: nat)
    requires i < |targets|
    ensures Sorted(targets) == Insert(targets[i], Sorted(targets[..i] + targets[i + 1..]))
  {
    hide Insert;
    if i == 0 {
      assert targets[..0] + targets[1..] == targets[1..];
    } else {
      var rest := targets[..i] + targets[i + 1..];
      SortedFrom(targets[1..], i - 1);
      assert targets[1..][..i - 1] + targets[1..][i..] == rest[1..];
      InsertsCommute(targets[0], targets[i], Sorted(rest[1..]));
    }
  }

  lemma TakenOut(s: seq<Target>, i: nat)
    requires i < |s|
    ensures multiset(s[..i] + s[i + 1..]) == multiset(s) - multiset{s[i]}
  {
    assert s == s[..i] + [s[i]] + s[i + 1..];
  }

  lemma {:induction false} SortedByContents(a: seq<Target>, b: seq<Target>)
    requires multiset(a) == multiset(b)
    ensures Sorted(a) == Sorted(b)
  {
    hide Insert;
    assert |a| == |multiset(a)| && |b| == |multiset(b)|;
    if a != [] {
      assert a[0] in multiset(b);
      var i :| 0 <= i < |b| && b[i] == a[0];
      var rest := b[..i] + b[i + 1..];
      SortedFrom(b, i);
      TakenOut(b, i);
      TakenOut(a, 0);
      assert a[..0] + a[1..] == a[1..];
      SortedByContents(a[1..], rest);
    }
  }

  /** A runner's shard does not depend on the order in which it learns of the targets: runners that
      know the same targets and costs agree on every shard. */
  lemma {:induction false} RunnersAgree(a: seq<Target>, b: seq<Target>, shard: nat, shards: nat)
    requires multiset(a) == multiset(b) && 1 <= shard <= shards
    ensures ShardOf(a, shard, shards) == ShardOf(b, shard, shards)
  {
    hide Sorted;
    SortedByContents(a, b);
    assert |a| == |multiset(a)| && |b| == |multiset(b)|;
  }

  // ------------------------------------------------------------------ how long the runners run

  /** What a shard weighs. */
  function ShardWeight(bucket: seq<Target>): real {
    if bucket == [] then 0.0 else ShardWeight(bucket[..|bucket| - 1]) + Weight(bucket[|bucket| - 1])
  }

  lemma {:induction false} WeightIsLoad(targets: seq<Target>, g: seq<nat>, n: nat, k: nat)
    requires n <= |targets| && n <= |g|
    ensures ShardWeight(Chosen(targets, g, n, k)) == Load(Weights(targets), g, n, k)
  {
    hide Weight;
    if n > 0 {
      WeightIsLoad(targets, g, n - 1, k);
      var before := Chosen(targets, g, n - 1, k);
      assert (before + [targets[n - 1]])[..|before|] == before && before + [] == before;
    }
  }

  /** No runner's shard weighs more than 4/3 - 1/(3m) times what the best possible assignment of
      the targets to `m` runners puts on its fullest one. */
  lemma {:induction false} RunnersAreNearlyBest(targets: seq<Target>, a: seq<nat>, m: nat, best: real, shard: nat)
    requires 1 <= shard <= m && Within(Weights(Sorted(targets)), a, |targets|, m, best)
    ensures 3.0 * m as real * ShardWeight(ShardOf(targets, shard, m)) <= (4.0 * m as real - 1.0) * best
  {
    hide Load, Greedy, Within, Weight, Sorted, Weights, Chosen, Assignment, ShardWeight, All;
    var w := Weights(Sorted(targets));
    var g := Assignment(w, |targets|, m);
    AssignmentIsGreedy(w, |targets|, m);
    SharingIsNearlyBest(targets, g, a, m, best, shard - 1);
    WeightIsLoad(Sorted(targets), g, |targets|, shard - 1);
  }

  lemma WeightsFall(targets: seq<Target>)
    requires LongestFirst(targets)
    ensures forall i, j :: 0 <= i <= j < |targets| ==> Weights(targets)[i] >= Weights(targets)[j] >= 0.0
  {
  }

  /** Whatever the targets: the shards hold each once, and no shard runs longer than 4/3 - 1/(3m)
      times what the best possible assignment of them to `m` runners needs. */
  lemma {:induction false} SharingIsNearlyBest(targets: seq<Target>, g: seq<nat>, a: seq<nat>, m: nat, best: real,
                                               i: nat)
    requires |g| == |targets| && i < m && Greedy(Weights(Sorted(targets)), g, |targets|, m)
    requires Within(Weights(Sorted(targets)), a, |targets|, m, best)
    ensures All(Sorted(targets), g, |targets|, m) == multiset(targets)
    ensures 3.0 * m as real * Load(Weights(Sorted(targets)), g, |targets|, i) <= (4.0 * m as real - 1.0) * best
  {
    hide Load, Greedy, Within, Weight, Sorted, LongestFirst, All, Weights;
    var sorted := Sorted(targets);
    SortedKeeps(targets);
    WeightsFall(sorted);
    LongestFirstBound(Weights(sorted), g, a, |targets|, m, best, i);
    assert Assigns(g, |targets|, m) by { GreedyAssigns(Weights(sorted), g, |targets|, m); }
    AssignmentPartitions(sorted, g, |targets|, m);
    assert sorted[..|targets|] == sorted;
  }

  lemma GreedyAssigns(w: seq<real>, g: seq<nat>, n: nat, m: nat)
    requires n <= |w| && Greedy(w, g, n, m)
    ensures Assigns(g, n, m)
  {
  }
}
