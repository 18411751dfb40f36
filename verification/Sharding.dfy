/** The longest-first balancing of test files over CI workers (scripts/ci_pytest_shard.py). */
module Sharding {
  import opened Common

  // ----- the order in which files are handed out -----

  /** Code-point order of two strings, as Python compares them. */
  predicate StringLess(a: string, b: string) {
    b != "" && (a == "" || a[0] < b[0] || (a[0] == b[0] && StringLess(a[1..], b[1..])))
  }

  /** The sort key (-size, path). */
  predicate HandedOutBefore(size: string -> nat, a: string, b: string) {
    size(a) > size(b) || (size(a) == size(b) && StringLess(a, b))
  }

  ghost predicate StrictTotal<T(!new)>(less: (T, T) -> bool) {
    && (forall x :: !less(x, x))
    && (forall x, y, z :: less(x, y) && less(y, z) ==> less(x, z))
    && (forall x, y :: x != y ==> less(x, y) || less(y, x))
  }

  ghost predicate SortedBy<T>(less: (T, T) -> bool, s: seq<T>) {
    forall i, j :: 0 <= i < j < |s| ==> !less(s[j], s[i])
  }

  function Insert<T>(less: (T, T) -> bool, x: T, s: seq<T>): seq<T> {
    if s == [] then [x]
    else if less(s[0], x) then [s[0]] + Insert(less, x, s[1..])
    else [x] + s
  }

  function Sorted<T>(less: (T, T) -> bool, s: seq<T>): seq<T> {
    if s == [] then [] else Insert(less, s[0], Sorted(less, s[1..]))
  }

  lemma {:induction false} InsertKeepsOrder<T(!new)>(less: (T, T) -> bool, x: T, s: seq<T>)
    requires StrictTotal(less) && SortedBy(less, s)
    ensures SortedBy(less, Insert(less, x, s))
    ensures multiset(Insert(less, x, s)) == multiset{x} + multiset(s)
  {
    if s == [] {
    } else if less(s[0], x) {
      InsertKeepsOrder(less, x, s[1..]);
      var t := Insert(less, x, s[1..]);
      assert s == [s[0]] + s[1..];
      assert multiset(t) == multiset{x} + multiset(s[1..]);
      forall j | 0 <= j < |t| ensures !less(t[j], s[0]) {
        assert t[j] in multiset(t);
        assert t[j] == x || t[j] in s[1..];
      }
    } else {
      forall j | 0 <= j < |s| ensures !less(s[j], x) {
        assert j > 0 ==> !less(s[j], s[0]);
      }
    }
  }

  lemma {:induction false} SortedIsSorted<T(!new)>(less: (T, T) -> bool, s: seq<T>)
    requires StrictTotal(less)
    ensures SortedBy(less, Sorted(less, s)) && multiset(Sorted(less, s)) == multiset(s)
    ensures |Sorted(less, s)| == |s|
  {
    if s != [] {
      SortedIsSorted(less, s[1..]);
      InsertKeepsOrder(less, s[0], Sorted(less, s[1..]));
      assert s == [s[0]] + s[1..];
      assert |multiset(Sorted(less, s))| == |multiset(s)|;
    }
  }

  lemma {:induction false} LeastComesFirst<T(!new)>(less: (T, T) -> bool, s: seq<T>, x: T)
    requires StrictTotal(less) && SortedBy(less, s) && x in s
    ensures !less(x, s[0])
  {
    var i :| 0 <= i < |s| && s[i] == x;
    if i > 0 { assert !less(s[i], s[0]); }
  }

  lemma TailMultiset<T>(s: seq<T>)
    requires s != []
    ensures multiset(s[1..]) == multiset(s) - multiset{s[0]}
  {
    assert s == [s[0]] + s[1..];
  }

  /** Under a strict total order a multiset has one sorted listing. */
  lemma {:induction false} SortedListingIsUnique<T(!new)>(less: (T, T) -> bool, a: seq<T>, b: seq<T>)
    requires StrictTotal(less) && SortedBy(less, a) && SortedBy(less, b)
    requires multiset(a) == multiset(b)
    ensures a == b
  {
    if a == [] {
      assert |multiset(b)| == |b|;
    } else {
      assert a[0] in multiset(a);
      assert b[0] in multiset(b);
      LeastComesFirst(less, a, b[0]);
      LeastComesFirst(less, b, a[0]);
      assert a[0] == b[0];
      TailMultiset(a);
      TailMultiset(b);
      SortedListingIsUnique(less, a[1..], b[1..]);
    }
  }

  lemma {:induction false} StringLessTransitive(a: string, b: string, c: string)
    requires StringLess(a, b) && StringLess(b, c)
    ensures StringLess(a, c)
  {
    if a != "" && b != "" && a[0] == b[0] && b[0] == c[0] {
      StringLessTransitive(a[1..], b[1..], c[1..]);
    }
  }

  lemma {:induction false} StringLessConnected(a: string, b: string)
    ensures !StringLess(a, a)
    ensures a != b ==> StringLess(a, b) || StringLess(b, a)
  {
    if a != "" { StringLessConnected(a[1..], a[1..]); }
    if a != "" && b != "" && a[0] == b[0] {
      StringLessConnected(a[1..], b[1..]);
      assert a == [a[0]] + a[1..] && b == [b[0]] + b[1..];
    }
  }

  lemma StringOrderIsTotal()
    ensures StrictTotal(StringLess)
  {
    forall x, y { StringLessConnected(x, y); }
    forall x, y, z | StringLess(x, y) && StringLess(y, z) ensures StringLess(x, z) {
      StringLessTransitive(x, y, z);
    }
  }

  function HandOutOrder(size: string -> nat): (string, string) -> bool {
    (a, b) => HandedOutBefore(size, a, b)
  }

  lemma HandOutOrderIsTotal(size: string -> nat)
    ensures StrictTotal(HandOutOrder(size))
  {
    StringOrderIsTotal();
  }

  // ----- loads of an assignment of jobs to machines -----

  /** Sum of the values of the jobs that f sends to machine j. */
  function Load(value: seq<nat>, f: seq<nat>, j: nat): nat
    requires |value| == |f|
  {
    if value == [] then 0
    else
      var n := |value| - 1;
      Load(value[..n], f[..n], j) + if f[n] == j then value[n] else 0
  }

  function Loads(value: seq<nat>, f: seq<nat>, m: nat): (r: seq<nat>)
    requires |value| == |f|
    ensures |r| == m
  {
    seq(m, j requires 0 <= j < m => Load(value, f, j))
  }

  function Sum(s: seq<nat>): nat {
    if s == [] then 0 else Sum(s[..|s| - 1]) + s[|s| - 1]
  }

  /** The first index holding the least weight: min over (weight, index). */
  function LightestFrom(weights: seq<nat>, best: nat, i: nat): (r: nat)
    requires best < i <= |weights|
    requires forall k :: 0 <= k < i ==> weights[best] <= weights[k]
    requires forall k :: 0 <= k < best ==> weights[best] < weights[k]
    ensures r < |weights|
    ensures forall k :: 0 <= k < |weights| ==> weights[r] <= weights[k]
    ensures forall k :: 0 <= k < r ==> weights[r] < weights[k]
    decreases |weights| - i
  {
    if i == |weights| then best
    else if weights[i] < weights[best] then LightestFrom(weights, i, i + 1)
    else LightestFrom(weights, best, i + 1)
  }

  function Lightest(weights: seq<nat>): (r: nat)
    requires weights != []
    ensures r < |weights|
    ensures forall k :: 0 <= k < |weights| ==> weights[r] <= weights[k]
    ensures forall k :: 0 <= k < r ==> weights[r] < weights[k]
  {
    LightestFrom(weights, 0, 1)
  }

  ghost predicate Assigns(f: seq<nat>, n: nat, m: nat) {
    |f| == n && forall i :: 0 <= i < n ==> f[i] < m
  }

  /** Each job in turn goes to the machine that is lightest so far. */
  function Greedy(w: seq<nat>, m: nat): (g: seq<nat>)
    requires m > 0
    ensures Assigns(g, |w|, m)
  {
    if w == [] then []
    else
      var n := |w| - 1;
      var g := Greedy(w[..n], m);
      g + [Lightest(Loads(w[..n], g, m))]
  }

  /** Loads partition the total. */
  lemma {:induction false} LoadsAddUp(value: seq<nat>, f: seq<nat>, m: nat)
    requires Assigns(f, |value|, m)
    ensures Sum(Loads(value, f, m)) == Sum(value)
  {
    if value == [] {
      SumOfZeros(Loads(value, f, m));
    } else {
      var n := |value| - 1;
      LoadsAddUp(value[..n], f[..n], m);
      SumAfterBump(Loads(value[..n], f[..n], m), Loads(value, f, m), f[n], value[n]);
    }
  }

  lemma {:induction false} AppendLoad(value: seq<nat>, f: seq<nat>, x: nat, to: nat, j: nat)
    requires |value| == |f|
    ensures Load(value + [x], f + [to], j) == Load(value, f, j) + if to == j then x else 0
  {
    assert (value + [x])[..|value|] == value && (f + [to])[..|f|] == f;
  }

  lemma {:induction false} SumOfZeros(s: seq<nat>)
    requires forall i :: 0 <= i < |s| ==> s[i] == 0
    ensures Sum(s) == 0
  {
    if s != [] { SumOfZeros(s[..|s| - 1]); }
  }

  lemma {:induction false} SumAfterBump(s: seq<nat>, t: seq<nat>, j: nat, x: nat)
    requires |s| == |t| && j < |s|
    requires forall i :: 0 <= i < |s| ==> t[i] == if i == j then s[i] + x else s[i]
    ensures Sum(t) == Sum(s) + x
  {
    var n := |s| - 1;
    if j == n { assert s[..n] == t[..n]; } else { SumAfterBump(s[..n], t[..n], j, x); }
  }

  lemma {:induction false} SumAtLeast(s: seq<nat>, low: nat)
    requires forall i :: 0 <= i < |s| ==> low <= s[i]
    ensures low * |s| <= Sum(s)
  {
    if s != [] { SumAtLeast(s[..|s| - 1], low); }
  }

  lemma {:induction false} SumAtMost(s: seq<nat>, high: nat)
    requires forall i :: 0 <= i < |s| ==> s[i] <= high
    ensures Sum(s) <= high * |s|
  {
    if s != [] { SumAtMost(s[..|s| - 1], high); }
  }

  lemma {:induction false} SumOfPrefix(s: seq<nat>, k: nat)
    requires k <= |s|
    ensures Sum(s[..k]) <= Sum(s)
  {
    if k == |s| { assert s[..k] == s; }
    else { SumOfPrefix(s[..|s| - 1], k); assert s[..|s| - 1][..k] == s[..k]; }
  }

  lemma {:induction false} LoadOfPrefix(value: seq<nat>, f: seq<nat>, j: nat, k: nat)
    requires |value| == |f| && k <= |value|
    ensures Load(value[..k], f[..k], j) <= Load(value, f, j)
  {
    if k == |value| { assert value[..k] == value && f[..k] == f; }
    else {
      var n := |value| - 1;
      LoadOfPrefix(value[..n], f[..n], j, k);
      assert value[..n][..k] == value[..k] && f[..n][..k] == f[..k];
    }
  }

  lemma {:induction false} GreedyPrefix(w: seq<nat>, m: nat, k: nat)
    requires m > 0 && k <= |w|
    ensures Greedy(w, m)[..k] == Greedy(w[..k], m)
  {
    if k == |w| { assert w[..k] == w; }
    else {
      GreedyPrefix(w[..|w| - 1], m, k);
      assert w[..|w| - 1][..k] == w[..k];
    }
  }

  /** The last job of a machine with positive load, and what the greedy rule knew when placing it. */
  lemma {:induction false} LastJob(w: seq<nat>, m: nat, j: nat) returns (l: nat)
    requires m > 0 && j < m && Load(w, Greedy(w, m), j) > 0
    ensures l < |w|
    ensures Load(w, Greedy(w, m), j) == Load(w[..l], Greedy(w[..l], m), j) + w[l]
    ensures forall k :: 0 <= k < m ==>
      Load(w[..l], Greedy(w[..l], m), j) <= Load(w[..l], Greedy(w[..l], m), k)
  {
    var n := |w| - 1;
    var g := Greedy(w, m);
    assert g[..n] == Greedy(w[..n], m);
    if g[n] == j {
      l := n;
      var before := Loads(w[..n], g[..n], m);
      forall k | 0 <= k < m ensures Load(w[..n], g[..n], j) <= Load(w[..n], g[..n], k) {
        assert before[j] <= before[k];
      }
    } else {
      l := LastJob(w[..n], m, j);
      assert w[..n][..l] == w[..l];
    }
  }

  ghost predicate Descending(w: seq<nat>) {
    forall i, j :: 0 <= i < j < |w| ==> w[j] <= w[i]
  }

  ghost predicate Within(w: seq<nat>, f: seq<nat>, m: nat, bound: nat)
    requires |w| == |f|
  {
    forall j :: 0 <= j < m ==> Load(w, f, j) <= bound
  }

  lemma {:induction false} JobWithinBound(w: seq<nat>, f: seq<nat>, m: nat, bound: nat, i: nat)
    requires Assigns(f, |w|, m) && Within(w, f, m, bound) && i < |w|
    ensures w[i] <= bound
  {
    LoadOfPrefix(w, f, f[i], i + 1);
    assert w[..i + 1][..i] == w[..i];
  }

  lemma SpreadOver(m: nat, low: nat, x: nat, bound: nat)
    requires low * m + x <= bound * m
    ensures m * (low + x) <= m * bound + (m - 1) * x
  {
    assert m * (low + x) == low * m + m * x;
    assert (m - 1) * x == m * x - x;
  }

  lemma ScaleUp(c: nat, a: nat, b: nat)
    requires a <= b
    ensures c * a <= c * b
  {}

  lemma LeastLoadArea(w: seq<nat>, g: seq<nat>, m: nat, low: nat)
    requires Assigns(g, |w|, m) && forall k :: 0 <= k < m ==> low <= Load(w, g, k)
    ensures low * m <= Sum(w)
  {
    SumAtLeast(Loads(w, g, m), low);
    LoadsAddUp(w, g, m);
  }

  lemma BoundedArea(w: seq<nat>, f: seq<nat>, m: nat, bound: nat, l: nat)
    requires Assigns(f, |w|, m) && Within(w, f, m, bound) && l < |w|
    ensures Sum(w[..l]) + w[l] <= bound * m
  {
    SumOfPrefix(w, l + 1);
    assert w[..l + 1][..l] == w[..l];
    LoadsAddUp(w, f, m);
    SumAtMost(Loads(w, f, m), bound);
  }

  /** The area argument: the last job on a machine was put on the lightest one. */
  lemma AreaBound(w: seq<nat>, m: nat, low: nat, l: nat, f: seq<nat>, bound: nat)
    requires m > 0 && l < |w| && Assigns(f, |w|, m) && Within(w, f, m, bound)
    requires forall k :: 0 <= k < m ==> low <= Load(w[..l], Greedy(w[..l], m), k)
    ensures m * (low + w[l]) <= m * bound + (m - 1) * w[l]
  {
    LeastLoadArea(w[..l], Greedy(w[..l], m), m, low);
    BoundedArea(w, f, m, bound, l);
    SpreadOver(m, low, w[l], bound);
  }

  lemma ScaleByHalves(m: nat, heavy: nat, x: nat, bound: nat)
    requires m > 0 && x <= bound
    requires m * heavy <= m * bound + (m - 1) * x || heavy == 0
    ensures m * heavy <= (2 * m - 1) * bound
  {
    ScaleUp(m - 1, x, bound);
    assert m * bound + (m - 1) * bound == (2 * m - 1) * bound;
  }

  /** Greedy in any order: at most (2 - 1/m) times every other split. */
  lemma ListSchedulingBound(w: seq<nat>, m: nat, j: nat, f: seq<nat>, bound: nat)
    requires m > 0 && j < m && Assigns(f, |w|, m) && Within(w, f, m, bound)
    ensures m * Load(w, Greedy(w, m), j) <= (2 * m - 1) * bound
  {
    var heavy := Load(w, Greedy(w, m), j);
    if heavy == 0 {
      ScaleByHalves(m, heavy, 0, bound);
    } else {
      var l := LastJob(w, m, j);
      AreaBound(w, m, heavy - w[l], l, f, bound);
      JobWithinBound(w, f, m, bound, l);
      ScaleByHalves(m, heavy, w[l], bound);
    }
  }

  // ----- Graham's argument when the last job is larger than a third of the bound -----

  /** A job counts double when it can share a machine with no job of size `last` within `bound`. */
  function Units(w: seq<nat>, last: nat, bound: nat): (v: seq<nat>)
    ensures |v| == |w|
  {
    seq(|w|, i requires 0 <= i < |w| => if w[i] + last > bound then 2 else 1)
  }

  /** Three units on one machine exceed the bound. */
  lemma {:induction false} UnitsForceLoad(w: seq<nat>, f: seq<nat>, j: nat, last: nat, bound: nat)
    requires |w| == |f| && last <= bound < 3 * last
    requires forall i :: 0 <= i < |w| ==> last <= w[i]
    ensures Load(Units(w, last, bound), f, j) == 1 ==> last <= Load(w, f, j)
    ensures Load(Units(w, last, bound), f, j) == 2 ==>
      2 * last <= Load(w, f, j) || bound < Load(w, f, j) + last
    ensures Load(Units(w, last, bound), f, j) >= 2 ==> last <= Load(w, f, j)
    ensures Load(Units(w, last, bound), f, j) >= 3 ==> bound < Load(w, f, j)
  {
    if w != [] {
      var n := |w| - 1;
      UnitsForceLoad(w[..n], f[..n], j, last, bound);
      assert Units(w, last, bound)[..n] == Units(w[..n], last, bound);
    }
  }

  /** At most one unit on a machine leaves room for one more job of size `last`. */
  lemma {:induction false} FewUnitsLeaveRoom(w: seq<nat>, f: seq<nat>, j: nat, last: nat, bound: nat)
    requires |w| == |f| && last <= bound
    ensures Load(Units(w, last, bound), f, j) == 0 ==> Load(w, f, j) == 0
    ensures Load(Units(w, last, bound), f, j) <= 1 ==> Load(w, f, j) + last <= bound
  {
    if w != [] {
      var n := |w| - 1;
      FewUnitsLeaveRoom(w[..n], f[..n], j, last, bound);
      assert Units(w, last, bound)[..n] == Units(w[..n], last, bound);
    }
  }

  /** If even the smallest placed job exceeds a third of the bound, longest-first meets the bound. */
  lemma LargeJobsFit(w: seq<nat>, m: nat, j: nat, l: nat, f: seq<nat>, bound: nat)
    requires m > 0 && j < m && l < |w| && Descending(w)
    requires Assigns(f, |w|, m) && Within(w, f, m, bound) && bound < 3 * w[l]
    requires Load(w, Greedy(w, m), j) == Load(w[..l], Greedy(w[..l], m), j) + w[l]
    requires forall k :: 0 <= k < m ==>
      Load(w[..l], Greedy(w[..l], m), j) <= Load(w[..l], Greedy(w[..l], m), k)
    ensures Load(w, Greedy(w, m), j) <= bound
  {
    var last := w[l];
    JobWithinBound(w, f, m, bound, l);
    if bound < Load(w, Greedy(w, m), j) {
      var g := Greedy(w[..l], m);
      var placed := Units(w[..l], last, bound);
      forall k | 0 <= k < m ensures 2 <= Load(placed, g, k) {
        FewUnitsLeaveRoom(w[..l], g, k, last, bound);
      }
      SumAtLeast(Loads(placed, g, m), 2);
      LoadsAddUp(placed, g, m);

      var all := Units(w[..l + 1], last, bound);
      assert all[..l] == placed;
      var other := f[..l + 1];
      forall k | 0 <= k < m ensures Load(all, other, k) <= 2 {
        UnitsForceLoad(w[..l + 1], other, k, last, bound);
        LoadOfPrefix(w, f, k, l + 1);
      }
      SumAtMost(Loads(all, other, m), 2);
      LoadsAddUp(all, other, m);
      assert false;
    }
  }

  lemma ScaleByThirds(m: nat, heavy: nat, x: nat, bound: nat)
    requires m > 0 && 3 * x <= bound
    requires m * heavy <= m * bound + (m - 1) * x || heavy <= bound
    ensures 3 * m * heavy <= (4 * m - 1) * bound
  {
    if heavy <= bound { ScaleUp(m, heavy, bound); }
    ScaleUp(m - 1, 3 * x, bound);
    assert (m - 1) * (3 * x) == 3 * ((m - 1) * x);
    assert 3 * m * heavy == 3 * (m * heavy);
    assert 3 * (m * bound) + (m - 1) * bound == (4 * m - 1) * bound;
  }

  /** Graham's bound for longest-first: at most (4/3 - 1/(3m)) times every other split. */
  lemma LongestFirstBound(w: seq<nat>, m: nat, j: nat, f: seq<nat>, bound: nat)
    requires m > 0 && j < m && Descending(w) && Assigns(f, |w|, m) && Within(w, f, m, bound)
    ensures 3 * m * Load(w, Greedy(w, m), j) <= (4 * m - 1) * bound
  {
    var heavy := Load(w, Greedy(w, m), j);
    if heavy == 0 {
      ScaleByThirds(m, heavy, 0, bound);
    } else {
      var l := LastJob(w, m, j);
      if bound < 3 * w[l] {
        LargeJobsFit(w, m, j, l, f, bound);
        ScaleByThirds(m, heavy, 0, bound);
      } else {
        AreaBound(w, m, heavy - w[l], l, f, bound);
        ScaleByThirds(m, heavy, w[l], bound);
      }
    }
  }

  // ----- the split of files into shards -----

  function Sizes(size: string -> nat, files: seq<string>): (r: seq<nat>)
    ensures |r| == |files|
  {
    seq(|files|, i requires 0 <= i < |files| => size(files[i]))
  }

  function ShardWeight(size: string -> nat, shard: seq<string>): nat {
    Sum(Sizes(size, shard))
  }

  /** The files that f sends to shard j, in hand-out order. */
  function Members(files: seq<string>, f: seq<nat>, j: nat): seq<string>
    requires |files| == |f|
  {
    if files == [] then []
    else
      var n := |files| - 1;
      Members(files[..n], f[..n], j) + if f[n] == j then [files[n]] else []
  }

  function Shards(files: seq<string>, f: seq<nat>, m: nat): (r: seq<seq<string>>)
    requires |files| == |f|
    ensures |r| == m
  {
    seq(m, j requires 0 <= j < m => Members(files, f, j))
  }

  function Split(size: string -> nat, files: seq<string>, m: nat): (r: seq<seq<string>>)
    requires m > 0
    ensures |r| == m
  {
    var order := Sorted(HandOutOrder(size), files);
    var g := Greedy(Sizes(size, order), m);
    seq(m, j requires 0 <= j < m => Sorted(StringLess, Members(order, g, j)))
  }

  lemma LoadsExtend(value: seq<nat>, f: seq<nat>, m: nat, x: nat, to: nat)
    requires |f| == |value| && to < m
    ensures Loads(value + [x], f + [to], m) == Loads(value, f, m)[to := Load(value, f, to) + x]
  {
    var after, expected := Loads(value + [x], f + [to], m), Loads(value, f, m)[to := Load(value, f, to) + x];
    forall j: nat | j < m ensures after[j] == expected[j] { AppendLoad(value, f, x, to, j); }
  }

  lemma {:induction false} AppendMember(files: seq<string>, f: seq<nat>, x: string, to: nat, j: nat)
    requires |files| == |f|
    ensures Members(files + [x], f + [to], j) == Members(files, f, j) + if to == j then [x] else []
  {
    assert (files + [x])[..|files|] == files && (f + [to])[..|f|] == f;
  }

  lemma ShardsExtend(files: seq<string>, f: seq<nat>, m: nat, x: string, to: nat)
    requires |f| == |files| && to < m
    ensures Shards(files + [x], f + [to], m) == Shards(files, f, m)[to := Members(files, f, to) + [x]]
  {
    var after, expected := Shards(files + [x], f + [to], m), Shards(files, f, m)[to := Members(files, f, to) + [x]];
    forall j: nat | j < m ensures after[j] == expected[j] { AppendMember(files, f, x, to, j); }
  }

  /** The greedy rule's next choice. */
  lemma GreedyChoice(w: seq<nat>, m: nat, i: nat)
    requires m > 0 && i < |w|
    ensures Greedy(w, m)[..i] == Greedy(w[..i], m)
    ensures Greedy(w, m)[..i + 1] == Greedy(w, m)[..i] + [Lightest(Loads(w[..i], Greedy(w, m)[..i], m))]
  {
    GreedyPrefix(w, m, i);
    GreedyPrefix(w, m, i + 1);
    assert w[..i + 1][..i] == w[..i];
  }

  lemma NothingPlaced(size: string -> nat, order: seq<string>, g: seq<nat>, m: nat)
    requires |g| == |order|
    ensures Loads(Sizes(size, order[..0]), g[..0], m) == seq(m, _ => 0)
    ensures Shards(order[..0], g[..0], m) == seq(m, _ => [])
  {}

  /** How the loads and the shards change when the greedy rule places the next file. */
  lemma PlaceNext(size: string -> nat, order: seq<string>, m: nat, i: nat, g: seq<nat>, loads: seq<nat>, l: nat)
    requires m > 0 && i < |order| && g == Greedy(Sizes(size, order), m)
    requires loads == Loads(Sizes(size, order[..i]), g[..i], m) && l == Lightest(loads)
    ensures Loads(Sizes(size, order[..i + 1]), g[..i + 1], m) == loads[l := loads[l] + size(order[i])]
    ensures var shards := Shards(order[..i], g[..i], m);
            Shards(order[..i + 1], g[..i + 1], m) == shards[l := shards[l] + [order[i]]]
  {
    hide Greedy, Load, Members, LightestFrom;
    var before := Sizes(size, order[..i]);
    assert Sizes(size, order)[..i] == before;
    GreedyChoice(Sizes(size, order), m, i);
    LoadsExtend(before, g[..i], m, size(order[i]), l);
    ShardsExtend(order[..i], g[..i], m, order[i], l);
    assert order[..i + 1] == order[..i] + [order[i]];
    assert Sizes(size, order[..i + 1]) == before + [size(order[i])];
  }

  /** The balancing loop: each file goes to the lightest shard so far. */
  method Balance(size: string -> nat, order: seq<string>, m: nat) returns (r: seq<seq<string>>)
    requires m > 0
    ensures r == Shards(order, Greedy(Sizes(size, order), m), m)
  {
    hide Greedy, Loads, Shards, LightestFrom;
    var shards := new seq<string>[m](_ => []);
    var weights := new nat[m](_ => 0);
    ghost var g := Greedy(Sizes(size, order), m);
    NothingPlaced(size, order, g, m);
    for i := 0 to |order|
      invariant weights[..] == Loads(Sizes(size, order[..i]), g[..i], m)
      invariant shards[..] == Shards(order[..i], g[..i], m)
    {
      var path := order[i];
      var index := Lightest(weights[..]);
      PlaceNext(size, order, m, i, g, weights[..], index);
      shards[index] := shards[index] + [path];
      weights[index] := weights[index] + size(path);
    }
    assert order[..|order|] == order && g[..|order|] == g;
    r := shards[..];
  }

  /** Splits the files over the shards, largest file first, each shard listed by path. */
  method SplitTestFiles(size: string -> nat, files: seq<string>, shardCount: int)
    returns (r: Result<seq<seq<string>>, string>)
    ensures r.Err? <==> shardCount < 1
    ensures r.Ok? ==> r.value == Split(size, files, shardCount)
  {
    if shardCount < 1 {
      return Err("shard_count must be positive");
    }
    var shards := Balance(size, Sorted(HandOutOrder(size), files), shardCount);
    r := Ok(seq(shardCount, j requires 0 <= j < |shards| => Sorted(StringLess, shards[j])));
  }

  // ----- who gets what -----

  /** The first place where two strings differ decides by code point; a proper prefix comes first. */
  ghost predicate FirstDifferenceIsLess(a: string, b: string, k: nat) {
    && k <= |a| && k < |b| && (forall i :: 0 <= i < k ==> a[i] == b[i])
    && (k == |a| || a[k] < b[k])
  }

  lemma {:induction false} FirstDifferenceDecides(a: string, b: string, k: nat)
    requires FirstDifferenceIsLess(a, b, k)
    ensures StringLess(a, b)
  {
    if k > 0 {
      assert forall i :: 0 <= i < k - 1 ==> a[1..][i] == a[i + 1] && b[1..][i] == b[i + 1];
      FirstDifferenceDecides(a[1..], b[1..], k - 1);
    }
  }

  lemma {:induction false} FindFirstDifference(a: string, b: string) returns (k: nat)
    requires StringLess(a, b)
    ensures FirstDifferenceIsLess(a, b, k)
  {
    if a == "" || a[0] < b[0] {
      k := 0;
    } else {
      var n := FindFirstDifference(a[1..], b[1..]);
      k := n + 1;
      assert forall i :: 0 < i < k ==> a[i] == a[1..][i - 1] && b[i] == b[1..][i - 1];
    }
  }

  /** Larger files are handed out first, and files of one size in the order of their paths. */
  lemma LargestThenByPath(size: string -> nat, files: seq<string>, i: nat, j: nat, k: nat)
    requires i < j < |Sorted(HandOutOrder(size), files)|
    ensures var order := Sorted(HandOutOrder(size), files);
      && size(order[j]) <= size(order[i])
      && (size(order[i]) == size(order[j]) ==> !FirstDifferenceIsLess(order[j], order[i], k))
  {
    var order := Sorted(HandOutOrder(size), files);
    HandOutOrderIsTotal(size);
    SortedIsSorted(HandOutOrder(size), files);
    assert !HandOutOrder(size)(order[j], order[i]);
    if FirstDifferenceIsLess(order[j], order[i], k) { FirstDifferenceDecides(order[j], order[i], k); }
  }

  lemma {:induction false} MembersWereSent(files: seq<string>, f: seq<nat>, j: nat, path: string)
    requires |files| == |f|
    ensures path in Members(files, f, j) <==> exists i :: 0 <= i < |files| && files[i] == path && f[i] == j
  {
    if files != [] {
      var n := |files| - 1;
      MembersWereSent(files[..n], f[..n], j, path);
      if f[n] == j && files[n] == path { assert path in Members(files, f, j); }
    }
  }

  /** A shard holds exactly the files that were sent to it. */
  lemma ShardsHoldWhatWasSent(size: string -> nat, files: seq<string>, m: nat, j: nat, path: string)
    requires j < m
    ensures var order := Sorted(HandOutOrder(size), files);
      var g := Greedy(Sizes(size, order), m);
      |g| == |order|
      && (path in Split(size, files, m)[j] <==> exists i :: 0 <= i < |order| && order[i] == path && g[i] == j)
  {
    var order := Sorted(HandOutOrder(size), files);
    var members := Members(order, Greedy(Sizes(size, order), m), j);
    MembersWereSent(order, Greedy(Sizes(size, order), m), j, path);
    StringOrderIsTotal();
    SortedIsSorted(StringLess, members);
    assert path in Sorted(StringLess, members) <==> path in multiset(members);
  }

  /** Each file goes to the first of the shards that are lightest when its turn comes. */
  lemma EachGoesToTheFirstLightest(w: seq<nat>, m: nat, i: nat, j: nat)
    requires m > 0 && i < |w| && j < m
    ensures var g := Greedy(w, m);
      && Load(w[..i], g[..i], g[i]) <= Load(w[..i], g[..i], j)
      && (j < g[i] ==> Load(w[..i], g[..i], g[i]) < Load(w[..i], g[..i], j))
  {
    hide Load, Greedy;
    var g := Greedy(w, m);
    GreedyChoice(w, m, i);
    assert g[i] == g[..i + 1][i];
    var loads := Loads(w[..i], g[..i], m);
    assert loads[j] == Load(w[..i], g[..i], j) && loads[g[i]] == Load(w[..i], g[..i], g[i]);
  }

  // ----- the shards partition the files -----

  function Flatten(parts: seq<seq<string>>): seq<string> {
    if parts == [] then [] else Flatten(parts[..|parts| - 1]) + parts[|parts| - 1]
  }

  lemma {:induction false} FlattenOfRearranged(a: seq<seq<string>>, b: seq<seq<string>>)
    requires |a| == |b| && forall j :: 0 <= j < |a| ==> multiset(a[j]) == multiset(b[j])
    ensures multiset(Flatten(a)) == multiset(Flatten(b))
  {
    if a != [] {
      var n := |a| - 1;
      FlattenOfRearranged(a[..n], b[..n]);
      assert multiset(a[n]) == multiset(b[n]);
    }
  }

  lemma {:induction false} FlattenWithOneMore(a: seq<seq<string>>, b: seq<seq<string>>, j: nat, x: string)
    requires |a| == |b| && j < |a|
    requires forall k :: 0 <= k < |a| && k != j ==> a[k] == b[k]
    requires multiset(b[j]) == multiset(a[j]) + multiset{x}
    ensures multiset(Flatten(b)) == multiset(Flatten(a)) + multiset{x}
  {
    var n := |a| - 1;
    if j == n { assert a[..n] == b[..n]; } else { FlattenWithOneMore(a[..n], b[..n], j, x); }
  }

  lemma {:induction false} FlattenOfEmpty(parts: seq<seq<string>>)
    requires forall j :: 0 <= j < |parts| ==> parts[j] == []
    ensures Flatten(parts) == []
  {
    if parts != [] { FlattenOfEmpty(parts[..|parts| - 1]); }
  }

  lemma OneMoreFile(files: seq<string>, f: seq<nat>, m: nat, x: string, to: nat)
    requires |f| == |files| && to < m
    ensures multiset(Flatten(Shards(files + [x], f + [to], m))) == multiset(Flatten(Shards(files, f, m))) + multiset{x}
  {
    ShardsExtend(files, f, m, x, to);
    FlattenWithOneMore(Shards(files, f, m), Shards(files + [x], f + [to], m), to, x);
  }

  lemma NoFilesNoMembers(m: nat)
    ensures Flatten(Shards([], [], m)) == []
  {
    FlattenOfEmpty(Shards([], [], m));
  }

  lemma {:induction false} ShardsPartition(files: seq<string>, f: seq<nat>, m: nat)
    requires Assigns(f, |files|, m)
    ensures multiset(Flatten(Shards(files, f, m))) == multiset(files)
  {
    hide Shards, Flatten;
    if files == [] {
      NoFilesNoMembers(m);
      assert f == [];
    } else {
      var n := |files| - 1;
      var front, f' := files[..n], f[..n];
      ShardsPartition(front, f', m);
      OneMoreFile(front, f', m, files[n], f[n]);
      assert front + [files[n]] == files;
      assert f' + [f[n]] == f;
      assert multiset(front + [files[n]]) == multiset(front) + multiset{files[n]};
    }
  }

  /** Every file is in exactly one shard, as often as it was given; each shard is sorted by path. */
  lemma SplitPartitionsFiles(size: string -> nat, files: seq<string>, m: nat)
    requires m > 0
    ensures multiset(Flatten(Split(size, files, m))) == multiset(files)
    ensures forall j :: 0 <= j < m ==> SortedBy(StringLess, Split(size, files, m)[j])
  {
    var order := Sorted(HandOutOrder(size), files);
    var g := Greedy(Sizes(size, order), m);
    HandOutOrderIsTotal(size);
    StringOrderIsTotal();
    SortedIsSorted(HandOutOrder(size), files);
    ShardsPartition(order, g, m);
    forall j | 0 <= j < m
      ensures SortedBy(StringLess, Split(size, files, m)[j])
      ensures multiset(Split(size, files, m)[j]) == multiset(Shards(order, g, m)[j])
    {
      SortedIsSorted(StringLess, Members(order, g, j));
    }
    FlattenOfRearranged(Split(size, files, m), Shards(order, g, m));
  }

  /** The split does not depend on the order in which the files were discovered. */
  lemma SplitIgnoresInputOrder(size: string -> nat, a: seq<string>, b: seq<string>, m: nat)
    requires m > 0 && multiset(a) == multiset(b)
    ensures Split(size, a, m) == Split(size, b, m)
  {
    var less := HandOutOrder(size);
    HandOutOrderIsTotal(size);
    SortedIsSorted(less, a);
    SortedIsSorted(less, b);
    SortedListingIsUnique(less, Sorted(less, a), Sorted(less, b));
  }

  // ----- the bound against every other split -----

  lemma {:induction false} MembersWeight(size: string -> nat, files: seq<string>, f: seq<nat>, j: nat)
    requires |files| == |f|
    ensures ShardWeight(size, Members(files, f, j)) == Load(Sizes(size, files), f, j)
  {
    if files != [] {
      var n := |files| - 1;
      MembersWeight(size, files[..n], f[..n], j);
      assert Sizes(size, files)[..n] == Sizes(size, files[..n]);
      var r := Members(files[..n], f[..n], j);
      assert Sizes(size, r + [files[n]])[..|r|] == Sizes(size, r);
      assert r + [] == r;
    }
  }

  lemma {:induction false} WeightWithout(size: string -> nat, s: seq<string>, k: nat)
    requires k < |s|
    ensures ShardWeight(size, s) == ShardWeight(size, s[..k] + s[k + 1..]) + size(s[k])
    ensures multiset(s) == multiset(s[..k] + s[k + 1..]) + multiset{s[k]}
  {
    var n := |s| - 1;
    assert s == s[..k] + [s[k]] + s[k + 1..];
    assert Sizes(size, s)[..n] == Sizes(size, s[..n]);
    var r := s[..k] + s[k + 1..];
    if k == n {
      assert r == s[..n];
    } else {
      WeightWithout(size, s[..n], k);
      assert s[..n][..k] == s[..k] && s[..n][k + 1..] == s[k + 1..n];
      var r' := s[..k] + s[k + 1..n];
      assert r == r' + [s[n]];
      assert Sizes(size, r)[..|r'|] == Sizes(size, r');
    }
  }

  lemma RemoveBoth(a: seq<string>, b: seq<string>, a': seq<string>, b': seq<string>, x: string)
    requires multiset(a) == multiset(a') + multiset{x} && multiset(b) == multiset(b') + multiset{x}
    requires multiset(a) == multiset(b)
    ensures multiset(a') == multiset(b')
  {
    assert multiset(a') == multiset(a) - multiset{x};
    assert multiset(b') == multiset(b) - multiset{x};
  }

  lemma FindIn(s: seq<string>, x: string) returns (k: nat)
    requires x in multiset(s)
    ensures k < |s| && s[k] == x
  {
    assert x in s;
    k :| 0 <= k < |s| && s[k] == x;
  }

  lemma {:induction false} WeightOfRearranged(size: string -> nat, a: seq<string>, b: seq<string>)
    requires multiset(a) == multiset(b)
    ensures ShardWeight(size, a) == ShardWeight(size, b)
  {
    if a == [] {
      assert |multiset(b)| == |b|;
      assert b == [];
    } else {
      var x := a[|a| - 1];
      assert x in multiset(a);
      var k := FindIn(b, x);
      var a', b' := a[..|a| - 1] + a[|a|..], b[..k] + b[k + 1..];
      WeightWithout(size, b, k);
      WeightWithout(size, a, |a| - 1);
      RemoveBoth(a, b, a', b', x);
      WeightOfRearranged(size, a', b');
    }
  }

  lemma {:induction false} FindInParts(parts: seq<seq<string>>, x: string) returns (j: nat, k: nat)
    requires x in Flatten(parts)
    ensures j < |parts| && k < |parts[j]| && parts[j][k] == x
  {
    var n := |parts| - 1;
    if x in parts[n] {
      j := n;
      k :| 0 <= k < |parts[n]| && parts[n][k] == x;
    } else {
      j, k := FindInParts(parts[..n], x);
    }
  }

  lemma LoadOfLast(size: string -> nat, files: seq<string>, f: seq<nat>, to: nat, j: nat)
    requires files != [] && |f| == |files| - 1
    ensures Load(Sizes(size, files), f + [to], j)
         == Load(Sizes(size, files[..|files| - 1]), f, j) + if to == j then size(files[|files| - 1]) else 0
  {
    var n := |files| - 1;
    assert Sizes(size, files) == Sizes(size, files[..n]) + [size(files[n])];
    AppendLoad(Sizes(size, files[..n]), f, size(files[n]), to, j);
  }

  /** Any split of the files is an assignment of the listed files to shards with the same loads. */
  lemma {:induction false} SplitAsAssignment(size: string -> nat, files: seq<string>, parts: seq<seq<string>>)
    returns (f: seq<nat>)
    requires multiset(Flatten(parts)) == multiset(files)
    ensures Assigns(f, |files|, |parts|)
    ensures forall j :: 0 <= j < |parts| ==> Load(Sizes(size, files), f, j) == ShardWeight(size, parts[j])
  {
    if files == [] {
      f := [];
      assert |multiset(Flatten(parts))| == |Flatten(parts)|;
      PartsOfEmpty(parts);
    } else {
      var n := |files| - 1;
      assert files == files[..n] + [files[n]];
      assert files[n] in multiset(files);
      assert files[n] in multiset(Flatten(parts));
      var j, k := FindInParts(parts, files[n]);
      var less := parts[j := parts[j][..k] + parts[j][k + 1..]];
      WeightWithout(size, parts[j], k);
      FlattenWithOneMore(less, parts, j, files[n]);
      RemoveBoth(Flatten(parts), files, Flatten(less), files[..n], files[n]);
      var f' := SplitAsAssignment(size, files[..n], less);
      f := f' + [j];
      forall i: nat | i < |parts| { LoadOfLast(size, files, f', j, i); }
    }
  }

  lemma {:induction false} PartsOfEmpty(parts: seq<seq<string>>)
    requires Flatten(parts) == []
    ensures forall j :: 0 <= j < |parts| ==> parts[j] == []
  {
    if parts != [] { PartsOfEmpty(parts[..|parts| - 1]); }
  }

  lemma SplitWeights(size: string -> nat, files: seq<string>, m: nat, j: nat)
    requires m > 0 && j < m
    ensures var order := Sorted(HandOutOrder(size), files);
            ShardWeight(size, Split(size, files, m)[j])
            == Load(Sizes(size, order), Greedy(Sizes(size, order), m), j)
  {
    var order := Sorted(HandOutOrder(size), files);
    var g := Greedy(Sizes(size, order), m);
    StringOrderIsTotal();
    SortedIsSorted(StringLess, Members(order, g, j));
    WeightOfRearranged(size, Split(size, files, m)[j], Members(order, g, j));
    MembersWeight(size, order, g, j);
  }

  lemma OrderIsDescending(size: string -> nat, files: seq<string>)
    ensures Descending(Sizes(size, Sorted(HandOutOrder(size), files)))
  {
    HandOutOrderIsTotal(size);
    SortedIsSorted(HandOutOrder(size), files);
    var order := Sorted(HandOutOrder(size), files);
    forall i, j | 0 <= i < j < |order| ensures size(order[j]) <= size(order[i]) {
      assert !HandOutOrder(size)(order[j], order[i]);
    }
  }

  /** No shard exceeds (4/3 - 1/(3m)) times the heaviest shard of any m-way split of the same files. */
  lemma SplitIsNearOptimal(size: string -> nat, files: seq<string>, m: nat, j: nat,
                           other: seq<seq<string>>, heaviest: nat)
    requires m > 0 && j < m && |other| == m && multiset(Flatten(other)) == multiset(files)
    requires forall k :: 0 <= k < m ==> ShardWeight(size, other[k]) <= heaviest
    ensures 3 * m * ShardWeight(size, Split(size, files, m)[j]) <= (4 * m - 1) * heaviest
  {
    var order := Sorted(HandOutOrder(size), files);
    HandOutOrderIsTotal(size);
    SortedIsSorted(HandOutOrder(size), files);
    OrderIsDescending(size, files);
    var f := SplitAsAssignment(size, order, other);
    LongestFirstBound(Sizes(size, order), m, j, f, heaviest);
    SplitWeights(size, files, m, j);
  }
}
