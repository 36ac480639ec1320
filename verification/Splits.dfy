/** How the new samples of one class are divided into train, val and test. */
module Splits {

  datatype SplitPlan = SplitPlan(train: int, val: int, test: int, seed: int) {
    predicate Valid() {
      && 1 <= train <= 100 && 0 <= val <= 100 && 0 <= test <= 100
      && train + val + test == 100
    }
  }

  predicate Triple(c: seq<nat>) { |c| == 3 }

  function Weights(p: SplitPlan): (w: seq<nat>)
    requires p.Valid()
    ensures Triple(w)
  {
    [p.train, p.val, p.test]
  }

  function Floors(n: nat, p: SplitPlan): (f: seq<nat>)
    requires p.Valid()
    ensures Triple(f)
  {
    [n * p.train / 100, n * p.val / 100, n * p.test / 100]
  }

  function Rests(n: nat, p: SplitPlan): (r: seq<nat>)
    requires p.Valid()
    ensures Triple(r)
  {
    [n * p.train % 100, n * p.val % 100, n * p.test % 100]
  }

  /** `i` is served before `j`: larger remainder first, then the earlier split. */
  predicate Before(r: seq<nat>, i: nat, j: nat)
    requires Triple(r) && i < 3 && j < 3
  {
    r[i] > r[j] || (r[i] == r[j] && i < j)
  }

  /** `c` hands out `left` units above the floors `f`, never passing over a larger remainder. */
  predicate HandsOut(f: seq<nat>, r: seq<nat>, left: nat, c: seq<nat>)
    requires Triple(f) && Triple(r)
  {
    && Triple(c)
    && c[0] + c[1] + c[2] == f[0] + f[1] + f[2] + left
    && (forall i :: 0 <= i < 3 ==> c[i] == f[i] || c[i] == f[i] + 1)
    && (forall i, j :: 0 <= i < 3 && 0 <= j < 3 && c[i] == f[i] + 1 && c[j] == f[j] ==> Before(r, i, j))
  }

  /** The largest-remainder rule: floors, then the leftovers by decreasing remainder; nothing is lost. */
  ghost predicate LargestRemainder(n: nat, p: SplitPlan, c: seq<nat>)
    requires p.Valid()
  {
    exists left: nat :: left <= 2 && HandsOut(Floors(n, p), Rests(n, p), left, c) && c[0] + c[1] + c[2] == n
  }

  /** Train never stays empty: it takes one from val, or else from test. */
  function Repair(c: seq<nat>): (fixed: seq<nat>)
    requires Triple(c)
    ensures Triple(fixed) && fixed[0] + fixed[1] + fixed[2] == c[0] + c[1] + c[2]
    ensures c[0] + c[1] + c[2] > 0 ==> fixed[0] > 0
  {
    if c[0] > 0 || (c[1] == 0 && c[2] == 0) then c
    else if c[1] > 0 then [c[0] + 1, c[1] - 1, c[2]]
    else [c[0] + 1, c[1], c[2] - 1]
  }

  /** Floors plus remainders make up the whole, so at most two samples are left to hand out. */
  lemma Leftovers(n: nat, p: SplitPlan)
    requires p.Valid()
    ensures var f, r := Floors(n, p), Rests(n, p);
      0 <= n - f[0] - f[1] - f[2] <= 2 && 100 * (n - f[0] - f[1] - f[2]) == r[0] + r[1] + r[2]
  {
    Distributes(n, p.train, p.val, p.test);
    Parts(n * p.train, n * p.val, n * p.test, n);
  }

  lemma Distributes(n: nat, a: nat, b: nat, c: nat)
    requires a + b + c == 100
    ensures n * a + n * b + n * c == 100 * n
  {
    assert n * (a + b + c) == n * a + n * b + n * c;
  }

  lemma Parts(x: nat, y: nat, z: nat, n: nat)
    requires x + y + z == 100 * n
    ensures 0 <= n - x / 100 - y / 100 - z / 100 <= 2
    ensures 100 * (n - x / 100 - y / 100 - z / 100) == x % 100 + y % 100 + z % 100
  {
  }

  /** Stable order of the three splits by decreasing remainder. */
  function Order(r: seq<nat>): (order: seq<nat>)
    requires Triple(r)
    ensures Triple(order) && order[0] < 3 && order[1] < 3 && order[2] < 3
    ensures order[0] != order[1] && order[0] != order[2] && order[1] != order[2]
    ensures Before(r, order[0], order[1]) && Before(r, order[1], order[2])
  {
    if r[0] >= r[1] >= r[2] then [0, 1, 2]
    else if r[0] >= r[2] > r[1] then [0, 2, 1]
    else if r[1] > r[0] >= r[2] then [1, 0, 2]
    else if r[1] >= r[2] > r[0] then [1, 2, 0]
    else if r[2] > r[0] >= r[1] then [2, 0, 1]
    else [2, 1, 0]
  }

  /** Serving the first `left` places of the order is what the rule asks for. */
  lemma ServedInOrder(f: seq<nat>, r: seq<nat>, left: nat, c: seq<nat>)
    requires Triple(f) && Triple(r) && Triple(c) && left <= 2
    requires forall k :: 0 <= k < 3 ==> c[Order(r)[k]] == f[Order(r)[k]] + if k < left then 1 else 0
    ensures HandsOut(f, r, left, c)
  {
    var a, b, z := Order(r)[0], Order(r)[1], Order(r)[2];
    assert c[a] == f[a] + if 0 < left then 1 else 0;
    assert c[b] == f[b] + if 1 < left then 1 else 0;
    assert c[z] == f[z];
    assert Before(r, a, b) && Before(r, b, z) && Before(r, a, z);
  }

  /** The rule leaves no choice. */
  lemma HandsOutUnique(f: seq<nat>, r: seq<nat>, left: nat, c: seq<nat>, d: seq<nat>)
    requires Triple(f) && Triple(r) && left <= 2
    requires HandsOut(f, r, left, c) && HandsOut(f, r, left, d)
    ensures c == d
  {
    var a, b, z := Order(r)[0], Order(r)[1], Order(r)[2];
    assert Before(r, a, b) && Before(r, b, z) && Before(r, a, z);
    assert c[a] == d[a] && c[b] == d[b] && c[z] == d[z];
  }

  lemma LargestRemainderUnique(n: nat, p: SplitPlan, c: seq<nat>, d: seq<nat>)
    requires p.Valid() && LargestRemainder(n, p, c) && LargestRemainder(n, p, d)
    ensures c == d
  {
    var f, r := Floors(n, p), Rests(n, p);
    hide Floors, Rests;
    var left: nat :| left <= 2 && HandsOut(f, r, left, c) && c[0] + c[1] + c[2] == n;
    var other: nat :| other <= 2 && HandsOut(f, r, other, d) && d[0] + d[1] + d[2] == n;
    HandsOutUnique(f, r, left, c, d);
  }

  /** The apportionment as a function; `SplitLabels` computes it. */
  ghost function Apportion(n: nat, p: SplitPlan): (c: seq<nat>)
    requires p.Valid()
    ensures LargestRemainder(n, p, c) && Triple(c)
  {
    hide Floors, Rests;
    Leftovers(n, p);
    var f, r := Floors(n, p), Rests(n, p);
    ServeFirst(f, r, n - f[0] - f[1] - f[2])
  }

  ghost function ServeFirst(f: seq<nat>, r: seq<nat>, left: nat): (c: seq<nat>)
    requires Triple(f) && Triple(r) && left <= 2
    ensures HandsOut(f, r, left, c)
  {
    hide Order;
    var order := Order(r);
    var one := if left > 0 then f[order[0] := f[order[0]] + 1] else f;
    var c := if left > 1 then one[order[1] := one[order[1]] + 1] else one;
    ServedInOrder(f, r, left, c);
    c
  }

  ghost function Allocation(n: nat, p: SplitPlan): (c: seq<nat>)
    requires p.Valid()
    ensures Triple(c) && c[0] + c[1] + c[2] == n
  {
    Repair(Apportion(n, p))
  }

  method SplitLabels(n: nat, p: SplitPlan) returns (counts: seq<nat>)
    requires p.Valid()
    ensures counts == Allocation(n, p)
  {
    var weights := Weights(p);
    counts := [0, 0, 0];
    var left := n;
    for i := 0 to 3
      invariant Triple(counts) && 0 <= left
      invariant forall k :: 0 <= k < i ==> counts[k] == Floors(n, p)[k]
      invariant forall k :: i <= k < 3 ==> counts[k] == 0
      invariant left == n - counts[0] - counts[1] - counts[2]
    {
      Leftovers(n, p);
      counts := counts[i := n * weights[i] / 100];
      left := left - counts[i];
    }
    Leftovers(n, p);
    ghost var f := Floors(n, p);
    var r := [n * weights[0] % 100, n * weights[1] % 100, n * weights[2] % 100];
    var served := Serve(counts, r, left);
    assert HandsOut(f, r, left, served);
    LargestRemainderUnique(n, p, served, Apportion(n, p));
    counts := FirstToTrain(n, served);
  }

  /** The second loop of `SplitLabels`: one more for each of the first `left` places of the order. */
  method Serve(f: seq<nat>, r: seq<nat>, left: nat) returns (counts: seq<nat>)
    requires Triple(f) && Triple(r) && left <= 2
    ensures HandsOut(f, r, left, counts)
  {
    hide Order;
    var order := Order(r);
    counts := f;
    for i := 0 to left
      invariant Triple(counts)
      invariant forall k :: 0 <= k < i ==> counts[order[k]] == f[order[k]] + 1
      invariant forall k :: i <= k < 3 ==> counts[order[k]] == f[order[k]]
    {
      assert forall j, k :: 0 <= j < k < 3 ==> order[j] != order[k];
      counts := counts[order[i] := counts[order[i]] + 1];
    }
    ServedInOrder(f, r, left, counts);
  }

  /** The last loop of `SplitLabels`. */
  method FirstToTrain(n: nat, c: seq<nat>) returns (counts: seq<nat>)
    requires Triple(c) && c[0] + c[1] + c[2] == n
    ensures counts == Repair(c)
  {
    counts := c;
    if n > 0 && counts[0] == 0 {
      var i := 1;
      while i < 3 && counts[i] == 0
        invariant 1 <= i <= 3 && counts == c
        invariant i == 1 || c[1] == 0
        invariant i < 3 || c[2] == 0
      {
        i := i + 1;
      }
      counts := counts[i := counts[i] - 1];
      counts := counts[0 := counts[0] + 1];
    }
  }

  /** The quota of a split rounded up. */
  function Ceilings(n: nat, p: SplitPlan): (c: seq<nat>)
    requires p.Valid()
    ensures Triple(c)
  {
    var f, r := Floors(n, p), Rests(n, p);
    [f[0] + (if r[0] > 0 then 1 else 0), f[1] + (if r[1] > 0 then 1 else 0), f[2] + (if r[2] > 0 then 1 else 0)]
  }

  /** What the proofs below need of floors and remainders, without the products and quotients. */
  ghost predicate Shares(n: nat, f: seq<nat>, r: seq<nat>) {
    && Triple(f) && Triple(r)
    && (forall k :: 0 <= k < 3 ==> r[k] < 100)
    && 100 * (n - f[0] - f[1] - f[2]) == r[0] + r[1] + r[2]
    && (n > 0 ==> f[0] > 0 || r[0] > 0)
  }

  lemma PlanShares(n: nat, p: SplitPlan)
    requires p.Valid()
    ensures Shares(n, Floors(n, p), Rests(n, p))
  {
    Leftovers(n, p);
    if n > 0 { Positive(n, p.train); }
  }

  lemma Positive(n: nat, w: nat)
    requires n > 0 && w > 0
    ensures n * w / 100 > 0 || n * w % 100 > 0
  {
    assert n * w > 0;
    Divided(n * w);
  }

  lemma Divided(x: nat)
    ensures x == 100 * (x / 100) + x % 100
  {
  }

  /** A split without remainder is served only when everybody else is: there are always more remainders than units. */
  lemma NothingOwed(n: nat, f: seq<nat>, r: seq<nat>, left: nat, c: seq<nat>, i: nat)
    requires Shares(n, f, r) && left <= 2 && HandsOut(f, r, left, c) && c[0] + c[1] + c[2] == n
    requires i < 3 && r[i] == 0
    ensures c[i] == f[i]
  {
    var j, k := (i + 1) % 3, (i + 2) % 3;
    assert Before(r, i, j) <==> r[j] == 0 && i < j;
    assert Before(r, i, k) <==> r[k] == 0 && i < k;
    assert c[j] == f[j] || c[j] == f[j] + 1;
    assert c[k] == f[k] || c[k] == f[k] + 1;
  }

  /** Before the repair every count is the floor or the ceiling of its quota. */
  lemma ApportionIsRounding(n: nat, p: SplitPlan)
    requires p.Valid()
    ensures forall i :: 0 <= i < 3 ==> Floors(n, p)[i] <= Apportion(n, p)[i] <= Ceilings(n, p)[i]
  {
    PlanShares(n, p);
    var f, r, c := Floors(n, p), Rests(n, p), Apportion(n, p);
    var left: nat :| left <= 2 && HandsOut(f, r, left, c) && c[0] + c[1] + c[2] == n;
    hide Floors, Rests, Apportion;
    forall i | 0 <= i < 3 ensures f[i] <= c[i] <= Ceilings(n, p)[i] {
      assert c[i] == f[i] || c[i] == f[i] + 1;
      if r[i] == 0 { NothingOwed(n, f, r, left, c, i); }
    }
  }

  /** When the repair takes from val what its floor had promised. */
  predicate ValGives(n: nat, f: seq<nat>, r: seq<nat>)
    requires Triple(f) && Triple(r)
  {
    f[0] == 0 && f[1] >= 1 && n == f[0] + f[1] + f[2] + 1 && r[2] > r[1] && r[2] > r[0]
  }

  lemma RepairedShares(n: nat, f: seq<nat>, r: seq<nat>, left: nat, c: seq<nat>)
    requires Shares(n, f, r) && left <= 2 && HandsOut(f, r, left, c) && c[0] + c[1] + c[2] == n
    ensures Repair(c)[0] >= f[0] && Repair(c)[2] >= f[2] && Repair(c)[1] + 1 >= f[1]
    ensures Repair(c)[1] < f[1] <==> ValGives(n, f, r)
    ensures Repair(c)[0] <= c[0] || (c[0] == 0 && f[0] == 0 && (n > 0 ==> r[0] > 0) && Repair(c)[0] == 1)
    ensures Repair(c)[1] <= c[1] && Repair(c)[2] <= c[2]
  {
    forall i | 0 <= i < 3 && r[i] == 0 ensures c[i] == f[i] { NothingOwed(n, f, r, left, c, i); }
    assert forall i :: 0 <= i < 3 ==> c[i] == f[i] || c[i] == f[i] + 1;
    assert c[2] == f[2] + 1 && c[0] == f[0] ==> Before(r, 2, 0);
    assert c[2] == f[2] + 1 && c[1] == f[1] ==> Before(r, 2, 1);
    assert c[0] == f[0] + 1 && c[2] == f[2] ==> Before(r, 0, 2);
    assert c[1] == f[1] + 1 && c[2] == f[2] ==> Before(r, 1, 2);
  }

  /**
   * What a release relies on: nothing is lost, an unwanted split stays empty, train gets a sample, no count exceeds its
   * quota rounded up, train and test keep their floors, and val keeps its own except when it alone can feed train.
   */
  lemma AllocationIsSound(n: nat, p: SplitPlan)
    requires p.Valid()
    ensures var c, f, r := Allocation(n, p), Floors(n, p), Rests(n, p);
      && c[0] + c[1] + c[2] == n
      && (p.val == 0 ==> c[1] == 0) && (p.test == 0 ==> c[2] == 0)
      && (n > 0 ==> c[0] >= 1)
      && (forall i :: 0 <= i < 3 ==> c[i] <= Ceilings(n, p)[i])
      && c[0] >= f[0] && c[2] >= f[2] && c[1] + 1 >= f[1]
      && (c[1] < f[1] <==> f[0] == 0 && f[1] >= 1 && n == f[0] + f[1] + f[2] + 1 && r[2] > r[1] && r[2] > r[0])
  {
    PlanShares(n, p);
    ApportionIsRounding(n, p);
    ZeroWeights(n, p);
    var f, r, c := Floors(n, p), Rests(n, p), Apportion(n, p);
    var left: nat :| left <= 2 && HandsOut(f, r, left, c) && c[0] + c[1] + c[2] == n;
    hide Floors, Rests, Apportion, Repair, HandsOut;
    RepairedShares(n, f, r, left, c);
  }

  lemma ZeroWeights(n: nat, p: SplitPlan)
    requires p.Valid()
    ensures p.val == 0 ==> Ceilings(n, p)[1] == 0
    ensures p.test == 0 ==> Ceilings(n, p)[2] == 0
  {
  }

  /** Two samples at 1/50/49: val is due one by its floor, test gets the one left over, and train takes val's. */
  lemma ValCanLoseItsFloor()
    ensures var p := SplitPlan(1, 50, 49, 0);
      p.Valid() && Floors(2, p) == [0, 1, 0] && Allocation(2, p) == [1, 0, 1]
  {
    var p := SplitPlan(1, 50, 49, 0);
    assert Floors(2, p) == [0, 1, 0] && Rests(2, p) == [2, 0, 98];
    assert HandsOut(Floors(2, p), Rests(2, p), 1, [0, 1, 1]);
    LargestRemainderUnique(2, p, Apportion(2, p), [0, 1, 1]);
  }
}
