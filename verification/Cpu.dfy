/** The CPU figure shown in the status: totals over all matching containers, in 64-bit integers. */
module Cpu {
  import opened PrestoTypes
  import opened Naming
  import opened Settings

  const CPU := "cpu"

  /** The CPU use is in thousandths, like the limit it is compared with. */
  datatype ContainerMetrics = ContainerMetrics(name: string, usage: map<string, int>)

  datatype PodMetrics = PodMetrics(containers: seq<ContainerMetrics>)

  // ---------------------------------------------------------------- 64-bit arithmetic

  const TWO_63 := 0x8000_0000_0000_0000
  const TWO_64 := 0x1_0000_0000_0000_0000

  function Wrap(x: int): int {
    (x + TWO_63) % TWO_64 - TWO_63
  }

  predicate Fits(x: int) {
    -TWO_63 <= x < TWO_63
  }

  lemma WrapAdd(x: int, y: int)
    ensures Wrap(Wrap(x) + y) == Wrap(x + y)
  {
    var q := (x + TWO_63) / TWO_64;
    assert Wrap(x) == x - q * TWO_64;
    WrapPeriod(x + y, -q);
  }

  lemma WrapPeriod(x: int, q: int)
    ensures Wrap(x + q * TWO_64) == Wrap(x)
  {
    var n, m := x + TWO_63, TWO_64;
    ModPeriod(n, q, m);
    assert x + q * m + TWO_63 == n + q * m;
  }

  lemma ModPeriod(n: int, q: int, m: int)
    requires m > 0
    ensures (n + q * m) % m == n % m
  {
    var d := n / m;
    assert n == d * m + n % m;
    assert n + q * m == (d + q) * m + n % m;
    DivisionIsUnique(n + q * m, m, d + q, n % m);
  }

  lemma DivisionIsUnique(n: int, m: int, d: int, r: int)
    requires m > 0 && n == d * m + r && 0 <= r < m
    ensures n / m == d && n % m == r
  {
    SameQuotient(m, d, r, n / m, n % m);
  }

  lemma SameQuotient(m: int, d: int, r: int, d': int, r': int)
    requires d * m + r == d' * m + r' && 0 <= r < m && 0 <= r' < m
    ensures d == d' && r == r'
  {
    if d > d' {
      AtLeastOnce(d - d', m);
    } else if d < d' {
      AtLeastOnce(d' - d, m);
    }
  }

  lemma AtLeastOnce(k: int, m: int)
    requires k >= 1 && m > 0
    ensures k * m >= m
  {
  }

  /** Go's signed division, for a non-zero divisor. */
  function GoDiv(a: int, b: int): int
    requires b != 0
  {
    Wrap(if b > 0 then TruncDiv(a, b) else -TruncDiv(a, -b))
  }

  // ---------------------------------------------------------------- the samples

  function OfContainer(c: ContainerMetrics, name: string): seq<int> {
    if c.name == name && CPU in c.usage then [c.usage[CPU]] else []
  }

  /** The samples of all elements, one after the other. */
  function Gather<T>(f: T -> seq<int>, xs: seq<T>): seq<int> {
    if xs == [] then [] else Gather(f, xs[..|xs| - 1]) + f(xs[|xs| - 1])
  }

  function ByContainer(name: string): ContainerMetrics -> seq<int> {
    c => OfContainer(c, name)
  }

  function ByPod(name: string): PodMetrics -> seq<int> {
    (p: PodMetrics) => Gather(ByContainer(name), p.containers)
  }

  /** The use of every container of that name, over all pods. */
  function Samples(pods: seq<PodMetrics>, name: string): seq<int> {
    Gather(ByPod(name), pods)
  }

  function Sum(s: seq<int>): int {
    if s == [] then 0 else Sum(s[..|s| - 1]) + s[|s| - 1]
  }

  /** The percentage as a function of the samples alone, wrap-around included. */
  function Usage(samples: seq<int>, allotted: int): int {
    var total := Wrap(|samples| * allotted);
    if total == 0 then 0 else GoDiv(Wrap(Wrap(Sum(samples)) * 100), total)
  }

  lemma SumOneMore(s: seq<int>, x: int)
    ensures Sum(s + [x]) == Sum(s) + x
  {
    assert (s + [x])[..|s|] == s;
  }

  lemma GatherOneMore<T>(f: T -> seq<int>, xs: seq<T>, i: nat)
    requires i < |xs|
    ensures Gather(f, xs[..i + 1]) == Gather(f, xs[..i]) + f(xs[i])
  {
    assert xs[..i + 1][..i] == xs[..i];
  }

  /** The running totals of getCPUUsage. */
  class Totals {
    var allotted: int
    var used: int

    constructor ()
      ensures allotted == 0 && used == 0
    {
      allotted, used := 0, 0;
    }

    ghost predicate Hold(samples: seq<int>, limit: int)
      reads this
    {
      allotted == Wrap(|samples| * limit) && used == Wrap(Sum(samples))
    }

    /** The innermost loop: a range over one container's usage map. */
    method AddContainer(c: ContainerMetrics, name: string, limit: int, ghost done: seq<int>)
      requires Hold(done, limit)
      modifies this
      ensures Hold(done + OfContainer(c, name), limit)
    {
      var rest := c.usage.Keys;
      ghost var now := done;
      while rest != {}
        invariant rest <= c.usage.Keys
        invariant now == if CPU in rest then done else done + OfContainer(c, name)
        invariant Hold(now, limit)
      {
        var k :| k in rest;
        if k == CPU && c.name == name {
          Step(now, limit, c.usage[k]);
          allotted := Wrap(allotted + limit);
          used := Wrap(used + c.usage[k]);
          now := now + [c.usage[k]];
        }
        rest := rest - {k};
      }
    }

    method AddContainers(cs: seq<ContainerMetrics>, name: string, limit: int, ghost done: seq<int>)
      requires Hold(done, limit)
      modifies this
      ensures Hold(done + Gather(ByContainer(name), cs), limit)
    {
      ghost var now := done;
      for i := 0 to |cs|
        invariant now == done + Gather(ByContainer(name), cs[..i]) && Hold(now, limit)
      {
        AddContainer(cs[i], name, limit, now);
        GatherOneMore(ByContainer(name), cs, i);
        now := now + OfContainer(cs[i], name);
      }
      assert cs[..|cs|] == cs;
    }

    method AddPods(pods: seq<PodMetrics>, name: string, limit: int)
      requires Hold([], limit)
      modifies this
      ensures Hold(Samples(pods, name), limit)
    {
      for i := 0 to |pods|
        invariant Hold(Samples(pods[..i], name), limit)
      {
        AddContainers(pods[i].containers, name, limit, Samples(pods[..i], name));
        GatherOneMore(ByPod(name), pods, i);
      }
      assert pods[..|pods|] == pods;
    }
  }

  lemma Step(done: seq<int>, limit: int, x: int)
    ensures Wrap(|done + [x]| * limit) == Wrap(Wrap(|done| * limit) + limit)
    ensures Wrap(Sum(done + [x])) == Wrap(Wrap(Sum(done)) + x)
  {
    SumOneMore(done, x);
    WrapAdd(|done| * limit, limit);
    WrapAdd(Sum(done), x);
    assert (|done| + 1) * limit == |done| * limit + limit;
  }

  function Allotted(limit: string, lib: Library): int {
    var q := lib.parse(limit);
    if q.Ok? then q.value.milli else 0
  }

  /** The loops of getCPUUsage, over the metrics listing it was given, if any. */
  method PercentOf(metrics: Option<seq<PodMetrics>>, name: string, limit: string, lib: Library) returns (percent: int)
    ensures metrics.None? ==> percent == 0
    ensures metrics.Some? ==> percent == Usage(Samples(metrics.value, name), Allotted(limit, lib))
  {
    if metrics.None? {
      return 0;
    }
    var totals := new Totals();
    totals.AddPods(metrics.value, name, Allotted(limit, lib));
    if totals.allotted == 0 {
      return 0;
    }
    percent := GoDiv(Wrap(totals.used * 100), totals.allotted);
  }

  /** getCPUUsage: which pods are listed, which container counts and what it is allotted depend on the role. */
  method CpuUsage(coordinator: bool, u: string, spec: PrestoSpec, list: Labels -> Option<seq<PodMetrics>>, lib: Library)
    returns (percent: int)
    requires Sliceable(u)
    ensures
      var metrics := list(if coordinator then map["coordinator" := u] else map["worker" := u]);
      if metrics.None? then percent == 0
      else if coordinator
      then percent == Usage(Samples(metrics.value, "coordinatorcontainer-" + u[..8]),
                            Allotted(spec.coordinator.cpuLimit, lib))
      else percent == Usage(Samples(metrics.value, "workerrcontainer-" + u[..8]),
                            Allotted(spec.worker.cpuLimit, lib))
  {
    hide Usage, Samples, Allotted;
    var labels, name, limit := map[WORKER_KEY := u], WorkerContainerName(u), spec.worker.cpuLimit;
    if coordinator {
      labels, name, limit := map[COORDINATOR_KEY := u], CoordinatorContainerName(u), spec.coordinator.cpuLimit;
    }
    percent := PercentOf(list(labels), name, limit, lib);
  }

  // ---------------------------------------------------------------- what the figure means

  lemma {:induction false} SumSplits(a: seq<int>, b: seq<int>)
    ensures Sum(a + b) == Sum(a) + Sum(b)
  {
    if b == [] {
      assert a + b == a;
    } else {
      assert (a + b)[..|a + b| - 1] == a + b[..|b| - 1];
      SumSplits(a, b[..|b| - 1]);
    }
  }

  lemma WithoutOne<T>(s: seq<T>, i: nat)
    requires i < |s|
    ensures s == s[..i] + [s[i]] + s[i + 1..]
    ensures multiset(s[..i] + s[i + 1..]) == multiset(s) - multiset{s[i]}
  {
    assert s == s[..i] + [s[i]] + s[i + 1..];
  }

  /** Two sequences of the same elements: one element of the first, and where it stands in the second. */
  lemma TakeOut<T>(a: seq<T>, b: seq<T>) returns (i: nat)
    requires multiset(a) == multiset(b) && a != []
    ensures i < |b| && b[i] == a[|a| - 1] && b == b[..i] + [b[i]] + b[i + 1..]
    ensures multiset(a[..|a| - 1]) == multiset(b[..i] + b[i + 1..])
  {
    var last := |a| - 1;
    WithoutOne(a, last);
    assert a[..last] + a[last + 1..] == a[..last];
    assert a[last] in multiset(b);
    i :| 0 <= i < |b| && b[i] == a[last];
    WithoutOne(b, i);
  }

  lemma {:induction false} SumOfSame(a: seq<int>, b: seq<int>)
    requires multiset(a) == multiset(b)
    ensures Sum(a) == Sum(b)
  {
    assert |a| == |multiset(a)| == |multiset(b)| == |b|;
    if a != [] {
      var i := TakeOut(a, b);
      SumOfSame(a[..|a| - 1], b[..i] + b[i + 1..]);
      SumSplits(b[..i] + [b[i]], b[i + 1..]);
      SumSplits(b[..i], b[i + 1..]);
      SumOneMore(b[..i], b[i]);
    }
  }

  lemma {:induction false} GatherSplits<T>(f: T -> seq<int>, a: seq<T>, b: seq<T>)
    ensures Gather(f, a + b) == Gather(f, a) + Gather(f, b)
  {
    if b == [] {
      assert a + b == a;
    } else {
      assert (a + b)[..|a + b| - 1] == a + b[..|b| - 1];
      GatherSplits(f, a, b[..|b| - 1]);
    }
  }

  lemma {:induction false} GatherOfSame<T>(f: T -> seq<int>, a: seq<T>, b: seq<T>)
    requires multiset(a) == multiset(b)
    ensures multiset(Gather(f, a)) == multiset(Gather(f, b))
  {
    assert |a| == |multiset(a)| == |multiset(b)| == |b|;
    if a != [] {
      var i := TakeOut(a, b);
      var left, x, right := b[..i], b[i], b[i + 1..];
      GatherOfSame(f, a[..|a| - 1], left + right);
      GatherSplits(f, left + [x], right);
      GatherSplits(f, left, right);
      GatherOneMore(f, left + [x], |left|);
      assert (left + [x])[..|left|] == left && (left + [x])[..|left| + 1] == left + [x];
      assert multiset(Gather(f, left) + f(x) + Gather(f, right))
          == multiset(Gather(f, left) + Gather(f, right)) + multiset(f(x));
    }
  }

  /** The same pods, each with the same containers, listed in some other order. */
  ghost predicate Shuffled(a: seq<PodMetrics>, b: seq<PodMetrics>) {
    exists c: seq<PodMetrics> :: multiset(a) == multiset(c) && |c| == |b|
      && forall i :: 0 <= i < |c| ==> multiset(c[i].containers) == multiset(b[i].containers)
  }

  lemma {:induction false} ContainersShuffled(a: seq<PodMetrics>, b: seq<PodMetrics>, name: string)
    requires |a| == |b| && forall i :: 0 <= i < |a| ==> multiset(a[i].containers) == multiset(b[i].containers)
    ensures multiset(Samples(a, name)) == multiset(Samples(b, name))
  {
    if a != [] {
      var n := |a| - 1;
      ContainersShuffled(a[..n], b[..n], name);
      GatherOfSame(ByContainer(name), a[n].containers, b[n].containers);
    }
  }

  /** The order of pods and containers does not matter, even when the totals wrap around. */
  lemma UsageIgnoresOrder(a: seq<PodMetrics>, b: seq<PodMetrics>, name: string, allotted: int)
    requires Shuffled(a, b)
    ensures Usage(Samples(a, name), allotted) == Usage(Samples(b, name), allotted)
  {
    hide Sum, Gather, GoDiv, Wrap;
    var c: seq<PodMetrics> :| multiset(a) == multiset(c) && |c| == |b|
      && forall i :: 0 <= i < |c| ==> multiset(c[i].containers) == multiset(b[i].containers);
    GatherOfSame(ByPod(name), a, c);
    ContainersShuffled(c, b, name);
    var s, t := Samples(a, name), Samples(b, name);
    SumOfSame(s, t);
    assert |s| == |multiset(s)| == |multiset(t)| == |t|;
  }

  lemma {:induction false} GatherEmptyIff<T>(f: T -> seq<int>, xs: seq<T>)
    ensures Gather(f, xs) == [] <==> forall i :: 0 <= i < |xs| ==> f(xs[i]) == []
  {
    if xs != [] {
      GatherEmptyIff(f, xs[..|xs| - 1]);
      assert forall i :: 0 <= i < |xs| - 1 ==> xs[..|xs| - 1][i] == xs[i];
    }
  }

  /** The metrics list no CPU figure of a container of the given name. */
  predicate Unmeasured(pods: seq<PodMetrics>, name: string) {
    forall i, j :: 0 <= i < |pods| && 0 <= j < |pods[i].containers| ==>
      pods[i].containers[j].name != name || CPU !in pods[i].containers[j].usage
  }

  lemma UnmeasuredIff(pods: seq<PodMetrics>, name: string)
    ensures Samples(pods, name) == [] <==> Unmeasured(pods, name)
  {
    GatherEmptyIff(ByPod(name), pods);
    forall i | 0 <= i < |pods|
      ensures ByPod(name)(pods[i]) == [] <==>
                forall j :: 0 <= j < |pods[i].containers| ==> OfContainer(pods[i].containers[j], name) == []
    {
      GatherEmptyIff(ByContainer(name), pods[i].containers);
    }
  }

  /** No container of that name measured, or a limit that is missing, malformed or 0: the figure is 0. */
  lemma UsageOfNothing(pods: seq<PodMetrics>, name: string, limit: string, lib: Library)
    requires Unmeasured(pods, name) || lib.parse(limit).Err? || lib.parse(limit).value.milli == 0
    ensures Usage(Samples(pods, name), Allotted(limit, lib)) == 0
  {
    UnmeasuredIff(pods, name);
  }

  /** The totals stay within 64 bits. */
  predicate NoOverflow(samples: seq<int>, allotted: int) {
    Fits(|samples| * allotted) && Fits(Sum(samples)) && Fits(Sum(samples) * 100)
  }

  function Share(used: int, allotted: int): int
    requires allotted > 0
  {
    used * 100 / allotted
  }

  lemma {:induction false} SumBounds(s: seq<int>, low: int, high: int)
    requires forall i :: 0 <= i < |s| ==> low <= s[i] <= high
    ensures |s| * low <= Sum(s) <= |s| * high
  {
    if s != [] {
      SumBounds(s[..|s| - 1], low, high);
      assert |s| * low == (|s| - 1) * low + low && |s| * high == (|s| - 1) * high + high;
    }
  }

  lemma DivMonotone(a: int, b: int, m: int)
    requires a <= b && m > 0
    ensures a / m <= b / m
  {
    if a / m > b / m {
      AtLeastOnce(a / m - b / m, m);
    }
  }

  lemma DivCancels(n: int, x: int, a: int)
    requires n > 0 && a > 0
    ensures n * a > 0 && (n * x) / (n * a) == x / a
  {
    var d, r := x / a, x % a;
    AtLeastOnce(n, a);
    assert n * x == d * (n * a) + n * r by {
      assert x == d * a + r;
    }
    Scaled(n, r, a);
    DivisionIsUnique(n * x, n * a, d, n * r);
  }

  lemma Scaled(n: int, r: int, a: int)
    requires n > 0 && 0 <= r < a
    ensures 0 <= n * r < n * a
  {
  }

  lemma Hundredfold(n: int, x: int, sum: int)
    ensures n * x <= sum ==> n * (x * 100) <= sum * 100
    ensures n * x >= sum ==> n * (x * 100) >= sum * 100
  {
    assert n * (x * 100) == (n * x) * 100;
  }

  /** Between the least and the greatest share of a single container. */
  lemma UsageBetween(samples: seq<int>, allotted: int, low: int, high: int)
    requires samples != [] && allotted > 0 && NoOverflow(samples, allotted)
    requires 0 <= low && forall i :: 0 <= i < |samples| ==> low <= samples[i] <= high
    ensures Share(low, allotted) <= Usage(samples, allotted) <= Share(high, allotted)
  {
    var n, sum := |samples|, Sum(samples);
    SumBounds(samples, low, high);
    DivCancels(n, low * 100, allotted);
    DivCancels(n, high * 100, allotted);
    Hundredfold(n, low, sum);
    Hundredfold(n, high, sum);
    DivMonotone(n * (low * 100), sum * 100, n * allotted);
    DivMonotone(sum * 100, n * (high * 100), n * allotted);
    UsageExact(samples, allotted);
  }

  lemma UsageExact(samples: seq<int>, allotted: int)
    requires samples != [] && allotted > 0 && NoOverflow(samples, allotted) && Sum(samples) >= 0
    ensures |samples| * allotted > 0 && Usage(samples, allotted) == Sum(samples) * 100 / (|samples| * allotted)
  {
    hide Wrap, Sum;
    AtLeastOnce(|samples|, allotted);
    var used, total := Sum(samples) * 100, |samples| * allotted;
    WrapFits(total);
    WrapFits(Sum(samples));
    WrapFits(used);
    QuotientBounds(used, total);
    WrapFits(used / total);
  }

  lemma WrapFits(x: int)
    requires Fits(x)
    ensures Wrap(x) == x
  {
  }

  lemma QuotientBounds(a: int, m: int)
    requires a >= 0 && m > 0
    ensures 0 <= a / m <= a
  {
    DivMonotone(0, a, m);
    if a > 0 && a / m > a {
      Scaled(m, a, a / m);
      AtLeastOnce(m, a);
    }
  }

  /** At most 100 when no container exceeds its limit. */
  lemma UsageAtMostFull(samples: seq<int>, allotted: int)
    requires allotted > 0 && NoOverflow(samples, allotted)
    requires forall i :: 0 <= i < |samples| ==> 0 <= samples[i] <= allotted
    ensures 0 <= Usage(samples, allotted) <= 100
  {
    if samples != [] {
      UsageBetween(samples, allotted, 0, allotted);
      DivCancels(allotted, 100, 1);
    }
  }
}
