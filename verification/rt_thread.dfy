/** Thread-start helpers that both scheduler backends carry identical
    copies of: the clamp of a task's period to the base period, and the
    choice of the CPU a task's thread is pinned to. */
module RtThread {
  import opened Common

  /** Bits in a cpu_set_t. */
  const CPU_SETSIZE: nat := 1024

  /** The period a started task runs at: the request, raised to the base
      period when it is smaller. */
  function EffectivePeriod(requested: nat, base: nat): (p: nat)
    ensures p >= base && p >= requested
    ensures p == requested || p == base
  {
    if requested < base then base else requested
  }

  /** A request below the base period runs at the base period, ratio 1; a
      request of k base periods is kept, with ratio k. */
  lemma {:induction false} Quantization(requested: nat, base: nat, k: nat)
    requires base > 0
    ensures requested < base ==>
              EffectivePeriod(requested, base) == base && EffectivePeriod(requested, base) / base == 1
    ensures k >= 1 && requested == k * base ==>
              EffectivePeriod(requested, base) == requested && requested / base == k
  {
    if k >= 1 && requested == k * base {
      assert requested >= base by {
        assert k * base == (k - 1) * base + base;
      }
      DivExact(k, base);
    }
  }

  lemma DivExact(k: nat, base: nat)
    requires base > 0
    ensures (k * base) / base == k
  {
    var q := (k * base) / base;
    assert k * base == q * base + (k * base) % base;
    if q < k {
      MulStep(q, k, base);
    } else if q > k {
      MulStep(k, q, base);
    }
  }

  /** One more factor adds at least one whole `c`. */
  lemma {:induction false} MulStep(a: nat, b: nat, c: nat)
    requires a < b
    ensures a * c + c <= b * c
  {
    if a + 1 < b {
      MulStep(a, b - 1, c);
    }
    assert b * c == (b - 1) * c + c;
  }

  /** Whether the affinity step of a starting thread can pick a CPU: the
      requested one when it is in the process mask, else (no request) any. */
  predicate AffinityAvailable(cpu: int, mask: seq<bool>) {
    if cpu > -1 then cpu < |mask| && mask[cpu]
    else exists j :: 0 <= j < |mask| && mask[j]
  }

  /** The default-CPU loop of realtime_set_affinity: scan the mask downwards
      from the last CPU and take the first one present. */
  method LastCpu(mask: seq<bool>) returns (cpu: int)
    requires |mask| == CPU_SETSIZE
    ensures -1 <= cpu < |mask|
    ensures cpu >= 0 ==> mask[cpu] && forall j :: cpu < j < |mask| ==> !mask[j]
    ensures cpu == -1 <==> forall j :: 0 <= j < |mask| ==> !mask[j]
  {
    cpu := -1;
    var n := CPU_SETSIZE - 1;
    while n >= 0
      invariant -1 <= n < |mask|
      invariant forall j :: n < j < |mask| ==> !mask[j]
    {
      if mask[n] {
        cpu := n;
        return;
      }
      n := n - 1;
    }
  }

  /** realtime_set_affinity: pin the thread to its requested CPU, or to the
      highest-numbered CPU of the process mask when none was requested.
      `setOk` is the outcome of pthread_setaffinity_np. Returns 0 or -EINVAL,
      and the CPU chosen. */
  method SetAffinity(cpu: int, mask: seq<bool>, setOk: bool) returns (r: int, useCpu: int)
    requires |mask| == CPU_SETSIZE
    ensures r == 0 || r == -EINVAL
    ensures r == 0 <==> setOk && AffinityAvailable(cpu, mask)
    ensures r == 0 ==> 0 <= useCpu < |mask| && mask[useCpu]
    ensures r == 0 && cpu > -1 ==> useCpu == cpu
    ensures r == 0 && cpu <= -1 ==> forall j :: useCpu < j < |mask| ==> !mask[j]
  {
    if cpu > -1 {
      if !(cpu < |mask| && mask[cpu]) {
        return -EINVAL, -1;
      }
      useCpu := cpu;
    } else {
      useCpu := LastCpu(mask);
      if useCpu < 0 {
        return -EINVAL, useCpu;
      }
    }
    r := if setOk then 0 else -EINVAL;
  }
}
