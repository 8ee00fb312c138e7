/** Time arithmetic shared by both scheduler backends: the `struct timespec`
    used for absolute deadlines, the loop that advances a deadline by a number
    of nanoseconds, and the lateness test of the periodic wait. */
module RtTime {

  const NSEC_PER_SEC: nat := 1_000_000_000

  /** A `struct timespec` with non-negative fields. The nanosecond field is
      not bounded by the type: AdvanceTime can leave it at NSEC_PER_SEC. */
  datatype TimeSpec = TimeSpec(sec: nat, nsec: nat)

  /** The instant a timespec denotes, in nanoseconds. */
  function TotalNs(t: TimeSpec): nat {
    t.sec * 1_000_000_000 + t.nsec
  }

  /** A timespec as POSIX clocks accept it: tv_nsec below one second. */
  predicate Normalized(t: TimeSpec) {
    t.nsec < NSEC_PER_SEC
  }

  /** The miss test of the wait primitive: `now` is after `deadline` in the
      lexicographic order of (tv_sec, tv_nsec). */
  predicate IsLate(now: TimeSpec, deadline: TimeSpec) {
    now.sec > deadline.sec || (now.sec == deadline.sec && now.nsec > deadline.nsec)
  }

  /** For normalised timespecs the lexicographic miss test is exactly
      "later in time". */
  lemma LateIffLater(now: TimeSpec, deadline: TimeSpec)
    requires Normalized(now) && Normalized(deadline)
    ensures IsLate(now, deadline) <==> TotalNs(now) > TotalNs(deadline)
  {
    if now.sec > deadline.sec {
      SecondsDominate(deadline.sec, now.sec);
    } else if now.sec < deadline.sec {
      SecondsDominate(now.sec, deadline.sec);
    }
  }

  lemma SecondsDominate(a: nat, b: nat)
    requires a < b
    ensures a * 1_000_000_000 + 1_000_000_000 <= b * 1_000_000_000
  {
    var d := b - a;
    assert b * 1_000_000_000 == a * 1_000_000_000 + d * 1_000_000_000;
  }

  /** rtapi_advance_time / _rtapi_advance_time: add `ns` nanoseconds and `s`
      seconds to `tv`, carrying whole seconds out of the nanosecond field
      while it is strictly greater than one second. The C writes the result
      back through the pointer; here the caller stores `r`. */
  method AdvanceTime(tv: TimeSpec, ns: nat, s: nat) returns (r: TimeSpec)
    ensures TotalNs(r) == TotalNs(tv) + ns + s * NSEC_PER_SEC
    ensures r.nsec <= NSEC_PER_SEC
    ensures tv.nsec + ns <= NSEC_PER_SEC ==> r == TimeSpec(tv.sec + s, tv.nsec + ns)
    ensures tv.nsec + ns > NSEC_PER_SEC ==> r.nsec > 0
  {
    var n: nat := ns + tv.nsec;
    var sec := s;
    while n > NSEC_PER_SEC
      invariant n + sec * NSEC_PER_SEC == ns + tv.nsec + s * NSEC_PER_SEC
      invariant sec >= s
      invariant ns + tv.nsec > NSEC_PER_SEC ==> n > 0
      invariant ns + tv.nsec <= NSEC_PER_SEC ==> n == ns + tv.nsec && sec == s
    {
      sec := sec + 1;
      n := n - NSEC_PER_SEC;
    }
    r := TimeSpec(tv.sec + sec, n);
  }

  /** What AdvanceTime leaves for an advance of `ns` nanoseconds: the instant
      of `tv` plus `ns`; without a carry the fields simply added; after a
      carry a nanosecond field in (0, NSEC_PER_SEC]. AdvancedUnique shows
      that these clauses fix the result. */
  ghost predicate Advanced(tv: TimeSpec, ns: nat, r: TimeSpec) {
    && TotalNs(r) == TotalNs(tv) + ns
    && r.nsec <= NSEC_PER_SEC
    && (tv.nsec + ns <= NSEC_PER_SEC ==> r == TimeSpec(tv.sec, tv.nsec + ns))
    && (tv.nsec + ns > NSEC_PER_SEC ==> r.nsec > 0)
  }

  /** At most one timespec is the as-written advance of `tv` by `ns`: after
      a carry the nanosecond field lies in (0, NSEC_PER_SEC], so the
      instant fixes the seconds. */
  lemma AdvancedUnique(tv: TimeSpec, ns: nat, r1: TimeSpec, r2: TimeSpec)
    requires Advanced(tv, ns, r1) && Advanced(tv, ns, r2)
    ensures r1 == r2
  {
  }

  /** The loop test `>` lets the nanosecond field end at exactly one second,
      a timespec that clock_nanosleep rejects with EINVAL. */
  method AdvanceTimeLeavesFullSecond() returns (r: TimeSpec)
    ensures r == TimeSpec(0, NSEC_PER_SEC) && !Normalized(r)
  {
    r := AdvanceTime(TimeSpec(0, 0), NSEC_PER_SEC, 0);
  }

  /** The unnormalised deadline (0 s, 1e9 ns) is the same instant as (1 s, 0 ns),
      yet the miss test judges a wake-up at (1 s, 0 ns) late. */
  lemma FullSecondDeadlineMisjudged()
    ensures TotalNs(TimeSpec(1, 0)) == TotalNs(TimeSpec(0, NSEC_PER_SEC))
    ensures IsLate(TimeSpec(1, 0), TimeSpec(0, NSEC_PER_SEC))
  {
  }

  /** The evidently intended carry loop, testing `>=`: the same instant, and a
      normalised result whenever the input is normalised. */
  method AdvanceTimeNormalized(tv: TimeSpec, ns: nat, s: nat) returns (r: TimeSpec)
    ensures TotalNs(r) == TotalNs(tv) + ns + s * NSEC_PER_SEC
    ensures Normalized(r)
    ensures r.sec >= tv.sec + s
  {
    var n: nat := ns + tv.nsec;
    var sec := s;
    while n >= NSEC_PER_SEC
      invariant n + sec * NSEC_PER_SEC == ns + tv.nsec + s * NSEC_PER_SEC
      invariant sec >= s
    {
      sec := sec + 1;
      n := n - NSEC_PER_SEC;
    }
    r := TimeSpec(tv.sec + sec, n);
  }
}
