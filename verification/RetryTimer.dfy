/** The waiting loop of a call: deadlines, doubling, and the clock it runs against. */
module RetryTimer {
  const BILLION := 1_000_000_000
  const MILLION := 1_000_000
  const DOUBLING_MAX := 2_097_151_000
  const TO_MIN := 1000

  datatype Timespec = Timespec(sec: int, nsec: int)

  function Total(t: Timespec): int {
    t.sec * BILLION + t.nsec
  }

  predicate Normal(t: Timespec) {
    0 <= t.nsec < BILLION
  }

  function CmpTimespec(a: Timespec, b: Timespec): int {
    if a.sec > b.sec then 1
    else if a.sec < b.sec then -1
    else if a.nsec > b.nsec then 1
    else if a.nsec < b.nsec then -1
    else 0
  }

  /** The comparison agrees with real time up to equality, even for a tv_nsec of exactly 10^9. */
  lemma CmpSound(a: Timespec, b: Timespec)
    requires 0 <= a.nsec <= BILLION && 0 <= b.nsec <= BILLION
    ensures CmpTimespec(a, b) > 0 ==> Total(a) >= Total(b)
    ensures CmpTimespec(a, b) <= 0 ==> Total(a) <= Total(b)
    ensures Normal(a) && Normal(b) ==> (CmpTimespec(a, b) > 0 <==> Total(a) > Total(b))
  {
    if a.sec > b.sec {
      assert (a.sec - b.sec) * BILLION >= BILLION;
    } else if a.sec < b.sec {
      assert (b.sec - a.sec) * BILLION >= BILLION;
    }
  }

  /**
   Adding b milliseconds keeps total time. The loop normalises with `>`, so the result
   is normal unless the sum of the nanoseconds is exactly 10^9.
   */
  method AddTimespec(a: Timespec, b: nat) returns (r: Timespec)
    requires Normal(a)
    ensures Total(r) == Total(a) + b * MILLION
    ensures r.sec >= a.sec && 0 <= r.nsec <= BILLION
    ensures Normal(r) <==> a.nsec + b % 1000 * MILLION != BILLION
  {
    var sum := a.nsec + b % 1000 * MILLION;
    var sec, nsec := a.sec + b / 1000, sum;
    assert b == b / 1000 * 1000 + b % 1000;
    while nsec > BILLION
      invariant sec * BILLION + nsec == Total(a) + b * MILLION
      invariant sec >= a.sec && 0 <= nsec
      invariant nsec == sum || (sum > BILLION && nsec == sum - BILLION)
    {
      sec := sec + 1;
      nsec := nsec - BILLION;
    }
    r := Timespec(sec, nsec);
  }

  /** One wait: the time read before it, and its deadline, both in nanoseconds. */
  datatype Wait = Wait(since: int, until: int)

  /**
   The environment: a clock that only moves forward, and a reply that comes when it comes, and stays.
   `lastRead` and `waits` are history.
   */
  class Clock {
    var now: nat
    var answered: bool
    ghost var lastRead: nat
    ghost var waits: seq<Wait>

    constructor (now: nat)
      ensures this.now == now && !answered && waits == []
    {
      this.now, answered, lastRead, waits := now, false, now, [];
    }

    method Read() returns (t: Timespec)
      modifies this
      ensures now >= old(now) && Total(t) == now && Normal(t)
      ensures lastRead == now && waits == old(waits) && answered == old(answered)
    {
      var passed: int := *;
      now := if passed > 0 then now + passed else now;
      lastRead := now;
      t := Timespec(now / BILLION, now % BILLION);
    }

    /**
     Wait until the call is answered or the deadline has passed. A deadline that is not
     normal is refused by the operating system, so that wait can only end with an answer.
     */
    method TimedWait(deadline: Timespec) returns (done: bool)
      modifies this
      ensures now >= old(now) && lastRead == old(lastRead)
      ensures waits == old(waits) + [Wait(lastRead, Total(deadline))]
      ensures done == answered && (old(answered) ==> answered)
      ensures !done ==> now >= Total(deadline) && Normal(deadline)
    {
      var passed: int := *;
      now := if passed > 0 then now + passed else now;
      var comes := *;
      answered := answered || comes || now < Total(deadline) || !Normal(deadline);
      waits := waits + [Wait(lastRead, Total(deadline))];
      done := answered;
    }
  }

  function Pow2(n: nat): (p: nat)
    ensures p >= 1
  {
    if n == 0 then 1 else 2 * Pow2(n - 1)
  }

  lemma {:induction false} Pow2Monotone(m: nat, n: nat)
    requires m <= n
    ensures Pow2(m) <= Pow2(n)
    decreases n
  {
    if m < n {
      Pow2Monotone(m, n - 1);
    }
  }

  lemma Pow2Values()
    ensures Pow2(20) == 1_048_576 && Pow2(21) == 2_097_152 && Pow2(22) == 4_194_304
  {
    assert Pow2(5) == 32;
    assert Pow2(10) == 1024;
    assert Pow2(15) == 32_768;
  }

  lemma Pow2Below(waits: nat, n: nat, limit: nat)
    requires Pow2(waits) < limit && limit == Pow2(n + 1)
    ensures Pow2(waits) <= Pow2(n)
  {
    if waits > n {
      Pow2Monotone(n + 1, waits);
    } else {
      Pow2Monotone(waits, n);
    }
  }

  lemma UsedFits(waits: nat, to: nat)
    requires 1000 * Pow2(waits) <= to + 1000 && to < 0x8000_0000
    ensures 1000 * Pow2(waits) < 0x8000_0000
  {
    Pow2Values();
    Pow2Below(waits, 21, 4_194_304);
  }

  /** At most 20 doublings of 1000 fit a timeout below 2^21 - 1 seconds. */
  lemma WaitsBelow(waits: nat, to: nat)
    requires 1000 * Pow2(waits) <= to + 1000 && to < DOUBLING_MAX
    ensures 2000 * Pow2(waits) < 0x8000_0000
  {
    Pow2Values();
    Pow2Below(waits, 20, 2_097_152);
  }

  /** The k-th wait is a full one: 1000 * 2^k milliseconds from the reading before it, within the final deadline. */
  ghost predicate FullWait(w: Wait, k: nat, end: int) {
    w.until == w.since + 1000 * Pow2(k) * MILLION <= end
  }

  ghost predicate FullWaits(ws: seq<Wait>, end: int) {
    ws == [] || (FullWaits(ws[..|ws| - 1], end) && FullWait(ws[|ws| - 1], |ws| - 1, end))
  }

  lemma FullWaitsSnoc(ws: seq<Wait>, w: Wait, end: int)
    requires FullWaits(ws, end) && FullWait(w, |ws|, end)
    ensures FullWaits(ws + [w], end)
  {
    assert (ws + [w])[..|ws|] == ws;
  }

  /** The final wait: the next full one would go beyond the final deadline, so it is cut there. */
  ghost predicate FinalWait(w: Wait, k: nat, end: int) {
    w.until == end <= w.since + 1000 * Pow2(k) * MILLION
  }

  /**
   The loop of a call with timeout `to`, any nonnegative `int`. It is done exactly if the reply has come. Each
   wait but the last is a full one, twice as long as the one before; the last is full or ends at the final deadline,
   and without a reply it is the final one. `waits` counts the waits before the last one: there are at most
   log2(to / 1000 + 1) of them. No timeout that is used overflows; the value left after the last doubling does
   not either, below 2^21 - 1 seconds. Giving up means the final deadline has passed.
   */
  method AwaitReply(clock: Clock, to: nat)
    returns (done: bool, waits: nat, curr: int, ghost end: int, ghost full: seq<Wait>, ghost last: Wait)
    requires clock.now >= BILLION && to < 0x8000_0000
    modifies clock
    ensures done == clock.answered
    ensures old(clock.now) + to * MILLION <= end <= clock.now + to * MILLION
    ensures !done ==> clock.now >= end
    ensures clock.waits == old(clock.waits) + full + [last]
    ensures |full| == waits && FullWaits(full, end)
    ensures (done && FullWait(last, waits, end)) || FinalWait(last, waits, end)
    ensures 1000 * Pow2(waits) <= to + 1000
    ensures TO_MIN <= curr && (to < DOUBLING_MAX ==> curr < 0x8000_0000)
  {
    ghost var before := clock.waits;
    full, last := [], Wait(0, 0);
    var now := clock.Read();
    var final := AddTimespec(now, to);
    ghost var start := clock.now;
    end := Total(final);
    assert final.sec > 0;
    curr, waits, done := TO_MIN, 0, false;
    while true
      invariant clock.now >= start >= old(clock.now) && end == start + to * MILLION
      invariant 1000 * Pow2(waits) <= to + 1000
      invariant 0 <= final.nsec <= BILLION
      invariant final.sec != 0 ==> Total(final) == end && curr == 1000 * Pow2(waits)
      invariant final.sec != 0 ==> clock.now >= start + (curr - 1000) * MILLION
      invariant final.sec == 0 ==> clock.now >= end && curr == 2000 * Pow2(waits)
      invariant !done && TO_MIN <= curr && (to < DOUBLING_MAX ==> curr < 0x8000_0000)
      invariant clock.waits == before + full + (if final.sec == 0 then [last] else [])
      invariant |full| == waits && FullWaits(full, end)
      invariant final.sec == 0 ==> FinalWait(last, waits, end) && !clock.answered
      decreases final.sec != 0, to + 1000 - curr
    {
      if final.sec == 0 {
        break;
      }
      assert curr <= to + 1000;
      UsedFits(waits, to);
      assert curr < 0x8000_0000;  // every timeout that is used fits an int
      now := clock.Read();
      var next := AddTimespec(now, curr);
      CmpSound(next, final);
      var isLast := CmpTimespec(next, final) > 0;
      if isLast {
        next := final;
        final := final.(sec := 0);
      }
      last := Wait(clock.lastRead, Total(next));
      assert isLast ==> FinalWait(last, waits, end);
      assert !isLast ==> FullWait(last, waits, end);
      done := clock.TimedWait(next);
      if done {
        break;
      }
      if !isLast {
        FullWaitsSnoc(full, last, end);
        full := full + [last];
        waits := waits + 1;
      }
      if to < DOUBLING_MAX {
        WaitsBelow(waits, to);
      }
      curr := curr * 2;
    }
  }
}
