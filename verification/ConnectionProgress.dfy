/** What each step of a connection brings about, what is delivered, and runs in which everything gets through. */
module ConnectionProgress {
  import opened Wire
  import opened RpcMessages
  import opened Connection
  import opened ConnectionRuns

  // ---- What is delivered ----

  /** Frames are those of the buffers given; a send that owns the slot, or returned true, has its buffer among them. */
  predicate GivenOk(s: System) {
    && |s.given| == |s.started|
    && (forall k :: 0 <= k < |s.given| ==> Pdu(s.given[k]) && s.started[k] == Frame(s.given[k]))
    && (forall t :: t in s.threads && Owner(s.threads[t]) ==>
          s.threads[t].frame < |s.given| && s.given[s.threads[t].frame] == s.threads[t].b)
    && (forall i :: 0 <= i < |s.acked| ==> s.acked[i].frame < |s.given| && s.given[s.acked[i].frame] == s.acked[i].b)
  }

  lemma MovedGiven(s: System, tid: nat, b: Bytes, frame: nat, p: Progress)
    requires GivenOk(s) && Pdu(b)
    requires p.Removing? || p.WaitDone? || (p.Returned? && p.ok) ==> frame < |s.given| && s.given[frame] == b
    ensures GivenOk(Moved(s, tid, b, frame, p))
  {
  }

  lemma WithFrameGiven(s: System, c: Conn, b: Bytes, bytes: Bytes)
    requires GivenOk(s) && Pdu(b)
    ensures GivenOk(WithFrame(s, c, b, bytes))
  {
  }

  lemma TookGiven(s: System, tid: nat, b: Bytes, after: (Conn, Progress, Bytes))
    requires GivenOk(s) && Pdu(b)
    requires s.out.dead ==> after.1.Returned? && !after.1.ok
    ensures GivenOk(Took(s, tid, b, after))
  {
    if s.out.dead || after.1.WaitSlot? {
      MovedGiven(s.(out := after.0), tid, b, |s.started|, after.1);
    } else {
      WithFrameGiven(s, after.0, b, after.2);
      MovedGiven(WithFrame(s, after.0, b, after.2), tid, b, |s.started|, after.1);
    }
  }

  lemma GivenStep(s: System, step: Step)
    requires GivenOk(s) && Enabled(s, step)
    ensures GivenOk(Next(s, step))
  {
    match step
    case Enter(tid, b, res) => TookGiven(s, tid, b, AfterEnter(s.out, b, res));
    case SlotWake(tid, res) => TookGiven(s, tid, s.threads[tid].b, AfterSlotWake(s.out, s.threads[tid].b, res));
    case Removed(tid) => OwnerGiven(s, tid, AfterFinish(s.out));
    case DoneWake(tid) => OwnerGiven(s, tid, AfterDoneWake(s.out));
    case SpuriousWake(tid) =>
    case CanWrite(res) =>
    case Dies =>
    case ReaderDies =>
    case CanRead(head, body, accept) =>
  }

  lemma OwnerGiven(s: System, tid: nat, after: (Conn, Progress))
    requires GivenOk(s) && tid in s.threads && Owner(s.threads[tid])
    ensures GivenOk(Moved(s.(out := after.0), tid, s.threads[tid].b, s.threads[tid].frame, after.1))
  {
    var frame := s.threads[tid].frame;
    assert Pdu(s.given[frame]);
    MovedGiven(s.(out := after.0), tid, s.threads[tid].b, frame, after.1);
  }

  lemma {:induction false} LeadsGiven(s: System, steps: seq<Step>, t: System)
    requires GivenOk(s) && Leads(s, steps, t)
    ensures GivenOk(t)
    decreases |steps|
  {
    if steps != [] {
      GivenStep(s, steps[0]);
      LeadsGiven(Next(s, steps[0]), steps[1..], t);
    }
  }

  /** The k-th PDU taken is the k-th buffer that got the slot: its length in front, and behind it the bytes given. */
  lemma DeliveredAsGiven(init: System, steps: seq<Step>, s: System, k: nat)
    requires Init(init) && Leads(init, steps, s) && k < |s.taken|
    ensures |s.taken| <= |s.given|
    ensures var p, b := s.taken[k], s.given[k];
            |p| == |b| > 4 && p[4..] == b[4..] && FromBe32(p[0], p[1], p[2], p[3]) == |b|
  {
    LeadsGiven(init, steps, s);
    TakenIsPrefix(init, steps, s);
    FrameCarries(s.given[k]);
  }

  /** The frame of a send that returned true carries the buffer of that send. */
  lemma TrueMeansGiven(init: System, steps: seq<Step>, s: System, i: nat)
    requires Init(init) && Leads(init, steps, s) && i < |s.acked|
    ensures s.acked[i].frame < |s.given| == |s.started|
    ensures var f, b := s.started[s.acked[i].frame], s.acked[i].b;
            s.given[s.acked[i].frame] == b && |f| == |b| > 4 && f[4..] == b[4..]
  {
    LeadsGiven(init, steps, s);
    FrameCarries(s.given[s.acked[i].frame]);
  }

  // ---- How a send goes on ----

  /** The thread is where a send waits, with its own buffer. */
  predicate At(s: System, tid: nat, b: Bytes, at: Progress) {
    tid in s.threads && s.threads[tid].b == b && s.threads[tid].at == at
  }

  /** The send has returned: true puts it on record. */
  predicate Left(s: System, t: System, tid: nat, b: Bytes, frame: nat, ok: bool) {
    tid !in t.threads && t.acked == if ok then s.acked + [Ack(b, frame)] else s.acked
  }

  /** A send that takes the free slot of a live connection, by what the first write does. */
  predicate TookSlot(s: System, t: System, tid: nat, b: Bytes, res: WriteResult) {
    && t.given == s.given + [b]
    && match res
       case Wrote(n) =>
         && t.tail == n && |t.wire| == |s.wire| + n && !t.out.dead
         && if n == |b| then Left(s, t, tid, b, |s.started|, true) else At(t, tid, b, WaitDone) && t.acked == s.acked
       case WouldBlock =>
         t.tail == 0 && t.wire == s.wire && !t.out.dead && At(t, tid, b, WaitDone) && t.acked == s.acked
       case WriteError =>
         t.tail == 0 && t.wire == s.wire && t.out.dead && At(t, tid, b, Removing) && t.acked == s.acked
  }

  /** Entering, or waking for the slot: false on a dead connection, a wait on a busy slot, else the slot. */
  predicate SlotOutcome(s: System, t: System, tid: nat, b: Bytes, res: WriteResult) {
    if s.out.dead then Left(s, t, tid, b, 0, false) && t.wire == s.wire && t.given == s.given
    else if s.out.wpdu.buf.Some? then
      At(t, tid, b, WaitSlot) && t.acked == s.acked && t.wire == s.wire && t.given == s.given && tid in t.asleep
    else TookSlot(s, t, tid, b, res)
  }

  lemma TakeOutcome(s: System, tid: nat, b: Bytes, c: Conn, res: WriteResult)
    requires Pdu(b) && (res.Wrote? ==> res.n <= |b|)
    requires c == s.out.(waiters := c.waiters) && (c.dead || c.wpdu.buf.None?)
    ensures SlotOutcome(s, Took(s, tid, b, AfterTake(c, b, res)), tid, b, res)
  {
  }

  lemma EnterOutcome(s: System, tid: nat, b: Bytes, res: WriteResult)
    requires Enabled(s, Enter(tid, b, res))
    ensures SlotOutcome(s, Next(s, Enter(tid, b, res)), tid, b, res)
  {
    if s.out.dead || s.out.wpdu.buf.None? {
      TakeOutcome(s, tid, b, s.out, res);
    }
  }

  lemma SlotWakeOutcome(s: System, tid: nat, res: WriteResult)
    requires Enabled(s, SlotWake(tid, res))
    ensures SlotOutcome(s, Next(s, SlotWake(tid, res)), tid, s.threads[tid].b, res)
  {
    if s.out.dead || s.out.wpdu.buf.None? {
      TakeOutcome(s, tid, s.threads[tid].b, s.out.(waiters := s.out.waiters - 1), res);
      SlotWakeTakes(s, tid, s.out.(waiters := s.out.waiters - 1), res);
    } else {
      SlotWakeWaits(s, tid, res);
    }
  }

  /** How a send leaves its wait for the end, if it does. */
  predicate EndOutcome(s: System, t: System, tid: nat, b: Bytes) {
    && t.wire == s.wire && s.started != []
    && (if s.out.dead then Left(s, t, tid, b, 0, false)
        else if s.tail == |Last(s)| then Left(s, t, tid, b, |s.started| - 1, true) && t.out.wpdu == EMPTY
        else At(t, tid, b, WaitDone) && t.acked == s.acked)
  }

  lemma EndOutcomeHolds(s: System, tid: nat)
    requires Inv(s) && Enabled(s, DoneWake(tid))
    ensures EndOutcome(s, Next(s, DoneWake(tid)), tid, s.threads[tid].b)
  {
  }

  /**
   A send that wakes from its wait for the end returns exactly if its frame is out or the connection is dead,
   and the result is true exactly in the first case, on a live connection.
   */
  lemma DoneWakeOutcome(init: System, steps: seq<Step>, s: System, tid: nat)
    requires Init(init) && Leads(init, steps, s) && Enabled(s, DoneWake(tid))
    ensures EndOutcome(s, Next(s, DoneWake(tid)), tid, s.threads[tid].b)
  {
    ReachableInv(init, steps, s);
    EndOutcomeHolds(s, tid);
  }

  /** A send whose write failed returns false. */
  lemma RemovedOutcome(init: System, steps: seq<Step>, s: System, tid: nat)
    requires Init(init) && Leads(init, steps, s) && Enabled(s, Removed(tid))
    ensures var t := Next(s, Removed(tid)); Left(s, t, tid, s.threads[tid].b, 0, false) && t.out.wpdu == EMPTY
  {
    ReachableInv(init, steps, s);
  }

  /** A write callback writes on, dies exactly of an error, and does nothing when there is nothing to write. */
  lemma WriteOutcome(init: System, steps: seq<Step>, s: System, res: WriteResult)
    requires Init(init) && Leads(init, steps, s) && Enabled(s, CanWrite(res))
    ensures s.out.wpdu.buf.Some? ==> s.started != []
    ensures var t := Next(s, CanWrite(res));
            if s.out.wpdu.buf.None? || s.tail == |Last(s)| then t == s
            else
              && t.threads == s.threads && t.started == s.started
              && (t.out.dead <==> res.WriteError?)
              && t.tail == s.tail + (if res.Wrote? then res.n else 0)
              && |t.wire| == |s.wire| + (if res.Wrote? then res.n else 0)
  {
    ReachableInv(init, steps, s);
    if s.out.wpdu.buf.None? || s.tail == |Last(s)| {
      assert s.wire + [] == s.wire;
      assert s.out.(wpdu := s.out.wpdu, dead := s.out.dead) == s.out;
      assert s.(out := s.out, wire := s.wire, tail := s.tail) == s;
    }
  }

  /** The end of a send broadcasts exactly if some thread waits for the slot. */
  lemma BroadcastIff(init: System, steps: seq<Step>, s: System)
    requires Init(init) && Leads(init, steps, s)
    ensures AfterFinish(s.out).1.wake <==> exists t :: t in s.threads && s.threads[t].at.WaitSlot?
  {
    WaitersCounted(init, steps, s);
    if t :| t in s.threads && s.threads[t].at.WaitSlot? {
      assert t in Waiting(s);
    } else {
      assert Waiting(s) == {};
    }
  }

  // ---- How a read goes on ----

  /** The size word was due, and is no four bytes that give a size of at most 10 MiB. */
  predicate BadSize(r: Slot, head: ReadResult) {
    && r.buf.None?
    && !(head.Got? && |head.bytes| == 4
         && FromBe32(head.bytes[0], head.bytes[1], head.bytes[2], head.bytes[3]) <= 0xA0_0000)
  }

  /** When the reading end dies of a read: of a bad size word, or of an error or the end of the stream behind one. */
  lemma ReaderDiesIff(
      init: System, steps: seq<Step>, s: System, head: ReadResult, body: ReadResult, accept: bool)
    requires Init(init) && Leads(init, steps, s) && Enabled(s, CanRead(head, body, accept)) && !s.inp.dead
    ensures Next(s, CanRead(head, body, accept)).inp.dead <==>
              !Complete(s.inp.rpdu) && (BadSize(s.inp.rpdu, head) || body.Closed?)
  {
    ReachableInv(init, steps, s);
  }

  /** A read that would block behind a good size word keeps what has been read, and the connection. */
  lemma BlockedReadKeeps(
      init: System, steps: seq<Step>, s: System, head: ReadResult, accept: bool)
    requires Init(init) && Leads(init, steps, s) && Enabled(s, CanRead(head, TryAgain, accept)) && !s.inp.dead
    requires !Complete(s.inp.rpdu)
    ensures var t := Next(s, CanRead(head, TryAgain, accept));
            && (s.inp.rpdu.buf.Some? ==> t == s)
            && (s.inp.rpdu.buf.None? && !BadSize(s.inp.rpdu, head) ==>
                  !t.inp.dead && t.inp.rpdu.buf == Some(head.bytes) && t.pos == s.pos + 4 && t.taken == s.taken)
  {
    ReachableInv(init, steps, s);
    if s.inp.rpdu.buf.Some? {
      StartedKept(s, head, accept);
    } else if !BadSize(s.inp.rpdu, head) {
      HeadOk(s, head);
      SizeKept(s, head, accept, |s.started[|s.taken|]|);
    }
  }

  lemma StartedKept(s: System, head: ReadResult, accept: bool)
    requires !s.inp.dead && s.inp.rpdu.buf.Some? && s.inp.rpdu.sz != 0 && !Complete(s.inp.rpdu)
    ensures ReadOnce(s, head, TryAgain, accept) == s
  {
    assert s.inp.(dead := false, rpdu := s.inp.rpdu) == s.inp;
  }

  lemma SizeKept(s: System, head: ReadResult, accept: bool, sz: int)
    requires !s.inp.dead && s.inp.rpdu == EMPTY && SizeWord(head) == Some(sz) && sz > 4
    ensures var t := ReadOnce(s, head, TryAgain, accept);
            !t.inp.dead && t.inp.rpdu == Slot(Some(head.bytes), sz, 4) && t.pos == s.pos + 4 && t.taken == s.taken
  {
  }

  // ---- Everything sent can be taken ----

  predicate AllSmall(s: System) {
    forall k :: 0 <= k < |s.started| ==> |s.started[k]| <= MAX_PDU
  }

  /** One callback that takes the next PDU, from wherever its assembly stands. */
  lemma TakesNext(s: System) returns (step: Step)
    requires Inv(s) && !s.inp.dead && s.wire == Flat(s.started) && |s.taken| < |s.started| && AllSmall(s)
    ensures Enabled(s, step)
    ensures var t := Next(s, step);
            !t.inp.dead && t.wire == s.wire && t.started == s.started && |t.taken| == |s.taken| + 1
  {
    if Complete(s.inp.rpdu) {
      step := CanRead(TryAgain, TryAgain, true);
    } else if s.inp.rpdu.buf.Some? {
      step := TakesRest(s);
    } else {
      step := TakesWhole(s);
    }
  }

  lemma TakesRest(s: System) returns (step: Step)
    requires FramesOk(s) && ReaderOk(s) && !s.inp.dead && s.wire == Flat(s.started) && |s.taken| < |s.started|
    requires s.inp.rpdu.buf.Some? && !Complete(s.inp.rpdu)
    ensures Enabled(s, step)
    ensures var t := Next(s, step);
            !t.inp.dead && t.wire == s.wire && t.started == s.started && |t.taken| == |s.taken| + 1
  {
    NextFrame(s, s.started[|s.taken|], s.inp.rpdu.solong);
    step := CanRead(TryAgain, Got(s.started[|s.taken|][s.inp.rpdu.solong..]), true);
  }

  lemma TakesWhole(s: System) returns (step: Step)
    requires FramesOk(s) && ReaderOk(s) && !s.inp.dead && s.wire == Flat(s.started) && |s.taken| < |s.started|
    requires AllSmall(s)
    requires s.inp.rpdu.buf.None?
    ensures Enabled(s, step)
    ensures var t := Next(s, step);
            !t.inp.dead && t.wire == s.wire && t.started == s.started && |t.taken| == |s.taken| + 1
  {
    var f := s.started[|s.taken|];
    NextFrame(s, f, 0);
    HeadAndBody(s.wire, s.pos, f);
    SizeOfFrame(s, f);
    step := WholeRead(s, f, f[..4], f[4..]);
  }

  lemma WholeRead(s: System, f: Bytes, head: Bytes, body: Bytes) returns (step: Step)
    requires !s.inp.dead && s.inp.rpdu == EMPTY && |f| > 4 && |head| == 4 && |body| == |f| - 4
    requires SizeWord(Got(head)) == Some(|f|)
    requires s.pos + |f| <= |s.wire| && s.wire[s.pos..s.pos + 4] == head && s.wire[s.pos + 4..s.pos + |f|] == body
    ensures Enabled(s, step)
    ensures var t := Next(s, step);
            !t.inp.dead && t.wire == s.wire && t.started == s.started && |t.taken| == |s.taken| + 1
  {
    step := CanRead(Got(head), Got(body), true);
  }

  /** The bytes that the reader has not had of the next frame are the next on the wire. */
  lemma NextFrame(s: System, f: Bytes, n: nat)
    requires FramesOk(s) && ReaderOk(s) && !s.inp.dead && s.wire == Flat(s.started) && |s.taken| < |s.started|
    requires f == s.started[|s.taken|] && n <= |f| && n == if s.inp.rpdu.buf.Some? then s.inp.rpdu.solong else 0
    ensures 4 < |f| && s.pos + (|f| - n) <= |s.wire| && s.wire[s.pos..s.pos + (|f| - n)] == f[n..]
  {
    assert f in s.started;
    ReaderAt(s);
    FrameAt(s.started, |s.taken|, f, |Flat(s.taken)|);
    SubSlice(s.wire, |Flat(s.taken)|, |f|, n, |f| - n);
  }

  lemma FrameAt(fs: seq<Bytes>, k: nat, f: Bytes, at: nat)
    requires k < |fs| && f == fs[k] && at == |Flat(fs[..k])|
    ensures at + |f| <= |Flat(fs)| && Flat(fs)[at..at + |f|] == f
  {
    FlatAt(fs, k);
  }

  /** The reader stands behind the PDUs taken and what it has of the next one. */
  lemma ReaderAt(s: System)
    requires ReaderOk(s) && !s.inp.dead
    ensures s.pos == |Flat(s.taken)| + if s.inp.rpdu.buf.Some? then s.inp.rpdu.solong else 0
  {
    assert |s.wire[..s.pos]| == s.pos;
  }

  lemma HeadAndBody(wire: Bytes, at: nat, f: Bytes)
    requires 4 < |f| && at + |f| <= |wire| && wire[at..at + |f|] == f
    ensures wire[at..at + 4] == f[..4] && wire[at + 4..at + |f|] == f[4..]
  {
    SubSlice(wire, at, |f|, 0, 4);
    SubSlice(wire, at, |f|, 4, |f| - 4);
  }

  lemma SizeOfFrame(s: System, f: Bytes)
    requires FramesOk(s) && f in s.started && |f| <= MAX_PDU
    ensures SizeWord(Got(f[..4])) == Some(|f|)
  {
    FrameCarries(f);
  }

  /**
   From every reachable state with a live reader, if all frames are whole on the wire and none is too big, the reader
   can take them all.
   */
  lemma AllCanBeTaken(init: System, steps: seq<Step>, s: System) returns (more: seq<Step>, t: System)
    requires Init(init) && Leads(init, steps, s) && !s.inp.dead && s.wire == Flat(s.started) && AllSmall(s)
    ensures Leads(s, more, t) && t.taken == t.started == s.started
  {
    ReachableInv(init, steps, s);
    more, t := TakesAll(s);
    LeadsInv(s, more, t);
  }

  lemma {:induction false} TakesAll(s: System) returns (more: seq<Step>, t: System)
    requires Inv(s) && !s.inp.dead && s.wire == Flat(s.started) && AllSmall(s)
    ensures Leads(s, more, t) && |t.taken| == |t.started| && t.started == s.started
    decreases |s.started| - |s.taken|
  {
    if |s.taken| < |s.started| {
      var step := TakesNext(s);
      NextInv(s, step);
      var rest;
      rest, t := TakesAll(Next(s, step));
      more := [step] + rest;
      assert more[1..] == rest;
    } else {
      more, t := [], s;
    }
  }
}
