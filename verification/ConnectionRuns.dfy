/**
 Two ends of one connection, with any number of threads sending at one end, writes and reads
 of any size, failures at any moment, and a manager at the other end that may refuse a PDU.
 */
module ConnectionRuns {
  import opened Wire
  import opened RpcMessages
  import opened Connection

  /** `frame` is the place of the thread's frame among those started, once it has got the slot. */
  datatype Sender = Sender(b: Bytes, at: Progress, frame: nat)

  /** A send that returned true: its buffer, and the place of its frame. */
  datatype Ack = Ack(b: Bytes, frame: nat)

  /**
   `wire` is what the operating system has taken from the sending end, `pos` how much of it the
   receiving end has read. `asleep` are the threads that wait for the slot and have not been woken.
   History: `given` are the buffers that got the slot, `started` their frames, `tail` is how much of
   the last one is on the wire, `acked` the sends that returned true, `taken` the PDUs the receiving manager accepted.
   */
  datatype System = System(
    out: Conn, threads: map<nat, Sender>, asleep: set<nat>,
    wire: Bytes, given: seq<Bytes>, started: seq<Bytes>, tail: nat, acked: seq<Ack>,
    inp: Conn, pos: nat, taken: seq<Bytes>)

  const FRESH := Conn(false, EMPTY, EMPTY, 0)

  predicate Init(s: System) {
    s == System(FRESH, map[], {}, [], [], [], 0, [], FRESH, 0, [])
  }

  datatype Step =
    | Enter(tid: nat, b: Bytes, res: WriteResult)
    | SpuriousWake(tid: nat)
    | SlotWake(tid: nat, res: WriteResult)
    | Removed(tid: nat)
    | DoneWake(tid: nat)
    | CanWrite(res: WriteResult)
    | Dies
    | ReaderDies
    | CanRead(head: ReadResult, body: ReadResult, accept: bool)

  /** The slot after the size word, if it was due, has been read. */
  function AfterHead(r: Slot, head: ReadResult): Slot {
    if r.sz == 0 && SizeWord(head).Some? then Slot(Some(head.bytes), SizeWord(head).value, 4) else r
  }

  function HeadRead(r: Slot, head: ReadResult): nat {
    if r.sz == 0 && head.Got? then |head.bytes| else 0
  }

  predicate Reading(c: Conn) {
    !c.dead && !Complete(c.rpdu)
  }

  predicate BodyDue(r: Slot, head: ReadResult) {
    r.sz != 0 || SizeWord(head).Some?
  }

  /** The reads return the next bytes of the stream, at least one and at most as many as asked for. */
  predicate FromStream(s: System, head: ReadResult, body: ReadResult) {
    var r := s.inp.rpdu;
    var p := s.pos + HeadRead(r, head);
    && (r.sz == 0 && head.Got? ==> 0 < |head.bytes| <= 4 && p <= |s.wire| && head.bytes == s.wire[s.pos..p])
    && (body.Got? && BodyDue(r, head) ==>
          && 0 < |body.bytes| <= AfterHead(r, head).sz - AfterHead(r, head).solong
          && p + |body.bytes| <= |s.wire| && body.bytes == s.wire[p..p + |body.bytes|])
  }

  predicate Enabled(s: System, step: Step) {
    match step
    case Enter(tid, b, res) => tid !in s.threads && Pdu(b) && (res.Wrote? ==> res.n <= |b|)
    case SpuriousWake(tid) => tid in s.asleep
    case SlotWake(tid, res) =>
      && tid in s.threads && s.threads[tid].at.WaitSlot? && tid !in s.asleep && Pdu(s.threads[tid].b)
      && (res.Wrote? ==> res.n <= |s.threads[tid].b|)
    case Removed(tid) => tid in s.threads && s.threads[tid].at.Removing?
    case DoneWake(tid) => tid in s.threads && s.threads[tid].at.WaitDone?
    case CanWrite(res) => !s.out.dead && (s.out.wpdu.sz != 0 ==> Writable(s.out.wpdu) && Fits(s.out.wpdu, res))
    case Dies => true
    case ReaderDies => true
    case CanRead(head, body, accept) => Reading(s.inp) ==> FromStream(s, head, body)
  }

  /** A thread leaves `send` for good or for its next wait. */
  function Moved(s: System, tid: nat, b: Bytes, frame: nat, p: Progress): System {
    if p.Returned? then
      s.(threads := s.threads - {tid},
         acked := if p.ok then s.acked + [Ack(b, frame)] else s.acked,
         asleep := if p.wake then {} else s.asleep)
    else
      s.(threads := s.threads[tid := Sender(b, p, frame)],
         asleep := if p.WaitSlot? then s.asleep + {tid} else s.asleep)
  }

  /** A buffer has got the slot, and the beginning of its frame is on the wire. */
  function WithFrame(s: System, c: Conn, b: Bytes, bytes: Bytes): System
    requires Pdu(b)
  {
    s.(out := c, wire := s.wire + bytes, given := s.given + [b], started := s.started + [Frame(b)], tail := |bytes|)
  }

  /** The same, when the thread may just have taken the slot. */
  function Took(s: System, tid: nat, b: Bytes, after: (Conn, Progress, Bytes)): System
    requires Pdu(b)
  {
    var s' := if s.out.dead || after.1.WaitSlot? then s.(out := after.0) else WithFrame(s, after.0, b, after.2);
    Moved(s', tid, b, |s.started|, after.1)
  }

  function ReadOnce(s: System, head: ReadResult, body: ReadResult, accept: bool): System {
    var (c, pdu) := AfterReadCb(s.inp, head, body, accept);
    var read := if !Reading(s.inp) then 0
                else HeadRead(s.inp.rpdu, head)
                     + (if body.Got? && BodyDue(s.inp.rpdu, head) then |body.bytes| else 0);
    s.(inp := c, pos := s.pos + read, taken := if pdu.Some? then s.taken + [pdu.value] else s.taken)
  }

  function Next(s: System, step: Step): System
    requires Enabled(s, step)
  {
    match step
    case Enter(tid, b, res) => Took(s, tid, b, AfterEnter(s.out, b, res))
    case SpuriousWake(tid) => s.(asleep := s.asleep - {tid})
    case SlotWake(tid, res) => Took(s, tid, s.threads[tid].b, AfterSlotWake(s.out, s.threads[tid].b, res))
    case Removed(tid) =>
      var (c, p) := AfterFinish(s.out);
      Moved(s.(out := c), tid, s.threads[tid].b, s.threads[tid].frame, p)
    case DoneWake(tid) =>
      var (c, p) := AfterDoneWake(s.out);
      Moved(s.(out := c), tid, s.threads[tid].b, s.threads[tid].frame, p)
    case CanWrite(res) =>
      var (c, bytes) := AfterWriteCb(s.out, res);
      s.(out := c, wire := s.wire + bytes, tail := s.tail + |bytes|)
    case Dies => s.(out := s.out.(dead := true))
    case ReaderDies => s.(inp := s.inp.(dead := true))
    case CanRead(head, body, accept) => ReadOnce(s, head, body, accept)
  }

  predicate Leads(s: System, steps: seq<Step>, t: System)
    decreases |steps|
  {
    if steps == [] then s == t
    else Enabled(s, steps[0]) && Leads(Next(s, steps[0]), steps[1..], t)
  }

  // ---- The wire as a sequence of frames ----

  function Flat(fs: seq<Bytes>): Bytes {
    if fs == [] then [] else Flat(fs[..|fs| - 1]) + fs[|fs| - 1]
  }

  lemma FlatSnoc(fs: seq<Bytes>, f: Bytes)
    ensures Flat(fs + [f]) == Flat(fs) + f
  {
    assert (fs + [f])[..|fs|] == fs;
  }

  /** Where frame k lies in the flattened sequence. */
  lemma {:induction false} FlatAt(fs: seq<Bytes>, k: nat)
    requires k < |fs|
    ensures |Flat(fs[..k])| + |fs[k]| <= |Flat(fs)|
    ensures Flat(fs)[|Flat(fs[..k])|..|Flat(fs[..k])| + |fs[k]|] == fs[k]
  {
    var init := fs[..|fs| - 1];
    if k < |fs| - 1 {
      FlatAt(init, k);
      assert init[..k] == fs[..k];
    }
  }

  // ---- The sending end ----

  function Last(s: System): Bytes
    requires s.started != []
  {
    s.started[|s.started| - 1]
  }

  /** The wire holds the started frames whole and in order, the last one up to `tail`. */
  predicate WireOk(s: System) {
    if s.started == [] then s.wire == [] && s.tail == 0
    else s.tail <= |Last(s)| && s.wire == Flat(s.started[..|s.started| - 1]) + Last(s)[..s.tail]
  }

  /** The slot is free only after its frame went out whole, or the connection is dead. */
  predicate SlotOk(s: System) {
    match s.out.wpdu.buf
    case None => s.out.wpdu == EMPTY && (s.out.dead || s.started == [] || s.tail == |Last(s)|)
    case Some(b) =>
      && s.started != [] && Pdu(b) && Frame(b) == Last(s)
      && (|| (s.out.dead && s.out.wpdu.sz == 0 && s.out.wpdu.solong == -1)
          || (s.out.wpdu.sz == |b| && 0 <= s.out.wpdu.solong == s.tail <= |b| && (s.tail > 0 ==> b == Last(s))))
  }

  predicate Owner(t: Sender) {
    t.at.WaitDone? || t.at.Removing?
  }

  predicate ThreadsOk(s: System) {
    && (forall t :: t in s.threads ==> Pdu(s.threads[t].b) && !s.threads[t].at.Returned?)
    && (forall t :: t in s.threads && s.threads[t].at.Removing? ==> s.out.dead)
    && (forall t :: t in s.threads && Owner(s.threads[t]) ==>
          && s.out.wpdu.buf.Some? && s.started != [] && Frame(s.threads[t].b) == Last(s)
          && s.threads[t].frame == |s.started| - 1)
    && (forall t, u :: t in s.threads && u in s.threads && Owner(s.threads[t]) && Owner(s.threads[u]) ==> t == u)
  }

  /** The frame of a send is on the wire, complete and contiguous, behind the whole frames before it. */
  predicate OnWire(s: System, a: Ack) {
    && Pdu(a.b) && a.frame < |s.started| && s.started[a.frame] == Frame(a.b)
    && Flat(s.started[..a.frame + 1]) <= s.wire
  }

  /** Every true result has a frame of its own, in the order of the frames. */
  predicate AcksWritten(s: System) {
    && (forall i :: 0 <= i < |s.acked| ==> OnWire(s, s.acked[i]))
    && (forall i, j :: 0 <= i < j < |s.acked| ==> s.acked[i].frame < s.acked[j].frame)
  }

  /** The frame in the slot belongs to a send that has not returned. */
  predicate AcksBehind(s: System) {
    s.out.wpdu.buf.Some? ==> forall i :: 0 <= i < |s.acked| ==> s.acked[i].frame < |s.started| - 1
  }

  predicate AcksOk(s: System) {
    AcksWritten(s) && AcksBehind(s)
  }

  predicate FramesOk(s: System) {
    forall f :: f in s.started ==> Pdu(f) && Frame(f) == f
  }

  // ---- The receiving end ----

  /** What has been read is the PDUs taken so far and the beginning of the next frame. */
  predicate ReaderOk(s: System) {
    && |s.taken| <= |s.started| && s.taken == s.started[..|s.taken|]
    && s.pos <= |s.wire| && Flat(s.taken) <= s.wire
    && (!s.inp.dead ==>
          match s.inp.rpdu.buf
          case None => s.inp.rpdu == EMPTY && s.wire[..s.pos] == Flat(s.taken)
          case Some(b) =>
            && |s.taken| < |s.started| && 4 <= |b| == s.inp.rpdu.solong <= s.inp.rpdu.sz == |s.started[|s.taken|]|
            && b == s.started[|s.taken|][..|b|]
            && s.wire[..s.pos] == Flat(s.taken) + b)
  }

  ghost predicate Inv(s: System) {
    WireOk(s) && SlotOk(s) && ThreadsOk(s) && AcksOk(s) && FramesOk(s) && ReaderOk(s)
  }

  lemma InitInv(s: System)
    requires Init(s)
    ensures Inv(s)
  {
  }

  /** The wire is always a prefix of the started frames. */
  lemma WireIsPrefix(s: System)
    requires WireOk(s)
    ensures s.wire <= Flat(s.started)
  {
  }

  lemma OnWireKept(s: System, s': System, a: Ack)
    requires OnWire(s, a) && s.wire <= s'.wire && s.started <= s'.started
    ensures OnWire(s', a)
  {
    assert s'.started[..a.frame + 1] == s.started[..a.frame + 1];
  }

  lemma AcksKept(s: System, s': System)
    requires AcksWritten(s) && s.wire <= s'.wire && s.started <= s'.started && s'.acked == s.acked
    ensures AcksWritten(s')
  {
    forall i | 0 <= i < |s'.acked| ensures OnWire(s', s'.acked[i]) {
      OnWireKept(s, s', s.acked[i]);
    }
  }

  /** Once its last byte is out, the frame in the slot is on the wire. */
  lemma LastOnWire(s: System, b: Bytes)
    requires WireOk(s) && s.started != [] && Pdu(b) && Frame(b) == Last(s) && s.tail == |Last(s)|
    ensures OnWire(s, Ack(b, |s.started| - 1))
  {
    assert s.started[..|s.started|] == s.started;
    assert Last(s)[..s.tail] == Last(s);
  }

  lemma ReaderKept(s: System, s': System)
    requires ReaderOk(s) && s.wire <= s'.wire && s.started <= s'.started
    requires s'.inp == s.inp && s'.pos == s.pos && s'.taken == s.taken
    ensures ReaderOk(s')
  {
    assert s'.wire[..s.pos] == s.wire[..s.pos];
  }

  /** What a take of the free slot writes, and what it leaves in the slot. */
  predicate TakeResult(c: Conn, b: Bytes, c': Conn, p: Progress, bytes: Bytes)
    requires Pdu(b)
  {
    && |bytes| <= |b| && bytes == Frame(b)[..|bytes|]
    && match p
       case Returned(ok, _) => ok && c'.wpdu == EMPTY && |bytes| == |b|
       case WaitSlot => false
       case Removing => c'.dead && c'.wpdu.sz == 0 && c'.wpdu.solong == -1 && Framed(c'.wpdu, Frame(b))
       case WaitDone =>
         && c'.wpdu.sz == |b| && c'.wpdu.solong == |bytes| && Framed(c'.wpdu, Frame(b))
         && (|bytes| > 0 ==> c'.wpdu.buf.value == Frame(b))
  }

  predicate Framed(w: Slot, f: Bytes) {
    w.buf.Some? && Pdu(w.buf.value) && Frame(w.buf.value) == f
  }

  lemma TakeEffect(c: Conn, b: Bytes, res: WriteResult)
    requires !c.dead && Pdu(b) && (res.Wrote? ==> res.n <= |b|)
    ensures var (c', p, bytes) := AfterTake(c, b, res); TakeResult(c, b, c', p, bytes)
  {
    FrameTwice(b);
  }

  /** A thread that takes the free slot starts its frame right behind the last complete one. */
  lemma TakeSlot(s: System, c: Conn, b: Bytes, c': Conn, p: Progress, bytes: Bytes)
    requires WireOk(s) && SlotOk(s) && FramesOk(s) && !s.out.dead && s.out.wpdu.buf.None? && Pdu(b)
    requires TakeResult(c, b, c', p, bytes)
    ensures var s' := WithFrame(s, c', b, bytes);
            WireOk(s') && FramesOk(s') && SlotOk(s') && (p.Returned? ==> s'.tail == |Last(s')|)
  {
    StartedFrames(s, b);
    WholeFrames(s);
    assert (s.started + [Frame(b)])[..|s.started|] == s.started;
  }

  lemma StartedFrames(s: System, b: Bytes)
    requires FramesOk(s) && Pdu(b)
    ensures FramesOk(s.(started := s.started + [Frame(b)]))
  {
    FrameTwice(b);
    forall f | f in s.started + [Frame(b)] ensures Pdu(f) && Frame(f) == f {
    }
  }

  /** While the slot is free on a live connection, the wire is whole frames. */
  lemma WholeFrames(s: System)
    requires WireOk(s) && SlotOk(s) && !s.out.dead && s.out.wpdu.buf.None?
    ensures s.wire == Flat(s.started)
  {
    if s.started != [] {
      assert s.started == s.started[..|s.started| - 1] + [Last(s)];
      FlatSnoc(s.started[..|s.started| - 1], Last(s));
      assert Last(s)[..s.tail] == Last(s);
    }
  }

  /** A send may return true once its frame is on the wire, if none behind it was acknowledged. */
  predicate MayAck(s: System, a: Ack) {
    s.out.wpdu.buf.None? && OnWire(s, a) && forall i :: 0 <= i < |s.acked| ==> s.acked[i].frame < a.frame
  }

  /** A thread that stops being, or becomes, a sender leaves the acknowledgements right. */
  lemma MovedInv(s: System, tid: nat, b: Bytes, frame: nat, p: Progress)
    requires WireOk(s) && SlotOk(s) && FramesOk(s) && AcksOk(s) && ReaderOk(s) && Pdu(b)
    requires ThreadsOk(s.(threads := s.threads - {tid}))
    requires p.Returned? && p.ok ==> MayAck(s, Ack(b, frame))
    requires p.Removing? || p.WaitDone? ==> MayOwn(s, tid, b, frame, p)
    ensures Inv(Moved(s, tid, b, frame, p))
  {
    MovedAcks(s, tid, b, frame, p);
    MovedThreads(s, tid, b, frame, p);
    SameStream(s, Moved(s, tid, b, frame, p));
  }

  lemma SameStream(s: System, s': System)
    requires WireOk(s) && SlotOk(s) && FramesOk(s) && ReaderOk(s)
    requires s'.out == s.out && s'.wire == s.wire && s'.started == s.started && s'.tail == s.tail
    requires s'.inp == s.inp && s'.pos == s.pos && s'.taken == s.taken
    ensures WireOk(s') && SlotOk(s') && FramesOk(s') && ReaderOk(s')
  {
  }

  predicate MayOwn(s: System, tid: nat, b: Bytes, frame: nat, p: Progress) {
    && s.out.wpdu.buf.Some? && s.started != [] && Pdu(b) && Frame(b) == Last(s) && frame == |s.started| - 1
    && (p.Removing? ==> s.out.dead)
    && forall t :: t in s.threads && t != tid ==> !Owner(s.threads[t])
  }

  lemma MovedAcks(s: System, tid: nat, b: Bytes, frame: nat, p: Progress)
    requires AcksOk(s) && (p.Returned? && p.ok ==> MayAck(s, Ack(b, frame)))
    ensures AcksOk(Moved(s, tid, b, frame, p))
  {
    var s' := Moved(s, tid, b, frame, p);
    forall i | 0 <= i < |s'.acked| ensures OnWire(s', s'.acked[i]) {
      OnWireKept(s, s', s'.acked[i]);
    }
  }

  lemma MovedThreads(s: System, tid: nat, b: Bytes, frame: nat, p: Progress)
    requires ThreadsOk(s.(threads := s.threads - {tid})) && Pdu(b)
    requires p.Removing? || p.WaitDone? ==> MayOwn(s, tid, b, frame, p)
    ensures ThreadsOk(Moved(s, tid, b, frame, p))
  {
    var s' := Moved(s, tid, b, frame, p);
    var gone := s.(threads := s.threads - {tid});
    assert forall t :: t in s'.threads && t != tid ==> t in gone.threads && s'.threads[t] == gone.threads[t];
  }

  lemma TookInv(s: System, tid: nat, b: Bytes, c: Conn, res: WriteResult)
    requires Inv(s) && Pdu(b) && (res.Wrote? ==> res.n <= |b|)
    requires c == s.out.(waiters := c.waiters) && (c.dead || c.wpdu.buf.None?)
    requires tid in s.threads ==> !Owner(s.threads[tid])
    ensures Inv(Took(s, tid, b, AfterTake(c, b, res)))
  {
    if c.dead {
      NewCountInv(s, c);
      MovedInv(s.(out := c), tid, b, |s.started|, Returned(false, false));
    } else {
      TookSlotInv(s, tid, b, c, res);
    }
  }

  lemma NewCountInv(s: System, c: Conn)
    requires Inv(s) && c == s.out.(waiters := c.waiters)
    ensures Inv(s.(out := c))
  {
    ReaderKept(s, s.(out := c));
    AcksKept(s, s.(out := c));
  }

  lemma TookSlotInv(s: System, tid: nat, b: Bytes, c: Conn, res: WriteResult)
    requires Inv(s) && Pdu(b) && (res.Wrote? ==> res.n <= |b|)
    requires c == s.out.(waiters := c.waiters) && !c.dead && c.wpdu.buf.None?
    ensures Inv(Took(s, tid, b, AfterTake(c, b, res)))
  {
    var (c', p, bytes) := AfterTake(c, b, res);
    TakeEffect(c, b, res);
    SlotTakenInv(s, tid, b, c, c', p, bytes);
  }

  lemma SlotTakenInv(s: System, tid: nat, b: Bytes, c: Conn, c': Conn, p: Progress, bytes: Bytes)
    requires Inv(s) && !s.out.dead && s.out.wpdu.buf.None? && Pdu(b) && TakeResult(c, b, c', p, bytes)
    ensures var s1 := WithFrame(s, c', b, bytes);
            Inv(Moved(s1, tid, b, |s.started|, p))
  {
    var s1 := WithFrame(s, c', b, bytes);
    TakeSlot(s, c, b, c', p, bytes);
    ReaderKept(s, s1);
    StartedAcks(s, s1);
    if p.Returned? {
      LastOnWire(s1, b);
    }
    FreeSlotThreads(s, s1, tid);
    MovedInv(s1, tid, b, |s.started|, p);
  }

  /** No thread owns a free slot, so whoever takes it finds the others outside. */
  lemma FreeSlotThreads(s: System, s1: System, tid: nat)
    requires ThreadsOk(s) && !s.out.dead && s.out.wpdu.buf.None? && s1.threads == s.threads
    ensures ThreadsOk(s1.(threads := s1.threads - {tid}))
    ensures forall t :: t in s1.threads ==> !Owner(s1.threads[t])
  {
    assert forall t :: t in s.threads ==> !Owner(s.threads[t]);
  }

  lemma StartedAcks(s: System, s': System)
    requires AcksWritten(s) && s.wire <= s'.wire && s.started <= s'.started && s'.acked == s.acked
    requires |s'.started| == |s.started| + 1
    ensures AcksOk(s') && forall i :: 0 <= i < |s'.acked| ==> s'.acked[i].frame < |s.started|
  {
    AcksKept(s, s');
    assert forall i :: 0 <= i < |s.acked| ==> OnWire(s, s.acked[i]);
  }

  lemma FinishInv(s: System, tid: nat, c: Conn, p: Progress)
    requires Inv(s) && tid in s.threads && Owner(s.threads[tid])
    requires (c, p) == AfterFinish(s.out)
    requires s.out.dead || !(0 <= s.out.wpdu.solong < s.out.wpdu.sz)
    ensures Inv(Moved(s.(out := c), tid, s.threads[tid].b, s.threads[tid].frame, p))
  {
    var b := s.threads[tid].b;
    var s1 := s.(out := c);
    if p.ok {
      LastOnWire(s, b);
      OnWireKept(s, s1, Ack(b, |s.started| - 1));
    }
    FreedInv(s, s1, tid);
    MovedInv(s1, tid, b, s.threads[tid].frame, p);
  }

  /** The owner has freed the slot. */
  lemma FreedInv(s: System, s1: System, tid: nat)
    requires Inv(s) && tid in s.threads && Owner(s.threads[tid])
    requires s1 == s.(out := s.out.(wpdu := EMPTY)) && (s.out.dead || s.tail == |Last(s)|)
    ensures WireOk(s1) && SlotOk(s1) && FramesOk(s1) && AcksOk(s1) && ReaderOk(s1)
    ensures ThreadsOk(s1.(threads := s1.threads - {tid}))
  {
    ReaderKept(s, s1);
    AcksKept(s, s1);
    assert forall t :: t in s.threads && t != tid ==> !Owner(s.threads[t]);
  }

  lemma CanWriteInv(s: System, res: WriteResult)
    requires Inv(s) && Enabled(s, CanWrite(res))
    ensures Inv(Next(s, CanWrite(res)))
  {
    if s.out.wpdu.sz != 0 {
      WriteMore(s, res);
      WentOnInv(s, Next(s, CanWrite(res)));
    } else {
      assert s.wire + [] == s.wire;
      assert Next(s, CanWrite(res)) == s;
    }
  }

  /** The frame in the slot has got further, and nothing else has changed. */
  lemma WentOnInv(s: System, s': System)
    requires Inv(s) && WireOk(s') && SlotOk(s') && s.out.wpdu.buf.Some? && s'.out.wpdu.buf.Some?
    requires s.wire <= s'.wire && s'.started == s.started && (s.out.dead ==> s'.out.dead)
    requires s'.threads == s.threads && s'.acked == s.acked
    requires s'.inp == s.inp && s'.pos == s.pos && s'.taken == s.taken
    ensures Inv(s')
  {
    AcksKept(s, s');
    ReaderKept(s, s');
  }

  lemma WriteMore(s: System, res: WriteResult)
    requires WireOk(s) && SlotOk(s) && s.out.wpdu.sz != 0 && Enabled(s, CanWrite(res))
    ensures var s' := Next(s, CanWrite(res));
            WireOk(s') && SlotOk(s') && s'.out.wpdu.buf.Some?
  {
    var (ok, w, bytes) := AfterWrite(s.out.wpdu, res);
    NextBytes(s.out.wpdu, res, Last(s), s.tail);
    MoreOnWire(s, w, bytes, ok);
  }

  /** A write goes on with the frame where the last one stopped. */
  lemma NextBytes(w: Slot, res: WriteResult, f: Bytes, tail: nat)
    requires Writable(w) && Fits(w, res) && w.solong == tail && (tail > 0 ==> w.buf.value == f)
    requires Frame(w.buf.value) == f
    ensures var (ok, w', bytes) := AfterWrite(w, res);
            && w'.buf.Some? && Pdu(w'.buf.value) && Frame(w'.buf.value) == f
            && tail + |bytes| <= |f| && f[..tail] + bytes == f[..tail + |bytes|]
            && (ok ==> w'.sz == |f| && w'.solong == tail + |bytes| && (w'.solong > 0 ==> w'.buf.value == f))
            && (!ok ==> bytes == [] && w'.sz == 0 && w'.solong == -1)
  {
    FrameTwice(w.buf.value);
  }

  lemma MoreOnWire(s: System, w: Slot, bytes: Bytes, ok: bool)
    requires WireOk(s) && SlotOk(s) && s.started != [] && s.out.wpdu.sz != 0
    requires w.buf.Some? && Pdu(w.buf.value) && Frame(w.buf.value) == Last(s)
    requires s.tail + |bytes| <= |Last(s)| && Last(s)[..s.tail] + bytes == Last(s)[..s.tail + |bytes|]
    requires ok ==> w.sz == |Last(s)| && w.solong == s.tail + |bytes| && (w.solong > 0 ==> w.buf.value == Last(s))
    requires !ok ==> bytes == [] && w.sz == 0 && w.solong == -1
    ensures var s' := s.(out := s.out.(wpdu := w, dead := s.out.dead || !ok),
                         wire := s.wire + bytes, tail := s.tail + |bytes|);
            WireOk(s') && SlotOk(s')
  {
  }

  // ---- The receiving end's step ----

  /** The next bytes of the wire come from the next frame. */
  lemma NextFrameBytes(s: System, from: nat, n: nat)
    requires WireOk(s) && |s.taken| <= |s.started| && s.taken == s.started[..|s.taken|]
    requires n > 0 && |Flat(s.taken)| + from + n <= |s.wire|
    requires |s.taken| < |s.started| ==> from + n <= |s.started[|s.taken|]|
    ensures |s.taken| < |s.started|
    ensures var p := |Flat(s.taken)| + from; s.wire[p..p + n] == s.started[|s.taken|][from..from + n]
  {
    WireIsPrefix(s);
    var k := |s.taken|;
    assert s.started[..|s.started|] == s.started;
    if k < |s.started| {
      FlatAt(s.started, k);
      var p := |Flat(s.taken)| + from;
      PrefixSlice(s.wire, Flat(s.started), p, n);
      SubSlice(Flat(s.started), |Flat(s.taken)|, |s.started[k]|, from, n);
    }
  }

  lemma PrefixSlice(a: Bytes, b: Bytes, p: nat, n: nat)
    requires a <= b && p + n <= |a|
    ensures a[p..p + n] == b[p..p + n]
  {
    assert a == b[..|a|];
  }

  lemma SubSlice(b: Bytes, at: nat, len: nat, from: nat, n: nat)
    requires at + len <= |b| && from + n <= len
    ensures b[at..at + len][from..from + n] == b[at + from..at + from + n]
  {
    var x, y := b[at..at + len][from..from + n], b[at + from..at + from + n];
    forall k | 0 <= k < n ensures x[k] == y[k] {
      assert x[k] == b[at..at + len][from + k] == b[at + from + k];
    }
  }

  /** Reading the size word of the next frame gives its length. */
  lemma HeadOk(s: System, head: ReadResult)
    requires WireOk(s) && FramesOk(s) && ReaderOk(s) && !s.inp.dead && s.inp.rpdu == EMPTY
    requires SizeWord(head).Some? && s.pos + 4 <= |s.wire| && head.bytes == s.wire[s.pos..s.pos + 4]
    ensures |s.taken| < |s.started| && |s.started[|s.taken|]| > 4
    ensures head.bytes == s.started[|s.taken|][..4]
    ensures SizeWord(head) == Some(|s.started[|s.taken|]|)
    ensures s.wire[..s.pos + 4] == Flat(s.taken) + head.bytes
  {
    assert |s.wire[..s.pos]| == |Flat(s.taken)|;
    if |s.taken| < |s.started| {
      assert s.started[|s.taken|] in s.started;
    }
    NextFrameBytes(s, 0, 4);
    var f := s.started[|s.taken|];
    assert f in s.started;
    assert f[..4] == Be32(|f|);
    Be32RoundTrip(|f|);
    assert s.wire[..s.pos + 4] == s.wire[..s.pos] + s.wire[s.pos..s.pos + 4];
  }

  lemma BodyOk(s: System, r: Slot, body: ReadResult)
    requires WireOk(s) && ReaderOk(s.(inp := s.inp.(rpdu := r, dead := false)))
    requires r.buf.Some? && body.Got? && 0 < |body.bytes| <= r.sz - r.solong
    requires s.pos + |body.bytes| <= |s.wire| && body.bytes == s.wire[s.pos..s.pos + |body.bytes|]
    ensures var r' := AfterBody(r, body).1;
            ReaderOk(s.(inp := s.inp.(rpdu := r', dead := false), pos := s.pos + |body.bytes|))
  {
    var f, n := s.started[|s.taken|], |body.bytes|;
    assert |s.wire[..s.pos]| == |Flat(s.taken)| + r.solong;
    NextFrameBytes(s, r.solong, n);
    Grown(f, s.wire, s.pos, Flat(s.taken), r.buf.value, body.bytes);
  }

  lemma Grown(f: Bytes, wire: Bytes, pos: nat, before: Bytes, b: Bytes, bytes: Bytes)
    requires pos + |bytes| <= |wire| && |b| + |bytes| <= |f|
    requires wire[..pos] == before + b && wire[pos..pos + |bytes|] == bytes
    requires f[..|b|] == b && f[|b|..|b| + |bytes|] == bytes
    ensures wire[..pos + |bytes|] == before + (b + bytes) && f[..|b| + |bytes|] == b + bytes
  {
    Longer(f, |b|, |bytes|);
    Longer(wire, pos, |bytes|);
    Regroup(before, b, bytes);
  }

  lemma Longer(b: Bytes, k: nat, n: nat)
    requires k + n <= |b|
    ensures b[..k] + b[k..k + n] == b[..k + n]
  {
  }

  lemma Regroup(a: Bytes, b: Bytes, c: Bytes)
    ensures a + b + c == a + (b + c)
  {
  }

  /** A complete PDU is the next frame, whether it is taken now or offered again later. */
  lemma TakeOk(s: System)
    requires ReaderOk(s) && !s.inp.dead && Complete(s.inp.rpdu)
    ensures ReaderOk(s.(inp := s.inp.(rpdu := EMPTY), taken := s.taken + [s.inp.rpdu.buf.value]))
  {
    var b, k := s.inp.rpdu.buf.value, |s.taken|;
    assert s.started[k][..|b|] == s.started[k];
    assert s.started[..k + 1] == s.started[..k] + [s.started[k]];
    FlatSnoc(s.taken, b);
  }

  lemma CanReadInv(s: System, head: ReadResult, body: ReadResult, accept: bool)
    requires Inv(s) && (Reading(s.inp) ==> FromStream(s, head, body))
    ensures Inv(ReadOnce(s, head, body, accept))
  {
    ReadLeavesSender(s, head, body, accept);
    if !s.inp.dead {
      ReadKeepsPlace(s, head, body, accept);
    }
  }

  lemma ReadLeavesSender(s: System, head: ReadResult, body: ReadResult, accept: bool)
    requires WireOk(s) && SlotOk(s) && ThreadsOk(s) && AcksOk(s) && FramesOk(s)
    ensures var s' := ReadOnce(s, head, body, accept);
            WireOk(s') && SlotOk(s') && ThreadsOk(s') && AcksOk(s') && FramesOk(s')
  {
    AcksKept(s, ReadOnce(s, head, body, accept));
  }

  lemma ReadKeepsPlace(s: System, head: ReadResult, body: ReadResult, accept: bool)
    requires WireOk(s) && FramesOk(s) && ReaderOk(s) && !s.inp.dead && (Reading(s.inp) ==> FromStream(s, head, body))
    ensures ReaderOk(ReadOnce(s, head, body, accept))
  {
    if Complete(s.inp.rpdu) {
      TakeOk(s);
    } else if BodyDue(s.inp.rpdu, head) {
      ReadsFit(s, head, body);
      var s1 := HeadPlace(s, head);
      var s2 := BodyAndOffer(s1, body, accept);
      ReadInTwo(s, head, body, accept, s1, s2);
    }
  }

  /** The system once the size word, if it was due, has been read. */
  function AfterHeadRead(s: System, head: ReadResult): System {
    s.(inp := s.inp.(rpdu := AfterHead(s.inp.rpdu, head)), pos := s.pos + HeadRead(s.inp.rpdu, head))
  }

  /** The size word, if it is due, is the next of the stream. */
  predicate HeadInStream(s: System, head: ReadResult) {
    s.inp.rpdu.sz == 0 && head.Got? ==>
      s.pos + |head.bytes| <= |s.wire| && head.bytes == s.wire[s.pos..s.pos + |head.bytes|]
  }

  /** The offer of a complete PDU to the manager. */
  function Offered(s: System, accept: bool): System {
    if Complete(s.inp.rpdu) && accept
    then s.(inp := s.inp.(rpdu := EMPTY), taken := s.taken + [s.inp.rpdu.buf.value])
    else s
  }

  /** The offer at the end of a callback. */
  lemma OfferPlace(s: System, accept: bool)
    requires ReaderOk(s) && (s.inp.dead ==> s.inp.rpdu == EMPTY)
    ensures ReaderOk(Offered(s, accept))
  {
    if Complete(s.inp.rpdu) {
      TakeOk(s);
    }
  }

  /** The bytes are the next of the stream, and no more than are missing from the PDU in the buffer. */
  predicate NextInStream(s: System, bytes: Bytes) {
    && 0 < |bytes| <= s.inp.rpdu.sz - s.inp.rpdu.solong && s.pos + |bytes| <= |s.wire|
    && bytes == s.wire[s.pos..s.pos + |bytes|]
  }

  lemma ReadsFit(s: System, head: ReadResult, body: ReadResult)
    requires FromStream(s, head, body) && BodyDue(s.inp.rpdu, head)
    ensures HeadInStream(s, head) && (body.Got? ==> NextInStream(AfterHeadRead(s, head), body.bytes))
  {
  }

  function AfterBodyRead(s: System, body: ReadResult): System {
    var (ok, r) := AfterBody(s.inp.rpdu, body);
    s.(inp := s.inp.(dead := !ok, rpdu := r), pos := s.pos + if body.Got? then |body.bytes| else 0)
  }

  /** A read callback is the read of the size word, if due, then the read of the rest, then the offer. */
  lemma ReadInTwo(s: System, head: ReadResult, body: ReadResult, accept: bool, s1: System, s2: System)
    requires Reading(s.inp) && FromStream(s, head, body) && BodyDue(s.inp.rpdu, head)
    requires s.inp.rpdu.buf.Some? ==> s.inp.rpdu.solong < s.inp.rpdu.sz
    requires s1 == AfterHeadRead(s, head)
    requires s2 == AfterBodyRead(s1, body)
    ensures ReadOnce(s, head, body, accept) == Offered(s2, accept)
  {
  }

  lemma BodyPlace(s: System, body: ReadResult) returns (s2: System)
    requires WireOk(s) && ReaderOk(s) && !s.inp.dead && s.inp.rpdu.buf.Some?
    requires body.Got? ==> NextInStream(s, body.bytes)
    ensures s2 == AfterBodyRead(s, body) && ReaderOk(s2) && (s2.inp.dead ==> s2.inp.rpdu == EMPTY)
  {
    s2 := AfterBodyRead(s, body);
    if body.Got? {
      BodyOk(s, s.inp.rpdu, body);
    }
  }

  lemma BodyAndOffer(s: System, body: ReadResult, accept: bool) returns (s2: System)
    requires WireOk(s) && ReaderOk(s) && !s.inp.dead && s.inp.rpdu.buf.Some?
    requires body.Got? ==> NextInStream(s, body.bytes)
    ensures s2 == AfterBodyRead(s, body)
    ensures ReaderOk(Offered(s2, accept))
  {
    s2 := BodyPlace(s, body);
    OfferPlace(s2, accept);
  }

  /** The reader once the size word, if it was due, is in. */
  lemma HeadPlace(s: System, head: ReadResult) returns (s1: System)
    requires WireOk(s) && FramesOk(s) && ReaderOk(s) && !s.inp.dead && BodyDue(s.inp.rpdu, head)
    requires HeadInStream(s, head)
    ensures s1 == AfterHeadRead(s, head)
    ensures ReaderOk(s1) && s1.inp.rpdu.buf.Some? && !s1.inp.dead && WireOk(s1)
  {
    s1 := AfterHeadRead(s, head);
    if s.inp.rpdu.sz == 0 {
      assert s.inp.rpdu == EMPTY;
      HeadDue(s, head, SizeWord(head).value);
    }
  }

  lemma HeadDue(s: System, head: ReadResult, sz: int)
    requires WireOk(s) && FramesOk(s) && ReaderOk(s) && !s.inp.dead && s.inp.rpdu == EMPTY
    requires SizeWord(head) == Some(sz) && HeadInStream(s, head)
    ensures AfterHeadRead(s, head) == s.(inp := s.inp.(rpdu := Slot(Some(head.bytes), sz, 4)), pos := s.pos + 4)
    ensures ReaderOk(AfterHeadRead(s, head))
  {
    HeadOk(s, head);
    HeadTaken(s, head.bytes, sz);
  }

  /** The reader with the first four bytes of the next frame in its buffer. */
  lemma HeadTaken(s: System, bytes: Bytes, sz: int)
    requires ReaderOk(s) && !s.inp.dead && |s.taken| < |s.started| && |bytes| == 4 && s.pos + 4 <= |s.wire|
    requires 4 < sz == |s.started[|s.taken|]| && bytes == s.started[|s.taken|][..4]
    requires s.wire[..s.pos + 4] == Flat(s.taken) + bytes
    ensures ReaderOk(s.(inp := s.inp.(rpdu := Slot(Some(bytes), sz, 4)), pos := s.pos + 4))
  {
  }

  lemma EnterInv(s: System, tid: nat, b: Bytes, res: WriteResult)
    requires Inv(s) && Enabled(s, Enter(tid, b, res))
    ensures Inv(Next(s, Enter(tid, b, res)))
  {
    if !s.out.dead && s.out.wpdu.buf.Some? {
      WaitInv(s, tid, b, s.out.waiters + 1);
    } else {
      TookInv(s, tid, b, s.out, res);
    }
  }

  /** A thread that finds the slot in use waits for it. */
  lemma WaitInv(s: System, tid: nat, b: Bytes, waiters: int)
    requires Inv(s) && Pdu(b) && (tid in s.threads ==> !Owner(s.threads[tid]))
    ensures Inv(Moved(s.(out := s.out.(waiters := waiters)), tid, b, |s.started|, WaitSlot))
  {
    var s' := s.(out := s.out.(waiters := waiters));
    NewCountInv(s, s'.out);
    WithoutThread(s', tid);
    MovedInv(s', tid, b, |s.started|, WaitSlot);
  }

  lemma WithoutThread(s: System, tid: nat)
    requires ThreadsOk(s)
    ensures ThreadsOk(s.(threads := s.threads - {tid}))
  {
  }

  lemma SlotWakeInv(s: System, tid: nat, res: WriteResult)
    requires Inv(s) && Enabled(s, SlotWake(tid, res))
    ensures Inv(Next(s, SlotWake(tid, res)))
  {
    var b := s.threads[tid].b;
    if !s.out.dead && s.out.wpdu.buf.Some? {
      MovedInv(s, tid, b, |s.started|, WaitSlot);
      SlotWakeWaits(s, tid, res);
    } else {
      var c := s.out.(waiters := s.out.waiters - 1);
      TookInv(s, tid, b, c, res);
      SlotWakeTakes(s, tid, c, res);
    }
  }

  lemma SlotWakeWaits(s: System, tid: nat, res: WriteResult)
    requires Enabled(s, SlotWake(tid, res)) && !s.out.dead && s.out.wpdu.buf.Some?
    ensures Next(s, SlotWake(tid, res)) == Moved(s, tid, s.threads[tid].b, |s.started|, WaitSlot)
  {
    assert s.(out := s.out) == s;
  }

  lemma SlotWakeTakes(s: System, tid: nat, c: Conn, res: WriteResult)
    requires Enabled(s, SlotWake(tid, res)) && (s.out.dead || s.out.wpdu.buf.None?)
    requires c == s.out.(waiters := s.out.waiters - 1)
    ensures Next(s, SlotWake(tid, res)) == Took(s, tid, s.threads[tid].b, AfterTake(c, s.threads[tid].b, res))
  {
  }

  lemma DoneWakeInv(s: System, tid: nat)
    requires Inv(s) && Enabled(s, DoneWake(tid))
    ensures Inv(Next(s, DoneWake(tid)))
  {
    var (c, p) := AfterDoneWake(s.out);
    if p.WaitDone? {
      assert forall t :: t in s.threads && t != tid ==> !Owner(s.threads[t]);
      MovedInv(s, tid, s.threads[tid].b, s.threads[tid].frame, p);
    } else {
      FinishInv(s, tid, c, p);
    }
  }

  lemma RemovedInv(s: System, tid: nat)
    requires Inv(s) && Enabled(s, Removed(tid))
    ensures Inv(Next(s, Removed(tid)))
  {
    var (c, p) := AfterFinish(s.out);
    FinishInv(s, tid, c, p);
  }

  lemma SleepInv(s: System, asleep: set<nat>)
    requires Inv(s)
    ensures Inv(s.(asleep := asleep))
  {
    AcksKept(s, s.(asleep := asleep));
    ReaderKept(s, s.(asleep := asleep));
  }

  lemma ReaderDiesInv(s: System)
    requires Inv(s)
    ensures Inv(s.(inp := s.inp.(dead := true)))
  {
    AcksKept(s, s.(inp := s.inp.(dead := true)));
  }

  lemma DiesInv(s: System)
    requires Inv(s)
    ensures Inv(Next(s, Dies))
  {
    AcksKept(s, Next(s, Dies));
    ReaderKept(s, Next(s, Dies));
  }

  lemma NextInv(s: System, step: Step)
    requires Inv(s) && Enabled(s, step)
    ensures Inv(Next(s, step))
  {
    match step
    case Enter(tid, b, res) => EnterInv(s, tid, b, res);
    case SpuriousWake(tid) => SleepInv(s, s.asleep - {tid});
    case SlotWake(tid, res) => SlotWakeInv(s, tid, res);
    case Removed(tid) => RemovedInv(s, tid);
    case DoneWake(tid) => DoneWakeInv(s, tid);
    case CanWrite(res) => CanWriteInv(s, res);
    case Dies => DiesInv(s);
    case ReaderDies => ReaderDiesInv(s);
    case CanRead(head, body, accept) => CanReadInv(s, head, body, accept);
  }

  lemma {:induction false} LeadsInv(s: System, steps: seq<Step>, t: System)
    requires Inv(s) && Leads(s, steps, t)
    ensures Inv(t)
    decreases |steps|
  {
    if steps != [] {
      NextInv(s, steps[0]);
      LeadsInv(Next(s, steps[0]), steps[1..], t);
    }
  }

  lemma ReachableInv(s: System, steps: seq<Step>, t: System)
    requires Init(s) && Leads(s, steps, t)
    ensures Inv(t)
  {
    InitInv(s);
    LeadsInv(s, steps, t);
  }

  // ---- Who waits for the slot ----

  function Waiting(s: System): set<nat> {
    set t | t in s.threads && s.threads[t].at.WaitSlot?
  }

  /** A slot in use has an owner, who will free it. */
  ghost predicate Owned(s: System) {
    s.out.wpdu.buf.Some? ==> exists t :: t in s.threads && Owner(s.threads[t])
  }

  /** The count is right, only waiting threads sleep, and none of them sleeps while the slot is free. */
  predicate SleepOk(s: System) {
    && s.out.waiters == |Waiting(s)| && s.asleep <= Waiting(s)
    && (s.asleep != {} ==> s.out.wpdu.buf.Some?)
  }

  lemma MovedWaiting(s: System, tid: nat, b: Bytes, frame: nat, p: Progress)
    ensures Waiting(Moved(s, tid, b, frame, p)) == if p.WaitSlot? then Waiting(s) + {tid} else Waiting(s) - {tid}
  {
  }

  /** The waiters after tid has moved on. */
  function Left(s: System, tid: nat, p: Progress): set<nat> {
    if p.WaitSlot? then Waiting(s) + {tid} else Waiting(s) - {tid}
  }

  lemma MovedSleep(s: System, tid: nat, b: Bytes, frame: nat, p: Progress)
    requires s.out.waiters == |Left(s, tid, p)| && s.asleep <= Waiting(s) && tid !in s.asleep
    requires p.WaitSlot? ==> s.out.wpdu.buf.Some?
    requires s.asleep != {} ==> s.out.wpdu.buf.Some? || (p.Returned? && (p.wake || s.out.waiters == 0))
    ensures SleepOk(Moved(s, tid, b, frame, p))
  {
    MovedWaiting(s, tid, b, frame, p);
  }

  lemma TakeSleep(c: Conn, b: Bytes, res: WriteResult)
    requires Pdu(b) && (res.Wrote? ==> res.n <= |b|)
    ensures var (c', p, bytes) := AfterTake(c, b, res);
            c'.waiters == c.waiters && !p.WaitSlot? && (c.dead ==> c'.wpdu == c.wpdu)
  {
  }

  lemma TookSleep(s: System, tid: nat, b: Bytes, c: Conn, res: WriteResult)
    requires SleepOk(s) && tid !in s.asleep && Pdu(b) && (res.Wrote? ==> res.n <= |b|)
    requires c == s.out.(waiters := c.waiters) && c.waiters == |Waiting(s) - {tid}|
    requires c.dead || c.wpdu.buf.None?
    ensures SleepOk(Took(s, tid, b, AfterTake(c, b, res)))
  {
    var (c', p, bytes) := AfterTake(c, b, res);
    TakeSleep(c, b, res);
    var s' := if s.out.dead then s.(out := c')
              else WithFrame(s, c', b, bytes);
    assert Waiting(s') == Waiting(s);
    MovedSleep(s', tid, b, |s.started|, p);
  }

  lemma WaitSleep(s: System, tid: nat, b: Bytes, waiters: int)
    requires SleepOk(s) && s.out.wpdu.buf.Some? && tid !in s.asleep && waiters == |Waiting(s) + {tid}|
    ensures SleepOk(Moved(s.(out := s.out.(waiters := waiters)), tid, b, |s.started|, WaitSlot))
  {
    var s' := s.(out := s.out.(waiters := waiters));
    assert Waiting(s') == Waiting(s);
    MovedSleep(s', tid, b, |s.started|, WaitSlot);
  }

  lemma EnterSleep(s: System, tid: nat, b: Bytes, res: WriteResult)
    requires SleepOk(s) && Enabled(s, Enter(tid, b, res))
    ensures SleepOk(Next(s, Enter(tid, b, res)))
  {
    assert tid !in Waiting(s) && Waiting(s) - {tid} == Waiting(s);
    if !s.out.dead && s.out.wpdu.buf.Some? {
      WaitSleep(s, tid, b, s.out.waiters + 1);
    } else {
      TookSleep(s, tid, b, s.out, res);
    }
  }

  lemma SlotWakeSleep(s: System, tid: nat, res: WriteResult)
    requires SleepOk(s) && Enabled(s, SlotWake(tid, res))
    ensures SleepOk(Next(s, SlotWake(tid, res)))
  {
    assert tid in Waiting(s) && Waiting(s) + {tid} == Waiting(s);
    if !s.out.dead && s.out.wpdu.buf.Some? {
      MovedSleep(s, tid, s.threads[tid].b, |s.started|, WaitSlot);
      SlotWakeWaits(s, tid, res);
    } else {
      var c := s.out.(waiters := s.out.waiters - 1);
      TookSleep(s, tid, s.threads[tid].b, c, res);
      SlotWakeTakes(s, tid, c, res);
    }
  }

  lemma OwnerSleep(s: System, tid: nat, after: (Conn, Progress))
    requires SleepOk(s) && tid in s.threads && Owner(s.threads[tid])
    requires after == AfterFinish(s.out) || after == (s.out, WaitDone)
    ensures SleepOk(Moved(s.(out := after.0), tid, s.threads[tid].b, s.threads[tid].frame, after.1))
  {
    var s' := s.(out := after.0);
    assert Waiting(s') == Waiting(s) == Waiting(s) - {tid};
    MovedSleep(s', tid, s.threads[tid].b, s.threads[tid].frame, after.1);
  }

  lemma SleepStep(s: System, step: Step)
    requires SleepOk(s) && Enabled(s, step)
    ensures SleepOk(Next(s, step))
  {
    match step
    case Enter(tid, b, res) => EnterSleep(s, tid, b, res);
    case SlotWake(tid, res) => SlotWakeSleep(s, tid, res);
    case Removed(tid) => OwnerSleep(s, tid, AfterFinish(s.out));
    case DoneWake(tid) => OwnerSleep(s, tid, AfterDoneWake(s.out));
    case SpuriousWake(tid) => assert Waiting(Next(s, step)) == Waiting(s);
    case CanWrite(res) => assert Waiting(Next(s, step)) == Waiting(s);
    case Dies => assert Waiting(Next(s, step)) == Waiting(s);
    case ReaderDies => assert Waiting(Next(s, step)) == Waiting(s);
    case CanRead(head, body, accept) => assert Waiting(Next(s, step)) == Waiting(s);
  }

  lemma MovedOwned(s: System, tid: nat, b: Bytes, frame: nat, p: Progress)
    requires s.out.wpdu.buf.Some? ==> p.Removing? || p.WaitDone?
                                      || exists t :: t != tid && t in s.threads && Owner(s.threads[t])
    ensures Owned(Moved(s, tid, b, frame, p))
  {
    var s' := Moved(s, tid, b, frame, p);
    if s.out.wpdu.buf.Some? {
      if p.Removing? || p.WaitDone? {
        assert Owner(s'.threads[tid]);
      } else {
        var t :| t != tid && t in s.threads && Owner(s.threads[t]);
        assert t in s'.threads && s'.threads[t] == s.threads[t];
      }
    }
  }

  lemma TookOwned(s: System, tid: nat, b: Bytes, c: Conn, res: WriteResult)
    requires Owned(s) && (tid in s.threads ==> !Owner(s.threads[tid])) && Pdu(b) && (res.Wrote? ==> res.n <= |b|)
    requires c == s.out.(waiters := c.waiters) && (c.dead || c.wpdu.buf.None?)
    ensures Owned(Took(s, tid, b, AfterTake(c, b, res)))
  {
    var (c', p, bytes) := AfterTake(c, b, res);
    var s' := if s.out.dead then s.(out := c')
              else WithFrame(s, c', b, bytes);
    TakeSleep(c, b, res);
    MovedOwned(s', tid, b, |s.started|, p);
  }

  lemma OwnedStep(s: System, step: Step)
    requires Owned(s) && Enabled(s, step)
    ensures Owned(Next(s, step))
  {
    match step
    case Enter(tid, b, res) =>
      if !s.out.dead && s.out.wpdu.buf.Some? {
        MovedOwned(s.(out := s.out.(waiters := s.out.waiters + 1)), tid, b, |s.started|, WaitSlot);
      } else {
        TookOwned(s, tid, b, s.out, res);
      }
    case SlotWake(tid, res) => SlotWakeOwned(s, tid, res);
    case Removed(tid) => MovedOwned(s.(out := AfterFinish(s.out).0), tid, s.threads[tid].b, s.threads[tid].frame,
                                    AfterFinish(s.out).1);
    case DoneWake(tid) => MovedOwned(s.(out := AfterDoneWake(s.out).0), tid, s.threads[tid].b, s.threads[tid].frame,
                                     AfterDoneWake(s.out).1);
    case SpuriousWake(tid) =>
    case CanWrite(res) =>
    case Dies =>
    case ReaderDies =>
    case CanRead(head, body, accept) =>
  }

  lemma SlotWakeOwned(s: System, tid: nat, res: WriteResult)
    requires Owned(s) && Enabled(s, SlotWake(tid, res))
    ensures Owned(Next(s, SlotWake(tid, res)))
  {
    if !s.out.dead && s.out.wpdu.buf.Some? {
      MovedOwned(s, tid, s.threads[tid].b, |s.started|, WaitSlot);
      SlotWakeWaits(s, tid, res);
    } else {
      var c := s.out.(waiters := s.out.waiters - 1);
      TookOwned(s, tid, s.threads[tid].b, c, res);
      SlotWakeTakes(s, tid, c, res);
    }
  }

  lemma {:induction false} LeadsSleep(s: System, steps: seq<Step>, t: System)
    requires SleepOk(s) && Owned(s) && Leads(s, steps, t)
    ensures SleepOk(t) && Owned(t)
    decreases |steps|
  {
    if steps != [] {
      SleepStep(s, steps[0]);
      OwnedStep(s, steps[0]);
      LeadsSleep(Next(s, steps[0]), steps[1..], t);
    }
  }

  // ---- The receiving end over a run ----

  lemma InputStep(s: System, step: Step)
    requires Enabled(s, step)
    ensures var t := Next(s, step);
            && s.taken <= t.taken && (s.inp.dead ==> t.inp.dead && t.taken == s.taken)
            && (!step.CanRead? ==> t.inp.rpdu == s.inp.rpdu && t.pos == s.pos && t.taken == s.taken)
  {
  }

  lemma {:induction false} TakenGrows(s: System, steps: seq<Step>, t: System)
    requires Leads(s, steps, t)
    ensures s.taken <= t.taken
    ensures s.inp.dead ==> t.inp.dead && t.taken == s.taken
    decreases |steps|
  {
    if steps != [] {
      InputStep(s, steps[0]);
      TakenGrows(Next(s, steps[0]), steps[1..], t);
    }
  }

  /** One callback with a complete PDU in the buffer: nothing is read, and it is taken or stays. */
  lemma OfferStep(s: System, step: Step)
    requires Complete(s.inp.rpdu) && Enabled(s, step)
    ensures var t := Next(s, step);
            || (t.inp.rpdu == s.inp.rpdu && t.pos == s.pos && t.taken == s.taken)
            || t.taken == s.taken + [s.inp.rpdu.buf.value]
  {
    if !step.CanRead? {
      InputStep(s, step);
    }
  }

  // ---- The promises ----

  /** The PDUs taken at one end are a prefix of those put on the wire at the other, in order and byte for byte. */
  lemma TakenIsPrefix(init: System, steps: seq<Step>, s: System)
    requires Init(init) && Leads(init, steps, s)
    ensures s.taken <= s.started && Flat(s.taken) <= s.wire <= Flat(s.started)
  {
    ReachableInv(init, steps, s);
    WireIsPrefix(s);
  }

  /**
   Every send that returned true has a frame of its own on the wire: whole, contiguous, between whole frames,
   and the frames of two such sends lie in the order in which they returned, even if their buffers are equal.
   */
  lemma TrueMeansWritten(init: System, steps: seq<Step>, s: System, i: nat)
    requires Init(init) && Leads(init, steps, s) && i < |s.acked|
    ensures var a := s.acked[i];
            && Pdu(a.b) && a.frame < |s.started| && s.started[a.frame] == Frame(a.b)
            && Flat(s.started[..a.frame + 1]) <= s.wire
    ensures forall j :: 0 <= j < i ==> s.acked[j].frame < s.acked[i].frame
  {
    ReachableInv(init, steps, s);
    assert OnWire(s, s.acked[i]);
  }

  /** The bytes of two PDUs never interleave: the wire is whole frames and the beginning of one more. */
  lemma NeverInterleaved(init: System, steps: seq<Step>, s: System)
    requires Init(init) && Leads(init, steps, s) && s.started != []
    ensures s.tail <= |Last(s)| && s.wire == Flat(s.started[..|s.started| - 1]) + Last(s)[..s.tail]
    ensures s.tail < |Last(s)| && s.out.wpdu.buf.None? ==> s.out.dead
  {
    ReachableInv(init, steps, s);
  }

  /** Nothing is written, and no frame started, once the sending end is dead. */
  lemma {:induction false} DeadIsFinal(s: System, steps: seq<Step>, t: System)
    requires Leads(s, steps, t) && s.out.dead
    ensures t.out.dead && t.wire == s.wire && t.started == s.started
    decreases |steps|
  {
    if steps != [] {
      DeadIsFinal(Next(s, steps[0]), steps[1..], t);
    }
  }

  /**
   A complete PDU that has been refused any number of times is not lost and not delivered twice: in every later state
   it is still in the buffer, with nothing read or taken meanwhile, or it was the next PDU to be taken.
   */
  lemma {:induction false} RefusedIsOfferedAgain(s: System, steps: seq<Step>, t: System)
    requires Leads(s, steps, t) && Complete(s.inp.rpdu)
    ensures || (t.inp.rpdu == s.inp.rpdu && t.pos == s.pos && t.taken == s.taken)
            || s.taken + [s.inp.rpdu.buf.value] <= t.taken
    decreases |steps|
  {
    if steps != [] {
      var u := Next(s, steps[0]);
      OfferStep(s, steps[0]);
      if u.taken == s.taken + [s.inp.rpdu.buf.value] {
        TakenGrows(u, steps[1..], t);
      } else {
        RefusedIsOfferedAgain(u, steps[1..], t);
      }
    }
  }

  /** A short read of the size word, or too big a size, ends the connection: from then on nothing is taken. */
  lemma ShortReadKills(s: System, head: ReadResult, body: ReadResult, accept: bool, steps: seq<Step>, t: System)
    requires Enabled(s, CanRead(head, body, accept)) && !s.inp.dead && s.inp.rpdu == EMPTY
    requires SizeWord(head).None?
    requires Leads(Next(s, CanRead(head, body, accept)), steps, t)
    ensures t.inp.dead && t.taken == s.taken
  {
    TakenGrows(Next(s, CanRead(head, body, accept)), steps, t);
  }

  /** The count of waiters is the number of threads that wait for the slot. */
  lemma WaitersCounted(init: System, steps: seq<Step>, s: System)
    requires Init(init) && Leads(init, steps, s)
    ensures s.out.waiters == |Waiting(s)|
  {
    assert Waiting(init) == {};
    LeadsSleep(init, steps, s);
  }

  /** While a thread sleeps on the slot, it is in use by a send that has not returned. */
  lemma NobodySleepsOnAFreeSlot(init: System, steps: seq<Step>, s: System)
    requires Init(init) && Leads(init, steps, s) && s.asleep != {}
    ensures s.out.wpdu.buf.Some?
    ensures exists t :: t in s.threads && Owner(s.threads[t])
  {
    assert Waiting(init) == {};
    LeadsSleep(init, steps, s);
  }
}
