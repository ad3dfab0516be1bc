/**
 One end of a connection: the single write slot that all senders share, and the buffer a
 PDU is assembled in. System calls are parameters that say what the call returned.
 */
module Connection {
  import opened Wire
  import opened RpcMessages

  const MAX_PDU := 0xA0_0000

  /** A `charbuf`: the buffer, its size, and how much of it has been written or read. */
  datatype Slot = Slot(buf: Option<Bytes>, sz: int, solong: int)

  const EMPTY := Slot(None, 0, 0)

  datatype Conn = Conn(dead: bool, wpdu: Slot, rpdu: Slot, waiters: int)

  datatype WriteResult = Wrote(n: nat) | WouldBlock | WriteError
  datatype ReadResult = Got(bytes: Bytes) | TryAgain | Closed

  /**
   Where a `send` is when it has given up the lock: nowhere, or at one of its three waits.
   `wake` says that on its way out it broadcast to those that wait for the slot.
   */
  datatype Progress = Returned(ok: bool, wake: bool) | WaitSlot | Removing | WaitDone

  /** A buffer that may be sent. Its size is a positive `int`; only the receiving end refuses more than MAX_PDU. */
  predicate Pdu(b: Bytes) {
    4 < |b| < 0x8000_0000
  }

  /** What goes on the wire for a buffer: its first four bytes become its length. */
  function Frame(b: Bytes): (f: Bytes)
    requires Pdu(b)
    ensures |f| == |b|
  {
    Be32(|b|) + b[4..]
  }

  lemma FrameTwice(b: Bytes)
    requires Pdu(b)
    ensures Frame(Frame(b)) == Frame(b)
  {
    assert (Be32(|b|) + b[4..])[4..] == b[4..];
  }

  /** The frame is the buffer behind its own length, most significant byte first. */
  lemma FrameCarries(b: Bytes)
    requires Pdu(b)
    ensures var f := Frame(b);
            |f| == |b| && f[4..] == b[4..] && FromBe32(f[0], f[1], f[2], f[3]) == |b|
            && f[0] as int == |b| / 0x100_0000 && f[3] as int == |b| % 0x100
  {
    Be32RoundTrip(|b|);
  }

  predicate Writable(w: Slot) {
    && w.buf.Some? && Pdu(w.buf.value) && w.sz == |w.buf.value| && 0 <= w.solong <= w.sz
  }

  predicate Fits(w: Slot, res: WriteResult) {
    res.Wrote? ==> w.solong + res.n <= w.sz
  }

  /** `writepdu`: success, the slot afterwards, and the bytes the system call took. */
  function AfterWrite(w: Slot, res: WriteResult): (bool, Slot, Bytes)
    requires Writable(w) && Fits(w, res)
  {
    if w.solong == w.sz then (true, w, [])
    else
      var b := if w.solong == 0 then Frame(w.buf.value) else w.buf.value;
      match res
      case Wrote(n) => (true, Slot(Some(b), w.sz, w.solong + n), b[w.solong..w.solong + n])
      case WouldBlock => (true, Slot(Some(b), w.sz, w.solong), [])
      case WriteError => (false, Slot(Some(b), 0, -1), [])
  }

  /** The end of `send`: what it returns, the slot is free again, and those that wait for it are woken. */
  function AfterFinish(c: Conn): (Conn, Progress) {
    (c.(wpdu := EMPTY), Returned(!c.dead && c.wpdu.solong == c.wpdu.sz, c.waiters > 0))
  }

  /** `send` from the moment it stops waiting for the slot up to its next wait. */
  function AfterTake(c: Conn, b: Bytes, res: WriteResult): (Conn, Progress, Bytes)
    requires Pdu(b) && (res.Wrote? ==> res.n <= |b|)
  {
    if c.dead then (c, Returned(false, false), [])
    else
      var (ok, w, bytes) := AfterWrite(Slot(Some(b), |b|, 0), res);
      if !ok then (c.(dead := true, wpdu := w), Removing, bytes)
      else if w.solong == w.sz then
        var (c', p) := AfterFinish(c.(wpdu := w));
        (c', p, bytes)
      else (c.(wpdu := w), WaitDone, bytes)
  }

  function AfterEnter(c: Conn, b: Bytes, res: WriteResult): (Conn, Progress, Bytes)
    requires Pdu(b) && (res.Wrote? ==> res.n <= |b|)
  {
    if !c.dead && c.wpdu.buf.Some? then (c.(waiters := c.waiters + 1), WaitSlot, [])
    else AfterTake(c, b, res)
  }

  function AfterSlotWake(c: Conn, b: Bytes, res: WriteResult): (Conn, Progress, Bytes)
    requires Pdu(b) && (res.Wrote? ==> res.n <= |b|)
  {
    if !c.dead && c.wpdu.buf.Some? then (c, WaitSlot, [])
    else AfterTake(c.(waiters := c.waiters - 1), b, res)
  }

  function AfterDoneWake(c: Conn): (Conn, Progress) {
    if !c.dead && 0 <= c.wpdu.solong < c.wpdu.sz then (c, WaitDone) else AfterFinish(c)
  }

  function AfterWriteCb(c: Conn, res: WriteResult): (Conn, Bytes)
    requires c.wpdu.sz != 0 ==> Writable(c.wpdu) && Fits(c.wpdu, res)
  {
    if c.wpdu.sz == 0 then (c, [])
    else
      var (ok, w, bytes) := AfterWrite(c.wpdu, res);
      (c.(wpdu := w, dead := c.dead || !ok), bytes)
  }

  /** Whether the write callback gives up its registration, and whether it signals the end of a send. */
  predicate Unwatches(c: Conn, c': Conn) {
    c.wpdu.sz == 0 || c'.dead
  }

  predicate Signals(c: Conn, c': Conn) {
    c.wpdu.sz != 0 && (c'.dead || c'.wpdu.solong >= c'.wpdu.sz)
  }

  // ---- Reading ----

  /** The size word, if that is what the first read delivered and it is not too big. */
  function SizeWord(head: ReadResult): Option<u32> {
    if head.Got? && |head.bytes| == 4 then
      var sz := FromBe32(head.bytes[0], head.bytes[1], head.bytes[2], head.bytes[3]);
      if sz <= MAX_PDU then Some(sz) else None
    else None
  }

  /**
   `readpdu`: success and the buffer afterwards. `head` is the read of the size word, made
   only when no PDU is being assembled; `body` is the read of the rest.
   */
  function AfterRead(r: Slot, head: ReadResult, body: ReadResult): (bool, Slot) {
    if r.sz == 0 then
      match SizeWord(head)
      case None => (false, r)
      case Some(sz) => AfterBody(Slot(Some(head.bytes), sz, 4), body)
    else AfterBody(r, body)
  }

  function AfterBody(r: Slot, body: ReadResult): (bool, Slot) {
    match body
    case Got(bytes) =>
      (true, Slot(Some((if r.buf.Some? then r.buf.value else []) + bytes), r.sz, r.solong + |bytes|))
    case TryAgain => (true, r)
    case Closed => (false, EMPTY)
  }

  predicate Complete(r: Slot) {
    r.buf.Some? && r.sz == r.solong
  }

  /** `read_cb`: `accept` is what the manager answers if it is offered a complete PDU. */
  function AfterReadCb(c: Conn, head: ReadResult, body: ReadResult, accept: bool): (Conn, Option<Bytes>) {
    if c.dead then (c, None)
    else
      var (ok, r) := if c.rpdu.buf.None? || c.rpdu.solong < c.rpdu.sz then AfterRead(c.rpdu, head, body)
                     else (true, c.rpdu);
      var c' := c.(dead := !ok, rpdu := r);
      if Complete(r) && accept then (c'.(rpdu := EMPTY), r.buf) else (c', None)
  }

  /** The object; `send` is cut at the points where it gives up the lock. */
  class Channel {
    var dead: bool
    var wpdu: Slot
    var rpdu: Slot
    var waiters: int

    function State(): Conn
      reads this
    {
      Conn(dead, wpdu, rpdu, waiters)
    }

    constructor ()
      ensures State() == Conn(false, EMPTY, EMPTY, 0)
    {
      dead, wpdu, rpdu, waiters := false, EMPTY, EMPTY, 0;
    }

    /** `closeconn` up to the removal of the callbacks, which only the caller that kills the connection makes. */
    method CloseConn() returns (removes: bool)
      modifies this`dead
      ensures State() == old(State()).(dead := true) && removes == !old(dead)
    {
      removes := !dead;
      if !dead {
        dead := true;
      }
    }

    method WritePdu(res: WriteResult) returns (ok: bool, bytes: Bytes)
      requires Writable(wpdu) && Fits(wpdu, res)
      modifies this`wpdu
      ensures (ok, wpdu, bytes) == AfterWrite(old(wpdu), res)
    {
      if wpdu.solong == wpdu.sz {
        return true, [];
      }
      if wpdu.solong == 0 {
        wpdu := wpdu.(buf := Some(Frame(wpdu.buf.value)));
      }
      match res {
        case WriteError =>
          wpdu := wpdu.(solong := -1, sz := 0);
          return false, [];
        case WouldBlock =>
          return true, [];
        case Wrote(n) =>
          bytes := wpdu.buf.value[wpdu.solong..wpdu.solong + n];
          wpdu := wpdu.(solong := wpdu.solong + n);
          ok := true;
      }
    }

    method Finish() returns (p: Progress)
      modifies this`wpdu
      ensures (State(), p) == AfterFinish(old(State()))
    {
      var ret := !dead && wpdu.solong == wpdu.sz;
      wpdu := EMPTY;
      p := Returned(ret, waiters > 0);
    }

    method SendTakesSlot(b: Bytes, res: WriteResult) returns (p: Progress, bytes: Bytes)
      requires Pdu(b) && (res.Wrote? ==> res.n <= |b|)
      modifies this
      ensures (State(), p, bytes) == AfterTake(old(State()), b, res)
    {
      if dead {
        return Returned(false, false), [];
      }
      wpdu := Slot(Some(b), |b|, 0);
      var ok;
      ok, bytes := WritePdu(res);
      if !ok {
        dead := true;
        p := Removing;
      } else if wpdu.solong == wpdu.sz {
        p := Finish();
      } else {
        p := WaitDone;
      }
    }

    method SendEnters(b: Bytes, res: WriteResult) returns (p: Progress, bytes: Bytes)
      requires Pdu(b) && (res.Wrote? ==> res.n <= |b|)
      modifies this
      ensures (State(), p, bytes) == AfterEnter(old(State()), b, res)
    {
      waiters := waiters + 1;
      if !dead && wpdu.buf.Some? {
        return WaitSlot, [];
      }
      waiters := waiters - 1;
      p, bytes := SendTakesSlot(b, res);
    }

    method SendWakesForSlot(b: Bytes, res: WriteResult) returns (p: Progress, bytes: Bytes)
      requires Pdu(b) && (res.Wrote? ==> res.n <= |b|)
      modifies this
      ensures (State(), p, bytes) == AfterSlotWake(old(State()), b, res)
    {
      if !dead && wpdu.buf.Some? {
        return WaitSlot, [];
      }
      waiters := waiters - 1;
      p, bytes := SendTakesSlot(b, res);
    }

    method SendWakesWhenDone() returns (p: Progress)
      modifies this
      ensures (State(), p) == AfterDoneWake(old(State()))
    {
      if !dead && wpdu.solong >= 0 && wpdu.solong < wpdu.sz {
        return WaitDone;
      }
      p := Finish();
    }

    /** `unwatch`: the callback deletes its registration; `signal`: it signals `send_complete_`. */
    method WriteCb(res: WriteResult) returns (bytes: Bytes, unwatch: bool, signal: bool)
      requires !dead && (wpdu.sz != 0 ==> Writable(wpdu) && Fits(wpdu, res))
      modifies this
      ensures (State(), bytes) == AfterWriteCb(old(State()), res)
      ensures unwatch == Unwatches(old(State()), State()) && signal == Signals(old(State()), State())
    {
      if wpdu.sz == 0 {
        return [], true, false;
      }
      var ok;
      ok, bytes := WritePdu(res);
      if !ok {
        dead := true;
        return bytes, true, true;
      }
      if wpdu.solong < wpdu.sz {
        return bytes, false, false;
      }
      return bytes, false, true;
    }

    method ReadPdu(head: ReadResult, body: ReadResult) returns (ok: bool)
      modifies this`rpdu
      ensures (ok, rpdu) == AfterRead(old(rpdu), head, body)
    {
      if rpdu.sz == 0 {
        var sz := SizeWord(head);
        if sz.None? {
          return false;
        }
        rpdu := Slot(Some(head.bytes), sz.value, 4);
      }
      match body {
        case Got(bytes) =>
          rpdu := Slot(Some((if rpdu.buf.Some? then rpdu.buf.value else []) + bytes), rpdu.sz, rpdu.solong + |bytes|);
          ok := true;
        case TryAgain =>
          ok := true;
        case Closed =>
          rpdu := EMPTY;
          ok := false;
      }
    }

    /** `failed`: the callback deletes all registrations and signals `send_complete_`. */
    method ReadCb(head: ReadResult, body: ReadResult, accept: bool) returns (taken: Option<Bytes>, failed: bool)
      modifies this
      ensures (State(), taken) == AfterReadCb(old(State()), head, body, accept)
      ensures failed <==> dead && !old(dead)
    {
      if dead {
        return None, false;
      }
      var succ := true;
      if rpdu.buf.None? || rpdu.solong < rpdu.sz {
        succ := ReadPdu(head, body);
      }
      failed := !succ;
      if !succ {
        dead := true;
      }
      taken := None;
      if rpdu.buf.Some? && rpdu.sz == rpdu.solong && accept {
        taken := rpdu.buf;
        rpdu := EMPTY;
      }
    }
  }
}
