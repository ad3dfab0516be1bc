/** Every send on a live connection can come to its end with a true result, with no spurious wake-up. */
module ConnectionSends {
  import opened Wire
  import opened Connection
  import opened ConnectionWakeups
  import R = ConnectionRuns
  import P = ConnectionProgress

  // ---- What the callbacks do for the sender ----

  /** A write callback wakes the sleeping owner exactly if its wait is over, and stays registered while it is needed. */
  lemma WriteCallbackExact(init: State, steps: seq<Step>, s: State, res: WriteResult)
    requires Init(init) && Leads(init, steps, s) && Enabled(s, WriteCallback(res))
    ensures var t := Next(s, WriteCallback(res));
            && (t.dozing <==> s.dozing && !WaitOver(t.sys.out))
            && (t.watch <==> !t.sys.out.dead && s.sys.out.wpdu.buf.Some?)
            && (t.sys.out.dead <==> !WritesNothing(s.sys) && res.WriteError?)
  {
    ReachableInv(init, steps, s);
  }

  predicate WritesNothing(sys: R.System) {
    sys.out.wpdu.buf.None? || sys.out.wpdu.solong == sys.out.wpdu.sz
  }

  /** How a connection dies otherwise, and whom that wakes. */
  lemma DeathsExact(s: State)
    requires !s.aborted
    ensures Next(s, CloseConn).sys.out.dead && Next(s, CloseConn).dozing == s.dozing
    ensures !s.sys.out.dead ==>
              var t := Next(s, ReadFails); t.sys.out.dead && !t.dozing && !t.watch && t.sys.threads == s.sys.threads
  {
  }

  // ---- Sends can succeed ----

  /** The slot is free on a live connection, nobody sleeps on it, and the threads that wait for it still do. */
  predicate Freed(s: State, t: State) {
    && !t.aborted && !t.sys.out.dead && t.sys.out.wpdu.buf.None? && t.sys.asleep == {}
    && |s.sys.acked| <= |t.sys.acked|
    && (forall u :: u in s.sys.threads && s.sys.threads[u].at.WaitSlot? ==>
          u in t.sys.threads && t.sys.threads[u] == s.sys.threads[u])
    && (forall u :: u in t.sys.threads ==> u in s.sys.threads)
  }

  /** The last acknowledged send is that of the buffer. */
  predicate AckedLast(sys: R.System, b: Bytes) {
    sys.acked != [] && sys.acked[|sys.acked| - 1].b == b
  }

  /** The owner comes to its end. */
  lemma OwnerEnds(s: State, o: nat) returns (steps: seq<Step>, t: State)
    requires Inv(s) && !s.aborted && !s.sys.out.dead && o in s.sys.threads && R.Owner(s.sys.threads[o])
    ensures Leads(s, steps, t) && Proper(steps) && Inv(t) && Freed(s, t)
    ensures o !in t.sys.threads && |t.sys.acked| == |s.sys.acked| + 1 && AckedLast(t.sys, s.sys.threads[o].b)
  {
    OneOwner(s.sys, o);
    assert Came(s.sys, o);
    if WaitOver(s.sys.out) {
      OneStep(s, DoneWake(o));
      steps, t := [DoneWake(o)], Next(s, DoneWake(o));
      OwnerGone(s, o);
      NextInv(s, DoneWake(o));
    } else {
      var write := RestIsWritten(s);
      var u := Next(s, write);
      NextInv(s, write);
      OwnerGone(u, o);
      NextInv(u, DoneWake(o));
      TwoSteps(s, write, DoneWake(o));
      steps, t := [write, DoneWake(o)], Next(u, DoneWake(o));
    }
  }

  /** The rest of the PDU goes out, and the connection lives. */
  lemma RestIsWritten(s: State) returns (step: Step)
    requires Inv(s) && !s.aborted && !s.sys.out.dead && SomeDone(s.sys) && !WaitOver(s.sys.out)
    ensures Enabled(s, step) && !Spurious(step)
    ensures var t := Next(s, step);
            && !t.aborted && !t.dozing && !t.sys.out.dead && WaitOver(t.sys.out)
            && t.sys.threads == s.sys.threads && t.sys.acked == s.sys.acked && t.sys.asleep == s.sys.asleep
  {
    var w := s.sys.out.wpdu;
    var u :| Came(s.sys, u);
    OneOwner(s.sys, u);
    step := WriteCallback(Wrote(w.sz - w.solong));
  }

  lemma OwnerGone(s: State, o: nat)
    requires Inv(s) && !s.aborted && !s.dozing && !s.sys.out.dead && Came(s.sys, o) && WaitOver(s.sys.out)
    ensures Enabled(s, DoneWake(o))
    ensures var t := Next(s, DoneWake(o));
            && Freed(s, t) && o !in t.sys.threads
            && |t.sys.acked| == |s.sys.acked| + 1 && AckedLast(t.sys, s.sys.threads[o].b)
  {
    FinishWakes(s, o, DoneWake(o));
    P.EndOutcomeHolds(s.sys, o);
  }

  /** The slot can be freed. */
  lemma SlotFreed(s: State) returns (steps: seq<Step>, t: State)
    requires Inv(s) && !s.aborted && !s.sys.out.dead
    ensures Leads(s, steps, t) && Proper(steps) && Inv(t) && Freed(s, t)
  {
    if s.sys.out.wpdu.buf.None? {
      steps, t := [], s;
    } else {
      var o :| o in s.sys.threads && R.Owner(s.sys.threads[o]);
      steps, t := OwnerEnds(s, o);
    }
  }

  lemma {:induction false} LeadsOn(s: State, a: seq<Step>, t: State, step: Step)
    requires Leads(s, a, t) && Proper(a) && Enabled(t, step) && !Spurious(step)
    ensures Leads(s, a + [step], Next(t, step)) && Proper(a + [step])
  {
    LeadsSnoc(s, a, t, step);
  }

  /** A thread that is inside `send` on a live connection can come to return true. */
  lemma SendCanSucceed(init: State, before: seq<Step>, s: State, tid: nat) returns (steps: seq<Step>, t: State)
    requires Init(init) && Leads(init, before, s) && !s.aborted && !s.sys.out.dead && tid in s.sys.threads
    ensures Leads(s, steps, t) && Proper(steps) && !t.sys.out.dead
    ensures tid !in t.sys.threads && |t.sys.acked| > |s.sys.acked| && AckedLast(t.sys, s.sys.threads[tid].b)
  {
    ReachableInv(init, before, s);
    if R.Owner(s.sys.threads[tid]) {
      steps, t := OwnerEnds(s, tid);
    } else {
      var b := s.sys.threads[tid].b;
      var u;
      steps, u := SlotFreed(s);
      var step := Sends(R.SlotWake(tid, Wrote(|b|)));
      P.SlotWakeOutcome(u.sys, tid, Wrote(|b|));
      LeadsOn(s, steps, u, step);
      steps, t := steps + [step], Next(u, step);
    }
  }

  /** So can a send that is made now, whoever else is inside. */
  lemma NewSendCanSucceed(init: State, before: seq<Step>, s: State, tid: nat, b: Bytes)
    returns (steps: seq<Step>, t: State)
    requires Init(init) && Leads(init, before, s) && !s.aborted && !s.sys.out.dead && tid !in s.sys.threads && Pdu(b)
    ensures Leads(s, steps, t) && Proper(steps) && !t.sys.out.dead
    ensures tid !in t.sys.threads && |t.sys.acked| > |s.sys.acked| && AckedLast(t.sys, b)
  {
    ReachableInv(init, before, s);
    var u;
    steps, u := SlotFreed(s);
    var step := Sends(R.Enter(tid, b, Wrote(|b|)));
    P.EnterOutcome(u.sys, tid, b, Wrote(|b|));
    LeadsOn(s, steps, u, step);
    steps, t := steps + [step], Next(u, step);
  }
}
