/**
 The sending end with what wakes its threads: the condition a send sleeps on until its PDU is out, the
 registration for write callbacks, and the ways in which the connection may die. Each run is one of
 `ConnectionRuns`, so what is proved there holds here.
 */
module ConnectionWakeups {
  import opened Wire
  import opened RpcMessages
  import opened Connection
  import R = ConnectionRuns

  /**
   `dozing`: the send that owns the slot is asleep on `send_complete_`. `watch`: write callbacks are
   registered, or a removal of them has not returned. `closing`: `closeconn` is in that removal.
   `aborted`: an assertion has ended the process. `closed` is history: `closeconn` killed the connection.
   */
  datatype State = State(sys: R.System, dozing: bool, watch: bool, closing: bool, closed: bool, aborted: bool)

  predicate Init(s: State) {
    R.Init(s.sys) && s == State(s.sys, false, false, false, false, false)
  }

  datatype Step =
    | Sends(step: R.Step)
    | Removed(tid: nat)
    | DoneWake(tid: nat)
    | SpuriousDone
    | WriteCallback(res: WriteResult)
    | WriteCallbackAborts
    | ReadFails
    | CloseConn
    | CloseReturns
    | Receives(step: R.Step)

  predicate Enabled(s: State, step: Step) {
    && !s.aborted
    && match step
       case Sends(st) => (st.Enter? || st.SpuriousWake? || st.SlotWake?) && R.Enabled(s.sys, st)
       case Removed(tid) => R.Enabled(s.sys, R.Removed(tid))
       case DoneWake(tid) => !s.dozing && R.Enabled(s.sys, R.DoneWake(tid))
       case SpuriousDone => s.dozing
       case WriteCallback(res) => s.watch && R.Enabled(s.sys, R.CanWrite(res))
       case WriteCallbackAborts => s.watch && s.sys.out.dead
       case ReadFails => !s.sys.out.dead
       case CloseConn => true
       case CloseReturns => s.closing
       case Receives(st) => (st.ReaderDies? || st.CanRead?) && R.Enabled(s.sys, st)
  }

  /** The thread has come to the wait for the end of its send. */
  predicate Came(sys: R.System, tid: nat) {
    tid in sys.threads && sys.threads[tid].at.WaitDone?
  }

  /** A partial write registers for write callbacks and puts the sender to sleep. */
  function Sent(s: State, t: R.System, tid: nat): State {
    s.(sys := t, dozing := s.dozing || Came(t, tid), watch := s.watch || Came(t, tid))
  }

  function Written(s: State, t: R.System): State {
    s.(sys := t,
       dozing := s.dozing && !Signals(s.sys.out, t.out),
       watch := s.watch && !Unwatches(s.sys.out, t.out))
  }

  /** A failed read signals the sender and deletes all registrations. */
  function ReadFailed(s: State): State {
    s.(sys := R.Next(s.sys, R.Dies), dozing := false, watch := false)
  }

  /** `closeconn` signals nobody. */
  function Closed(s: State): State {
    if s.sys.out.dead then s else s.(sys := R.Next(s.sys, R.Dies), closing := true, closed := true)
  }

  function Next(s: State, step: Step): State
    requires Enabled(s, step)
  {
    match step
    case Sends(st) => Sent(s, R.Next(s.sys, st), st.tid)
    case Removed(tid) => s.(sys := R.Next(s.sys, R.Removed(tid)), watch := false)
    case DoneWake(tid) => var t := R.Next(s.sys, R.DoneWake(tid)); s.(sys := t, dozing := Came(t, tid))
    case SpuriousDone => s.(dozing := false)
    case WriteCallback(res) => Written(s, R.Next(s.sys, R.CanWrite(res)))
    case WriteCallbackAborts => s.(aborted := true)
    case ReadFails => ReadFailed(s)
    case CloseConn => Closed(s)
    case CloseReturns => s.(closing := false, watch := false)
    case Receives(st) => s.(sys := R.Next(s.sys, st))
  }

  predicate Leads(s: State, steps: seq<Step>, t: State)
    decreases |steps|
  {
    if steps == [] then s == t
    else Enabled(s, steps[0]) && Leads(Next(s, steps[0]), steps[1..], t)
  }

  predicate Spurious(step: Step) {
    step.SpuriousDone? || (step.Sends? && step.step.SpuriousWake?)
  }

  predicate Proper(steps: seq<Step>) {
    forall k :: 0 <= k < |steps| ==> !Spurious(steps[k])
  }

  // ---- Every run is one of the two ends' ----

  /** The step of the two ends that a step here makes, if any. */
  function BaseOf(s: State, step: Step): Option<R.Step> {
    match step
    case Sends(st) => Some(st)
    case Removed(tid) => Some(R.Removed(tid))
    case DoneWake(tid) => Some(R.DoneWake(tid))
    case SpuriousDone => None
    case WriteCallback(res) => Some(R.CanWrite(res))
    case WriteCallbackAborts => None
    case ReadFails => Some(R.Dies)
    case CloseConn => if s.sys.out.dead then None else Some(R.Dies)
    case CloseReturns => None
    case Receives(st) => Some(st)
  }

  lemma BaseStep(s: State, step: Step)
    requires Enabled(s, step)
    ensures var b := BaseOf(s, step);
            if b.None? then Next(s, step).sys == s.sys
            else R.Enabled(s.sys, b.value) && Next(s, step).sys == R.Next(s.sys, b.value)
  {
  }

  lemma {:induction false} Refines(s: State, steps: seq<Step>, t: State) returns (base: seq<R.Step>)
    requires Leads(s, steps, t)
    ensures R.Leads(s.sys, base, t.sys)
    decreases |steps|
  {
    if steps == [] {
      base := [];
    } else {
      base := Refines(Next(s, steps[0]), steps[1..], t);
      BaseStep(s, steps[0]);
      var b := BaseOf(s, steps[0]);
      if b.Some? {
        assert ([b.value] + base)[1..] == base;
        base := [b.value] + base;
      }
    }
  }

  // ---- Invariant ----

  ghost predicate SysInv(sys: R.System) {
    R.Inv(sys) && R.SleepOk(sys) && R.Owned(sys)
  }

  /** The condition that a send waits for on `send_complete_` holds no more. */
  predicate WaitOver(c: Conn) {
    c.dead || !(0 <= c.wpdu.solong < c.wpdu.sz)
  }

  ghost predicate SomeDone(sys: R.System) {
    exists t :: Came(sys, t)
  }

  ghost predicate SomeRemoving(sys: R.System) {
    exists t :: t in sys.threads && sys.threads[t].at.Removing?
  }

  /** A sleeper has work left to wait for, unless `closeconn` killed the connection under it. */
  ghost predicate DozeOk(s: State) {
    && (s.dozing ==> SomeDone(s.sys))
    && (s.dozing && WaitOver(s.sys.out) ==> s.closed)
    && (s.closed ==> s.sys.out.dead) && (s.closing ==> s.closed)
  }

  /** While a send waits on a live connection callbacks come; on a dead one they may come only during a removal. */
  ghost predicate WatchOk(s: State) {
    && (!s.sys.out.dead && SomeDone(s.sys) ==> s.watch)
    && (s.sys.out.dead && s.watch ==> s.closing || SomeRemoving(s.sys))
  }

  ghost predicate Inv(s: State) {
    SysInv(s.sys) && DozeOk(s) && WatchOk(s)
  }

  lemma SysStep(sys: R.System, step: R.Step)
    requires SysInv(sys) && R.Enabled(sys, step)
    ensures SysInv(R.Next(sys, step))
  {
    R.NextInv(sys, step);
    R.SleepStep(sys, step);
    R.OwnedStep(sys, step);
  }

  /** What a step of a sender does to the others, and how it leaves the slot. */
  ghost predicate SendFrame(sys: R.System, t: R.System, tid: nat) {
    && (forall u :: u != tid ==> (u in t.threads <==> u in sys.threads))
    && (forall u :: u != tid && u in t.threads ==> t.threads[u] == sys.threads[u])
    && (Came(t, tid) ==> !WaitOver(t.out))
    && (if sys.out.dead || sys.out.wpdu.buf.Some? then
          t.out.dead == sys.out.dead && t.out.wpdu == sys.out.wpdu && !Came(t, tid)
        else t.out.dead ==> tid in t.threads && t.threads[tid].at.Removing?)
  }

  lemma TakeFrame(sys: R.System, tid: nat, b: Bytes, c: Conn, res: WriteResult)
    requires Pdu(b) && (res.Wrote? ==> res.n <= |b|)
    requires c == sys.out.(waiters := c.waiters) && (c.dead || c.wpdu.buf.None?)
    ensures SendFrame(sys, R.Took(sys, tid, b, AfterTake(c, b, res)), tid)
  {
  }

  lemma SendsFrame(sys: R.System, step: R.Step)
    requires R.Enabled(sys, step) && (step.Enter? || step.SlotWake?)
    ensures SendFrame(sys, R.Next(sys, step), step.tid)
  {
    match step
    case Enter(tid, b, res) =>
      if sys.out.dead || sys.out.wpdu.buf.None? {
        TakeFrame(sys, tid, b, sys.out, res);
      }
    case SlotWake(tid, res) =>
      if sys.out.dead || sys.out.wpdu.buf.None? {
        var c := sys.out.(waiters := sys.out.waiters - 1);
        TakeFrame(sys, tid, sys.threads[tid].b, c, res);
        R.SlotWakeTakes(sys, tid, c, res);
      } else {
        R.SlotWakeWaits(sys, tid, res);
      }
  }

  /** Nobody owns a free slot, and only one thread a slot in use. */
  lemma OneOwner(sys: R.System, t: nat)
    requires R.ThreadsOk(sys) && t in sys.threads && R.Owner(sys.threads[t])
    ensures sys.out.wpdu.buf.Some?
    ensures forall u :: u in sys.threads && R.Owner(sys.threads[u]) ==> u == t
  {
  }

  lemma SentOk(s: State, t: R.System, tid: nat)
    requires R.ThreadsOk(s.sys) && R.SlotOk(s.sys) && DozeOk(s) && WatchOk(s) && SendFrame(s.sys, t, tid)
    requires tid in s.sys.threads ==> !R.Owner(s.sys.threads[tid])
    ensures DozeOk(Sent(s, t, tid)) && WatchOk(Sent(s, t, tid))
  {
    var s' := Sent(s, t, tid);
    forall u | Came(s.sys, u) ensures Came(t, u) && s.sys.out.wpdu.buf.Some? {
      OneOwner(s.sys, u);
    }
    forall u | Came(t, u) && u != tid ensures Came(s.sys, u) {
    }
    if s.sys.out.dead && s.watch && !s.closing {
      var u :| u in s.sys.threads && s.sys.threads[u].at.Removing?;
      assert t.threads[u] == s.sys.threads[u];
    }
  }

  lemma SendsOk(s: State, step: R.Step)
    requires Inv(s) && Enabled(s, Sends(step))
    ensures DozeOk(Next(s, Sends(step))) && WatchOk(Next(s, Sends(step)))
  {
    if step.SpuriousWake? {
      assert step.tid in R.Waiting(s.sys);
      SameThreads(s, Next(s, Sends(step)));
    } else {
      SendsFrame(s.sys, step);
      SentOk(s, R.Next(s.sys, step), step.tid);
    }
  }

  lemma SameThreads(s: State, s': State)
    requires DozeOk(s) && WatchOk(s) && s'.sys.threads == s.sys.threads && s'.sys.out == s.sys.out
    requires s' == s.(sys := s'.sys)
    ensures DozeOk(s') && WatchOk(s')
  {
    assert forall u :: Came(s'.sys, u) <==> Came(s.sys, u);
    assert SomeDone(s'.sys) <==> SomeDone(s.sys);
    assert SomeRemoving(s'.sys) <==> SomeRemoving(s.sys);
  }

  lemma RemovedOk(s: State, tid: nat)
    requires R.ThreadsOk(s.sys) && DozeOk(s) && WatchOk(s) && Enabled(s, Removed(tid))
    ensures DozeOk(Next(s, Removed(tid))) && WatchOk(Next(s, Removed(tid)))
  {
    OneOwner(s.sys, tid);
    assert !SomeDone(s.sys);
    assert forall u :: Came(Next(s, Removed(tid)).sys, u) ==> Came(s.sys, u);
  }

  lemma DoneWakeOk(s: State, tid: nat)
    requires R.ThreadsOk(s.sys) && DozeOk(s) && WatchOk(s) && Enabled(s, DoneWake(tid))
    ensures DozeOk(Next(s, DoneWake(tid))) && WatchOk(Next(s, DoneWake(tid)))
  {
    var s' := Next(s, DoneWake(tid));
    OneOwner(s.sys, tid);
    assert Came(s.sys, tid);
    assert forall u :: Came(s'.sys, u) ==> Came(s.sys, u);
    assert !SomeRemoving(s.sys);
  }

  lemma WrittenOk(s: State, res: WriteResult)
    requires Inv(s) && Enabled(s, WriteCallback(res))
    ensures DozeOk(Next(s, WriteCallback(res))) && WatchOk(Next(s, WriteCallback(res)))
  {
    var s' := Next(s, WriteCallback(res));
    assert s'.sys.threads == s.sys.threads;
    assert forall u :: Came(s'.sys, u) <==> Came(s.sys, u);
    if u :| Came(s.sys, u) {
      OneOwner(s.sys, u);
    }
  }

  lemma DiedOk(s: State, s': State)
    requires DozeOk(s) && s'.sys == R.Next(s.sys, R.Dies)
    requires s' == ReadFailed(s) || (s' == Closed(s) && !s.sys.out.dead)
    requires !s.sys.out.dead
    ensures DozeOk(s') && WatchOk(s')
  {
    assert forall u :: Came(s'.sys, u) <==> Came(s.sys, u);
  }

  lemma NextInv(s: State, step: Step)
    requires Inv(s) && Enabled(s, step)
    ensures Inv(Next(s, step))
  {
    BaseStep(s, step);
    if BaseOf(s, step).Some? {
      SysStep(s.sys, BaseOf(s, step).value);
    }
    ControlStep(s, step);
  }

  lemma ControlStep(s: State, step: Step)
    requires Inv(s) && Enabled(s, step)
    ensures DozeOk(Next(s, step)) && WatchOk(Next(s, step))
  {
    match step
    case Sends(st) => SendsOk(s, st);
    case Removed(tid) => RemovedOk(s, tid);
    case DoneWake(tid) => DoneWakeOk(s, tid);
    case SpuriousDone =>
    case WriteCallback(res) => WrittenOk(s, res);
    case WriteCallbackAborts =>
    case ReadFails => DiedOk(s, ReadFailed(s));
    case CloseConn =>
      if !s.sys.out.dead {
        DiedOk(s, Closed(s));
      }
    case CloseReturns =>
    case Receives(st) => SameThreads(s, Next(s, step));
  }

  lemma {:induction false} LeadsInv(s: State, steps: seq<Step>, t: State)
    requires Inv(s) && Leads(s, steps, t)
    ensures Inv(t)
    decreases |steps|
  {
    if steps != [] {
      NextInv(s, steps[0]);
      LeadsInv(Next(s, steps[0]), steps[1..], t);
    }
  }

  lemma ReachableInv(init: State, steps: seq<Step>, s: State)
    requires Init(init) && Leads(init, steps, s)
    ensures Inv(s)
  {
    R.InitInv(init.sys);
    assert R.Waiting(init.sys) == {};
    LeadsInv(init, steps, s);
  }

  // ---- Who is never woken ----

  /**
   The send that owns the slot sleeps although its wait is over if and only if `closeconn` killed the
   connection while it slept (see `AwakeStaysAwake`).
   */
  lemma StrandedIff(init: State, steps: seq<Step>, s: State)
    requires Init(init) && Leads(init, steps, s)
    ensures s.dozing && WaitOver(s.sys.out) <==> s.dozing && s.closed
  {
    ReachableInv(init, steps, s);
  }

  /** On a dead connection no send falls asleep any more: one that sleeps then has slept since before. */
  lemma {:induction false} AwakeStaysAwake(s: State, steps: seq<Step>, t: State)
    requires Inv(s) && Leads(s, steps, t) && s.sys.out.dead && !s.dozing
    ensures t.sys.out.dead && !t.dozing
    decreases |steps|
  {
    if steps != [] {
      NextInv(s, steps[0]);
      AwakeStep(s, steps[0]);
      AwakeStaysAwake(Next(s, steps[0]), steps[1..], t);
    }
  }

  lemma AwakeStep(s: State, step: Step)
    requires Inv(s) && Enabled(s, step) && s.sys.out.dead && !s.dozing
    ensures Next(s, step).sys.out.dead && !Next(s, step).dozing
  {
    match step
    case Sends(st) =>
      if st.SpuriousWake? {
        assert st.tid in R.Waiting(s.sys);
      } else {
        SendsFrame(s.sys, st);
      }
    case Removed(tid) =>
    case DoneWake(tid) =>
    case SpuriousDone =>
    case WriteCallback(res) =>
    case WriteCallbackAborts =>
    case ReadFails =>
    case CloseConn =>
    case CloseReturns =>
    case Receives(st) =>
  }

  /** Once the owner is stranded nothing but a spurious wake-up moves it, or anybody who sleeps on its slot. */
  lemma {:induction false} StrandedForEver(s: State, steps: seq<Step>, t: State)
    requires Inv(s) && Leads(s, steps, t) && Proper(steps) && s.dozing && s.sys.out.dead
    ensures t.dozing && t.sys.out.dead && t.sys.asleep == s.sys.asleep
    ensures forall u :: Came(s.sys, u) ==> Came(t.sys, u)
    decreases |steps|
  {
    if steps != [] {
      assert !Spurious(steps[0]);
      NextInv(s, steps[0]);
      StrandedStep(s, steps[0]);
      assert forall k :: 0 <= k < |steps[1..]| ==> steps[1..][k] == steps[k + 1];
      StrandedForEver(Next(s, steps[0]), steps[1..], t);
    }
  }

  lemma DeadSends(sys: R.System, step: R.Step)
    requires R.Enabled(sys, step) && (step.Enter? || step.SlotWake?) && sys.out.dead
    ensures R.Next(sys, step).asleep == sys.asleep
  {
  }

  lemma StrandedStep(s: State, step: Step)
    requires Inv(s) && Enabled(s, step) && !Spurious(step) && s.dozing && s.sys.out.dead
    ensures var t := Next(s, step); t.dozing && t.sys.out.dead && t.sys.asleep == s.sys.asleep
    ensures forall u :: Came(s.sys, u) ==> Came(Next(s, step).sys, u)
  {
    match step
    case Sends(st) =>
      SendsFrame(s.sys, st);
      DeadSends(s.sys, st);
      assert !Came(s.sys, st.tid);
    case Removed(tid) =>
      OneOwner(s.sys, tid);
      assert false;
    case DoneWake(tid) =>
    case SpuriousDone =>
    case WriteCallback(res) =>
    case WriteCallbackAborts =>
    case ReadFails =>
    case CloseConn =>
    case CloseReturns =>
    case Receives(st) =>
      assert R.Next(s.sys, st).threads == s.sys.threads;
  }

  // ---- Who can be woken ----

  /** Some steps, none of them spurious, wake the owner. */
  ghost predicate OwnerWakes(s: State) {
    exists steps, t :: Leads(s, steps, t) && Proper(steps) && !t.dozing
  }

  /** Some steps, none of them spurious, wake all that sleep on the slot. */
  ghost predicate SleepersWake(s: State) {
    exists steps, t :: Leads(s, steps, t) && Proper(steps) && t.sys.asleep == {}
  }

  /** The owner comes to its end: it frees the slot and wakes whoever sleeps on it. */
  lemma FinishWakes(s: State, tid: nat, step: Step)
    requires Inv(s) && Enabled(s, step) && (step == Removed(tid) || step == DoneWake(tid)) && WaitOver(s.sys.out)
    ensures Next(s, step).sys.asleep == {}
  {
    assert s.sys.asleep <= R.Waiting(s.sys);
    if s.sys.asleep != {} {
      assert R.Waiting(s.sys) != {};
    }
  }

  /** With the wait not over, a write callback that writes the rest wakes the owner. */
  lemma RestWritten(s: State) returns (step: Step)
    requires Inv(s) && !s.aborted && SomeDone(s.sys) && !WaitOver(s.sys.out)
    ensures Enabled(s, step) && !Spurious(step)
    ensures var t := Next(s, step); !t.aborted && !t.dozing && t.sys.threads == s.sys.threads && WaitOver(t.sys.out)
  {
    var w := s.sys.out.wpdu;
    var u :| Came(s.sys, u);
    OneOwner(s.sys, u);
    step := WriteCallback(Wrote(w.sz - w.solong));
  }

  lemma OneStep(s: State, step: Step)
    requires Enabled(s, step) && !Spurious(step)
    ensures Leads(s, [step], Next(s, step)) && Proper([step])
  {
    assert Leads(Next(s, step), [], Next(s, step));
  }

  lemma TwoSteps(s: State, a: Step, b: Step)
    requires Enabled(s, a) && Enabled(Next(s, a), b) && !Spurious(a) && !Spurious(b)
    ensures Leads(s, [a, b], Next(Next(s, a), b)) && Proper([a, b])
  {
    OneStep(Next(s, a), b);
    assert [a, b][1..] == [b];
  }

  /** The exact condition for waking the sleeping owner: `closeconn` has not killed the connection. */
  lemma OwnerWakesIff(init: State, steps: seq<Step>, s: State)
    requires Init(init) && Leads(init, steps, s) && s.dozing && !s.aborted
    ensures OwnerWakes(s) <==> !s.closed
  {
    ReachableInv(init, steps, s);
    if s.closed {
      if OwnerWakes(s) {
        var more, t :| Leads(s, more, t) && Proper(more) && !t.dozing;
        StrandedForEver(s, more, t);
      }
    } else {
      var step := RestWritten(s);
      OneStep(s, step);
    }
  }

  /**
   The exact condition for those that sleep on the slot: they can still be woken unless the slot belongs to a send
   that sleeps on a connection which `closeconn` has killed.
   */
  lemma SleepersWakeIff(init: State, steps: seq<Step>, s: State)
    requires Init(init) && Leads(init, steps, s) && s.sys.asleep != {} && !s.aborted
    ensures SleepersWake(s) <==> !(s.dozing && s.closed)
  {
    ReachableInv(init, steps, s);
    if s.dozing && s.closed {
      if SleepersWake(s) {
        var more, t :| Leads(s, more, t) && Proper(more) && t.sys.asleep == {};
        StrandedForEver(s, more, t);
      }
    } else {
      var more, t := OwnerFrees(s);
    }
  }

  lemma OwnerFrees(s: State) returns (steps: seq<Step>, t: State)
    requires Inv(s) && !s.aborted && s.sys.asleep != {} && !(s.dozing && s.closed)
    ensures Leads(s, steps, t) && Proper(steps) && t.sys.asleep == {}
  {
    var u :| u in s.sys.threads && R.Owner(s.sys.threads[u]);
    if s.sys.threads[u].at.Removing? {
      FinishWakes(s, u, Removed(u));
      OneStep(s, Removed(u));
      steps, t := [Removed(u)], Next(s, Removed(u));
    } else if WaitOver(s.sys.out) {
      FinishWakes(s, u, DoneWake(u));
      OneStep(s, DoneWake(u));
      steps, t := [DoneWake(u)], Next(s, DoneWake(u));
    } else {
      assert Came(s.sys, u);
      var write := RestWritten(s);
      NextInv(s, write);
      FinishWakes(Next(s, write), u, DoneWake(u));
      TwoSteps(s, write, DoneWake(u));
      steps, t := [write, DoneWake(u)], Next(Next(s, write), DoneWake(u));
    }
  }

  // ---- A run that strands them ----

  lemma {:induction false} LeadsSnoc(init: State, steps: seq<Step>, s: State, step: Step)
    requires Leads(init, steps, s) && Enabled(s, step)
    ensures Leads(init, steps + [step], Next(s, step))
    decreases |steps|
  {
    if steps == [] {
      assert Leads(Next(s, step), [], Next(s, step));
    } else {
      assert (steps + [step])[1..] == steps[1..] + [step];
      LeadsSnoc(Next(init, steps[0]), steps[1..], s, step);
    }
  }

  function Fresh(): State {
    State(R.System(R.FRESH, map[], {}, [], [], [], 0, [], R.FRESH, 0, []), false, false, false, false, false)
  }

  /** One send waits for the rest of its PDU to go out, a second one for the slot. */
  lemma ReachesTwo(a: Bytes, b: Bytes) returns (steps: seq<Step>, s: State)
    requires Pdu(a) && Pdu(b)
    ensures Init(Fresh()) && Leads(Fresh(), steps, s) && !s.aborted && !s.sys.out.dead
    ensures s.dozing && s.watch && s.sys.asleep == {1}
  {
    var first := Sends(R.Enter(0, a, WouldBlock));
    LeadsSnoc(Fresh(), [], Fresh(), first);
    steps, s := [] + [first], Next(Fresh(), first);
    var second := Sends(R.Enter(1, b, WouldBlock));
    LeadsSnoc(Fresh(), steps, s, second);
    steps, s := steps + [second], Next(s, second);
  }

  /** `closeconn` strands both for ever: neither is woken, except spuriously. */
  lemma ClosingStrands(a: Bytes, b: Bytes) returns (steps: seq<Step>, s: State)
    requires Pdu(a) && Pdu(b)
    ensures Leads(Fresh(), steps, s) && s.dozing && s.closed && s.sys.asleep == {1}
    ensures !OwnerWakes(s) && !SleepersWake(s)
  {
    steps, s := ReachesTwo(a, b);
    LeadsSnoc(Fresh(), steps, s, CloseConn);
    steps, s := steps + [CloseConn], Next(s, CloseConn);
    OwnerWakesIff(Fresh(), steps, s);
    SleepersWakeIff(Fresh(), steps, s);
  }

  // ---- When the write callback finds the connection dead ----

  /**
   The exact condition under which the assertion of the write callback can fail next: write callbacks are
   registered, and the removal of the registration that follows the end of the connection has not returned.
   */
  lemma AssertionFailsIff(init: State, steps: seq<Step>, s: State)
    requires Init(init) && Leads(init, steps, s) && !s.aborted
    ensures Enabled(s, WriteCallbackAborts) <==> s.watch && (s.closing || SomeRemoving(s.sys))
  {
    ReachableInv(init, steps, s);
    if SomeRemoving(s.sys) {
      var u :| u in s.sys.threads && s.sys.threads[u].at.Removing?;
      assert s.sys.out.dead;
    }
  }

  /** It can fail: `closeconn` during a send that waits for the rest of its PDU to go out. */
  lemma AssertionCanFail(a: Bytes, b: Bytes) returns (steps: seq<Step>, s: State)
    requires Pdu(a) && Pdu(b)
    ensures Leads(Fresh(), steps, s) && Enabled(s, WriteCallbackAborts)
  {
    steps, s := ReachesTwo(a, b);
    LeadsSnoc(Fresh(), steps, s, CloseConn);
    steps, s := steps + [CloseConn], Next(s, CloseConn);
  }
}
