/** What the steps of the RPC system bring about: packets that carry their calls, answers, and calls that succeed. */
module ProtocolProgress {
  import opened Wire
  import opened RpcMessages
  import opened XidWindow
  import opened RpcClient
  import opened ReplyWindow
  import opened RpcServer
  import opened Protocol
  import opened ProtocolInvariant
  import opened ProtocolTheorems

  // ---- Packets carry their calls ----

  lemma GrowsOn(s: State, t: State, u: State)
    requires Grows(s, t) && Grows(t, u)
    ensures Grows(s, u)
  {
  }

  lemma {:induction false} LeadsGrows(s: State, steps: seq<Step>, t: State)
    requires Inv(s) && Leads(s, steps, t)
    ensures Inv(t) && Grows(s, t)
    decreases |steps|
  {
    if steps != [] {
      NextInv(s, steps[0]);
      NextGrows(s, steps[0]);
      LeadsGrows(Next(s, steps[0]), steps[1..], t);
      GrowsOn(s, Next(s, steps[0]), t);
    }
  }

  /** The packet has the procedure, the arguments, the server nonce and the acknowledgement that the call began with. */
  ghost predicate Carries(req: Request, proc: nat, body: Bytes, srv: nat, reported: set<nat>) {
    req.proc == proc && req.body == body && req.srv == srv && IsFront(reported, req.rep)
  }

  lemma BeginIssues(s: State, c: nat, proc: nat, body: Bytes)
    requires Enabled(s, Begin(c, proc, body))
    ensures var t, x := Next(s, Begin(c, proc, body)), s.clients[c].nextXid;
            && Key(t, c, x) && t.clients[c].nextXid == x + 1
            && Carries(t.issued[(c, x)], proc, body, s.clients[c].srvNonce, s.clients[c].reported)
  {
  }

  /** Every packet on the wire, and every execution, has exactly what its call was begun with. */
  lemma PacketsCarryTheCall(
      init: State, before: seq<Step>, s: State, c: nat, proc: nat, body: Bytes,
      after: seq<Step>, t: State, req: Request)
    requires Init(init) && Leads(init, before, s) && Enabled(s, Begin(c, proc, body))
    requires Leads(Next(s, Begin(c, proc, body)), after, t)
    requires req.clt == c && req.xid == s.clients[c].nextXid
    requires req in t.requests || exists i :: 0 <= i < |t.log| && t.log[i].req == req
    ensures Carries(req, proc, body, s.clients[c].srvNonce, s.clients[c].reported)
  {
    ReachableInv(init, before, s);
    NextInv(s, Begin(c, proc, body));
    LeadsGrows(Next(s, Begin(c, proc, body)), after, t);
    BeginIssues(s, c, proc, body);
    if i :| 0 <= i < |t.log| && t.log[i].req == req {
      assert ExecOk(t, t.log[i]);
    }
    assert Sent(t, req);
  }

  /** Nothing else is ever sent: every packet belongs to a call that its client has begun. */
  lemma EveryPacketWasBegun(init: State, steps: seq<Step>, s: State, req: Request)
    requires Init(init) && Leads(init, steps, s) && req in s.requests
    ensures req.clt in s.clients && 1 <= req.xid < s.clients[req.clt].nextXid
  {
    ReachableInv(init, steps, s);
    assert Sent(s, req) && PacketOk(s, req.clt, req.xid, req) && ClientOk(s, req.clt, s.clients[req.clt]);
  }

  // ---- What a request is answered ----

  lemma FirstIs(l: seq<Entry>, e: Entry) returns (k: nat)
    requires Distinct(l) && e in l
    ensures k < |l| && l[k] == e && forall j :: 0 <= j < k ==> l[j].xid != e.xid
  {
    k :| 0 <= k < |l| && l[k] == e;
  }

  /** A request from a correct client whose entry is in the list. */
  lemma ReceivedKnown(sv: Server, req: Request, e: Entry)
    requires req.clt != 0 && req.rep < req.xid && Accepts(sv.nonce, req) && req.proc in sv.procs
    requires Distinct(ListOf(sv, req.clt)) && e in ListOf(sv, req.clt) && e.xid == req.xid
    ensures Received(sv, req).1 == if e.saved.Some? then Answer(e.saved.value) else Ignore
  {
    var k := FirstIs(ListOf(sv, req.clt), e);
    MatchAnswers(ListOf(sv, req.clt), k, req.xid, req.rep);
  }

  lemma ListDistinct(s: State, c: nat)
    requires WindowHistory(s)
    ensures Distinct(ListOf(s.server, c))
  {
  }

  /** A request whose reply is saved is answered with it, and runs nothing. */
  lemma DuplicateAnswered(init: State, steps: seq<Step>, s: State, req: Request, tid: nat, e: Entry)
    requires Init(init) && Leads(init, steps, s) && Enabled(s, Dispatch(req, tid))
    requires Accepts(s.server.nonce, req) && req.proc in s.server.procs
    requires e in ListOf(s.server, req.clt) && e.xid == req.xid && e.saved.Some?
    ensures var t := Next(s, Dispatch(req, tid));
            t.replies == s.replies + {Envelope(req.clt, req.xid, e.saved.value)} && t.tasks == s.tasks && t.log == s.log
  {
    ReachableHistory(init, steps, s);
    PacketOnWire(s, req);
    ListDistinct(s, req.clt);
    ReceivedKnown(s.server, req, e);
  }

  /** A request that is still running is met with silence. */
  lemma RunningIgnored(init: State, steps: seq<Step>, s: State, req: Request, tid: nat, e: Entry)
    requires Init(init) && Leads(init, steps, s) && Enabled(s, Dispatch(req, tid))
    requires Accepts(s.server.nonce, req) && req.proc in s.server.procs
    requires e in ListOf(s.server, req.clt) && e.xid == req.xid && e.saved.None?
    ensures var t := Next(s, Dispatch(req, tid)); t.replies == s.replies && t.tasks == s.tasks && t.log == s.log
  {
    ReachableHistory(init, steps, s);
    PacketOnWire(s, req);
    ListDistinct(s, req.clt);
    ReceivedKnown(s.server, req, e);
  }

  /** A request that is not remembered starts its handler and is entered in the list. */
  lemma NewStarted(init: State, steps: seq<Step>, s: State, req: Request, tid: nat)
    requires Init(init) && Leads(init, steps, s) && Enabled(s, Dispatch(req, tid))
    requires Accepts(s.server.nonce, req) && req.proc in s.server.procs && !Remembered(s, req)
    ensures var t := Next(s, Dispatch(req, tid));
            && t.replies == s.replies && t.tasks == s.tasks[tid := Task(req, Started)] && t.log == s.log
            && Entry(req.xid, None) in ListOf(t.server, req.clt)
  {
    ReachableInv(init, steps, s);
    PacketOnWire(s, req);
    ReceivedNew(s.server, req);
    var l := Above(ListOf(s.server, req.clt), req.rep) + [Entry(req.xid, None)];
    assert l[|l| - 1] == Entry(req.xid, None);
  }

  /** A request for another instance is refused, and one for an unknown procedure dropped; nothing else happens. */
  lemma StrangersTurnedAway(s: State, req: Request, tid: nat)
    requires Enabled(s, Dispatch(req, tid))
    ensures !Accepts(s.server.nonce, req) ==>
              Next(s, Dispatch(req, tid))
              == s.(replies := s.replies + {Envelope(req.clt, req.xid, Result(OLDSRV_FAILURE, []))})
    ensures Accepts(s.server.nonce, req) && req.proc !in s.server.procs ==> Next(s, Dispatch(req, tid)) == s
  {
  }

  /** A client with nonce 0 gets no memory: its requests run every time, and leave no trace in the lists. */
  lemma OptedOut(sv: Server, req: Request, result: Result)
    requires req.clt == 0 && Accepts(sv.nonce, req) && req.proc in sv.procs
    ensures Received(sv, req) == (sv, Execute) && Finished(sv, req, result) == sv
  {
  }

  // ---- No reply is dropped ----

  predicate Holds(s: State, tid: nat, e: Exec) {
    tid in s.tasks && s.tasks[tid].req == e.req && !s.tasks[tid].phase.Started? && s.tasks[tid].phase.result == e.result
  }

  predicate Unsaved(s: State, tid: nat, e: Exec) {
    Holds(s, tid, e) && s.tasks[tid].phase.Ran?
  }

  function ReplyTo(e: Exec): Envelope {
    Envelope(e.req.clt, e.req.xid, e.result)
  }

  /** The reply of an execution has been sent, or a dispatch thread still holds it. */
  ghost predicate Answering(s: State, e: Exec) {
    ReplyTo(e) in s.replies || exists tid :: Holds(s, tid, e)
  }

  function SavedEntry(e: Exec): Entry {
    Entry(e.req.xid, Some(e.result))
  }

  /** The reply of an execution is saved, or about to be. */
  ghost predicate Saving(s: State, e: Exec) {
    SavedEntry(e) in ListOf(s.server, e.req.clt) || exists tid :: Unsaved(s, tid, e)
  }

  ghost predicate AnswersInv(s: State) {
    forall i :: 0 <= i < |s.log| && s.log[i].inst == s.server.nonce ==> Answering(s, s.log[i])
  }

  ghost predicate SavesInv(s: State) {
    forall i :: 0 <= i < |s.log| && s.log[i].inst == s.server.nonce && Open(s, s.log[i].req) ==> Saving(s, s.log[i])
  }

  lemma AnswersStep(s: State, step: Step)
    requires Inv(s) && Enabled(s, step) && AnswersInv(s)
    ensures AnswersInv(Next(s, step))
  {
    if step.Restart? {
      NewInstance(s, step.nonce);
    } else {
      TaskFrame(s, step);
      AnswersKept(s, Next(s, step), step);
    }
  }

  lemma NewInstance(s: State, nonce: u32)
    requires LogInv(s) && Enabled(s, Restart(nonce))
    ensures forall i :: 0 <= i < |s.log| ==> s.log[i].inst != nonce
  {
    forall i | 0 <= i < |s.log| ensures s.log[i].inst != nonce {
      assert ExecOk(s, s.log[i]);
    }
  }

  /** The task that a step works on. */
  predicate WorksOn(step: Step, tid: nat) {
    (step.RunHandler? || step.SaveReply? || step.SendReply?) && step.tid == tid
  }

  /** What a step other than a restart does to tasks, replies and log. */
  ghost predicate Worked(s: State, t: State, step: Step) {
    && t.server.nonce == s.server.nonce && s.replies <= t.replies
    && (if step.RunHandler? then
          |t.log| == |s.log| + 1 && t.log[..|s.log|] == s.log && Unsaved(t, step.tid, t.log[|s.log|])
          && forall e :: !Holds(s, step.tid, e)
        else t.log == s.log)
    && (forall tid :: tid in s.tasks && !WorksOn(step, tid) ==> tid in t.tasks && t.tasks[tid] == s.tasks[tid])
    && (forall e :: step.SaveReply? && Holds(s, step.tid, e) ==> Holds(t, step.tid, e))
    && (forall e :: step.SendReply? && Holds(s, step.tid, e) ==> ReplyTo(e) in t.replies && !Unsaved(s, step.tid, e))
  }

  lemma TaskFrame(s: State, step: Step)
    requires Enabled(s, step) && !step.Restart?
    ensures Worked(s, Next(s, step), step)
  {
    if step.Dispatch? {
      DispatchTasksKept(s, step.req, step.tid);
    }
  }

  lemma DispatchTasksKept(s: State, req: Request, tid: nat)
    requires tid !in s.tasks
    ensures var t := Dispatched(s, req, tid);
            && t.server.nonce == s.server.nonce && s.replies <= t.replies && t.log == s.log
            && forall u :: u in s.tasks ==> u in t.tasks && t.tasks[u] == s.tasks[u]
  {
  }

  lemma AnswersKept(s: State, t: State, step: Step)
    requires AnswersInv(s) && Worked(s, t, step)
    ensures AnswersInv(t)
  {
    forall i | 0 <= i < |t.log| && t.log[i].inst == t.server.nonce ensures Answering(t, t.log[i]) {
      if i < |s.log| {
        assert t.log[i] == s.log[i];
        AnsweringKept(s, t, step, s.log[i]);
      } else {
        assert Holds(t, step.tid, t.log[i]);
      }
    }
  }

  lemma AnsweringKept(s: State, t: State, step: Step, e: Exec)
    requires Answering(s, e) && Worked(s, t, step)
    ensures Answering(t, e)
  {
    if ReplyTo(e) !in s.replies {
      var tid :| Holds(s, tid, e);
      if !WorksOn(step, tid) || step.SaveReply? {
        assert Holds(t, tid, e);
      }
    }
  }

  lemma SavesStep(s: State, step: Step)
    requires Inv(s) && WindowHistory(s) && Enabled(s, step) && SavesInv(s)
    ensures SavesInv(Next(s, step))
  {
    if step.Restart? {
      NewInstance(s, step.nonce);
    } else {
      TaskFrame(s, step);
      NextGrows(s, step);
      forall i | 0 <= i < |s.log| && Open(s, s.log[i].req)
        ensures StoredOn(s, Next(s, step), step, s.log[i])
      {
        StoredStep(s, step, i);
      }
      SavesKept(s, Next(s, step), step);
    }
  }

  /** A saved reply stays, and a reply that this step saves is in the list afterwards. */
  ghost predicate StoredOn(s: State, t: State, step: Step, e: Exec) {
    && (SavedEntry(e) in ListOf(s.server, e.req.clt) ==> SavedEntry(e) in ListOf(t.server, e.req.clt))
    && (step.SaveReply? && Unsaved(s, step.tid, e) ==> SavedEntry(e) in ListOf(t.server, e.req.clt))
  }

  lemma StoredStep(s: State, step: Step, i: nat)
    requires Inv(s) && WindowHistory(s) && Enabled(s, step) && !step.Restart?
    requires i < |s.log| && Open(s, s.log[i].req)
    ensures StoredOn(s, Next(s, step), step, s.log[i])
  {
    var e := s.log[i];
    assert ExecOk(s, e);
    if SavedEntry(e) in ListOf(s.server, e.req.clt) {
      EntryKeptStep(s, step, e.req, SavedEntry(e));
    }
    if step.SaveReply? && Unsaved(s, step.tid, e) {
      SavedNow(s, step.tid, e);
    }
  }

  lemma SavesKept(s: State, t: State, step: Step)
    requires SavesInv(s) && Worked(s, t, step) && Grows(s, t)
    requires forall i :: 0 <= i < |s.log| && Open(s, s.log[i].req) ==> StoredOn(s, t, step, s.log[i])
    ensures SavesInv(t)
  {
    forall i | 0 <= i < |t.log| && t.log[i].inst == t.server.nonce && Open(t, t.log[i].req)
      ensures Saving(t, t.log[i])
    {
      if i < |s.log| {
        assert t.log[i] == s.log[i];
        SavingKept(s, t, step, s.log[i]);
      } else {
        assert Unsaved(t, step.tid, t.log[i]);
      }
    }
  }

  lemma SavingKept(s: State, t: State, step: Step, e: Exec)
    requires Saving(s, e) && Worked(s, t, step) && StoredOn(s, t, step, e)
    ensures Saving(t, e)
  {
    if SavedEntry(e) !in ListOf(s.server, e.req.clt) {
      var tid :| Unsaved(s, tid, e);
      if !WorksOn(step, tid) {
        assert Unsaved(t, tid, e);
      } else {
        assert Holds(s, tid, e);
      }
    }
  }

  lemma EntryKeptStep(s: State, step: Step, req: Request, e: Entry)
    requires Inv(s) && Enabled(s, step) && !step.Restart?
    requires req in s.requests && Open(s, req) && e.xid == req.xid && e.saved.Some? && e in ListOf(s.server, req.clt)
    ensures e in ListOf(Next(s, step).server, req.clt)
  {
    match step
    case Begin(_, _, _) =>
    case Transmit(_, _) =>
    case TakeReply(_) =>
    case End(_, _) =>
    case Bound(_, _) =>
    case Dispatch(r, tid) => DispatchKeeps(s, r, tid, req, e);
    case RunHandler(_, _) =>
    case SaveReply(tid) => SaveKeeps(s, tid, req, e);
    case SendReply(_) =>
  }

  /** Saving the reply of an open call stores it: the call's entry is still there. */
  lemma SavedNow(s: State, tid: nat, e: Exec)
    requires Inv(s) && WindowHistory(s) && Enabled(s, SaveReply(tid)) && Unsaved(s, tid, e) && Open(s, e.req)
    ensures SavedEntry(e) in ListOf(Next(s, SaveReply(tid)).server, e.req.clt)
  {
    var l := ListOf(s.server, e.req.clt);
    assert TaskOk(s, s.tasks[tid]) && Remembered(s, e.req);
    PacketOnWire(s, e.req);
    ListDistinct(s, e.req.clt);
    SaveList(s, tid, e.req.clt);
    SaveStores(l, e.req.xid, e.result);
  }

  lemma SaveStores(l: seq<Entry>, xid: nat, result: Result)
    requires Distinct(l) && Has(l, xid)
    ensures Entry(xid, Some(result)) in Save(l, xid, result)
  {
    SaveEffect(l, xid, result);
    var k :| 0 <= k < |l| && l[k].xid == xid;
    assert Save(l, xid, result)[k] == Entry(xid, Some(result));
  }

  lemma {:induction false} LeadsAnswers(s: State, steps: seq<Step>, t: State)
    requires Inv(s) && WindowHistory(s) && AnswersInv(s) && SavesInv(s) && Leads(s, steps, t)
    ensures Inv(t) && WindowHistory(t) && AnswersInv(t) && SavesInv(t)
    decreases |steps|
  {
    if steps != [] {
      NextInv(s, steps[0]);
      WindowHistoryStep(s, steps[0]);
      AnswersStep(s, steps[0]);
      SavesStep(s, steps[0]);
      LeadsAnswers(Next(s, steps[0]), steps[1..], t);
    }
  }

  /** The reply of every execution by the living instance has been sent, or a dispatch thread still has it in hand. */
  lemma NoReplyDropped(init: State, steps: seq<Step>, s: State, i: nat)
    requires Init(init) && Leads(init, steps, s) && i < |s.log| && s.log[i].inst == s.server.nonce
    ensures var e := s.log[i];
            || Envelope(e.req.clt, e.req.xid, e.result) in s.replies
            || exists tid :: tid in s.tasks && s.tasks[tid].req == e.req && !s.tasks[tid].phase.Started?
                             && s.tasks[tid].phase.result == e.result
  {
    InitInv(init);
    LeadsAnswers(init, steps, s);
    assert Answering(s, s.log[i]);
    if tid :| Holds(s, tid, s.log[i]) {
      assert tid in s.tasks;
    }
  }

  /**
   While a call is open its copies are answered: once the living instance has run it and the thread that ran it
   has gone on, a further copy of the packet puts the result of the execution on its way again.
   */
  lemma CopiesAnswered(init: State, steps: seq<Step>, s: State, i: nat, tid: nat)
    requires Init(init) && Leads(init, steps, s) && i < |s.log| && s.log[i].inst == s.server.nonce
    requires Open(s, s.log[i].req) && s.log[i].req.proc in s.server.procs
    requires forall t :: t in s.tasks && s.tasks[t].req == s.log[i].req ==> !s.tasks[t].phase.Ran?
    requires Enabled(s, Dispatch(s.log[i].req, tid))
    ensures var e := s.log[i];
            Envelope(e.req.clt, e.req.xid, e.result) in Next(s, Dispatch(e.req, tid)).replies
  {
    InitInv(init);
    LeadsAnswers(init, steps, s);
    var e := s.log[i];
    assert ExecOk(s, e) && Saving(s, e);
    DuplicateAnswered(init, steps, s, e.req, tid, SavedEntry(e));
  }

  // ---- Calls can succeed ----

  predicate MayBegin(s: State, c: nat, proc: nat) {
    && c in s.clients && s.clients[c].nextXid < U32 && proc in s.server.procs
    && (proc == BIND ==> !s.clients[c].bindDone)
    && (proc != BIND ==> s.clients[c].bindDone && s.clients[c].srvNonce == s.server.nonce)
  }

  lemma FrontBelow(s: State, c: nat)
    requires ClientInv(s) && c in s.clients
    ensures Front(s.clients[c].reported) < U32
  {
    assert ClientOk(s, c, s.clients[c]);
    assert Front(s.clients[c].reported) > 0 ==> Key(s, c, Front(s.clients[c].reported));
  }

  /** A call begins and its packet goes out. */
  lemma Called(init: State, steps: seq<Step>, s: State, c: nat, proc: nat, body: Bytes)
    returns (more: seq<Step>, t: State, req: Request)
    requires Init(init) && Leads(init, steps, s) && MayBegin(s, c, proc)
    ensures Leads(init, more, t) && steps <= more
    ensures req in t.requests && req.clt == c && req.xid == s.clients[c].nextXid && req.proc == proc && req.body == body
    ensures t.server == s.server && t.tasks == s.tasks && t.log == s.log && !Remembered(t, req)
    ensures Accepts(t.server.nonce, req) && Waits(t, c, req)
  {
    ReachableHistory(init, steps, s);
    assert ClientOk(s, c, s.clients[c]);
    var x := s.clients[c].nextXid;
    assert !Key(s, c, x);
    FrontBelow(s, c);
    LeadsTo(init, steps, s, Begin(c, proc, body));
    var u := Next(s, Begin(c, proc, body));
    req := u.issued[(c, x)];
    NotYetRemembered(s, req);
    LeadsTo(init, steps + [Begin(c, proc, body)], u, Transmit(c, x));
    more, t := steps + [Begin(c, proc, body)] + [Transmit(c, x)], Next(u, Transmit(c, x));
  }

  predicate Waits(s: State, c: nat, req: Request) {
    c in s.clients && req.xid in s.clients[c].calls && s.clients[c].calls[req.xid] == Waiting(req)
  }

  /** A request not yet remembered is run, and its reply saved and sent. */
  lemma Served(init: State, steps: seq<Step>, s: State, req: Request, result: Result)
    returns (more: seq<Step>, t: State)
    requires Init(init) && Leads(init, steps, s) && req in s.requests && !Remembered(s, req)
    requires Accepts(s.server.nonce, req) && req.proc in s.server.procs && LegalResult(s.server.nonce, req, result)
    ensures Leads(init, more, t) && steps <= more
    ensures t.clients == s.clients && t.server.nonce == s.server.nonce
    ensures t.log == s.log + [Exec(s.server.nonce, req, result)]
    ensures Envelope(req.clt, req.xid, result) in t.replies
  {
    var tid := UnusedTask(s.tasks.Keys);
    NewStarted(init, steps, s, req, tid);
    LeadsTo(init, steps, s, Dispatch(req, tid));
    DispatchLeaves(s, req, tid);
    DispatchTasksKept(s, req, tid);
    var s1, steps1 := Next(s, Dispatch(req, tid)), steps + [Dispatch(req, tid)];
    more, t := Finishes(init, steps1, s1, tid, result);
  }

  /** A started task comes to its end. */
  lemma Finishes(init: State, steps: seq<Step>, s: State, tid: nat, result: Result)
    returns (more: seq<Step>, t: State)
    requires Leads(init, steps, s) && tid in s.tasks && s.tasks[tid].phase.Started?
    requires LegalResult(s.server.nonce, s.tasks[tid].req, result)
    ensures Leads(init, more, t) && steps <= more
    ensures t.clients == s.clients && t.server.nonce == s.server.nonce
    ensures t.log == s.log + [Exec(s.server.nonce, s.tasks[tid].req, result)]
    ensures Envelope(s.tasks[tid].req.clt, s.tasks[tid].req.xid, result) in t.replies
  {
    more, t := steps, s;
    LeadsTo(init, more, t, RunHandler(tid, result));
    more, t := more + [RunHandler(tid, result)], Next(t, RunHandler(tid, result));
    LeadsTo(init, more, t, SaveReply(tid));
    more, t := more + [SaveReply(tid)], Next(t, SaveReply(tid));
    LeadsTo(init, more, t, SendReply(tid));
    more, t := more + [SendReply(tid)], Next(t, SendReply(tid));
  }

  /** A reply on its way reaches the waiting call, which returns it. */
  lemma ReplyReturned(init: State, steps: seq<Step>, s: State, c: nat, req: Request, result: Result)
    returns (more: seq<Step>, t: State)
    requires Leads(init, steps, s) && Waits(s, c, req) && Envelope(c, req.xid, result) in s.replies
    ensures Leads(init, more, t) && steps <= more
    ensures (c, req.xid as nat) in t.returned && t.returned[(c, req.xid as nat)] == result
    ensures t.server == s.server && t.log == s.log && t.issued == s.issued && t.clients.Keys == s.clients.Keys
    ensures t.clients[c].bindDone == s.clients[c].bindDone
  {
    var env := Envelope(c, req.xid, result);
    LeadsTo(init, steps, s, TakeReply(env));
    var u := Next(s, TakeReply(env));
    LeadsTo(init, steps + [TakeReply(env)], u, End(c, req.xid));
    more, t := steps + [TakeReply(env)] + [End(c, req.xid)], Next(u, End(c, req.xid));
  }

  /**
   From every reachable state in which a client may begin a call, some run lets it succeed: the handler runs once more,
   with the arguments of the call, and the call returns what the handler returned, whatever that is.
   */
  lemma CallCanSucceed(init: State, steps: seq<Step>, s: State, c: nat, proc: nat, body: Bytes, result: Result)
    returns (more: seq<Step>, t: State, req: Request)
    requires Init(init) && Leads(init, steps, s) && MayBegin(s, c, proc)
    requires result.ret >= 0 || result.ret == UNMARSHAL_ARGS_FAILURE
    requires proc == BIND && result.ret == 0 ==> s.server.nonce < U32 && result.body == Be32(s.server.nonce)
    ensures Leads(init, more, t) && steps <= more
    ensures req.clt == c && req.xid == s.clients[c].nextXid && req.proc == proc && req.body == body
    ensures t.log == s.log + [Exec(s.server.nonce, req, result)] && t.server.nonce == s.server.nonce
    ensures (c, req.xid as nat) in t.returned && t.returned[(c, req.xid as nat)] == result
    ensures Key(t, c, req.xid) && t.issued[(c, req.xid as nat)] == req
    ensures c in t.clients
  {
    var more1, t1, more2, t2;
    more1, t1, req := Called(init, steps, s, c, proc, body);
    more2, t2 := Served(init, more1, t1, req, result);
    more, t := ReplyReturned(init, more2, t2, c, req, result);
    ReachableInv(init, more, t);
    assert ExecOk(t, t.log[|s.log|]) && Sent(t, req);
  }

  /** From every reachable state an unbound client can come to be bound to the present instance. */
  lemma BindCanSucceed(init: State, steps: seq<Step>, s: State, c: nat, body: Bytes)
    returns (more: seq<Step>, t: State)
    requires Init(init) && Leads(init, steps, s) && c in s.clients && !s.clients[c].bindDone
    requires s.clients[c].nextXid < U32
    ensures Leads(init, more, t) && steps <= more && t.server.nonce == s.server.nonce
    ensures c in t.clients && t.clients[c].bindDone && t.clients[c].srvNonce == s.server.nonce
  {
    ReachableInv(init, steps, s);
    var nonce: u32 := s.server.nonce;
    var result := Result(0, Be32(nonce));
    var more1, u, req := CallCanSucceed(init, steps, s, c, BIND, body, result);
    Be32RoundTrip(nonce);
    LeadsTo(init, more1, u, Bound(c, req.xid));
    more, t := more1 + [Bound(c, req.xid)], Next(u, Bound(c, req.xid));
  }
}
