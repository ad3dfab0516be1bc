/** The promises of the RPC library, for every run of the transition system. */
module ProtocolTheorems {
  import opened Wire
  import opened RpcMessages
  import opened XidWindow
  import opened RpcClient
  import opened ReplyWindow
  import opened RpcServer
  import opened Protocol
  import opened ProtocolInvariant

  predicate SameCall(a: Request, b: Request) {
    a.clt == b.clt && a.xid == b.xid
  }

  // ---- At most once ----

  /**
   While a call is open, no instance has run its handler twice, and a call other than bind
   has not been run twice by all instances together, restarts or not.
   */
  lemma AtMostOnceWhileOpen(init: State, steps: seq<Step>, s: State, i: nat, j: nat)
    requires Init(init) && Leads(init, steps, s)
    requires i < j < |s.log| && SameCall(s.log[i].req, s.log[j].req) && Open(s, s.log[i].req)
    ensures s.log[i].req.proc == BIND && s.log[i].inst != s.log[j].inst
  {
    ReachableInv(init, steps, s);
    OneExecution(s, i, j);
  }

  lemma OneExecution(s: State, i: nat, j: nat)
    requires Inv(s)
    requires i < |s.log| && j < |s.log| && i != j && SameCall(s.log[i].req, s.log[j].req) && Open(s, s.log[i].req)
    ensures s.log[i].req.proc == BIND && s.log[i].inst != s.log[j].inst
  {
    assert ExecOk(s, s.log[i]) && ExecOk(s, s.log[j]);
    assert Sent(s, s.log[i].req) && Sent(s, s.log[j].req);
    var req := s.log[i].req;
    assert PacketOk(s, req.clt, req.xid, req);
    assert s.log[j].req == req;
    assert SameExec(s.log[i], s.log[j]) ==> !Open(s, req);
  }

  /** What decides whether a copy of a request runs: the receiving instance no longer, or not yet, remembers it. */
  lemma RunsIffNotRemembered(init: State, steps: seq<Step>, s: State, req: Request)
    requires Init(init) && Leads(init, steps, s) && req in s.requests
    ensures Received(s.server, req).1.Execute? <==>
              Accepts(s.server.nonce, req) && req.proc in s.server.procs && !Remembered(s, req)
  {
    ReachableInv(init, steps, s);
    assert Sent(s, req) && PacketOk(s, req.clt, req.xid, req) && ClientOk(s, req.clt, s.clients[req.clt]);
    ReceivedNew(s.server, req);
  }

  /** A server runs a request that it accepts and does not remember, after a complete purge of the sender's list. */
  lemma ReceivedNew(sv: Server, req: Request)
    requires req.clt != 0
    ensures Received(sv, req).1.Execute? <==>
              Accepts(sv.nonce, req) && req.proc in sv.procs && !Has(ListOf(sv, req.clt), req.xid)
    ensures Received(sv, req).1.Execute? ==>
              ListOf(Received(sv, req).0, req.clt) == Above(ListOf(sv, req.clt), req.rep) + [Entry(req.xid, None)]
              == Scan(ListOf(sv, req.clt), req.xid, req.rep).1
  {
    NewMeansAbsent(ListOf(sv, req.clt), req.xid, req.rep);
  }

  // ---- Records and acknowledgements ----

  /** Packets on the wire acknowledge less than their own xid, and never more than is recorded. */
  lemma AcknowledgementsBelow(init: State, steps: seq<Step>, s: State, req: Request)
    requires Init(init) && Leads(init, steps, s) && req in s.requests
    ensures req.clt in s.clients && req.rep < req.xid
    ensures forall x: nat :: 1 <= x <= req.rep ==> x in s.clients[req.clt].reported
  {
    ReachableInv(init, steps, s);
    assert Sent(s, req) && PacketOk(s, req.clt, req.xid, req);
  }

  /** The server never answers that it has forgotten a request. */
  lemma NeverForgotten(init: State, steps: seq<Step>, s: State, env: Envelope)
    requires Init(init) && Leads(init, steps, s) && env in s.replies
    ensures env.result.ret != ATMOSTONCE_FAILURE
  {
    ReachableInv(init, steps, s);
    assert EnvelopeOk(s, env);
    if env.result != Result(OLDSRV_FAILURE, []) {
      var i :| 0 <= i < |s.log| && Returned(s.log[i], s.issued[(env.clt, env.xid)], env.result);
      assert ExecOk(s, s.log[i]);
    }
  }

  /** A call is recorded if and only if it is done or has left `calls_`. */
  lemma RecordedIffDone(init: State, steps: seq<Step>, s: State, c: nat, x: nat)
    requires Init(init) && Leads(init, steps, s) && c in s.clients && 1 <= x < s.clients[c].nextXid
    ensures x in s.clients[c].reported <==> x !in s.clients[c].calls || s.clients[c].calls[x].Answered?
  {
    ReachableInv(init, steps, s);
    assert ClientOk(s, c, s.clients[c]);
    assert Key(s, c, x);
  }

  // ---- History: where bound nonces and results come from ----

  ghost predicate NonceFromBind(s: State, c: nat, n: nat) {
    exists x :: BindReturned(s, c, x) && BoundNonce(s.returned[(c, x)].body) == n
  }

  /** The result is the refusal by another instance, or the result of the first execution of the call. */
  ghost predicate FirstBacked(s: State, req: Request, result: Result) {
    || result == Result(OLDSRV_FAILURE, [])
    || exists i :: 0 <= i < |s.log| && Returned(s.log[i], req, result) && FirstFor(s, i)
  }

  predicate FirstFor(s: State, i: nat)
    requires i < |s.log|
  {
    s.log[i].req.proc != BIND ==> forall j :: 0 <= j < i ==> !SameCall(s.log[j].req, s.log[i].req)
  }

  ghost predicate BindHistory(s: State) {
    && (forall c :: c in s.clients && s.clients[c].bindDone ==> NonceFromBind(s, c, s.clients[c].srvNonce))
    && (forall c, x :: Key(s, c, x) && s.issued[(c, x)].proc != BIND ==> NonceFromBind(s, c, s.issued[(c, x)].srv))
  }

  ghost predicate FirstCall(s: State, call: Call) {
    call.Answered? ==> FirstBacked(s, call.req, call.result)
  }

  ghost predicate FirstOutcome(s: State, c: nat, x: nat, result: Result) {
    Key(s, c, x) && (result == Result(TIMEOUT_FAILURE, []) || FirstBacked(s, s.issued[(c, x)], result))
  }

  ghost predicate ResultHistory(s: State) {
    && (forall c, x :: c in s.clients && x in s.clients[c].calls ==> FirstCall(s, s.clients[c].calls[x]))
    && (forall c, x :: (c, x) in s.returned ==> FirstOutcome(s, c, x, s.returned[(c, x)]))
  }

  predicate EntrySent(s: State, c: nat, xid: nat) {
    Key(s, c, xid) && s.issued[(c, xid)] in s.requests
  }

  ghost predicate WindowHistory(s: State) {
    forall c :: c in s.server.window ==>
      Distinct(s.server.window[c]) && forall e :: e in s.server.window[c] ==> EntrySent(s, c, e.xid)
  }

  lemma ReturnedOnlyGrows(s: State, step: Step, c: nat, x: nat)
    requires Inv(s) && Enabled(s, step) && (c, x) in s.returned
    ensures var s' := Next(s, step); (c, x) in s'.returned && s'.returned[(c, x)] == s.returned[(c, x)]
  {
    assert OutcomeOk(s, c, x, s.returned[(c, x)]);
    EndedStaysReturned(s, step, c, x);
  }

  lemma EndedStaysReturned(s: State, step: Step, c: nat, x: nat)
    requires Enabled(s, step) && (c, x) in s.returned && c in s.clients && x !in s.clients[c].calls
    ensures var s' := Next(s, step); (c, x) in s'.returned && s'.returned[(c, x)] == s.returned[(c, x)]
  {
    if ServerStep(step) {
      ServerStepLeaves(s, step);
    } else {
      match step
      case Begin(_, _, _) =>
      case Transmit(_, _) =>
      case TakeReply(_) =>
      case End(_, _) =>
      case Bound(_, _) =>
    }
  }

  lemma NonceKept(s: State, step: Step, c: nat, n: nat)
    requires Inv(s) && Enabled(s, step) && NonceFromBind(s, c, n)
    ensures NonceFromBind(Next(s, step), c, n)
  {
    var x :| BindReturned(s, c, x) && BoundNonce(s.returned[(c, x)].body) == n;
    ReturnedOnlyGrows(s, step, c, x);
    NextGrows(s, step);
    SameBind(s, Next(s, step), c, x);
  }

  lemma SameBind(s: State, s': State, c: nat, x: nat)
    requires BindReturned(s, c, x) && Key(s', c, x) && s'.issued[(c, x)] == s.issued[(c, x)]
    requires (c, x) in s'.returned && s'.returned[(c, x)] == s.returned[(c, x)]
    ensures NonceFromBind(s', c, BoundNonce(s.returned[(c, x)].body))
  {
    assert BindReturned(s', c, x);
  }

  lemma BindHistoryStep(s: State, step: Step)
    requires Inv(s) && Enabled(s, step) && BindHistory(s)
    ensures BindHistory(Next(s, step))
  {
    var s' := Next(s, step);
    NextGrows(s, step);
    forall c | c in s'.clients && s'.clients[c].bindDone ensures NonceFromBind(s', c, s'.clients[c].srvNonce) {
      if step.Bound? && step.c == c {
        NonceKept(s, step, c, BoundNonce(s.returned[(c, step.x)].body)) by {
          assert BindReturned(s, c, step.x);
        }
      } else {
        NonceUnchanged(s, step, c);
        NonceKept(s, step, c, s.clients[c].srvNonce);
      }
    }
    forall c, x | Key(s', c, x) && s'.issued[(c, x)].proc != BIND ensures NonceFromBind(s', c, s'.issued[(c, x)].srv) {
      if Key(s, c, x) {
        NonceKept(s, step, c, s.issued[(c, x)].srv);
      } else {
        NewKey(s, step, c, x);
        NonceKept(s, step, c, s.clients[c].srvNonce);
      }
    }
  }

  lemma NonceUnchanged(s: State, step: Step, c: nat)
    requires Enabled(s, step) && c in s.clients && !(step.Bound? && step.c == c)
    ensures var s' := Next(s, step);
            c in s'.clients && s'.clients[c].bindDone == s.clients[c].bindDone
            && s'.clients[c].srvNonce == s.clients[c].srvNonce
  {
    if ServerStep(step) {
      ServerStepLeaves(s, step);
    } else {
      match step
      case Begin(_, _, _) =>
      case Transmit(_, _) =>
      case TakeReply(_) =>
      case End(_, _) =>
      case Bound(_, _) =>
    }
  }

  lemma NewKey(s: State, step: Step, c: nat, x: nat)
    requires Enabled(s, step) && !Key(s, c, x) && Key(Next(s, step), c, x)
    ensures step.Begin? && step.c == c && Next(s, step).issued[(c, x)] == Stamp(s.clients[c], step.proc, step.body)
  {
    if ServerStep(step) {
      ServerStepLeaves(s, step);
    } else {
      match step
      case Begin(_, _, _) =>
      case Transmit(_, _) =>
      case TakeReply(_) =>
      case End(_, _) =>
      case Bound(_, _) =>
    }
  }

  lemma FirstKept(s: State, s': State, req: Request, result: Result)
    requires s.log <= s'.log && FirstBacked(s, req, result)
    ensures FirstBacked(s', req, result)
  {
    if result != Result(OLDSRV_FAILURE, []) {
      var i :| 0 <= i < |s.log| && Returned(s.log[i], req, result) && FirstFor(s, i);
      assert Returned(s'.log[i], req, result) && FirstFor(s', i);
    }
  }

  /** What an open call is answered with comes from its only execution, so from its first. */
  lemma OpenBackedIsFirst(s: State, req: Request, result: Result)
    requires Inv(s) && Sent(s, req) && Open(s, req) && Backed(s, req, result)
    ensures FirstBacked(s, req, result)
  {
    if result != Result(OLDSRV_FAILURE, []) {
      var i :| 0 <= i < |s.log| && Returned(s.log[i], req, result);
      forall j | 0 <= j < i && SameCall(s.log[j].req, req) ensures req.proc == BIND {
        OneExecution(s, i, j);
      }
      assert FirstFor(s, i);
    }
  }

  lemma ResultHistoryStep(s: State, step: Step)
    requires Inv(s) && Enabled(s, step) && ResultHistory(s)
    ensures ResultHistory(Next(s, step))
  {
    var s' := Next(s, step);
    NextGrows(s, step);
    forall c, x | c in s'.clients && x in s'.clients[c].calls ensures FirstCall(s', s'.clients[c].calls[x]) {
      CallHistoryStep(s, step, c, x);
    }
    forall c, x | (c, x) in s'.returned ensures FirstOutcome(s', c, x, s'.returned[(c, x)]) {
      OutcomeHistoryStep(s, step, c, x);
    }
  }

  lemma CallHistoryStep(s: State, step: Step, c: nat, x: nat)
    requires Inv(s) && Enabled(s, step) && ResultHistory(s) && Grows(s, Next(s, step))
    requires c in Next(s, step).clients && x in Next(s, step).clients[c].calls
    ensures FirstCall(Next(s, step), Next(s, step).clients[c].calls[x])
  {
    var s' := Next(s, step);
    CallChange(s, step, c, x);
    if x in s.clients[c].calls && s'.clients[c].calls[x] == s.clients[c].calls[x] {
      assert FirstCall(s, s.clients[c].calls[x]);
      if s.clients[c].calls[x].Answered? {
        FirstKept(s, s', s.clients[c].calls[x].req, s.clients[c].calls[x].result);
      }
    } else if s'.clients[c].calls[x].Answered? {
      var req := s.clients[c].calls[x].req;
      assert ClientOk(s, c, s.clients[c]) && EnvelopeOk(s, step.env) && PacketOk(s, c, x, s.issued[(c, x)]);
      OpenBackedIsFirst(s, req, step.env.result);
      FirstKept(s, s', req, step.env.result);
    }
  }

  /** A call entry is as before, or new and waiting, or was waiting and takes the reply just delivered. */
  lemma CallChange(s: State, step: Step, c: nat, x: nat)
    requires Enabled(s, step)
    requires c in Next(s, step).clients && x in Next(s, step).clients[c].calls
    ensures c in s.clients
    ensures var call := Next(s, step).clients[c].calls[x];
            || (x in s.clients[c].calls && call == s.clients[c].calls[x])
            || call.Waiting?
            || (step.TakeReply? && step.env.clt == c && step.env.xid == x && x in s.clients[c].calls
                && s.clients[c].calls[x].Waiting? && call == Answered(s.clients[c].calls[x].req, step.env.result))
  {
    if ServerStep(step) {
      ServerStepLeaves(s, step);
    } else {
      match step
      case Begin(_, _, _) =>
      case Transmit(_, _) =>
      case TakeReply(_) =>
      case End(_, _) =>
      case Bound(_, _) =>
    }
  }

  lemma OutcomeHistoryStep(s: State, step: Step, c: nat, x: nat)
    requires Inv(s) && Enabled(s, step) && ResultHistory(s) && Grows(s, Next(s, step))
    requires (c, x) in Next(s, step).returned
    ensures FirstOutcome(Next(s, step), c, x, Next(s, step).returned[(c, x)])
  {
    var s' := Next(s, step);
    OutcomeChange(s, step, c, x);
    if (c, x) in s.returned {
      ReturnedOnlyGrows(s, step, c, x);
      assert FirstOutcome(s, c, x, s.returned[(c, x)]);
      if s.returned[(c, x)] != Result(TIMEOUT_FAILURE, []) {
        FirstKept(s, s', s.issued[(c, x)], s.returned[(c, x)]);
      }
    } else {
      assert ClientOk(s, c, s.clients[c]);
      var call := s.clients[c].calls[x];
      assert FirstCall(s, call);
      if call.Answered? {
        FirstKept(s, s', call.req, call.result);
      }
    }
  }

  lemma OutcomeChange(s: State, step: Step, c: nat, x: nat)
    requires Enabled(s, step) && (c, x) in Next(s, step).returned
    ensures || (c, x) in s.returned
            || (step == End(c, x) && Next(s, step).returned[(c, x)] == Outcome(s.clients[c].calls[x]))
  {
    if ServerStep(step) {
      ServerStepLeaves(s, step);
    } else {
      match step
      case Begin(_, _, _) =>
      case Transmit(_, _) =>
      case TakeReply(_) =>
      case End(_, _) =>
      case Bound(_, _) =>
    }
  }

  lemma WindowHistoryStep(s: State, step: Step)
    requires Inv(s) && Enabled(s, step) && WindowHistory(s)
    ensures WindowHistory(Next(s, step))
  {
    var s' := Next(s, step);
    NextGrows(s, step);
    match step
    case Dispatch(req, tid) =>
      assert Sent(s, req) && PacketOk(s, req.clt, req.xid, req) && ClientOk(s, req.clt, s.clients[req.clt]);
      DispatchWindow(s, req, tid);
    case SaveReply(tid) =>
      SaveWindow(s, tid);
    case Begin(_, _, _) => EntriesSent(s, s');
    case Transmit(_, _) => EntriesSent(s, s');
    case TakeReply(_) => EntriesSent(s, s');
    case End(_, _) => EntriesSent(s, s');
    case Bound(_, _) => EntriesSent(s, s');
    case RunHandler(_, _) => EntriesSent(s, s');
    case SendReply(_) => EntriesSent(s, s');
    case Restart(_) =>
  }

  lemma EntriesSent(s: State, s': State)
    requires Grows(s, s') && WindowHistory(s) && s'.server.window == s.server.window
    ensures WindowHistory(s')
  {
    forall c, e | c in s'.server.window && e in s'.server.window[c] ensures EntrySent(s', c, e.xid) {
      assert EntrySent(s, c, e.xid);
    }
  }

  lemma DispatchWindow(s: State, req: Request, tid: nat)
    requires WindowHistory(s) && Sent(s, req) && req in s.requests && req.clt != 0 && req.rep < req.xid
    ensures WindowHistory(Dispatched(s, req, tid))
  {
    DispatchEffect(s, req, tid);
    ScannedWindow(s, Dispatched(s, req, tid), req, tid);
  }

  lemma ScannedWindow(s: State, s': State, req: Request, tid: nat)
    requires WindowHistory(s) && Sent(s, req) && req in s.requests && req.rep < req.xid
    requires DispatchFrame(s, s', req.clt) && DispatchedTo(s, s', req, tid)
    ensures WindowHistory(s')
  {
    var l := ListOf(s.server, req.clt);
    ScanDistinct(l, req.xid, req.rep);
    forall c, e | c in s'.server.window && e in s'.server.window[c] ensures EntrySent(s', c, e.xid) {
      if c == req.clt {
        ScanMembers(l, req.xid, req.rep, e);
      }
      if c in s.server.window && e in s.server.window[c] {
        assert EntrySent(s, c, e.xid);
      }
    }
  }

  lemma SaveWindow(s: State, tid: nat)
    requires WindowHistory(s) && WireInv(s) && ServerInv(s) && Enabled(s, SaveReply(tid))
    ensures WindowHistory(ReplySaved(s, tid))
  {
    var s' := ReplySaved(s, tid);
    var req, result := s.tasks[tid].req, s.tasks[tid].phase.result;
    assert TaskOk(s, s.tasks[tid]) && Sent(s, req);
    var l := ListOf(s.server, req.clt);
    SaveEffect(l, req.xid, result);
    forall c, e | c in s'.server.window && e in s'.server.window[c] ensures EntrySent(s', c, e.xid) {
      if c in s.server.window && e in s.server.window[c] {
        assert EntrySent(s, c, e.xid);
      } else {
        SaveMembers(l, req.xid, result, e);
      }
    }
  }

  ghost predicate History(s: State) {
    BindHistory(s) && ResultHistory(s) && WindowHistory(s)
  }

  lemma {:induction false} LeadsHistory(s: State, steps: seq<Step>, t: State)
    requires Inv(s) && History(s) && Leads(s, steps, t)
    ensures Inv(t) && History(t)
    decreases |steps|
  {
    if steps != [] {
      NextInv(s, steps[0]);
      BindHistoryStep(s, steps[0]);
      ResultHistoryStep(s, steps[0]);
      WindowHistoryStep(s, steps[0]);
      LeadsHistory(Next(s, steps[0]), steps[1..], t);
    }
  }

  lemma ReachableHistory(init: State, steps: seq<Step>, s: State)
    requires Init(init) && Leads(init, steps, s)
    ensures Inv(s) && History(s)
  {
    InitInv(init);
    LeadsHistory(init, steps, s);
  }

  // ---- Restarts ----

  /** A non-bind call only ever runs at the instance whose nonce its client obtained from a bind. */
  lemma OnlyTheBoundInstanceRuns(init: State, steps: seq<Step>, s: State, i: nat)
    requires Init(init) && Leads(init, steps, s) && i < |s.log| && s.log[i].req.proc != BIND
    ensures s.log[i].inst == s.log[i].req.srv
    ensures NonceFromBind(s, s.log[i].req.clt, s.log[i].inst)
  {
    ReachableHistory(init, steps, s);
    assert ExecOk(s, s.log[i]) && Sent(s, s.log[i].req);
    assert PacketOk(s, s.log[i].req.clt, s.log[i].req.xid, s.log[i].req);
  }

  // ---- Results ----

  /**
   At the moment a reply is accepted for a call other than bind, it is the refusal by another
   instance, or the result of an execution of the call, and that is the only one so far.
   */
  lemma AcceptedResult(init: State, steps: seq<Step>, s: State, env: Envelope)
    requires Init(init) && Leads(init, steps, s) && Enabled(s, TakeReply(env))
    requires var calls := s.clients[env.clt].calls; env.xid as nat in calls && calls[env.xid].Waiting?
    requires env.result != Result(OLDSRV_FAILURE, [])
    ensures exists i :: 0 <= i < |s.log| && Returned(s.log[i], s.clients[env.clt].calls[env.xid].req, env.result)
                        && (s.log[i].req.proc != BIND ==>
                              forall j :: 0 <= j < |s.log| && SameCall(s.log[j].req, s.log[i].req) ==> j == i)
  {
    ReachableInv(init, steps, s);
    assert ClientOk(s, env.clt, s.clients[env.clt]) && EnvelopeOk(s, env);
    var req := s.clients[env.clt].calls[env.xid].req;
    assert PacketOk(s, env.clt, env.xid, req);
    var i :| 0 <= i < |s.log| && Returned(s.log[i], req, env.result);
    forall j | 0 <= j < |s.log| && SameCall(s.log[j].req, req) && j != i ensures req.proc == BIND {
      OneExecution(s, i, j);
    }
  }

  /** What a finished call returned: a timeout, a refusal, or the result of the first execution of the call. */
  lemma ReturnedResult(init: State, steps: seq<Step>, s: State, c: nat, x: nat)
    requires Init(init) && Leads(init, steps, s) && (c, x) in s.returned
    ensures Key(s, c, x)
    ensures s.returned[(c, x)] == Result(TIMEOUT_FAILURE, []) || FirstBacked(s, s.issued[(c, x)], s.returned[(c, x)])
  {
    ReachableHistory(init, steps, s);
    assert FirstOutcome(s, c, x, s.returned[(c, x)]);
  }

  /** The result a call has, if any: saved in `calls_`, or already returned. */
  function Settled(s: State, c: nat, x: nat): Option<Result> {
    if (c, x) in s.returned then Some(s.returned[(c, x)])
    else if c in s.clients && x in s.clients[c].calls && s.clients[c].calls[x].Answered?
         then Some(s.clients[c].calls[x].result)
    else None
  }

  /** Once a call is settled nothing changes its result: not a later reply, not a restart. */
  lemma SettledForEver(init: State, before: seq<Step>, s: State, steps: seq<Step>, t: State, c: nat, x: nat)
    requires Init(init) && Leads(init, before, s) && Leads(s, steps, t) && Settled(s, c, x).Some?
    ensures Settled(t, c, x) == Settled(s, c, x)
  {
    ReachableInv(init, before, s);
    SettledKept(s, steps, t, c, x);
  }

  lemma {:induction false} SettledKept(s: State, steps: seq<Step>, t: State, c: nat, x: nat)
    requires Inv(s) && Leads(s, steps, t) && Settled(s, c, x).Some?
    ensures Settled(t, c, x) == Settled(s, c, x)
    decreases |steps|
  {
    if steps != [] {
      NextInv(s, steps[0]);
      SettledStep(s, steps[0], c, x);
      SettledKept(Next(s, steps[0]), steps[1..], t, c, x);
    }
  }

  lemma SettledStep(s: State, step: Step, c: nat, x: nat)
    requires Inv(s) && Enabled(s, step) && Settled(s, c, x).Some?
    ensures Settled(Next(s, step), c, x) == Settled(s, c, x)
  {
    if (c, x) in s.returned {
      ReturnedOnlyGrows(s, step, c, x);
    } else {
      AnsweredStep(s, step, c, x);
      if (c, x) in Next(s, step).returned {
        OutcomeChange(s, step, c, x);
      }
    }
  }

  lemma AnsweredStep(s: State, step: Step, c: nat, x: nat)
    requires Enabled(s, step) && ClientInv(s)
    requires c in s.clients && x in s.clients[c].calls && s.clients[c].calls[x].Answered?
    ensures var s' := Next(s, step);
            || (c in s'.clients && x in s'.clients[c].calls && s'.clients[c].calls[x] == s.clients[c].calls[x])
            || (step == End(c, x) && (c, x) in s'.returned)
  {
    if ServerStep(step) {
      ServerStepLeaves(s, step);
    } else if step.Begin? {
      assert ClientOk(s, step.c, s.clients[step.c]);
      assert !Key(s, step.c, s.clients[step.c].nextXid);
    } else {
      AnsweredClientStep(s, step, c, x);
    }
  }

  lemma AnsweredClientStep(s: State, step: Step, c: nat, x: nat)
    requires Enabled(s, step) && !ServerStep(step) && !step.Begin?
    requires c in s.clients && x in s.clients[c].calls && s.clients[c].calls[x].Answered?
    ensures var s' := Next(s, step);
            || (c in s'.clients && x in s'.clients[c].calls && s'.clients[c].calls[x] == s.clients[c].calls[x])
            || (step == End(c, x) && (c, x) in s'.returned)
  {
  }

  // ---- The reply window ----

  /**
   After a NEW verdict with acknowledgement r, the list for the client holds distinct xids in
   (r, max], where max is the largest xid the client has put on the wire: at most max - r entries.
   */
  lemma WindowStaysSmall(init: State, steps: seq<Step>, s: State, req: Request, max: nat)
    requires Init(init) && Leads(init, steps, s) && req in s.requests && Received(s.server, req).1.Execute?
    requires forall r :: r in s.requests && r.clt == req.clt ==> r.xid <= max
    ensures var l := ListOf(Received(s.server, req).0, req.clt);
            |l| <= max - req.rep && Distinct(l) && forall e :: e in l ==> req.rep < e.xid <= max
  {
    ReachableHistory(init, steps, s);
    assert Sent(s, req) && PacketOk(s, req.clt, req.xid, req) && ClientOk(s, req.clt, s.clients[req.clt]);
    var before := ListOf(s.server, req.clt);
    forall e | e in before ensures e.xid <= max {
      assert EntrySent(s, req.clt, e.xid) && PacketOk(s, req.clt, e.xid, s.issued[(req.clt, e.xid)]);
    }
    ReceivedNew(s.server, req);
    PurgedBound(before, req.xid, req.rep, max);
  }

  lemma PurgedBound(l: seq<Entry>, xid: nat, rep: nat, max: nat)
    requires Distinct(l) && rep < xid <= max && forall e :: e in l ==> e.xid <= max
    requires Scan(l, xid, rep).1 == Above(l, rep) + [Entry(xid, None)]
    ensures var l' := Scan(l, xid, rep).1;
            |l'| <= max - rep && Distinct(l') && forall e :: e in l' ==> rep < e.xid <= max
  {
    var l' := Scan(l, xid, rep).1;
    ScanDistinct(l, xid, rep);
    forall e | e in l' ensures rep < e.xid <= max {
      AboveMember(l, rep, e);
    }
    Pigeonhole(l', rep, max);
  }

  /** While a call is open and its instance lives, its saved reply stays in the list unchanged. */
  lemma SavedReplyKept(init: State, steps: seq<Step>, s: State, step: Step, req: Request, e: Entry)
    requires Init(init) && Leads(init, steps, s) && Enabled(s, step) && !step.Restart?
    requires req in s.requests && Open(s, req) && e.xid == req.xid && e.saved.Some? && e in ListOf(s.server, req.clt)
    ensures e in ListOf(Next(s, step).server, req.clt)
  {
    ReachableInv(init, steps, s);
    assert Sent(s, req) && PacketOk(s, req.clt, req.xid, req);
    match step
    case Begin(_, _, _) =>
    case Transmit(_, _) =>
    case TakeReply(_) =>
    case End(_, _) =>
    case Bound(_, _) =>
    case Dispatch(r, tid) => DispatchKeeps(s, r, tid, req, e);
    case RunHandler(_, _) =>
    case SaveReply(tid) => SaveKeeps(s, tid, req, e);
    case SendReply(_) =>
    case Restart(_) =>
  }

  lemma DispatchKeeps(s: State, r: Request, tid: nat, req: Request, e: Entry)
    requires PacketInv(s) && WireInv(s) && Enabled(s, Dispatch(r, tid))
    requires req in s.requests && Open(s, req) && e.xid == req.xid && e in ListOf(s.server, req.clt)
    ensures e in ListOf(Dispatched(s, r, tid).server, req.clt)
  {
    assert Sent(s, req) && PacketOk(s, req.clt, req.xid, req) && Sent(s, r) && PacketOk(s, r.clt, r.xid, r);
    OpenAboveFront(s.clients[req.clt].reported, req.xid);
    ScanMembers(ListOf(s.server, r.clt), r.xid, r.rep, e);
  }

  lemma SaveKeeps(s: State, tid: nat, req: Request, e: Entry)
    requires WireInv(s) && ServerInv(s) && OnceInv(s) && Enabled(s, SaveReply(tid))
    requires req in s.requests && Open(s, req) && e.xid == req.xid && e.saved.Some? && e in ListOf(s.server, req.clt)
    ensures e in ListOf(ReplySaved(s, tid).server, req.clt)
  {
    var t := s.tasks[tid];
    assert TaskOk(s, t) && Sent(s, t.req) && Sent(s, req);
    assert WindowOk(s, req.clt, ListOf(s.server, req.clt)) && EntryOk(s, req.clt, e);
    if t.req == req {
      SameResult(s, req, t.phase.result, e.saved.value);
    }
    SaveList(s, tid, req.clt);
    if t.req.clt == req.clt {
      SaveKeepsEntry(ListOf(s.server, req.clt), t.req.xid, t.phase.result, e);
    }
  }

  lemma SaveList(s: State, tid: nat, c: nat)
    requires Enabled(s, SaveReply(tid))
    ensures var t := s.tasks[tid];
            ListOf(ReplySaved(s, tid).server, c) ==
            if c == t.req.clt && c != 0 then Save(ListOf(s.server, c), t.req.xid, t.phase.result)
            else ListOf(s.server, c)
  {
  }

  /** Two executions of an open call by one instance are one, so their results agree. */
  lemma SameResult(s: State, req: Request, a: Result, b: Result)
    requires OnceInv(s) && Open(s, req)
    requires Exec(s.server.nonce, req, a) in s.log && Exec(s.server.nonce, req, b) in s.log
    ensures a == b
  {
    var i :| 0 <= i < |s.log| && s.log[i] == Exec(s.server.nonce, req, a);
    var j :| 0 <= j < |s.log| && s.log[j] == Exec(s.server.nonce, req, b);
    assert SameExec(s.log[i], s.log[j]) && SameExec(s.log[j], s.log[i]);
  }

  lemma {:induction false} SaveKeepsEntry(l: seq<Entry>, xid: nat, result: Result, e: Entry)
    requires e in l && (e.xid == xid ==> e == Entry(xid, Some(result)))
    ensures e in Save(l, xid, result)
  {
    if l[0].xid != xid && e != l[0] {
      SaveKeepsEntry(l[1..], xid, result, e);
    }
  }

  // ---- What is not promised ----

  predicate AllReported(cl: Client, n: nat) {
    forall x :: 1 <= x < n ==> x in cl.reported
  }

  /** A bound client with no call open, talking to the instance it is bound to. */
  predicate Idle(s: State, c: nat, proc: nat) {
    && c in s.clients && s.clients[c].srvNonce == s.server.nonce
    && proc != BIND && proc in s.server.procs
    && AllReported(s.clients[c], s.clients[c].nextXid)
  }

  ghost predicate RunsTwice(s: State) {
    exists i, j :: 0 <= i < j < |s.log| && SameExec(s.log[i], s.log[j])
  }

  lemma UnusedTask(tids: set<nat>) returns (n: nat)
    ensures n !in tids
    ensures forall t :: t in tids ==> t < n
  {
    n := 0;
    var left := tids;
    while left != {}
      invariant forall t :: t in tids && t !in left ==> t < n
      decreases left
    {
      var t :| t in left;
      n := if t < n then n else t + 1;
      left := left - {t};
    }
  }

  lemma IdleFront(s: State, c: nat, proc: nat)
    requires Inv(s) && Idle(s, c, proc)
    ensures Front(s.clients[c].reported) == s.clients[c].nextXid - 1
    ensures s.clients[c].bindDone && c != 0 && !Key(s, c, s.clients[c].nextXid)
  {
    var cl := s.clients[c];
    assert ClientOk(s, c, cl);
    assert !Key(s, c, cl.nextXid);
    FrontUnique(cl.reported, cl.nextXid - 1);
  }

  /** A call that has not begun is not in any list. */
  lemma NotYetRemembered(s: State, req: Request)
    requires WindowHistory(s) && !Key(s, req.clt, req.xid)
    ensures !Remembered(s, req)
  {
    assert forall e :: e in ListOf(s.server, req.clt) ==> EntrySent(s, req.clt, e.xid);
  }

  /** An idle client begins a call and puts its packet on the wire. */
  lemma CallIssued(init: State, steps: seq<Step>, s: State, c: nat, proc: nat)
    returns (steps': seq<Step>, u: State, req: Request)
    requires Init(init) && Leads(init, steps, s) && Idle(s, c, proc) && s.clients[c].nextXid < U32
    ensures Leads(init, steps', u) && steps <= steps'
    ensures req.clt == c != 0 && req.xid == s.clients[c].nextXid && req.proc == proc
    ensures req.srv == s.server.nonce && req.rep + 1 == req.xid
    ensures u.requests == s.requests + {req} && u.server == s.server && u.log == s.log
    ensures c in u.clients && u.clients[c].nextXid == s.clients[c].nextXid + 1
    ensures u.clients[c].reported == s.clients[c].reported && u.clients[c].srvNonce == s.clients[c].srvNonce
    ensures s.clients[c].nextXid in u.clients[c].calls
    ensures !Remembered(u, req)
  {
    var cl := s.clients[c];
    ReachableHistory(init, steps, s);
    IdleFront(s, c, proc);
    req := Stamp(cl, proc, []);
    NotYetRemembered(s, req);
    var begin, transmit := Begin(c, proc, []), Transmit(c, cl.nextXid);
    LeadsTo(init, steps, s, begin);
    LeadsTo(init, steps + [begin], Next(s, begin), transmit);
    u := Next(Next(s, begin), transmit);
    steps' := steps + [begin] + [transmit];
  }

  /** A request its instance does not remember is started, and everything it acknowledges is purged. */
  lemma RequestStarts(init: State, steps: seq<Step>, s: State, req: Request)
    returns (steps': seq<Step>, u: State, tid: nat)
    requires Init(init) && Leads(init, steps, s) && req in s.requests && req.clt != 0
    requires Accepts(s.server.nonce, req) && req.proc in s.server.procs && !Remembered(s, req)
    ensures Leads(init, steps', u) && steps <= steps'
    ensures tid in u.tasks && u.tasks[tid] == Task(req, Started)
    ensures u.clients == s.clients && u.requests == s.requests && u.log == s.log
    ensures u.server.nonce == s.server.nonce && u.server.procs == s.server.procs
    ensures ListOf(u.server, req.clt) == Above(ListOf(s.server, req.clt), req.rep) + [Entry(req.xid, None)]
  {
    NewMeansAbsent(ListOf(s.server, req.clt), req.xid, req.rep);
    tid := UnusedTask(s.tasks.Keys);
    LeadsTo(init, steps, s, Dispatch(req, tid));
    steps', u := steps + [Dispatch(req, tid)], Dispatched(s, req, tid);
  }

  /** A started handler runs. */
  lemma TaskRuns(init: State, steps: seq<Step>, s: State, tid: nat)
    returns (steps': seq<Step>, u: State)
    requires Init(init) && Leads(init, steps, s)
    requires tid in s.tasks && s.tasks[tid].phase.Started? && s.tasks[tid].req.proc != BIND
    ensures Leads(init, steps', u) && steps <= steps'
    ensures u.clients == s.clients && u.requests == s.requests && u.server == s.server
    ensures u.log == s.log + [Exec(s.server.nonce, s.tasks[tid].req, Result(0, []))]
  {
    LeadsTo(init, steps, s, RunHandler(tid, Result(0, [])));
    steps', u := steps + [RunHandler(tid, Result(0, []))], HandlerRan(s, tid, Result(0, []));
  }

  lemma EndIdle(s: State, c: nat, x: nat)
    requires Enabled(s, End(c, x)) && AllReported(s.clients[c], x)
    ensures var u := Ended(s, c, x);
            && u.requests == s.requests && u.server == s.server && u.log == s.log
            && c in u.clients && AllReported(u.clients[c], x + 1)
            && u.clients[c].nextXid == s.clients[c].nextXid && u.clients[c].srvNonce == s.clients[c].srvNonce
  {
  }

  /** The client gives up on its only open call and is idle again. */
  lemma CallTimesOut(init: State, steps: seq<Step>, s: State, c: nat, proc: nat)
    returns (steps': seq<Step>, u: State)
    requires Init(init) && Leads(init, steps, s) && proc != BIND && proc in s.server.procs
    requires c in s.clients && s.clients[c].nextXid > 1 && s.clients[c].nextXid - 1 in s.clients[c].calls
    requires s.clients[c].srvNonce == s.server.nonce
    requires AllReported(s.clients[c], s.clients[c].nextXid - 1)
    ensures Leads(init, steps', u) && steps <= steps' && Idle(u, c, proc)
    ensures u.clients[c].nextXid == s.clients[c].nextXid
    ensures u.requests == s.requests && u.server == s.server && u.log == s.log
  {
    var x := s.clients[c].nextXid - 1;
    LeadsTo(init, steps, s, End(c, x));
    EndIdle(s, c, x);
    steps', u := steps + [End(c, x)], Ended(s, c, x);
  }

  /** An idle client's call runs at its server, and times out at the client. */
  lemma CallRunsUnheard(init: State, steps: seq<Step>, s: State, c: nat, proc: nat)
    returns (steps': seq<Step>, u: State, req: Request)
    requires Init(init) && Leads(init, steps, s) && Idle(s, c, proc) && s.clients[c].nextXid < U32
    ensures Leads(init, steps', u) && steps <= steps' && Idle(u, c, proc)
    ensures u.clients[c].nextXid == s.clients[c].nextXid + 1
    ensures req.clt == c && req.proc == proc && req.srv == u.server.nonce && req.xid == s.clients[c].nextXid
    ensures req in u.requests
    ensures u.server.nonce == s.server.nonce && u.log == s.log + [Exec(s.server.nonce, req, Result(0, []))]
  {
    var tid;
    steps', u, req := CallIssued(init, steps, s, c, proc);
    steps', u, tid := RequestStarts(init, steps', u, req);
    steps', u := TaskRuns(init, steps', u, tid);
    steps', u := CallTimesOut(init, steps', u, c, proc);
  }

  /**
   At most once does not hold for ever: wherever a bound client has no call open, a call that
   times out after it ran, a second call, and a late copy of the first packet make the server
   run the first call twice.
   */
  lemma LateCopyRunsAgain(init: State, steps: seq<Step>, s: State, c: nat, proc: nat)
    requires Init(init) && Leads(init, steps, s)
    requires Idle(s, c, proc) && s.clients[c].nextXid + 1 < U32
    ensures exists steps', t :: Leads(init, steps', t) && steps <= steps' && RunsTwice(t)
  {
    var steps1, s1, req := CallRunsUnheard(init, steps, s, c, proc);
    var steps2, s2, req2 := CallIssued(init, steps1, s1, c, proc);
    var steps3, s3, tid := RequestStarts(init, steps2, s2, req2);
    forall e | e in ListOf(s3.server, c) ensures e.xid > req.xid {
      AboveMember(ListOf(s2.server, c), req2.rep, e);
    }
    LateCopyStarts(init, steps3, s3, req, |s.log|);
  }

  lemma LateCopyStarts(init: State, steps: seq<Step>, s: State, req: Request, i: nat)
    requires Init(init) && Leads(init, steps, s) && req in s.requests && req.clt != 0
    requires Accepts(s.server.nonce, req) && req.proc in s.server.procs && req.proc != BIND
    requires !Remembered(s, req)
    requires i < |s.log| && s.log[i].inst == s.server.nonce && s.log[i].req == req
    ensures exists steps', t :: Leads(init, steps', t) && steps <= steps' && RunsTwice(t)
  {
    var steps1, u, tid := RequestStarts(init, steps, s, req);
    var steps2, t := TaskRuns(init, steps1, u, tid);
    assert SameExec(t.log[i], t.log[|s.log|]);
    assert Leads(init, steps2, t) && steps <= steps2 && RunsTwice(t);
  }
}
