/**
 The whole RPC system as a transition system: any number of clients, a network that loses,
 duplicates and reorders, overlapping handlers, client timeouts and server restarts.
 */
module Protocol {
  import opened Wire
  import opened RpcMessages
  import opened XidWindow
  import opened RpcClient
  import opened ReplyWindow
  import opened RpcServer

  /** A dispatch thread after a NEW verdict: before its handler, after it, after saving the reply. */
  datatype Phase = Started | Ran(result: Result) | Saved(result: Result)
  datatype Task = Task(req: Request, phase: Phase)

  /** One execution of a handler, by the server instance with nonce `inst`. */
  datatype Exec = Exec(inst: nat, req: Request, result: Result)

  datatype Envelope = Envelope(clt: nat, xid: u32, result: Result)

  /**
   `requests` and `replies` hold every packet ever sent: delivering a packet does not remove
   it, and no packet need ever be delivered. `issued`, `returned`, `instances` and `log` are history.
   */
  datatype State = State(
    clients: map<nat, Client>,
    issued: map<(nat, nat), Request>,
    returned: map<(nat, nat), Result>,
    server: Server,
    tasks: map<nat, Task>,
    instances: set<u32>,
    requests: set<Request>,
    replies: set<Envelope>,
    log: seq<Exec>)

  datatype Step =
    | Begin(c: nat, proc: nat, body: Bytes)
    | Transmit(c: nat, x: nat)
    | TakeReply(env: Envelope)
    | End(c: nat, x: nat)
    | Bound(c: nat, x: nat)
    | Dispatch(req: Request, tid: nat)
    | RunHandler(tid: nat, result: Result)
    | SaveReply(tid: nat)
    | SendReply(tid: nat)
    | Restart(nonce: u32)

  ghost predicate Init(s: State) {
    && 0 !in s.clients
    && (forall c :: c in s.clients ==> s.clients[c] == Fresh(c))
    && s.issued == map[] && s.returned == map[] && s.tasks == map[]
    && s.requests == {} && s.replies == {} && s.log == []
    && s.server.nonce != 0 && BIND in s.server.procs && s.server.window == map[]
    && s.server.nonce < U32 && s.instances == {s.server.nonce}
  }

  /** The handler of bind returns the nonce of its instance; every other handler may return anything legal. */
  predicate LegalResult(inst: nat, req: Request, result: Result) {
    && (result.ret >= 0 || result.ret == UNMARSHAL_ARGS_FAILURE)
    && (req.proc == BIND && result.ret == 0 ==> inst < U32 && result.body == Be32(inst))
  }

  predicate BindReturned(s: State, c: nat, x: nat) {
    && (c, x) in s.issued && s.issued[(c, x)].proc == BIND
    && (c, x) in s.returned && s.returned[(c, x)].ret == 0 && |s.returned[(c, x)].body| == 4
  }

  function BoundNonce(b: Bytes): u32
    requires |b| == 4
  {
    FromBe32(b[0], b[1], b[2], b[3])
  }

  ghost predicate Enabled(s: State, step: Step) {
    match step
    case Begin(c, proc, body) =>
      && c in s.clients && MayCall(s.clients[c], proc)
      && s.clients[c].nextXid < U32 && Front(s.clients[c].reported) < U32
    case Transmit(c, x) => c in s.clients && x in s.clients[c].calls
    case TakeReply(env) => env in s.replies && env.clt in s.clients
    case End(c, x) => c in s.clients && x in s.clients[c].calls
    case Bound(c, x) => c in s.clients && BindReturned(s, c, x)
    case Dispatch(req, tid) => req in s.requests && tid !in s.tasks
    case RunHandler(tid, result) =>
      tid in s.tasks && s.tasks[tid].phase.Started? && LegalResult(s.server.nonce, s.tasks[tid].req, result)
    case SaveReply(tid) => tid in s.tasks && s.tasks[tid].phase.Ran?
    case SendReply(tid) => tid in s.tasks && s.tasks[tid].phase.Saved?
    case Restart(nonce) => nonce != 0 && nonce !in s.instances
  }

  // ---- The steps ----

  ghost function Begun(s: State, c: nat, proc: nat, body: Bytes): State
    requires c in s.clients && s.clients[c].nextXid < U32 && Front(s.clients[c].reported) < U32
  {
    var cl := s.clients[c];
    s.(clients := s.clients[c := AfterBegin(cl, proc, body)],
       issued := s.issued[(c, cl.nextXid) := Stamp(cl, proc, body)])
  }

  function Transmitted(s: State, c: nat, x: nat): State
    requires c in s.clients && x in s.clients[c].calls
  {
    s.(requests := s.requests + {s.clients[c].calls[x].req})
  }

  ghost function ReplyTaken(s: State, env: Envelope): State
    requires env.clt in s.clients
  {
    s.(clients := s.clients[env.clt := AfterReply(s.clients[env.clt], env.xid, env.result)])
  }

  ghost function Ended(s: State, c: nat, x: nat): State
    requires c in s.clients && x in s.clients[c].calls
  {
    s.(clients := s.clients[c := AfterEnd(s.clients[c], x)],
       returned := s.returned[(c, x) := Outcome(s.clients[c].calls[x])])
  }

  ghost function BoundTo(s: State, c: nat, x: nat): State
    requires c in s.clients && (c, x) in s.returned && |s.returned[(c, x)].body| == 4
  {
    s.(clients := s.clients[c := AfterBind(s.clients[c], BoundNonce(s.returned[(c, x)].body))])
  }

  function Dispatched(s: State, req: Request, tid: nat): State {
    var (server, decision) := Received(s.server, req);
    Decided(s, server, decision, req, tid)
  }

  function Decided(s: State, server: Server, decision: Decision, req: Request, tid: nat): State {
    var s' := s.(server := server);
    match decision
    case Ignore => s'
    case Answer(result) => s'.(replies := s.replies + {Envelope(req.clt, req.xid, result)})
    case Execute => s'.(tasks := s.tasks[tid := Task(req, Started)])
  }

  function HandlerRan(s: State, tid: nat, result: Result): State
    requires tid in s.tasks
  {
    var t := s.tasks[tid];
    s.(tasks := s.tasks[tid := Task(t.req, Ran(result))],
       log := s.log + [Exec(s.server.nonce, t.req, result)])
  }

  function ReplySaved(s: State, tid: nat): State
    requires tid in s.tasks && s.tasks[tid].phase.Ran?
  {
    var t := s.tasks[tid];
    s.(tasks := s.tasks[tid := Task(t.req, Saved(t.phase.result))],
       server := Finished(s.server, t.req, t.phase.result))
  }

  function ReplySent(s: State, tid: nat): State
    requires tid in s.tasks && s.tasks[tid].phase.Saved?
  {
    var t := s.tasks[tid];
    s.(tasks := s.tasks - {tid},
       replies := s.replies + {Envelope(t.req.clt, t.req.xid, t.phase.result)})
  }

  function Restarted(s: State, nonce: u32): State {
    s.(server := Server(nonce, s.server.procs, map[]), tasks := map[], instances := s.instances + {nonce})
  }

  ghost function Next(s: State, step: Step): State
    requires Enabled(s, step)
  {
    match step
    case Begin(c, proc, body) => Begun(s, c, proc, body)
    case Transmit(c, x) => Transmitted(s, c, x)
    case TakeReply(env) => ReplyTaken(s, env)
    case End(c, x) => Ended(s, c, x)
    case Bound(c, x) => BoundTo(s, c, x)
    case Dispatch(req, tid) => Dispatched(s, req, tid)
    case RunHandler(tid, result) => HandlerRan(s, tid, result)
    case SaveReply(tid) => ReplySaved(s, tid)
    case SendReply(tid) => ReplySent(s, tid)
    case Restart(nonce) => Restarted(s, nonce)
  }

  predicate ServerStep(step: Step) {
    step.Dispatch? || step.RunHandler? || step.SaveReply? || step.SendReply? || step.Restart?
  }

  /** The steps lead from s to t: a run, when s is initial. */
  ghost predicate Leads(s: State, steps: seq<Step>, t: State)
    decreases |steps|
  {
    if steps == [] then s == t
    else Enabled(s, steps[0]) && Leads(Next(s, steps[0]), steps[1..], t)
  }

  lemma {:induction false} LeadsTo(s: State, steps: seq<Step>, t: State, more: Step)
    requires Leads(s, steps, t) && Enabled(t, more)
    ensures Leads(s, steps + [more], Next(t, more))
    decreases |steps|
  {
    if steps == [] {
      assert Leads(Next(t, more), [], Next(t, more));
    } else {
      LeadsTo(Next(s, steps[0]), steps[1..], t, more);
      assert (steps + [more])[1..] == steps[1..] + [more];
    }
  }

  /** The call is open: its client has not recorded it as answered or given up. */
  predicate Open(s: State, req: Request) {
    req.clt in s.clients && req.xid !in s.clients[req.clt].reported
  }
}
