/** What every reachable state of the RPC system satisfies. */
module ProtocolInvariant {
  import opened Wire
  import opened RpcMessages
  import opened XidWindow
  import opened RpcClient
  import opened ReplyWindow
  import opened RpcServer
  import opened Protocol

  predicate Key(s: State, c: nat, x: nat) {
    (c, x) in s.issued
  }

  /** A call is recorded exactly when it has been answered or has left `calls_`. */
  ghost predicate ClientOk(s: State, c: nat, cl: Client) {
    && c != 0 && cl.nonce == c && 1 <= cl.nextXid <= U32
    && (forall x: nat :: Key(s, c, x) <==> 1 <= x < cl.nextXid)
    && (forall x :: x in cl.reported ==> Key(s, c, x))
    && (forall x :: x in cl.calls ==> Key(s, c, x) && cl.calls[x].req == s.issued[(c, x)])
    && (forall x: nat :: Key(s, c, x) ==> (x in cl.reported <==> x !in cl.calls || cl.calls[x].Answered?))
    && (cl.bindDone <==> cl.srvNonce != 0)
    && (cl.bindDone ==> cl.srvNonce in s.instances)
  }

  ghost predicate ClientInv(s: State) {
    forall c :: c in s.clients ==> ClientOk(s, c, s.clients[c])
  }

  /** Every packet acknowledges less than its own xid, and no more than its client's present front. */
  ghost predicate PacketOk(s: State, c: nat, x: nat, req: Request) {
    && c in s.clients && req.clt == c && req.xid == x
    && req.rep < req.xid && req.rep <= Front(s.clients[c].reported)
    && (req.proc == BIND ==> req.srv == 0)
    && (req.proc != BIND ==> req.srv != 0 && req.srv in s.instances)
  }

  ghost predicate PacketInv(s: State) {
    forall c, x :: Key(s, c, x) ==> PacketOk(s, c, x, s.issued[(c, x)])
  }

  predicate Sent(s: State, r: Request) {
    Key(s, r.clt, r.xid) && s.issued[(r.clt, r.xid)] == r
  }

  ghost predicate WireInv(s: State) {
    forall r :: r in s.requests ==> Sent(s, r)
  }

  predicate Accepts(inst: nat, req: Request) {
    req.srv == 0 || req.srv == inst
  }

  predicate ExecOk(s: State, e: Exec) {
    e.req in s.requests && e.inst in s.instances && Accepts(e.inst, e.req) && LegalResult(e.inst, e.req, e.result)
  }

  ghost predicate LogInv(s: State) {
    forall i :: 0 <= i < |s.log| ==> ExecOk(s, s.log[i])
  }

  predicate TaskOk(s: State, t: Task) {
    && t.req in s.requests && Accepts(s.server.nonce, t.req)
    && (!t.phase.Started? ==> Exec(s.server.nonce, t.req, t.phase.result) in s.log)
  }

  /** A saved reply is what this instance's execution of the call returned. */
  predicate EntryOk(s: State, c: nat, e: Entry) {
    e.saved.Some? ==> Key(s, c, e.xid) && Exec(s.server.nonce, s.issued[(c, e.xid)], e.saved.value) in s.log
  }

  ghost predicate WindowOk(s: State, c: nat, l: seq<Entry>) {
    forall e :: e in l ==> EntryOk(s, c, e)
  }

  ghost predicate ServerInv(s: State) {
    && 0 !in s.instances && s.server.nonce in s.instances && BIND in s.server.procs
    && (forall t :: t in s.tasks ==> TaskOk(s, s.tasks[t]))
    && (forall c :: c in s.server.window ==> WindowOk(s, c, s.server.window[c]))
  }

  /** The result is the refusal by another instance, or what some execution of the call returned. */
  ghost predicate Backed(s: State, req: Request, result: Result) {
    result == Result(OLDSRV_FAILURE, []) || exists i :: 0 <= i < |s.log| && Returned(s.log[i], req, result)
  }

  predicate Returned(e: Exec, req: Request, result: Result) {
    e.req == req && e.result == result
  }

  ghost predicate EnvelopeOk(s: State, env: Envelope) {
    Key(s, env.clt, env.xid) && Backed(s, s.issued[(env.clt, env.xid)], env.result)
  }

  ghost predicate ReplyInv(s: State) {
    forall env :: env in s.replies ==> EnvelopeOk(s, env)
  }

  ghost predicate CallOk(s: State, call: Call) {
    call.Answered? ==> Backed(s, call.req, call.result)
  }

  ghost predicate OutcomeOk(s: State, c: nat, x: nat, result: Result) {
    && c in s.clients && Key(s, c, x) && x !in s.clients[c].calls
    && (result == Result(TIMEOUT_FAILURE, []) || Backed(s, s.issued[(c, x)], result))
  }

  ghost predicate ResultInv(s: State) {
    && (forall c, x :: c in s.clients && x in s.clients[c].calls ==> CallOk(s, s.clients[c].calls[x]))
    && (forall c, x :: (c, x) in s.returned ==> OutcomeOk(s, c, x, s.returned[(c, x)]))
  }

  predicate Remembered(s: State, req: Request) {
    Has(ListOf(s.server, req.clt), req.xid)
  }

  /** The current instance remembers every open call it has accepted. */
  ghost predicate MemoryInv(s: State) {
    && (forall t :: t in s.tasks && Open(s, s.tasks[t].req) ==> Remembered(s, s.tasks[t].req))
    && (forall i :: 0 <= i < |s.log| && s.log[i].inst == s.server.nonce && Open(s, s.log[i].req)
          ==> Remembered(s, s.log[i].req))
  }

  predicate SameExec(e: Exec, f: Exec) {
    e.inst == f.inst && e.req == f.req
  }

  /** No instance has executed an open call twice, or will: at most one task or log entry is about it. */
  ghost predicate OnceInv(s: State) {
    && (forall i, j :: 0 <= i < j < |s.log| && SameExec(s.log[i], s.log[j]) ==> !Open(s, s.log[i].req))
    && (forall t, u :: t in s.tasks && u in s.tasks && t != u && s.tasks[t].req == s.tasks[u].req
          ==> !Open(s, s.tasks[t].req))
    && (forall t, i :: t in s.tasks && s.tasks[t].phase.Started? && 0 <= i < |s.log|
                       && s.log[i].inst == s.server.nonce && s.log[i].req == s.tasks[t].req
          ==> !Open(s, s.tasks[t].req))
  }

  ghost predicate ClientSide(s: State) {
    ClientInv(s) && PacketInv(s) && WireInv(s) && ResultInv(s)
  }

  ghost predicate ServerSide(s: State) {
    LogInv(s) && ServerInv(s) && ReplyInv(s) && MemoryInv(s) && OnceInv(s)
  }

  ghost predicate Inv(s: State) {
    ClientSide(s) && ServerSide(s)
  }

  lemma InitInv(s: State)
    requires Init(s)
    ensures Inv(s)
  {
    FrontUnique({}, 0);
  }

  // ---- History only grows ----

  ghost predicate Grows(s: State, s': State) {
    && s.clients.Keys == s'.clients.Keys
    && (forall c :: c in s.clients ==> s.clients[c].reported <= s'.clients[c].reported)
    && (forall c, x :: Key(s, c, x) ==> Key(s', c, x) && s.issued[(c, x)] == s'.issued[(c, x)])
    && s.requests <= s'.requests && s.instances <= s'.instances && s.log <= s'.log
  }

  lemma NextGrows(s: State, step: Step)
    requires ClientInv(s) && Enabled(s, step)
    ensures Grows(s, Next(s, step))
  {
    if ServerStep(step) {
      ServerStepGrows(s, step);
    } else {
      match step
      case Begin(c, proc, body) => BeginGrows(s, c, proc, body);
      case Transmit(c, x) =>
      case TakeReply(env) => OneClientGrows(s, Next(s, step), env.clt);
      case End(c, x) => OneClientGrows(s, Next(s, step), c);
      case Bound(c, x) => OneClientGrows(s, Next(s, step), c);
    }
  }

  lemma OneClientGrows(s: State, s': State, c: nat)
    requires c in s.clients && c in s'.clients && s'.clients == s.clients[c := s'.clients[c]]
    requires s.clients[c].reported <= s'.clients[c].reported && s'.issued == s.issued
    requires s'.requests == s.requests && s'.instances == s.instances && s'.log == s.log
    ensures Grows(s, s')
  {
  }

  lemma BeginGrows(s: State, c: nat, proc: nat, body: Bytes)
    requires ClientInv(s) && Enabled(s, Begin(c, proc, body))
    ensures Grows(s, Begun(s, c, proc, body))
  {
    assert ClientOk(s, c, s.clients[c]);
    assert !Key(s, c, s.clients[c].nextXid);
  }

  /** A server's step touches no client and no history of the clients. */
  lemma ServerStepLeaves(s: State, step: Step)
    requires Enabled(s, step) && ServerStep(step)
    ensures var s' := Next(s, step);
            && s'.clients == s.clients && s'.issued == s.issued && s'.returned == s.returned
            && s'.requests == s.requests && s.instances <= s'.instances && s.log <= s'.log
  {
    match step
    case Dispatch(req, tid) => DispatchLeaves(s, req, tid);
    case RunHandler(_, _) =>
    case SaveReply(_) =>
    case SendReply(_) =>
    case Restart(_) =>
  }

  lemma ServerGrows(s: State, s': State)
    requires s'.clients == s.clients && s'.issued == s.issued && s'.requests == s.requests
    requires s.instances <= s'.instances && s.log <= s'.log
    ensures Grows(s, s')
  {
  }

  lemma ServerStepGrows(s: State, step: Step)
    requires Enabled(s, step) && ServerStep(step)
    ensures Grows(s, Next(s, step))
  {
    ServerStepLeaves(s, step);
  }

  lemma PacketsKept(s: State, s': State)
    requires Grows(s, s') && PacketInv(s) && s'.issued == s.issued
    ensures PacketInv(s')
  {
    forall c, x | Key(s', c, x) ensures PacketOk(s', c, x, s'.issued[(c, x)]) {
      assert PacketOk(s, c, x, s.issued[(c, x)]);
      FrontMonotone(s.clients[c].reported, s'.clients[c].reported);
    }
  }

  lemma LogKept(s: State, s': State)
    requires Grows(s, s') && LogInv(s) && s'.log == s.log
    ensures LogInv(s')
  {
    forall i | 0 <= i < |s'.log| ensures ExecOk(s', s'.log[i]) {
      assert ExecOk(s, s.log[i]);
    }
  }

  lemma BackedKept(s: State, s': State, req: Request, result: Result)
    requires s.log <= s'.log && Backed(s, req, result)
    ensures Backed(s', req, result)
  {
    if i :| 0 <= i < |s.log| && Returned(s.log[i], req, result) {
      assert s'.log[i] == s.log[i];
    }
  }

  lemma RepliesKept(s: State, s': State)
    requires Grows(s, s') && ReplyInv(s) && s'.replies == s.replies
    ensures ReplyInv(s')
  {
    forall env | env in s'.replies ensures EnvelopeOk(s', env) {
      assert EnvelopeOk(s, env);
      BackedKept(s, s', s.issued[(env.clt, env.xid)], env.result);
    }
  }

  lemma ClientsKept(s: State, s': State, c: nat)
    requires Grows(s, s') && ClientInv(s)
    requires forall d :: d in s.clients && d != c ==> s'.clients[d] == s.clients[d]
    requires forall d, x :: d != c && Key(s', d, x) ==> Key(s, d, x)
    requires c in s.clients ==> ClientOk(s', c, s'.clients[c])
    ensures ClientInv(s')
  {
    forall d | d in s'.clients ensures ClientOk(s', d, s'.clients[d]) {
      assert ClientOk(s, d, s.clients[d]);
    }
  }

  lemma WireKept(s: State, s': State)
    requires Grows(s, s') && WireInv(s) && s'.requests == s.requests
    ensures WireInv(s')
  {
    forall r | r in s'.requests ensures Sent(s', r) {
      assert Sent(s, r);
    }
  }

  lemma TaskKept(s: State, s': State, t: Task)
    requires Grows(s, s') && s'.server.nonce == s.server.nonce && TaskOk(s, t)
    ensures TaskOk(s', t)
  {
  }

  lemma EntryKept(s: State, s': State, c: nat, e: Entry)
    requires Grows(s, s') && s'.server.nonce == s.server.nonce && EntryOk(s, c, e)
    ensures EntryOk(s', c, e)
  {
  }

  lemma ServerKept(s: State, s': State)
    requires Grows(s, s') && ServerInv(s)
    requires s'.server == s.server && s'.tasks == s.tasks && s'.instances == s.instances
    ensures ServerInv(s')
  {
    forall t | t in s'.tasks ensures TaskOk(s', s'.tasks[t]) {
      TaskKept(s, s', s.tasks[t]);
    }
    forall c | c in s'.server.window ensures WindowOk(s', c, s'.server.window[c]) {
      WindowKept(s, s', c, s.server.window[c]);
    }
  }

  lemma WindowKept(s: State, s': State, c: nat, l: seq<Entry>)
    requires Grows(s, s') && s'.server.nonce == s.server.nonce && WindowOk(s, c, l)
    ensures WindowOk(s', c, l)
  {
    forall e | e in l ensures EntryOk(s', c, e) {
      EntryKept(s, s', c, e);
    }
  }

  lemma ResultsKept(s: State, s': State)
    requires Grows(s, s') && ResultInv(s) && s'.returned == s.returned
    requires forall c :: c in s.clients ==> s'.clients[c].calls == s.clients[c].calls
    ensures ResultInv(s')
  {
    forall c, x | c in s'.clients && x in s'.clients[c].calls ensures CallOk(s', s'.clients[c].calls[x]) {
      CallKept(s, s', s.clients[c].calls[x]);
    }
    forall c, x | (c, x) in s'.returned ensures OutcomeOk(s', c, x, s'.returned[(c, x)]) {
      OutcomeKept(s, s', c, x, s.returned[(c, x)]);
    }
  }

  lemma CallKept(s: State, s': State, call: Call)
    requires Grows(s, s') && CallOk(s, call)
    ensures CallOk(s', call)
  {
    if call.Answered? {
      BackedKept(s, s', call.req, call.result);
    }
  }

  lemma OutcomeKept(s: State, s': State, c: nat, x: nat, result: Result)
    requires Grows(s, s') && OutcomeOk(s, c, x, result)
    requires x !in s'.clients[c].calls
    ensures OutcomeOk(s', c, x, result)
  {
    if result != Result(TIMEOUT_FAILURE, []) {
      BackedKept(s, s', s.issued[(c, x)], result);
    }
  }

  lemma MemoryKept(s: State, s': State)
    requires Grows(s, s') && MemoryInv(s)
    requires s'.server == s.server && s'.tasks == s.tasks && s'.log == s.log
    ensures MemoryInv(s')
  {
  }

  lemma OnceKept(s: State, s': State)
    requires Grows(s, s') && OnceInv(s)
    requires s'.server.nonce == s.server.nonce && s'.tasks == s.tasks && s'.log == s.log
    ensures OnceInv(s')
  {
  }

  // ---- The client's steps ----

  /** The parts of the invariant that a client's step leaves alone. */
  lemma ServerSideKept(s: State, s': State)
    requires Grows(s, s') && ServerSide(s)
    requires s'.server == s.server && s'.tasks == s.tasks && s'.log == s.log
    requires s'.instances == s.instances && s'.replies == s.replies
    ensures ServerSide(s')
  {
    LogKept(s, s');
    ServerKept(s, s');
    RepliesKept(s, s');
    MemoryKept(s, s');
    OnceKept(s, s');
  }

  lemma BeginClientSide(s: State, c: nat, proc: nat, body: Bytes)
    requires ClientSide(s) && Enabled(s, Begin(c, proc, body))
    ensures ClientSide(Begun(s, c, proc, body))
  {
    BeginGrows(s, c, proc, body);
    WireKept(s, Begun(s, c, proc, body));
    BeginPackets(s, c, proc, body);
    BeginResults(s, c, proc, body);
    BeginClients(s, c, proc, body);
  }

  lemma BeginClients(s: State, c: nat, proc: nat, body: Bytes)
    requires ClientInv(s) && Enabled(s, Begin(c, proc, body))
    ensures ClientInv(Begun(s, c, proc, body))
  {
    var s' := Begun(s, c, proc, body);
    var cl := s.clients[c];
    BeginGrows(s, c, proc, body);
    assert ClientOk(s, c, cl) && !Key(s, c, cl.nextXid);
    assert forall d, x :: Key(s', d, x) <==> Key(s, d, x) || (d == c && x == cl.nextXid);
    assert ClientOk(s', c, s'.clients[c]);
    ClientsKept(s, s', c);
  }

  lemma BeginPackets(s: State, c: nat, proc: nat, body: Bytes)
    requires ClientInv(s) && PacketInv(s) && Enabled(s, Begin(c, proc, body))
    ensures PacketInv(Begun(s, c, proc, body))
  {
    var s' := Begun(s, c, proc, body);
    var cl := s.clients[c];
    assert ClientOk(s, c, cl);
    OpenAboveFront(cl.reported, cl.nextXid);
    forall d, x | Key(s', d, x) ensures PacketOk(s', d, x, s'.issued[(d, x)]) {
      if Key(s, d, x) {
        assert PacketOk(s, d, x, s.issued[(d, x)]);
      } else {
        assert s'.issued[(d, x)] == Stamp(cl, proc, body);
      }
    }
  }

  lemma BeginResults(s: State, c: nat, proc: nat, body: Bytes)
    requires ClientInv(s) && ResultInv(s) && Enabled(s, Begin(c, proc, body))
    ensures ResultInv(Begun(s, c, proc, body))
  {
    var s' := Begun(s, c, proc, body);
    BeginGrows(s, c, proc, body);
    assert ClientOk(s, c, s.clients[c]);
    forall d, x | d in s'.clients && x in s'.clients[d].calls ensures CallOk(s', s'.clients[d].calls[x]) {
      if x in s.clients[d].calls {
        assert CallOk(s, s.clients[d].calls[x]);
        CallKept(s, s', s.clients[d].calls[x]);
      }
    }
    forall d, x | (d, x) in s'.returned ensures OutcomeOk(s', d, x, s'.returned[(d, x)]) {
      assert OutcomeOk(s, d, x, s.returned[(d, x)]);
      OutcomeKept(s, s', d, x, s.returned[(d, x)]);
    }
  }

  lemma TransmitClientSide(s: State, c: nat, x: nat)
    requires ClientSide(s) && Enabled(s, Transmit(c, x))
    ensures ClientSide(Transmitted(s, c, x))
  {
    PacketsKept(s, Transmitted(s, c, x));
    ResultsKept(s, Transmitted(s, c, x));
    TransmitClients(s, c, x);
    TransmitWire(s, c, x);
  }

  lemma TransmitClients(s: State, c: nat, x: nat)
    requires ClientInv(s) && Enabled(s, Transmit(c, x))
    ensures ClientInv(Transmitted(s, c, x))
  {
    var s' := Transmitted(s, c, x);
    assert ClientOk(s, c, s.clients[c]);
    ClientsKept(s, s', c);
  }

  lemma TransmitWire(s: State, c: nat, x: nat)
    requires ClientInv(s) && PacketInv(s) && WireInv(s) && Enabled(s, Transmit(c, x))
    ensures WireInv(Transmitted(s, c, x))
  {
    var s' := Transmitted(s, c, x);
    assert ClientOk(s, c, s.clients[c]);
    assert PacketOk(s, c, x, s.issued[(c, x)]);
    forall r | r in s'.requests ensures Sent(s', r) {
      assert r in s.requests ==> Sent(s, r);
    }
  }

  lemma TakeReplyClientSide(s: State, env: Envelope)
    requires ClientSide(s) && ReplyInv(s) && Enabled(s, TakeReply(env))
    ensures ClientSide(ReplyTaken(s, env))
  {
    OneClientGrows(s, ReplyTaken(s, env), env.clt);
    PacketsKept(s, ReplyTaken(s, env));
    WireKept(s, ReplyTaken(s, env));
    TakeReplyResults(s, env);
    TakeReplyClients(s, env);
  }

  lemma TakeReplyClients(s: State, env: Envelope)
    requires ClientInv(s) && ReplyInv(s) && Enabled(s, TakeReply(env))
    ensures ClientInv(ReplyTaken(s, env))
  {
    var s' := ReplyTaken(s, env);
    OneClientGrows(s, s', env.clt);
    assert ClientOk(s, env.clt, s.clients[env.clt]);
    assert EnvelopeOk(s, env);
    ClientsKept(s, s', env.clt);
  }

  lemma TakeReplyResults(s: State, env: Envelope)
    requires ClientInv(s) && ReplyInv(s) && ResultInv(s) && Enabled(s, TakeReply(env))
    ensures ResultInv(ReplyTaken(s, env))
  {
    var s' := ReplyTaken(s, env);
    OneClientGrows(s, s', env.clt);
    assert ClientOk(s, env.clt, s.clients[env.clt]);
    assert EnvelopeOk(s, env);
    forall d, x | d in s'.clients && x in s'.clients[d].calls ensures CallOk(s', s'.clients[d].calls[x]) {
      if s'.clients[d].calls[x] == s.clients[d].calls[x] {
        CallKept(s, s', s.clients[d].calls[x]);
      } else {
        BackedKept(s, s', s.issued[(d, x)], env.result);
      }
    }
    forall d, x | (d, x) in s'.returned ensures OutcomeOk(s', d, x, s'.returned[(d, x)]) {
      assert OutcomeOk(s, d, x, s.returned[(d, x)]);
      OutcomeKept(s, s', d, x, s.returned[(d, x)]);
    }
  }

  lemma EndClientSide(s: State, c: nat, x: nat)
    requires ClientSide(s) && Enabled(s, End(c, x))
    ensures ClientSide(Ended(s, c, x))
  {
    OneClientGrows(s, Ended(s, c, x), c);
    PacketsKept(s, Ended(s, c, x));
    WireKept(s, Ended(s, c, x));
    EndResults(s, c, x);
    EndClients(s, c, x);
  }

  lemma EndClients(s: State, c: nat, x: nat)
    requires ClientInv(s) && Enabled(s, End(c, x))
    ensures ClientInv(Ended(s, c, x))
  {
    var s' := Ended(s, c, x);
    OneClientGrows(s, s', c);
    assert ClientOk(s, c, s.clients[c]);
    ClientsKept(s, s', c);
  }

  lemma EndResults(s: State, c: nat, x: nat)
    requires ClientInv(s) && ResultInv(s) && Enabled(s, End(c, x))
    ensures ResultInv(Ended(s, c, x))
  {
    var s' := Ended(s, c, x);
    OneClientGrows(s, s', c);
    assert ClientOk(s, c, s.clients[c]);
    forall d, y | d in s'.clients && y in s'.clients[d].calls ensures CallOk(s', s'.clients[d].calls[y]) {
      CallKept(s, s', s.clients[d].calls[y]);
    }
    assert CallOk(s, s.clients[c].calls[x]);
    forall d, y | (d, y) in s'.returned ensures OutcomeOk(s', d, y, s'.returned[(d, y)]) {
      if (d, y) == (c, x) {
        if s.clients[c].calls[x].Answered? {
          BackedKept(s, s', s.issued[(c, x)], s.clients[c].calls[x].result);
        }
      } else {
        assert OutcomeOk(s, d, y, s.returned[(d, y)]);
        OutcomeKept(s, s', d, y, s.returned[(d, y)]);
      }
    }
  }

  lemma BoundClientSide(s: State, c: nat, x: nat)
    requires ClientSide(s) && LogInv(s) && ServerInv(s) && Enabled(s, Bound(c, x))
    ensures ClientSide(BoundTo(s, c, x))
  {
    OneClientGrows(s, BoundTo(s, c, x), c);
    PacketsKept(s, BoundTo(s, c, x));
    WireKept(s, BoundTo(s, c, x));
    ResultsKept(s, BoundTo(s, c, x));
    BoundClients(s, c, x);
  }

  lemma BoundClients(s: State, c: nat, x: nat)
    requires ClientInv(s) && ResultInv(s) && LogInv(s) && ServerInv(s) && Enabled(s, Bound(c, x))
    ensures ClientInv(BoundTo(s, c, x))
  {
    OneClientGrows(s, BoundTo(s, c, x), c);
    BoundClient(s, c, x);
    ClientsKept(s, BoundTo(s, c, x), c);
  }

  lemma BoundClient(s: State, c: nat, x: nat)
    requires ClientInv(s) && ResultInv(s) && LogInv(s) && ServerInv(s) && Enabled(s, Bound(c, x))
    ensures var s' := BoundTo(s, c, x); ClientOk(s', c, s'.clients[c])
  {
    BoundNonceKnown(s, c, x);
    assert ClientOk(s, c, s.clients[c]);
  }

  /** The nonce a client obtains from bind is that of an instance that has existed. */
  lemma BoundNonceKnown(s: State, c: nat, x: nat)
    requires ResultInv(s) && LogInv(s) && ServerInv(s) && BindReturned(s, c, x)
    ensures BoundNonce(s.returned[(c, x)].body) in s.instances
    ensures BoundNonce(s.returned[(c, x)].body) != 0
  {
    var result := s.returned[(c, x)];
    assert OutcomeOk(s, c, x, result);
    var i :| 0 <= i < |s.log| && Returned(s.log[i], s.issued[(c, x)], result);
    assert ExecOk(s, s.log[i]);
    Be32RoundTrip(s.log[i].inst);
  }

  // ---- The server's steps ----

  /** The parts of the invariant that a server's step leaves alone. */
  lemma ClientSideKept(s: State, s': State)
    requires Grows(s, s') && ClientSide(s)
    requires s'.clients == s.clients && s'.issued == s.issued && s'.returned == s.returned
    requires s'.requests == s.requests
    ensures ClientSide(s')
  {
    PacketsKept(s, s');
    WireKept(s, s');
    ResultsKept(s, s');
    ClientsKept(s, s', 0);
  }

  lemma DispatchServerSide(s: State, req: Request, tid: nat)
    requires ClientInv(s) && PacketInv(s) && WireInv(s) && ServerSide(s) && req in s.requests && tid !in s.tasks
    ensures ServerSide(Dispatched(s, req, tid))
  {
    PacketOnWire(s, req);
    DispatchEffect(s, req, tid);
    AfterDispatch(s, Dispatched(s, req, tid), req, tid);
  }

  lemma PacketOnWire(s: State, req: Request)
    requires ClientInv(s) && PacketInv(s) && WireInv(s) && req in s.requests
    ensures Sent(s, req) && PacketOk(s, req.clt, req.xid, req) && req.clt != 0
  {
    assert Sent(s, req);
    assert PacketOk(s, req.clt, req.xid, req);
    assert ClientOk(s, req.clt, s.clients[req.clt]);
  }

  lemma AfterDispatch(s: State, s': State, req: Request, tid: nat)
    requires PacketInv(s) && WireInv(s) && ServerSide(s) && req in s.requests && tid !in s.tasks
    requires Sent(s, req) && PacketOk(s, req.clt, req.xid, req)
    requires DispatchFrame(s, s', req.clt) && DispatchedTo(s, s', req, tid)
    ensures ServerSide(s')
  {
    ServerGrows(s, s');
    LogKept(s, s');
    DispatchReplies(s, s', req, tid);
    DispatchServer(s, s', req, tid);
    DispatchMemory(s, s', req, tid);
    DispatchOnce(s, s', req, tid);
  }

  /** Nothing but the reply set, the list of the sender and one task changes. */
  predicate DispatchFrame(s: State, s': State, clt: nat) {
    && s'.clients == s.clients && s'.issued == s.issued && s'.returned == s.returned
    && s'.requests == s.requests && s'.log == s.log && s'.instances == s.instances
    && s'.server.nonce == s.server.nonce && s'.server.procs == s.server.procs
    && s'.server.window.Keys <= s.server.window.Keys + {clt}
    && forall c :: c in s.server.window && c != clt ==>
         c in s'.server.window && s'.server.window[c] == s.server.window[c]
  }

  /** The sender's list is untouched or scanned; a task starts only for a request the instance does not remember. */
  predicate DispatchedTo(s: State, s': State, req: Request, tid: nat) {
    && (|| ListOf(s'.server, req.clt) == ListOf(s.server, req.clt)
        || ListOf(s'.server, req.clt) == Scan(ListOf(s.server, req.clt), req.xid, req.rep).1)
    && (|| s'.tasks == s.tasks
        || (&& s'.tasks == s.tasks[tid := Task(req, Started)] && Accepts(s.server.nonce, req)
            && !Remembered(s, req) && Remembered(s', req)))
    && (forall env :: env in s'.replies ==>
          env in s.replies || (env.clt == req.clt && env.xid == req.xid && Answers(s.server, req, env.result)))
  }

  /** What a server may answer at once: a refusal, or the saved reply. */
  predicate Answers(sv: Server, req: Request, result: Result) {
    result == Result(OLDSRV_FAILURE, []) || Entry(req.xid, Some(result)) in ListOf(sv, req.clt)
  }

  /** What a server does with the lists of its clients when a request arrives. */
  predicate ReceivedFrame(sv: Server, sv': Server, d: Decision, req: Request) {
    && sv'.nonce == sv.nonce && sv'.procs == sv.procs && sv'.window.Keys <= sv.window.Keys + {req.clt}
    && (forall c :: c in sv.window && c != req.clt ==> c in sv'.window && sv'.window[c] == sv.window[c])
    && (|| ListOf(sv', req.clt) == ListOf(sv, req.clt)
        || ListOf(sv', req.clt) == Scan(ListOf(sv, req.clt), req.xid, req.rep).1)
    && (d.Execute? ==> && Accepts(sv.nonce, req) && !Has(ListOf(sv, req.clt), req.xid)
                       && Has(ListOf(sv', req.clt), req.xid))
    && (d.Answer? ==> Answers(sv, req, d.result))
  }

  lemma ReceivedEffect(sv: Server, req: Request)
    requires req.clt != 0 && req.rep < req.xid
    ensures ReceivedFrame(sv, Received(sv, req).0, Received(sv, req).1, req)
  {
    ScanFacts(ListOf(sv, req.clt), req.xid, req.rep);
  }

  lemma DecidedEffect(s: State, sv': Server, d: Decision, req: Request, tid: nat)
    requires ReceivedFrame(s.server, sv', d, req)
    ensures DispatchFrame(s, Decided(s, sv', d, req, tid), req.clt)
    ensures DispatchedTo(s, Decided(s, sv', d, req, tid), req, tid)
  {
  }

  lemma DispatchEffect(s: State, req: Request, tid: nat)
    requires req.clt != 0 && req.rep < req.xid
    ensures DispatchFrame(s, Dispatched(s, req, tid), req.clt)
    ensures DispatchedTo(s, Dispatched(s, req, tid), req, tid)
  {
    var (sv', d) := Received(s.server, req);
    ReceivedEffect(s.server, req);
    DecidedEffect(s, sv', d, req, tid);
  }

  lemma DecidedLeaves(s: State, sv': Server, d: Decision, req: Request, tid: nat)
    ensures var s' := Decided(s, sv', d, req, tid);
            && s'.clients == s.clients && s'.issued == s.issued && s'.returned == s.returned
            && s'.requests == s.requests && s'.log == s.log && s'.instances == s.instances
  {
  }

  lemma DispatchLeaves(s: State, req: Request, tid: nat)
    ensures var s' := Dispatched(s, req, tid);
            && s'.clients == s.clients && s'.issued == s.issued && s'.returned == s.returned
            && s'.requests == s.requests && s'.log == s.log && s'.instances == s.instances
  {
    var (sv', d) := Received(s.server, req);
    DecidedLeaves(s, sv', d, req, tid);
  }

  /** What the scan of the client's list answers and leaves behind, for a packet from a correct client. */
  lemma ScanFacts(l: seq<Entry>, xid: nat, rep: nat)
    requires rep < xid
    ensures var (v, l') := Scan(l, xid, rep);
            && !v.Forgotten?
            && (v.New? <==> !Has(l, xid))
            && (v.Done? ==> Entry(xid, Some(v.result)) in l)
            && (forall e :: e in l' ==> e in l || e == Entry(xid, None))
            && (forall y :: y > rep && Has(l, y) ==> Has(l', y))
            && Has(l', xid)
  {
    var (v, l') := Scan(l, xid, rep);
    NewMeansAbsent(l, xid, rep);
    if Has(l, xid) {
      var k := FirstMatch(l, xid);
      MatchAnswers(l, k, xid, rep);
    }
    forall e | e in l' ensures e in l || e == Entry(xid, None) {
      ScanMembers(l, xid, rep, e);
    }
    forall y | y > rep && Has(l, y) ensures Has(l', y) {
      var k :| 0 <= k < |l| && l[k].xid == y;
      ScanMembers(l, xid, rep, l[k]);
    }
    if v.New? {
      assert l'[|l'| - 1].xid == xid;
    }
  }

  lemma FirstMatch(l: seq<Entry>, xid: nat) returns (k: nat)
    requires Has(l, xid)
    ensures k < |l| && l[k].xid == xid && forall j :: 0 <= j < k ==> l[j].xid != xid
  {
    k := 0;
    while l[k].xid != xid
      invariant k < |l| && forall j :: 0 <= j < k ==> l[j].xid != xid
      decreases |l| - k
    {
      k := k + 1;
    }
  }

  lemma DispatchReplies(s: State, s': State, req: Request, tid: nat)
    requires ServerInv(s) && ReplyInv(s) && Grows(s, s') && Sent(s, req)
    requires DispatchFrame(s, s', req.clt) && DispatchedTo(s, s', req, tid)
    ensures ReplyInv(s')
  {
    forall env | env in s'.replies ensures EnvelopeOk(s', env) {
      if env in s.replies {
        assert EnvelopeOk(s, env);
      } else {
        AnswerBacked(s, req, env.result);
      }
      BackedKept(s, s', s.issued[(env.clt, env.xid)], env.result);
    }
  }

  lemma AnswerBacked(s: State, req: Request, result: Result)
    requires ServerInv(s) && Sent(s, req) && Answers(s.server, req, result)
    ensures Backed(s, req, result)
  {
    if result != Result(OLDSRV_FAILURE, []) {
      assert WindowOk(s, req.clt, ListOf(s.server, req.clt));
      assert EntryOk(s, req.clt, Entry(req.xid, Some(result)));
      var i :| 0 <= i < |s.log| && s.log[i] == Exec(s.server.nonce, req, result);
      assert Returned(s.log[i], req, result);
    }
  }

  lemma DispatchServer(s: State, s': State, req: Request, tid: nat)
    requires ServerInv(s) && Grows(s, s') && DispatchFrame(s, s', req.clt) && DispatchedTo(s, s', req, tid)
    requires req in s.requests && req.rep < req.xid
    ensures ServerInv(s')
  {
    forall t | t in s'.tasks ensures TaskOk(s', s'.tasks[t]) {
      if t in s.tasks && s'.tasks[t] == s.tasks[t] {
        TaskKept(s, s', s.tasks[t]);
      }
    }
    forall c | c in s'.server.window ensures WindowOk(s', c, s'.server.window[c]) {
      assert WindowOk(s, c, ListOf(s.server, c));
      if c == req.clt {
        ScannedWindowOk(s, c, ListOf(s.server, c), req.xid, req.rep);
      }
      WindowKept(s, s', c, s'.server.window[c]);
    }
  }

  lemma ScannedWindowOk(s: State, c: nat, l: seq<Entry>, xid: nat, rep: nat)
    requires WindowOk(s, c, l) && rep < xid
    ensures WindowOk(s, c, Scan(l, xid, rep).1)
  {
    ScanFacts(l, xid, rep);
  }

  lemma DispatchMemory(s: State, s': State, req: Request, tid: nat)
    requires PacketInv(s) && WireInv(s) && LogInv(s) && ServerInv(s) && MemoryInv(s)
    requires DispatchFrame(s, s', req.clt) && DispatchedTo(s, s', req, tid)
    requires PacketOk(s, req.clt, req.xid, req)
    ensures MemoryInv(s')
  {
    forall r | r in s.requests && Open(s, r) && Remembered(s, r) ensures Remembered(s', r) {
      StillRemembered(s, s', req, tid, r);
    }
    forall t | t in s'.tasks && Open(s', s'.tasks[t].req) ensures Remembered(s', s'.tasks[t].req) {
      if t in s.tasks && s'.tasks[t] == s.tasks[t] {
        assert TaskOk(s, s.tasks[t]);
      }
    }
    forall i | 0 <= i < |s'.log| && s'.log[i].inst == s'.server.nonce && Open(s', s'.log[i].req)
      ensures Remembered(s', s'.log[i].req)
    {
      assert ExecOk(s, s.log[i]);
    }
  }

  /** The purge spares every open call, because its xid is above the front its client acknowledges. */
  lemma StillRemembered(s: State, s': State, req: Request, tid: nat, r: Request)
    requires PacketInv(s) && Sent(s, r) && Open(s, r) && Remembered(s, r)
    requires DispatchFrame(s, s', req.clt) && DispatchedTo(s, s', req, tid) && PacketOk(s, req.clt, req.xid, req)
    ensures Remembered(s', r)
  {
    assert PacketOk(s, r.clt, r.xid, r);
    OpenAboveFront(s.clients[r.clt].reported, r.xid);
    ScanFacts(ListOf(s.server, req.clt), req.xid, req.rep);
    if r.clt != req.clt {
      assert ListOf(s'.server, r.clt) == ListOf(s.server, r.clt);
    }
  }

  lemma DispatchOnce(s: State, s': State, req: Request, tid: nat)
    requires MemoryInv(s) && OnceInv(s) && tid !in s.tasks
    requires DispatchFrame(s, s', req.clt) && DispatchedTo(s, s', req, tid)
    ensures OnceInv(s')
  {
    if s'.tasks == s.tasks {
      assert OnceInv(s');
    } else {
      NewTaskOnce(s, s', req, tid);
    }
  }

  lemma NewTaskOnce(s: State, s': State, req: Request, tid: nat)
    requires MemoryInv(s) && OnceInv(s) && !Remembered(s, req) && tid !in s.tasks
    requires s'.tasks == s.tasks[tid := Task(req, Started)]
    requires s'.clients == s.clients && s'.log == s.log && s'.server.nonce == s.server.nonce
    ensures OnceInv(s')
  {
    assert forall t :: t in s.tasks && s.tasks[t].req == req ==> !Open(s, req);
    assert forall i :: 0 <= i < |s.log| && s.log[i].inst == s.server.nonce && s.log[i].req == req ==> !Open(s, req);
  }

  lemma RunHandlerServerSide(s: State, tid: nat, result: Result)
    requires ServerSide(s) && Enabled(s, RunHandler(tid, result))
    ensures ServerSide(HandlerRan(s, tid, result))
  {
    var s' := HandlerRan(s, tid, result);
    ServerGrows(s, s');
    RepliesKept(s, s');
    RunHandlerLog(s, tid, result);
    RunHandlerServer(s, tid, result);
    RunHandlerOnce(s, tid, result);
  }

  lemma RunHandlerLog(s: State, tid: nat, result: Result)
    requires LogInv(s) && ServerInv(s) && Enabled(s, RunHandler(tid, result))
    ensures LogInv(HandlerRan(s, tid, result))
  {
    var s' := HandlerRan(s, tid, result);
    assert TaskOk(s, s.tasks[tid]);
    forall i | 0 <= i < |s'.log| ensures ExecOk(s', s'.log[i]) {
      if i < |s.log| {
        assert ExecOk(s, s.log[i]);
      }
    }
  }

  lemma RunHandlerServer(s: State, tid: nat, result: Result)
    requires ServerInv(s) && Enabled(s, RunHandler(tid, result)) && Grows(s, HandlerRan(s, tid, result))
    ensures ServerInv(HandlerRan(s, tid, result))
  {
    var s' := HandlerRan(s, tid, result);
    forall t | t in s'.tasks ensures TaskOk(s', s'.tasks[t]) {
      assert TaskOk(s, s.tasks[t]);
      if t == tid {
        assert s'.log[|s.log|] in s'.log;
      } else {
        TaskKept(s, s', s.tasks[t]);
      }
    }
    forall c | c in s'.server.window ensures WindowOk(s', c, s'.server.window[c]) {
      WindowKept(s, s', c, s.server.window[c]);
    }
  }

  lemma RunHandlerOnce(s: State, tid: nat, result: Result)
    requires MemoryInv(s) && OnceInv(s) && Enabled(s, RunHandler(tid, result))
    ensures MemoryInv(HandlerRan(s, tid, result)) && OnceInv(HandlerRan(s, tid, result))
  {
  }

  lemma SaveReplyServerSide(s: State, tid: nat)
    requires WireInv(s) && ServerSide(s) && Enabled(s, SaveReply(tid))
    ensures ServerSide(ReplySaved(s, tid))
  {
    var s' := ReplySaved(s, tid);
    ServerGrows(s, s');
    LogKept(s, s');
    RepliesKept(s, s');
    SaveReplyServer(s, tid);
    SaveReplyMemory(s, tid);
  }

  lemma SaveReplyServer(s: State, tid: nat)
    requires WireInv(s) && ServerInv(s) && Enabled(s, SaveReply(tid)) && Grows(s, ReplySaved(s, tid))
    ensures ServerInv(ReplySaved(s, tid))
  {
    var s' := ReplySaved(s, tid);
    var req, result := s.tasks[tid].req, s.tasks[tid].phase.result;
    assert TaskOk(s, s.tasks[tid]) && Sent(s, req);
    forall t | t in s'.tasks ensures TaskOk(s', s'.tasks[t]) {
      TaskKept(s, s', s.tasks[t]);
    }
    forall c | c in s'.server.window ensures WindowOk(s', c, s'.server.window[c]) {
      var l := ListOf(s.server, c);
      assert WindowOk(s, c, l);
      WindowKept(s, s', c, l);
      if c == req.clt {
        forall e | e in Save(l, req.xid, result) ensures EntryOk(s', c, e) {
          SaveMembers(l, req.xid, result, e);
        }
      }
    }
  }

  lemma {:induction false} SaveMembers(l: seq<Entry>, xid: nat, result: Result, e: Entry)
    requires e in Save(l, xid, result)
    ensures e in l || e == Entry(xid, Some(result))
  {
    if l != [] && l[0].xid != xid && e != l[0] {
      SaveMembers(l[1..], xid, result, e);
    }
  }

  lemma SaveReplyMemory(s: State, tid: nat)
    requires MemoryInv(s) && OnceInv(s) && Enabled(s, SaveReply(tid))
    ensures MemoryInv(ReplySaved(s, tid)) && OnceInv(ReplySaved(s, tid))
  {
    forall r | Remembered(s, r) ensures Remembered(ReplySaved(s, tid), r) {
      SaveKeepsRemembered(s.server, s.tasks[tid].req, s.tasks[tid].phase.result, r);
    }
  }

  lemma SaveKeepsRemembered(sv: Server, req: Request, result: Result, r: Request)
    requires Has(ListOf(sv, r.clt), r.xid)
    ensures Has(ListOf(Finished(sv, req, result), r.clt), r.xid)
  {
    if r.clt == req.clt && req.clt != 0 {
      var l := ListOf(sv, req.clt);
      SaveEffect(l, req.xid, result);
      var k :| 0 <= k < |l| && l[k].xid == r.xid;
      assert Save(l, req.xid, result)[k].xid == r.xid;
    }
  }

  lemma SendReplyServerSide(s: State, tid: nat)
    requires WireInv(s) && ServerSide(s) && Enabled(s, SendReply(tid))
    ensures ServerSide(ReplySent(s, tid))
  {
    ServerGrows(s, ReplySent(s, tid));
    LogKept(s, ReplySent(s, tid));
    SendReplyReplies(s, tid);
    SendReplyServer(s, tid);
    SendReplyMemory(s, tid);
  }

  lemma TaskBacked(s: State, t: Task)
    requires WireInv(s) && TaskOk(s, t) && !t.phase.Started?
    ensures Sent(s, t.req) && Backed(s, t.req, t.phase.result)
  {
    var i :| 0 <= i < |s.log| && s.log[i] == Exec(s.server.nonce, t.req, t.phase.result);
    assert Returned(s.log[i], t.req, t.phase.result);
  }

  lemma SendReplyReplies(s: State, tid: nat)
    requires WireInv(s) && ServerInv(s) && ReplyInv(s) && Enabled(s, SendReply(tid)) && Grows(s, ReplySent(s, tid))
    ensures ReplyInv(ReplySent(s, tid))
  {
    var s' := ReplySent(s, tid);
    TaskBacked(s, s.tasks[tid]);
    forall env | env in s'.replies ensures EnvelopeOk(s', env) {
      assert env in s.replies ==> EnvelopeOk(s, env);
      BackedKept(s, s', s.issued[(env.clt, env.xid)], env.result);
    }
  }

  lemma SendReplyServer(s: State, tid: nat)
    requires ServerInv(s) && Enabled(s, SendReply(tid)) && Grows(s, ReplySent(s, tid))
    ensures ServerInv(ReplySent(s, tid))
  {
    var s' := ReplySent(s, tid);
    forall t | t in s'.tasks ensures TaskOk(s', s'.tasks[t]) {
      TaskKept(s, s', s.tasks[t]);
    }
    forall c | c in s'.server.window ensures WindowOk(s', c, s'.server.window[c]) {
      WindowKept(s, s', c, s.server.window[c]);
    }
  }

  lemma SendReplyMemory(s: State, tid: nat)
    requires MemoryInv(s) && OnceInv(s) && Enabled(s, SendReply(tid))
    ensures MemoryInv(ReplySent(s, tid)) && OnceInv(ReplySent(s, tid))
  {
  }

  lemma RestartServerSide(s: State, nonce: u32)
    requires ServerSide(s) && Enabled(s, Restart(nonce))
    ensures ServerSide(Restarted(s, nonce))
  {
    var s' := Restarted(s, nonce);
    ServerGrows(s, s');
    LogKept(s, s');
    RepliesKept(s, s');
    assert forall i :: 0 <= i < |s.log| ==> ExecOk(s, s.log[i]);
  }

  lemma NextServerSide(s: State, step: Step)
    requires ClientInv(s) && PacketInv(s) && WireInv(s) && ServerSide(s) && Enabled(s, step) && ServerStep(step)
    ensures ServerSide(Next(s, step))
  {
    match step
    case Dispatch(req, tid) => DispatchServerSide(s, req, tid);
    case RunHandler(tid, result) => RunHandlerServerSide(s, tid, result);
    case SaveReply(tid) => SaveReplyServerSide(s, tid);
    case SendReply(tid) => SendReplyServerSide(s, tid);
    case Restart(nonce) => RestartServerSide(s, nonce);
  }

  lemma NextClientSide(s: State, step: Step)
    requires ClientSide(s) && LogInv(s) && ServerInv(s) && ReplyInv(s) && Enabled(s, step) && !ServerStep(step)
    ensures ClientSide(Next(s, step))
  {
    match step
    case Begin(c, proc, body) => BeginClientSide(s, c, proc, body);
    case Transmit(c, x) => TransmitClientSide(s, c, x);
    case TakeReply(env) => TakeReplyClientSide(s, env);
    case End(c, x) => EndClientSide(s, c, x);
    case Bound(c, x) => BoundClientSide(s, c, x);
  }

  /** A client's step touches neither the server nor what it has sent. */
  lemma ClientStepLeaves(s: State, step: Step)
    requires Enabled(s, step) && !ServerStep(step)
    ensures var s' := Next(s, step);
            && s'.server == s.server && s'.tasks == s.tasks && s'.log == s.log
            && s'.instances == s.instances && s'.replies == s.replies
  {
  }

  lemma NextInv(s: State, step: Step)
    requires Inv(s) && Enabled(s, step)
    ensures Inv(Next(s, step))
  {
    NextGrows(s, step);
    if ServerStep(step) {
      ServerStepLeaves(s, step);
      ClientSideKept(s, Next(s, step));
      NextServerSide(s, step);
    } else {
      ClientStepLeaves(s, step);
      ServerSideKept(s, Next(s, step));
      NextClientSide(s, step);
    }
  }

  lemma {:induction false} LeadsInv(s: State, steps: seq<Step>, t: State)
    requires Inv(s) && Leads(s, steps, t)
    ensures Inv(t)
    decreases |steps|
  {
    if steps != [] {
      NextInv(s, steps[0]);
      LeadsInv(Next(s, steps[0]), steps[1..], t);
    }
  }

  /** Every state of every run satisfies the invariant. */
  lemma ReachableInv(s: State, steps: seq<Step>, t: State)
    requires Init(s) && Leads(s, steps, t)
    ensures Inv(t)
  {
    InitInv(s);
    LeadsInv(s, steps, t);
  }
}
