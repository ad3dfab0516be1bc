/** The server end point `rpcs`: what one request does to it, and the class with the real loops. */
module RpcServer {
  import opened Wire
  import opened RpcMessages
  import opened ReplyWindow

  /** One server instance. `window` is `reply_window_`: one list for each client nonce seen so far. */
  datatype Server = Server(nonce: nat, procs: set<nat>, window: map<nat, seq<Entry>>)

  /** What dispatch does with a request: ignore it, answer at once, or run the handler. */
  datatype Decision = Ignore | Answer(result: Result) | Execute

  function ListOf(s: Server, clt: nat): seq<Entry> {
    if clt in s.window then s.window[clt] else []
  }

  function Received(s: Server, req: Request): (Server, Decision) {
    if req.srv != 0 && req.srv != s.nonce then (s, Answer(Result(OLDSRV_FAILURE, [])))
    else if req.proc !in s.procs then (s, Ignore)
    else if req.clt == 0 then (s, Execute)
    else
      var (verdict, l) := Scan(ListOf(s, req.clt), req.xid, req.rep);
      (s.(window := s.window[req.clt := l]),
       match verdict
       case New => Execute
       case InProgress => Ignore
       case Done(result) => Answer(result)
       case Forgotten => Answer(Result(ATMOSTONCE_FAILURE, [])))
  }

  /** The handler of req has returned: its reply is saved for replay (clients with nonce 0 opt out). */
  function Finished(s: Server, req: Request, result: Result): Server {
    if req.clt == 0 then s
    else s.(window := s.window[req.clt := Save(ListOf(s, req.clt), req.xid, result)])
  }

  /** The cursor of a loop over l stands at the head of what is left. */
  lemma Cursor(kept: seq<Entry>, rest: seq<Entry>, l: seq<Entry>)
    requires l == kept + rest && rest != []
    ensures l[|kept|] == rest[0] && l[..|kept|] == kept && l[|kept| + 1..] == rest[1..]
    ensures l[..|kept|] + l[|kept| + 1..] == kept + rest[1..]
    ensures kept + [rest[0]] + rest[1..] == l
  {
  }

  /** One turn of the walk, at a match and past an entry that does not match. */
  lemma ScanTurn(kept: seq<Entry>, rest: seq<Entry>, xid: nat, rep: nat)
    requires rest != []
    ensures rest[0].xid == xid ==>
              && Scan(rest, xid, rep).0 == (if xid <= rep then Forgotten
                                            else if rest[0].saved.Some? then Done(rest[0].saved.value) else InProgress)
              && kept + Scan(rest, xid, rep).1 == (if xid <= rep then kept + rest[1..] else kept + rest)
    ensures rest[0].xid != xid ==>
              && Scan(rest, xid, rep).0 == Scan(rest[1..], xid, rep).0
              && kept + Scan(rest, xid, rep).1 ==
                 (if rest[0].xid <= rep then kept else kept + [rest[0]]) + Scan(rest[1..], xid, rep).1
  {
  }

  lemma Overwritten<V>(m: map<nat, V>, k: nat, v: V, w: V)
    ensures m[k := v][k := w] == m[k := w]
  {
  }

  class Rpcs {
    const nonce: nat
    const procs: set<nat>
    var replyWindow: map<nat, seq<Entry>>

    function State(): Server
      reads this
    {
      Server(nonce, procs, replyWindow)
    }

    constructor (nonce: nat, procs: set<nat>)
      ensures State() == Server(nonce, procs + {BIND}, map[])
    {
      this.nonce, this.procs := nonce, procs + {BIND};
      replyWindow := map[];
    }

    /** The loop erases while it iterates and returns early on a match. */
    method CheckDuplicateAndUpdate(clt: nat, xid: nat, rep: nat) returns (v: Verdict)
      requires clt in replyWindow
      modifies this`replyWindow
      ensures v == Scan(old(replyWindow[clt]), xid, rep).0
      ensures replyWindow == old(replyWindow)[clt := Scan(old(replyWindow[clt]), xid, rep).1]
    {
      var l, it := replyWindow[clt], 0;
      ghost var kept, rest := [], l;
      ghost var scan := Scan(l, xid, rep);
      while it < |l|
        invariant l == kept + rest && it == |kept|
        invariant replyWindow == old(replyWindow)[clt := l]
        invariant scan.0 == Scan(rest, xid, rep).0
        invariant scan.1 == kept + Scan(rest, xid, rep).1
        decreases |rest|
      {
        Cursor(kept, rest, l);
        ScanTurn(kept, rest, xid, rep);
        if l[it].xid == xid {
          if l[it].xid <= rep {
            Overwritten(old(replyWindow), clt, l, l[..it] + l[it + 1..]);
            replyWindow := replyWindow[clt := l[..it] + l[it + 1..]];
            return Forgotten;
          }
          if l[it].saved.Some? {
            return Done(l[it].saved.value);
          } else {
            return InProgress;
          }
        }
        if l[it].xid <= rep {
          Overwritten(old(replyWindow), clt, l, l[..it] + l[it + 1..]);
          l := l[..it] + l[it + 1..];
          replyWindow := replyWindow[clt := l];
        } else {
          kept := kept + [l[it]];
          it := it + 1;
        }
        rest := rest[1..];
      }
      assert rest == [] && l == kept;
      assert scan == (New, l + [Entry(xid, None)]);
      Overwritten(old(replyWindow), clt, l, l + [Entry(xid, None)]);
      replyWindow := replyWindow[clt := l + [Entry(xid, None)]];
      v := New;
    }

    method AddReply(clt: nat, xid: nat, result: Result)
      modifies this`replyWindow
      ensures replyWindow == old(replyWindow)[clt := Save(ListOf(old(State()), clt), xid, result)]
    {
      if clt !in replyWindow {
        replyWindow := replyWindow[clt := []];
      }
      var l, it := replyWindow[clt], 0;
      while it < |l|
        invariant 0 <= it <= |l|
        invariant l == ListOf(old(State()), clt)
        invariant replyWindow == old(replyWindow)[clt := l]
        invariant Save(l, xid, result) == l[..it] + Save(l[it..], xid, result)
      {
        if l[it].xid == xid {
          var l' := l[it := Entry(xid, Some(result))];
          assert l' == l[..it] + ([Entry(xid, Some(result))] + l[it..][1..]) == Save(l, xid, result);
          replyWindow := replyWindow[clt := l'];
          assert replyWindow == old(replyWindow)[clt := l'];
          return;
        }
        it := it + 1;
      }
      assert l[it..] == [] && l == l[..it] + [] == Save(l, xid, result);
    }

    /** Dispatch up to the switch on the verdict. */
    method Receive(req: Request) returns (d: Decision)
      modifies this`replyWindow
      ensures (State(), d) == Received(old(State()), req)
    {
      if req.srv != 0 && req.srv != nonce {
        return Answer(Result(OLDSRV_FAILURE, []));
      }
      if req.proc !in procs {
        return Ignore;
      }
      if req.clt == 0 {
        return Execute;
      }
      if req.clt !in replyWindow {
        replyWindow := replyWindow[req.clt := []];
      }
      label known:
      var v := CheckDuplicateAndUpdate(req.clt, req.xid, req.rep);
      assert old@known(replyWindow[req.clt]) == ListOf(old(State()), req.clt);
      assert replyWindow == old(replyWindow)[req.clt := replyWindow[req.clt]];
      match v {
        case New => d := Execute;
        case InProgress => d := Ignore;
        case Done(result) => d := Answer(result);
        case Forgotten => d := Answer(Result(ATMOSTONCE_FAILURE, []));
      }
    }

    /** The part of dispatch after the handler: save the reply unless the client opted out. */
    method Finish(req: Request, result: Result)
      modifies this`replyWindow
      ensures State() == Finished(old(State()), req, result)
    {
      if req.clt > 0 {
        AddReply(req.clt, req.xid, result);
      }
    }
  }
}
