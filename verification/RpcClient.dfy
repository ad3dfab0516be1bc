/** The client end point `rpcc`: its abstract state, its steps, and the class that keeps the window. */
module RpcClient {
  import opened Wire
  import opened RpcMessages
  import opened XidWindow

  /** An entry of `calls_`: the packet stamped for the call, and the reply if one has arrived. */
  datatype Call = Waiting(req: Request) | Answered(req: Request, result: Result)

  datatype Client = Client(
    nonce: nat,
    nextXid: nat,
    bindDone: bool,
    srvNonce: nat,
    reported: set<nat>,
    calls: map<nat, Call>)

  ghost function Fresh(nonce: nat): Client {
    Client(nonce, 1, false, 0, {}, map[])
  }

  predicate MayCall(c: Client, proc: nat) {
    (proc == BIND) != c.bindDone
  }

  /** The one packet stamped for a new call. It carries the front of the window at this moment. */
  ghost function Stamp(c: Client, proc: nat, body: Bytes): Request
    requires c.nextXid < U32 && Front(c.reported) < U32
  {
    Request(c.nonce, c.nextXid, proc, c.srvNonce, Front(c.reported), body)
  }

  ghost function AfterBegin(c: Client, proc: nat, body: Bytes): Client
    requires c.nextXid < U32 && Front(c.reported) < U32
  {
    c.(nextXid := c.nextXid + 1, calls := c.calls[c.nextXid := Waiting(Stamp(c, proc, body))])
  }

  /** A reply for xid arrives: the xid is recorded, and a waiting call takes the result. */
  ghost function AfterReply(c: Client, xid: nat, result: Result): Client {
    c.(reported := c.reported + {xid},
       calls := if xid in c.calls && c.calls[xid].Waiting?
                then c.calls[xid := Answered(c.calls[xid].req, result)]
                else c.calls)
  }

  /** The tail of a call: it leaves `calls_` and is recorded, whether or not it was answered. */
  ghost function AfterEnd(c: Client, xid: nat): Client {
    c.(reported := c.reported + {xid}, calls := c.calls - {xid})
  }

  function Outcome(call: Call): Result {
    if call.Answered? then call.result else Result(TIMEOUT_FAILURE, [])
  }

  ghost function AfterBind(c: Client, srv: nat): Client {
    c.(bindDone := true, srvNonce := srv)
  }

  /** The client object. `window` is the list the source keeps; `reported` is what it stands for. */
  class Rpcc {
    const nonce: nat
    var srvNonce: nat
    var bindDone: bool
    var xid: nat
    var calls: map<nat, Call>
    var window: seq<u32>
    ghost var reported: set<nat>

    ghost predicate Valid()
      reads this
    {
      Represents(window, reported)
    }

    ghost function State(): Client
      reads this
    {
      Client(nonce, xid, bindDone, srvNonce, reported, calls)
    }

    constructor (nonce: nat)
      ensures Valid() && State() == Fresh(nonce)
    {
      this.nonce := nonce;
      srvNonce, bindDone, xid, calls := 0, false, 1, map[];
      window, reported := [0], {};
      new;
      RepresentsFresh();
    }

    /** Record x. Insert it in order, then drop every front whose successor follows it. */
    method UpdateXidRep(x: u32)
      requires Valid()
      modifies this`window, this`reported
      ensures Valid() && reported == old(reported) + {x as nat}
    {
      reported := reported + {x as nat};
      if x <= window[0] {
        assert x as nat in old(reported) || x == 0;
        FrontUnique(reported, window[0]);
        return;
      }
      var it := 0;
      while it < |window| && window[it] <= x
        invariant 0 <= it <= |window|
        invariant forall k :: 0 <= k < it ==> window[k] <= x
      {
        it := it + 1;
      }
      if it < |window| {
        assert forall k :: it <= k < |window| ==> window[k] > x;
      }
      InsertCovers(window, old(reported), it, x);
      window := window[..it] + [x] + window[it..];
      Compress();
    }

    /** One pass with a cursor; popping the front moves the cursor one place down. */
    method Compress()
      requires Covers(window, reported) && |window| > 1
      modifies this`window
      ensures Represents(window, reported)
    {
      var it := 1;
      while it < |window|
        invariant Covers(window, reported)
        invariant 0 < it <= |window|
        invariant forall k :: 0 <= k < it ==> window[k] as int != window[0] as int + 1
        decreases |window| - it
      {
        ghost var rest := |window| - it;
        while (window[0] + 1) % U32 == window[it]
          invariant Covers(window, reported)
          invariant 0 <= it < |window|
          invariant forall k :: 0 <= k < it ==> window[k] as int != window[0] as int + 1
          invariant |window| - it == rest
          decreases |window|
        {
          assert it > 0;  // the node popped is never the node the cursor is on
          assert window[0] <= window[1] <= window[it];
          PopCovers(window, reported);
          window := window[1..];
          it := it - 1;
        }
        it := it + 1;
      }
      CompressedRepresents(window, reported);
    }

    /** The head of a call: take an xid, enter `calls_` and stamp the packet. */
    method BeginCall(proc: nat, body: Bytes) returns (r: Option<Request>, ret: int)
      requires Valid() && xid < U32
      modifies this
      ensures Valid() && Front(old(reported)) < U32
      ensures MayCall(old(State()), proc) ==>
                r == Some(Stamp(old(State()), proc, body)) && State() == AfterBegin(old(State()), proc, body)
      ensures !MayCall(old(State()), proc) ==> r == None && ret == BIND_FAILURE && State() == old(State())
    {
      if (proc != BIND && !bindDone) || (proc == BIND && bindDone) {
        return None, BIND_FAILURE;
      }
      var h := Request(nonce, xid, proc, srvNonce, window[0], body);
      calls := calls[xid := Waiting(h)];
      xid := xid + 1;
      r, ret := Some(h), 0;
    }

    method GotPdu(x: u32, result: Result)
      requires Valid()
      modifies this
      ensures Valid() && State() == AfterReply(old(State()), x, result)
    {
      UpdateXidRep(x);
      if x as nat !in calls {
        return;
      }
      if calls[x].Waiting? {
        calls := calls[x as nat := Answered(calls[x].req, result)];
      }
    }

    method EndCall(x: u32) returns (r: Result)
      requires Valid() && x as nat in calls
      modifies this
      ensures Valid() && State() == AfterEnd(old(State()), x)
      ensures r == Outcome(old(calls[x]))
    {
      r := Outcome(calls[x]);
      calls := calls - {x as nat};
      UpdateXidRep(x);
    }

    method FinishBind(srv: nat)
      requires Valid()
      modifies this
      ensures Valid() && State() == AfterBind(old(State()), srv)
    {
      bindDone := true;
      srvNonce := srv;
    }
  }
}
