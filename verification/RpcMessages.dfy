/** What travels between RPC clients and servers. */
module RpcMessages {
  import opened Wire

  /** The reserved procedure number and the negative results the library itself produces. */
  const BIND: nat := 1
  const TIMEOUT_FAILURE := -1
  const UNMARSHAL_ARGS_FAILURE := -2
  const ATMOSTONCE_FAILURE := -4
  const OLDSRV_FAILURE := -5
  const BIND_FAILURE := -6

  /** A request packet: the header fields and the marshalled arguments. */
  datatype Request = Request(clt: nat, xid: u32, proc: nat, srv: nat, rep: u32, body: Bytes)

  /** The result of a call as the reply packet carries it. */
  datatype Result = Result(ret: int, body: Bytes)

  datatype Option<+T> = None | Some(value: T)
}
