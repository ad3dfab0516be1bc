/** The set of watched file descriptors, with its cached maximum. */
module SelectAio {
  datatype Flag = ReadOnly | WriteOnly | ReadWrite

  /** The descriptors watched for reading and for writing. */
  datatype Fds = Fds(r: set<nat>, w: set<nat>) {
    function All(): set<nat> {
      r + w
    }
  }

  function Watched(f: Fds, fd: nat, flag: Flag): Fds {
    match flag
    case ReadOnly => f.(r := f.r + {fd})
    case WriteOnly => f.(w := f.w + {fd})
    case ReadWrite => Fds(f.r + {fd}, f.w + {fd})
  }

  function Unwatched(f: Fds, fd: nat, flag: Flag): Fds {
    match flag
    case ReadOnly => f.(r := f.r - {fd})
    case WriteOnly => f.(w := f.w - {fd})
    case ReadWrite => Fds(f.r - {fd}, f.w - {fd})
  }

  /** Whether the flag asks for write events, or for read events. */
  predicate Covers(flag: Flag, write: bool) {
    if write then flag != ReadOnly else flag != WriteOnly
  }

  predicate WatchedFor(f: Fds, g: nat, write: bool) {
    g in (if write then f.w else f.r)
  }

  /** Watching adds exactly the events asked for, of exactly that descriptor; unwatching takes exactly those away. */
  lemma WatchExact(f: Fds, fd: nat, flag: Flag, g: nat, write: bool)
    ensures WatchedFor(Watched(f, fd, flag), g, write) <==> WatchedFor(f, g, write) || (g == fd && Covers(flag, write))
    ensures WatchedFor(Unwatched(f, fd, flag), g, write) <==>
              WatchedFor(f, g, write) && !(g == fd && Covers(flag, write))
  {
  }

  predicate IsMax(s: set<nat>, high: nat) {
    high in s && forall f :: f in s ==> f <= high
  }

  /** l lists s, each member once and in ascending order. */
  ghost predicate Lists(l: seq<nat>, s: set<nat>) {
    && (forall f :: f in l <==> f in s)
    && (forall i, j :: 0 <= i < j < |l| ==> l[i] < l[j])
  }

  class Selector {
    const pipe: nat
    var rfds: set<nat>
    var wfds: set<nat>
    var highfds: nat

    function State(): Fds
      reads this
    {
      Fds(rfds, wfds)
    }

    /** The read end of the pipe is always watched, and `highfds` is the maximum of all watched fds. */
    predicate Valid()
      reads this
    {
      pipe in rfds && pipe !in wfds && IsMax(rfds + wfds, highfds)
    }

    constructor (pipe: nat)
      ensures Valid() && this.pipe == pipe && State() == Fds({pipe}, {})
    {
      this.pipe := pipe;
      rfds, wfds, highfds := {pipe}, {}, pipe;
    }

    method WatchFd(fd: nat, flag: Flag)
      requires Valid() && fd != pipe
      modifies this
      ensures Valid() && State() == Watched(old(State()), fd, flag)
    {
      if highfds <= fd {
        highfds := fd;
      }
      match flag {
        case ReadOnly => rfds := rfds + {fd};
        case WriteOnly => wfds := wfds + {fd};
        case ReadWrite =>
          rfds := rfds + {fd};
          wfds := wfds + {fd};
      }
    }

    method UnwatchFd(fd: nat, flag: Flag) returns (gone: bool)
      requires Valid() && fd != pipe
      modifies this
      ensures Valid() && State() == Unwatched(old(State()), fd, flag)
      ensures gone <==> fd !in State().All()
    {
      match flag {
        case ReadOnly => rfds := rfds - {fd};
        case WriteOnly => wfds := wfds - {fd};
        case ReadWrite =>
          wfds := wfds - {fd};
          rfds := rfds - {fd};
      }
      gone := fd !in rfds && fd !in wfds;
      if gone && fd == highfds {
        var newh := pipe;
        var i := 0;
        while i <= highfds
          invariant 0 <= i <= highfds + 1
          invariant newh in rfds + wfds
          invariant forall f :: f in rfds + wfds && f < i ==> f <= newh
        {
          if i in rfds {
            newh := i;
          } else if i in wfds {
            newh := i;
          }
          i := i + 1;
        }
        highfds := newh;
      }
    }

    /**
     One round of select: the kernel looks at descriptors up to `highfds` only, and the ready
     ones are listed for reading and for writing. Thanks to the cached maximum none is missed.
     */
    method WaitReady(readyR: set<nat>, readyW: set<nat>) returns (readable: seq<nat>, writable: seq<nat>)
      requires Valid()
      ensures Lists(readable, rfds * readyR - {pipe})
      ensures Lists(writable, wfds * readyW - {pipe})
    {
      var high := highfds;
      var trfds := set f | f in rfds * readyR && f <= high;
      var twfds := set f | f in wfds * readyW && f <= high;
      readable, writable := [], [];
      for fd := 0 to high + 1
        invariant forall f :: f in readable <==> f in trfds && f < fd && f != pipe
        invariant forall f :: f in writable <==> f in twfds && f < fd && f != pipe
        invariant forall i :: 0 <= i < |readable| ==> readable[i] < fd
        invariant forall i :: 0 <= i < |writable| ==> writable[i] < fd
        invariant forall i, j :: 0 <= i < j < |readable| ==> readable[i] < readable[j]
        invariant forall i, j :: 0 <= i < j < |writable| ==> writable[i] < writable[j]
      {
        if fd == pipe && fd in trfds {
          // drain the pipe
        } else {
          if fd in twfds {
            writable := writable + [fd];
          }
          if fd in trfds {
            readable := readable + [fd];
          }
        }
      }
    }
  }
}
