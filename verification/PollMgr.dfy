/**
 The poll manager: one poll thread that serves callbacks without holding the lock, and any
 number of threads that add and remove callbacks.
 */
module PollMgr {
  import opened SelectAio

  const MAX_POLL_FDS := 128

  /** What the lock protects. */
  datatype Shared = Shared(fds: Fds, callbacks: map<nat, nat>, pending: bool)

  predicate MayAdd(m: Shared, fd: nat, cb: nat) {
    fd < MAX_POLL_FDS && (fd in m.callbacks ==> m.callbacks[fd] == cb)
  }

  function AfterAdd(m: Shared, fd: nat, flag: Flag, cb: nat): Shared {
    m.(fds := Watched(m.fds, fd, flag), callbacks := m.callbacks[fd := cb])
  }

  function AfterDel(m: Shared, fd: nat, flag: Flag): Shared {
    var fds := Unwatched(m.fds, fd, flag);
    m.(fds := fds, callbacks := if fd !in fds.All() then m.callbacks - {fd} else m.callbacks)
  }

  /** `block_remove_fd` up to its wait, and from its wake-up to its return. */
  function AfterRemoveBegins(m: Shared, fd: nat): Shared {
    m.(fds := Unwatched(m.fds, fd, ReadWrite), pending := true)
  }

  function AfterRemoveEnds(m: Shared, fd: nat): Shared {
    m.(callbacks := m.callbacks - {fd})
  }

  class PollManager {
    const aio: Selector
    var callbacks: map<nat, nat>
    var pending: bool

    predicate Valid()
      reads this, aio
    {
      aio.Valid()
    }

    function State(): Shared
      reads this, aio
    {
      Shared(aio.State(), callbacks, pending)
    }

    constructor (pipe: nat)
      ensures Valid() && fresh(aio) && aio.pipe == pipe
      ensures State() == Shared(Fds({pipe}, {}), map[], false)
    {
      aio := new Selector(pipe);
      callbacks, pending := map[], false;
    }

    method AddCallback(fd: nat, flag: Flag, cb: nat)
      requires Valid() && fd != aio.pipe && MayAdd(State(), fd, cb)
      modifies this, aio
      ensures Valid() && State() == AfterAdd(old(State()), fd, flag, cb)
    {
      aio.WatchFd(fd, flag);
      callbacks := callbacks[fd := cb];
    }

    method DelCallback(fd: nat, flag: Flag)
      requires Valid() && fd != aio.pipe
      modifies this, aio
      ensures Valid() && State() == AfterDel(old(State()), fd, flag)
    {
      var gone := aio.UnwatchFd(fd, flag);
      if gone {
        callbacks := callbacks - {fd};
      }
    }

    method BlockRemoveBegins(fd: nat)
      requires Valid() && fd != aio.pipe
      modifies this, aio
      ensures Valid() && State() == AfterRemoveBegins(old(State()), fd)
    {
      var _ := aio.UnwatchFd(fd, ReadWrite);
      pending := true;
    }

    method BlockRemoveEnds(fd: nat)
      requires Valid()
      modifies this
      ensures Valid() && State() == AfterRemoveEnds(old(State()), fd)
    {
      callbacks := callbacks - {fd};
    }

    /** The locked head of the poll loop; `woken` says that it broadcast to the waiting removers. */
    method LoopHead() returns (woken: bool)
      requires Valid()
      modifies this
      ensures Valid() && woken == old(pending) && State() == old(State()).(pending := false)
    {
      woken := pending;
      if pending {
        pending := false;
      }
    }
  }

  // ---- All interleavings ----

  datatype Event = Event(fd: nat, write: bool)

  datatype Running = Idle | In(e: Event)

  /**
   Where the poll thread is: about to take the lock, about to copy the watched sets, inside
   select with its copy, or serving its list, which may be stale by now.
   */
  datatype Poller = Top | Collect | Selecting(copy: Fds) | Serving(todo: seq<Event>, running: Running)

  /**
   A thread inside `block_remove_fd`: waiting, or woken and not yet returned. History: `spurious`
   says that nobody woke it, `again` that fd was added again since this removal began.
   */
  datatype Remover = Waiting(fd: nat, again: bool) | Woken(fd: nat, again: bool, spurious: bool)

  /** `clashes` is history: the fds that have ever been added in the middle of a removal of theirs. */
  datatype State = State(pipe: nat, m: Shared, poller: Poller, removers: map<nat, Remover>, clashes: set<nat>)

  predicate Init(s: State) {
    s == State(s.pipe, Shared(Fds({s.pipe}, {}), map[], false), Top, map[], {})
  }

  datatype Step =
    | Add(fd: nat, flag: Flag, cb: nat)
    | Del(fd: nat, flag: Flag)
    | RemoveBegins(tid: nat, fd: nat)
    | SpuriousWake(tid: nat)
    | RemoveReturns(tid: nat)
    | PassTop
    | CopySets
    | SelectReturns(todo: seq<Event>)
    | Serve
    | CallbackReturns
    | GoRound

  predicate BeingRemoved(s: State, fd: nat) {
    exists t :: t in s.removers && s.removers[t].fd == fd
  }

  predicate Enabled(s: State, step: Step) {
    match step
    case Add(fd, flag, cb) => fd != s.pipe && MayAdd(s.m, fd, cb)
    case Del(fd, flag) => fd != s.pipe
    case RemoveBegins(tid, fd) => fd != s.pipe && tid !in s.removers
    case SpuriousWake(tid) => tid in s.removers && s.removers[tid].Waiting?
    case RemoveReturns(tid) => tid in s.removers && s.removers[tid].Woken?
    case PassTop => s.poller.Top?
    case CopySets => s.poller.Collect?
    case SelectReturns(todo) =>
      && s.poller.Selecting?
      && forall e :: e in todo ==> e.fd != s.pipe && e.fd in (if e.write then s.poller.copy.w else s.poller.copy.r)
    case Serve => s.poller.Serving? && s.poller.running.Idle? && s.poller.todo != []
    case CallbackReturns => s.poller.Serving? && s.poller.running.In?
    case GoRound => s.poller.Serving? && s.poller.running.Idle? && s.poller.todo == []
  }

  /** The broadcast wakes every waiting remover. */
  function Wake(removers: map<nat, Remover>): map<nat, Remover> {
    map t | t in removers ::
      if removers[t].Waiting? then Woken(removers[t].fd, removers[t].again, false) else removers[t]
  }

  function MarkAgain(removers: map<nat, Remover>, fd: nat): map<nat, Remover> {
    map t | t in removers :: if removers[t].fd == fd then removers[t].(again := true) else removers[t]
  }

  function Next(s: State, step: Step): State
    requires Enabled(s, step)
  {
    match step
    case Add(fd, flag, cb) =>
      s.(m := AfterAdd(s.m, fd, flag, cb), removers := MarkAgain(s.removers, fd),
         clashes := if BeingRemoved(s, fd) then s.clashes + {fd} else s.clashes)
    case Del(fd, flag) => s.(m := AfterDel(s.m, fd, flag))
    case RemoveBegins(tid, fd) =>
      s.(m := AfterRemoveBegins(s.m, fd), removers := s.removers[tid := Waiting(fd, false)])
    case SpuriousWake(tid) =>
      s.(removers := s.removers[tid := Woken(s.removers[tid].fd, s.removers[tid].again, true)])
    case RemoveReturns(tid) =>
      s.(m := AfterRemoveEnds(s.m, s.removers[tid].fd), removers := s.removers - {tid})
    case PassTop =>
      s.(m := s.m.(pending := false),
         removers := if s.m.pending then Wake(s.removers) else s.removers,
         poller := Collect)
    case CopySets => s.(poller := Selecting(s.m.fds))
    case SelectReturns(todo) => s.(poller := Serving(todo, Idle))
    case Serve =>
      var e, rest := s.poller.todo[0], s.poller.todo[1..];
      s.(poller := Serving(rest, if e.fd in s.m.callbacks then In(e) else Idle))
    case CallbackReturns => s.(poller := Serving(s.poller.todo, Idle))
    case GoRound => s.(poller := Top)
  }

  predicate Leads(s: State, steps: seq<Step>, t: State)
    decreases |steps|
  {
    if steps == [] then s == t
    else Enabled(s, steps[0]) && Leads(Next(s, steps[0]), steps[1..], t)
  }

  // ---- Invariant ----

  /** Neither the watched sets nor anything the poll thread holds mentions fd. */
  predicate Quiet(s: State, fd: nat) {
    && fd !in s.m.fds.All()
    && match s.poller
       case Top => true
       case Collect => true
       case Selecting(copy) => fd !in copy.All()
       case Serving(todo, running) => (forall e :: e in todo ==> e.fd != fd) && (running.In? ==> running.e.fd != fd)
  }

  /** Unless fd is added again, its removal keeps it unwatched, and a proper wake-up finds the poll thread rid of it. */
  predicate RemoverOk(s: State, r: Remover) {
    && (!r.again ==> r.fd !in s.m.fds.All())
    && (r.again ==> r.fd in s.clashes)
    && (r.Waiting? ==> s.m.pending)
    && (r.Woken? && !r.spurious && !r.again ==> Quiet(s, r.fd))
  }

  predicate Inv(s: State) {
    && (forall t :: t in s.removers ==> RemoverOk(s, s.removers[t]))
    && (forall fd :: fd in s.m.fds.All() && fd != s.pipe && fd !in s.clashes ==> fd in s.m.callbacks)
  }

  lemma AddInv(s: State, fd: nat, flag: Flag, cb: nat)
    requires Inv(s) && Enabled(s, Add(fd, flag, cb))
    ensures Inv(Next(s, Add(fd, flag, cb)))
  {
    var s' := Next(s, Add(fd, flag, cb));
    forall t | t in s'.removers ensures RemoverOk(s', s'.removers[t]) {
      assert RemoverOk(s, s.removers[t]);
      assert s.removers[t].fd == fd ==> BeingRemoved(s, fd);
    }
  }

  lemma RemoveReturnsInv(s: State, tid: nat)
    requires Inv(s) && Enabled(s, RemoveReturns(tid))
    ensures Inv(Next(s, RemoveReturns(tid)))
  {
    assert RemoverOk(s, s.removers[tid]);
    var s' := Next(s, RemoveReturns(tid));
    forall t | t in s'.removers ensures RemoverOk(s', s'.removers[t]) {
      assert RemoverOk(s, s.removers[t]);
    }
  }

  lemma NextInv(s: State, step: Step)
    requires Inv(s) && Enabled(s, step)
    ensures Inv(Next(s, step))
  {
    match step
    case Add(fd, flag, cb) => AddInv(s, fd, flag, cb);
    case Del(fd, flag) =>
    case RemoveBegins(tid, fd) =>
    case SpuriousWake(tid) =>
    case RemoveReturns(tid) => RemoveReturnsInv(s, tid);
    case PassTop =>
    case CopySets =>
    case SelectReturns(todo) =>
    case Serve =>
    case CallbackReturns =>
    case GoRound =>
  }

  lemma {:induction false} LeadsInv(s: State, steps: seq<Step>, t: State)
    requires Inv(s) && Leads(s, steps, t)
    ensures Inv(t)
    decreases |steps|
  {
    if steps != [] {
      NextInv(s, steps[0]);
      LeadsInv(Next(s, steps[0]), steps[1..], t);
    }
  }

  lemma ReachableInv(init: State, steps: seq<Step>, s: State)
    requires Init(init) && Leads(init, steps, s)
    ensures Inv(s)
  {
    LeadsInv(init, steps, s);
  }

  // ---- When no callback comes after a removal ----

  predicate RunsFor(s: State, fd: nat) {
    s.poller.Serving? && s.poller.running.In? && s.poller.running.e.fd == fd
  }

  predicate Adds(step: Step, fd: nat) {
    step.Add? && step.fd == fd
  }

  predicate NeverAdds(steps: seq<Step>, fd: nat) {
    forall k :: 0 <= k < |steps| ==> !Adds(steps[k], fd)
  }

  /** Without its callback a descriptor may still be on a stale list, but it is skipped there. */
  lemma {:induction false} NothingStarts(s: State, steps: seq<Step>, t: State, fd: nat)
    requires Leads(s, steps, t) && NeverAdds(steps, fd)
    requires fd !in s.m.callbacks && !RunsFor(s, fd)
    ensures fd !in t.m.callbacks && !RunsFor(t, fd)
    decreases |steps|
  {
    if steps != [] {
      assert !Adds(steps[0], fd);
      NothingStarts(Next(s, steps[0]), steps[1..], t, fd);
    }
  }

  /** From s on, while nobody adds fd, a callback for fd is running at some moment. */
  ghost predicate MayRunLater(s: State, fd: nat) {
    exists steps, t :: Leads(s, steps, t) && NeverAdds(steps, fd) && RunsFor(t, fd)
  }

  /**
   The exact condition for the promise of `block_remove_fd`, whatever woke the remover and whoever
   added fd meanwhile: after the return a callback for fd may run before fd is added again
   if and only if one is running at the return.
   */
  lemma CallbackAfterReturnIff(s: State, tid: nat)
    requires Enabled(s, RemoveReturns(tid))
    ensures MayRunLater(Next(s, RemoveReturns(tid)), s.removers[tid].fd) <==> RunsFor(s, s.removers[tid].fd)
  {
    var t, fd := Next(s, RemoveReturns(tid)), s.removers[tid].fd;
    if RunsFor(s, fd) {
      assert Leads(t, [], t) && NeverAdds([], fd);
    } else if MayRunLater(t, fd) {
      var steps, u :| Leads(t, steps, u) && NeverAdds(steps, fd) && RunsFor(u, fd);
      NothingStarts(t, steps, u, fd);
    }
  }

  /** What it takes for a callback to be running then: a spurious wake-up, or fd added during the removal. */
  lemma RunningAtReturnNeeds(init: State, before: seq<Step>, s: State, tid: nat)
    requires Init(init) && Leads(init, before, s) && Enabled(s, RemoveReturns(tid))
    ensures RunsFor(s, s.removers[tid].fd) ==> s.removers[tid].spurious || s.removers[tid].again
  {
    ReachableInv(init, before, s);
    assert RemoverOk(s, s.removers[tid]);
  }

  /**
   A removal that was woken by the poll thread, and during which nobody added fd, keeps the promise: from its
   return until somebody adds fd again, no callback for fd is running, whatever other threads do to other removals.
   */
  lemma NoCallbackAfterRemoval(
      init: State, before: seq<Step>, s: State, tid: nat, after: seq<Step>, t: State)
    requires Init(init) && Leads(init, before, s) && Enabled(s, RemoveReturns(tid))
    requires !s.removers[tid].spurious && !s.removers[tid].again
    requires Leads(Next(s, RemoveReturns(tid)), after, t) && NeverAdds(after, s.removers[tid].fd)
    ensures !RunsFor(t, s.removers[tid].fd)
  {
    RunningAtReturnNeeds(init, before, s, tid);
    CallbackAfterReturnIff(s, tid);
  }

  // ---- Watched descriptors and their callbacks ----

  /** Whenever the lock is free, a watched descriptor has a callback, unless it was once added during its removal. */
  lemma WatchedHaveCallbacks(init: State, steps: seq<Step>, s: State, fd: nat)
    requires Init(init) && Leads(init, steps, s) && fd in s.m.fds.All() && fd != s.pipe && fd !in s.clashes
    ensures fd in s.m.callbacks
  {
    ReachableInv(init, steps, s);
  }

  predicate Orphan(s: State, fd: nat) {
    fd in s.m.fds.All() && fd != s.pipe && fd !in s.m.callbacks
  }

  /**
   The one way in which a descriptor becomes watched without a callback: a removal returns while the
   descriptor is watched, which takes an addition during that removal.
   */
  lemma OrphanedIff(init: State, before: seq<Step>, s: State, step: Step, fd: nat)
    requires Init(init) && Leads(init, before, s) && Enabled(s, step) && !Orphan(s, fd)
    ensures Orphan(Next(s, step), fd) <==>
              step.RemoveReturns? && s.removers[step.tid].fd == fd && fd in s.m.fds.All() && fd != s.pipe
    ensures Orphan(Next(s, step), fd) ==> s.removers[step.tid].again
  {
    ReachableInv(init, before, s);
    match step
    case Add(_, _, _) =>
    case Del(_, _) =>
    case RemoveBegins(_, _) =>
    case SpuriousWake(_) =>
    case RemoveReturns(tid) => assert RemoverOk(s, s.removers[tid]);
    case PassTop =>
    case CopySets =>
    case SelectReturns(_) =>
    case Serve =>
    case CallbackReturns =>
    case GoRound =>
  }

  /** A remover that waits will be woken: the next pass of the loop head broadcasts to it. */
  lemma WaitingIsWoken(init: State, steps: seq<Step>, s: State, tid: nat)
    requires Init(init) && Leads(init, steps, s) && tid in s.removers && s.removers[tid].Waiting? && s.poller.Top?
    ensures var u := Next(s, PassTop);
            tid in u.removers && u.removers[tid] == Woken(s.removers[tid].fd, s.removers[tid].again, false)
  {
    ReachableInv(init, steps, s);
    assert RemoverOk(s, s.removers[tid]);
  }

  // ---- Whose callback, and for which events ----

  /** What the steps of a run ask for: the last one that concerns these events of fd decides. */
  predicate Wants(steps: seq<Step>, fd: nat, write: bool)
    decreases |steps|
  {
    if steps == [] then false
    else
      var last := steps[|steps| - 1];
      if last.Add? && last.fd == fd && Covers(last.flag, write) then true
      else if last.Del? && last.fd == fd && Covers(last.flag, write) then false
      else if last.RemoveBegins? && last.fd == fd then false
      else Wants(steps[..|steps| - 1], fd, write)
  }

  /** One step changes what is watched as it changes what is wanted. */
  lemma WatchStep(s: State, step: Step, steps: seq<Step>, fd: nat, write: bool)
    requires Enabled(s, step) && (WatchedFor(s.m.fds, fd, write) <==> Wants(steps, fd, write))
    ensures WatchedFor(Next(s, step).m.fds, fd, write) <==> Wants(steps + [step], fd, write)
  {
    assert (steps + [step])[..|steps|] == steps;
    match step
    case Add(f, flag, cb) => WatchExact(s.m.fds, f, flag, fd, write);
    case Del(f, flag) => WatchExact(s.m.fds, f, flag, fd, write);
    case RemoveBegins(tid, f) => WatchExact(s.m.fds, f, ReadWrite, fd, write);
    case SpuriousWake(tid) =>
    case RemoveReturns(tid) =>
    case PassTop =>
    case CopySets =>
    case SelectReturns(todo) =>
    case Serve =>
    case CallbackReturns =>
    case GoRound =>
  }

  lemma {:induction false} WatchedFrom(
      before: seq<Step>, s: State, steps: seq<Step>, t: State, fd: nat, write: bool)
    requires WatchedFor(s.m.fds, fd, write) <==> Wants(before, fd, write)
    requires Leads(s, steps, t)
    ensures WatchedFor(t.m.fds, fd, write) <==> Wants(before + steps, fd, write)
    decreases |steps|
  {
    if steps == [] {
      assert before + steps == before;
    } else {
      WatchStep(s, steps[0], before, fd, write);
      assert before + [steps[0]] + steps[1..] == before + steps;
      WatchedFrom(before + [steps[0]], Next(s, steps[0]), steps[1..], t, fd, write);
    }
  }

  /** In every run a descriptor other than the pipe is watched for exactly the events that were asked for last. */
  lemma WatchedIffWanted(init: State, steps: seq<Step>, s: State, fd: nat, write: bool)
    requires Init(init) && Leads(init, steps, s) && fd != s.pipe
    ensures WatchedFor(s.m.fds, fd, write) <==> Wants(steps, fd, write)
  {
    PipeKept(init, steps, s);
    WatchedFrom([], init, steps, s, fd, write);
    assert [] + steps == steps;
  }

  lemma {:induction false} PipeKept(s: State, steps: seq<Step>, t: State)
    requires Leads(s, steps, t)
    ensures t.pipe == s.pipe
    decreases |steps|
  {
    if steps != [] {
      PipeKept(Next(s, steps[0]), steps[1..], t);
    }
  }

  predicate Returns(step: Step) {
    step.SelectReturns?
  }

  lemma {:induction false} CopyKept(s: State, steps: seq<Step>, t: State)
    requires s.poller.Selecting? && Leads(s, steps, t) && forall k :: 0 <= k < |steps| ==> !Returns(steps[k])
    ensures t.poller == s.poller && t.pipe == s.pipe
    decreases |steps|
  {
    if steps != [] {
      assert !Returns(steps[0]);
      assert forall k :: 0 <= k < |steps[1..]| ==> steps[1..][k] == steps[k + 1];
      CopyKept(Next(s, steps[0]), steps[1..], t);
    }
  }

  /**
   Which events one round may serve: exactly those that were wanted when the round copied the watched sets, whatever
   has been added and removed since.
   */
  lemma ServesIffWanted(
      init: State, before: seq<Step>, s: State, after: seq<Step>, t: State, todo: seq<Event>)
    requires Init(init) && Leads(init, before, s) && Enabled(s, CopySets)
    requires Leads(Next(s, CopySets), after, t) && forall k :: 0 <= k < |after| ==> !Returns(after[k])
    ensures Enabled(t, SelectReturns(todo)) <==>
              forall e :: e in todo ==> e.fd != s.pipe && Wants(before, e.fd, e.write)
  {
    CopyKept(Next(s, CopySets), after, t);
    forall e | e in todo && e.fd != s.pipe
      ensures WatchedFor(s.m.fds, e.fd, e.write) <==> Wants(before, e.fd, e.write)
    {
      WatchedIffWanted(init, before, s, e.fd, e.write);
    }
    if Enabled(t, SelectReturns(todo)) {
      forall e | e in todo ensures e.fd != s.pipe && Wants(before, e.fd, e.write) {
        assert WatchedFor(s.m.fds, e.fd, e.write);
      }
    }
    if forall e :: e in todo ==> e.fd != s.pipe && Wants(before, e.fd, e.write) {
      forall e | e in todo ensures e.fd != t.pipe && e.fd in (if e.write then t.poller.copy.w else t.poller.copy.r) {
        assert WatchedFor(s.m.fds, e.fd, e.write);
      }
    }
  }

  predicate Kept(s: State, fd: nat) {
    fd in s.m.callbacks ==> fd in s.m.fds.All() || BeingRemoved(s, fd)
  }

  lemma KeptStep(s: State, step: Step, fd: nat)
    requires Kept(s, fd) && Enabled(s, step)
    ensures Kept(Next(s, step), fd)
  {
    var s' := Next(s, step);
    if BeingRemoved(s, fd) {
      var t :| t in s.removers && s.removers[t].fd == fd;
      assert t in s'.removers ==> s'.removers[t].fd == fd;
    }
    if step.RemoveBegins? {
      assert s'.removers[step.tid].fd == step.fd;
    }
  }

  lemma {:induction false} LeadsKept(s: State, steps: seq<Step>, t: State, fd: nat)
    requires Kept(s, fd) && Leads(s, steps, t)
    ensures Kept(t, fd)
    decreases |steps|
  {
    if steps != [] {
      KeptStep(s, steps[0], fd);
      LeadsKept(Next(s, steps[0]), steps[1..], t, fd);
    }
  }

  /** The callback goes with the last watch: a descriptor has one only while it is watched, or during a removal. */
  lemma CallbackOnlyIfWatched(init: State, steps: seq<Step>, s: State, fd: nat)
    requires Init(init) && Leads(init, steps, s) && fd in s.m.callbacks
    ensures fd in s.m.fds.All() || BeingRemoved(s, fd)
  {
    LeadsKept(init, steps, s, fd);
  }

  /** A callback is never replaced by another: the descriptor loses it first. */
  lemma CallbackNotReplaced(s: State, step: Step, fd: nat)
    requires Enabled(s, step) && fd in s.m.callbacks && fd in Next(s, step).m.callbacks
    ensures Next(s, step).m.callbacks[fd] == s.m.callbacks[fd]
  {
  }

  /** The callback of a descriptor just added is the one given, and it will be called for its events. */
  lemma AddedIsServed(s: State, fd: nat, flag: Flag, cb: nat)
    requires Enabled(s, Add(fd, flag, cb))
    ensures var t := Next(s, Add(fd, flag, cb));
            && fd in t.m.callbacks && t.m.callbacks[fd] == cb
            && forall write :: Covers(flag, write) ==> WatchedFor(t.m.fds, fd, write)
  {
    forall write: bool | Covers(flag, write) ensures WatchedFor(Next(s, Add(fd, flag, cb)).m.fds, fd, write) {
      WatchExact(s.m.fds, fd, flag, fd, write);
    }
  }

  /** The poll thread serves the ready descriptors in order, and skips exactly those that have no callback. */
  lemma ServeExact(s: State)
    requires Enabled(s, Serve)
    ensures var e, t := s.poller.todo[0], Next(s, Serve);
            && t.poller.Serving? && t.poller.todo == s.poller.todo[1..] && t.m == s.m
            && t.poller.running == if e.fd in s.m.callbacks then In(e) else Idle
  {
  }

  // ---- Both ways to break the promise ----

  lemma {:induction false} LeadsSnoc(init: State, steps: seq<Step>, s: State, step: Step)
    requires Leads(init, steps, s) && Enabled(s, step)
    ensures Leads(init, steps + [step], Next(s, step))
    decreases |steps|
  {
    if steps == [] {
      assert Leads(Next(s, step), [], Next(s, step));
    } else {
      assert (steps + [step])[1..] == steps[1..] + [step];
      LeadsSnoc(Next(init, steps[0]), steps[1..], s, step);
    }
  }

  /** A run to where the poll thread is inside select, watching fd. */
  lemma ReachesSelect(pipe: nat, fd: nat, cb: nat) returns (init: State, steps: seq<Step>, s: State)
    requires pipe != fd && fd < MAX_POLL_FDS
    ensures Init(init) && Leads(init, steps, s)
    ensures s.pipe == pipe && fd in s.m.callbacks && s.m.callbacks[fd] == cb && s.removers == map[]
    ensures s.poller.Selecting? && fd in s.poller.copy.r
  {
    init := State(pipe, Shared(Fds({pipe}, {}), map[], false), Top, map[], {});
    steps := [Add(fd, ReadOnly, cb)];
    s := Next(init, Add(fd, ReadOnly, cb));
    LeadsSnoc(init, [], init, Add(fd, ReadOnly, cb));
    assert [] + steps == steps;
    LeadsSnoc(init, steps, s, PassTop);
    steps, s := steps + [PassTop], Next(s, PassTop);
    LeadsSnoc(init, steps, s, CopySets);
    steps, s := steps + [CopySets], Next(s, CopySets);
  }

  /** One spurious wake-up is enough: the removal is ready to return while the callback runs. */
  lemma SpuriousWakeBreaksRemoval(pipe: nat, fd: nat, cb: nat) returns (init: State, steps: seq<Step>, s: State)
    requires pipe != fd && fd < MAX_POLL_FDS
    ensures Init(init) && Leads(init, steps, s) && Enabled(s, RemoveReturns(0)) && s.removers[0].fd == fd
    ensures s.removers[0].spurious && !s.removers[0].again
    ensures RunsFor(s, fd) && MayRunLater(Next(s, RemoveReturns(0)), fd)
  {
    init, steps, s := ReachesSelect(pipe, fd, cb);
    var selected := SelectReturns([Event(fd, false)]);
    LeadsSnoc(init, steps, s, selected);
    steps, s := steps + [selected], Next(s, selected);
    LeadsSnoc(init, steps, s, Serve);
    steps, s := steps + [Serve], Next(s, Serve);
    LeadsSnoc(init, steps, s, RemoveBegins(0, fd));
    steps, s := steps + [RemoveBegins(0, fd)], Next(s, RemoveBegins(0, fd));
    LeadsSnoc(init, steps, s, SpuriousWake(0));
    steps, s := steps + [SpuriousWake(0)], Next(s, SpuriousWake(0));
    CallbackAfterReturnIff(s, 0);
  }

  /** So is one addition during the removal, with no spurious wake-up; and then fd stays watched without a callback. */
  lemma AddingAgainBreaksRemoval(pipe: nat, fd: nat, cb: nat) returns (init: State, steps: seq<Step>, s: State)
    requires pipe != fd && fd < MAX_POLL_FDS
    ensures Init(init) && Leads(init, steps, s) && Enabled(s, RemoveReturns(0)) && s.removers[0].fd == fd
    ensures !s.removers[0].spurious && s.removers[0].again
    ensures RunsFor(s, fd) && MayRunLater(Next(s, RemoveReturns(0)), fd)
    ensures Orphan(Next(s, RemoveReturns(0)), fd)
  {
    init, steps, s := ReachesSelect(pipe, fd, cb);
    LeadsSnoc(init, steps, s, RemoveBegins(0, fd));
    steps, s := steps + [RemoveBegins(0, fd)], Next(s, RemoveBegins(0, fd));
    LeadsSnoc(init, steps, s, Add(fd, ReadOnly, cb));
    steps, s := steps + [Add(fd, ReadOnly, cb)], Next(s, Add(fd, ReadOnly, cb));
    steps, s := GoesRound(init, steps, s);
    var selected := SelectReturns([Event(fd, false)]);
    LeadsSnoc(init, steps, s, selected);
    steps, s := steps + [selected], Next(s, selected);
    LeadsSnoc(init, steps, s, Serve);
    steps, s := steps + [Serve], Next(s, Serve);
    CallbackAfterReturnIff(s, 0);
  }

  /** The poll thread finds nothing ready, wakes the removers at the loop head, and selects again. */
  lemma GoesRound(init: State, before: seq<Step>, s: State) returns (steps: seq<Step>, t: State)
    requires Leads(init, before, s) && s.poller.Selecting? && s.m.pending
    ensures Leads(init, steps, t)
    ensures t == s.(m := s.m.(pending := false), removers := Wake(s.removers), poller := Selecting(s.m.fds))
  {
    steps, t := before, s;
    LeadsSnoc(init, steps, t, SelectReturns([]));
    steps, t := steps + [SelectReturns([])], Next(t, SelectReturns([]));
    LeadsSnoc(init, steps, t, GoRound);
    steps, t := steps + [GoRound], Next(t, GoRound);
    LeadsSnoc(init, steps, t, PassTop);
    steps, t := steps + [PassTop], Next(t, PassTop);
    LeadsSnoc(init, steps, t, CopySets);
    steps, t := steps + [CopySets], Next(t, CopySets);
  }
}
