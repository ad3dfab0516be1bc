/**
 The thread pool: workers that take jobs from a bounded queue, and a destructor that shuts
 them down by enqueueing one poison pill for each and joining them.
 */
module ThrPool {
  import F = Fifo

  /** A job without a function is a poison pill. */
  datatype Job = Pill | Work(id: nat)

  /** The object. As in the queue, one call is one pass; a blocked caller tries again when woken. */
  class Pool {
    const nthreads: nat
    const blockadd: bool
    const jobq: F.Queue<Job>

    constructor (sz: nat, blocking: bool)
      ensures nthreads == sz && blockadd == blocking && fresh(jobq) && jobq.max == 100 * sz && jobq.q == []
    {
      nthreads, blockadd := sz, blocking;
      jobq := new F.Queue<Job>(100 * sz);
    }

    method AddJob(id: nat) returns (r: F.EnqOutcome)
      modifies jobq
      ensures F.HasSpace(|old(jobq.q)|, jobq.max) ==> r == F.Accepted && jobq.q == old(jobq.q) + [Work(id)]
      ensures !F.HasSpace(|old(jobq.q)|, jobq.max) ==>
                r == (if blockadd then F.MustWait else F.Refused) && jobq.q == old(jobq.q)
    {
      r := jobq.TryEnq(Work(id), blockadd);
    }

    /** `alive` is the result of `takeJob`: false when the job is a pill, and then the worker exits. */
    method TakeJob() returns (took: bool, j: Job, alive: bool)
      modifies jobq
      ensures took <==> old(jobq.q) != []
      ensures took ==> old(jobq.q) == [j] + jobq.q && (alive <==> j.Work?)
      ensures !took ==> jobq.q == old(jobq.q)
    {
      var signal;
      took, j, signal := jobq.TryDeq();
      alive := !j.Pill?;
    }
  }

  // ---- All interleavings ----

  datatype Destructor = NotStarted | Pilling(k: nat) | Joining | Finished

  /**
   Threads 0..n-1 are the workers, thread n runs the destructor, others add jobs. `started`
   and `ended` record which jobs were called and how many calls have come back.
   */
  datatype State = State(
    n: nat, blocking: bool, f: F.State<Job>,
    running: map<nat, Job>, exited: set<nat>, dtor: Destructor,
    started: seq<Job>, ended: nat)

  predicate Init(s: State) {
    s.n > 0 && s == State(s.n, s.blocking, F.Fresh(100 * s.n), map[], {}, NotStarted, [], 0)
  }

  function Workers(n: nat): (ws: set<nat>)
    ensures |ws| == n && forall w: nat :: w in ws <==> w < n
  {
    if n == 0 then {} else Workers(n - 1) + {n - 1}
  }

  datatype Step =
    | AddJob(tid: nat, id: nat, who: nat)
    | AddJobWakes(tid: nat, who: nat)
    | Take(w: nat, who: nat)
    | TakeWakes(w: nat, who: nat)
    | Return(w: nat)
    | StartDestructor
    | AddPill(who: nat)
    | AddPillWakes(who: nat)
    | StartJoin
    | Join
    | SpuriousC(tid: nat)
    | SpuriousP(tid: nat)

  /** The destructor may start only when nobody uses the pool; then no job is added any more. */
  predicate Enabled(s: State, step: Step) {
    match step
    case AddJob(tid, id, who) =>
      s.dtor.NotStarted? && tid > s.n && !F.Inside(s.f, tid) && F.MaySignalC(s.f, who)
    case AddJobWakes(tid, who) => s.dtor.NotStarted? && tid in s.f.wokenP && F.MaySignalC(s.f, who)
    case Take(w, who) =>
      w < s.n && !F.Inside(s.f, w) && w !in s.running && w !in s.exited && F.MaySignalP(s.f, who)
    case TakeWakes(w, who) => w in s.f.wokenC && F.MaySignalP(s.f, who)
    case Return(w) => w in s.running
    case StartDestructor => s.dtor.NotStarted? && s.f.sleepP == map[] && s.f.wokenP == map[]
    case AddPill(who) => s.dtor.Pilling? && s.dtor.k < s.n && !F.Inside(s.f, s.n) && F.MaySignalC(s.f, who)
    case AddPillWakes(who) => s.dtor.Pilling? && s.n in s.f.wokenP && F.MaySignalC(s.f, who)
    case StartJoin => s.dtor == Pilling(s.n)
    case Join => s.dtor.Joining? && s.exited == Workers(s.n)
    case SpuriousC(tid) => tid in s.f.sleepC
    case SpuriousP(tid) => tid in s.f.sleepP
  }

  predicate Spurious(step: Step) {
    step.SpuriousC? || step.SpuriousP?
  }

  /** A worker tries to take a job; on success it runs it, or exits if it is a pill. */
  function Taken(s: State, w: nat, who: nat): State {
    WithTaken(s, F.Deq(s.f, w, who), w)
  }

  function WithTaken(s: State, f': F.State<Job>, w: nat): State {
    var s' := s.(f := f');
    if s.f.q == [] then s'
    else if s.f.q[0].Pill? then s'.(exited := s.exited + {w})
    else s'.(running := s.running[w := s.f.q[0]], started := s.started + [s.f.q[0]])
  }

  /** The destructor tries to enqueue its next pill. */
  function Pilled(s: State, who: nat): State
    requires s.dtor.Pilling?
  {
    s.(f := F.Enq(s.f, s.n, Pill, true, who),
       dtor := if F.HasSpace(|s.f.q|, s.f.max) then Pilling(s.dtor.k + 1) else s.dtor)
  }

  function Next(s: State, step: Step): State
    requires Enabled(s, step)
  {
    match step
    case AddJob(tid, id, who) => s.(f := F.Enq(s.f, tid, Work(id), s.blocking, who))
    case AddJobWakes(tid, who) => s.(f := F.Enq(s.f, tid, s.f.wokenP[tid], true, who))
    case Take(w, who) => Taken(s, w, who)
    case TakeWakes(w, who) => Taken(s, w, who)
    case Return(w) => s.(running := s.running - {w}, ended := s.ended + 1)
    case StartDestructor => s.(dtor := Pilling(0))
    case AddPill(who) => Pilled(s, who)
    case AddPillWakes(who) => Pilled(s, who)
    case StartJoin => s.(dtor := Joining)
    case Join => s.(dtor := Finished)
    case SpuriousC(tid) => s.(f := F.SignalC(s.f, tid))
    case SpuriousP(tid) => s.(f := F.SignalP(s.f, tid))
  }

  ghost predicate Leads(s: State, steps: seq<Step>, t: State)
    decreases |steps|
  {
    if steps == [] then s == t
    else Enabled(s, steps[0]) && Leads(Next(s, steps[0]), steps[1..], t)
  }

  // ---- Counting ----

  function Works(js: seq<Job>): seq<Job> {
    if js == [] then []
    else Works(js[..|js| - 1]) + (if js[|js| - 1].Work? then [js[|js| - 1]] else [])
  }

  function Pills(js: seq<Job>): nat {
    if js == [] then 0 else Pills(js[..|js| - 1]) + if js[|js| - 1].Pill? then 1 else 0
  }

  lemma CountSnoc(js: seq<Job>, j: Job)
    ensures Works(js + [j]) == Works(js) + (if j.Work? then [j] else [])
    ensures Pills(js + [j]) == Pills(js) + if j.Pill? then 1 else 0
  {
    assert (js + [j])[..|js|] == js;
  }

  lemma {:induction false} PillsAppend(a: seq<Job>, b: seq<Job>)
    ensures Pills(a + b) == Pills(a) + Pills(b)
  {
    if b == [] {
      assert a + b == a;
    } else {
      PillsAppend(a, b[..|b| - 1]);
      assert (a + b)[..|a + b| - 1] == a + b[..|b| - 1];
    }
  }

  lemma {:induction false} SomePill(js: seq<Job>) returns (k: nat)
    requires Pills(js) > 0
    ensures k < |js| && js[k].Pill?
  {
    if js[|js| - 1].Pill? {
      k := |js| - 1;
    } else {
      k := SomePill(js[..|js| - 1]);
    }
  }

  /** How many pills worker w has taken. */
  function PillsBy(taken: seq<F.Take<Job>>, w: nat): nat {
    if taken == [] then 0
    else PillsBy(taken[..|taken| - 1], w)
         + if taken[|taken| - 1] == F.Take(w, Pill) then 1 else 0
  }

  lemma PillsBySnoc(taken: seq<F.Take<Job>>, t: F.Take<Job>, w: nat)
    ensures PillsBy(taken + [t], w) == PillsBy(taken, w) + if t == F.Take(w, Pill) then 1 else 0
  {
    assert (taken + [t])[..|taken|] == taken;
  }

  function PillsSent(s: State): nat {
    match s.dtor
    case NotStarted => 0
    case Pilling(k) => k
    case Joining => s.n
    case Finished => s.n
  }

  // ---- Invariants ----

  predicate ThreadsOk(s: State) {
    && s.n > 0 && s.f.max == 100 * s.n && PillsSent(s) <= s.n
    && s.f.sleepC + s.f.wokenC + s.running.Keys + s.exited <= Workers(s.n)
    && (s.f.sleepC + s.f.wokenC) !! s.running.Keys !! s.exited
    && (s.dtor.Finished? ==> s.exited == Workers(s.n))
  }

  /** Before the destructor starts, clients may be blocked with a job; after that only it, with a pill. */
  predicate MayHold(s: State, t: nat, e: Job) {
    if s.dtor.NotStarted? then t > s.n && e.Work? else t == s.n && e.Pill? && PillsSent(s) < s.n
  }

  predicate HeldOk(s: State) {
    && (forall t :: t in s.f.sleepP ==> MayHold(s, t, s.f.sleepP[t]))
    && (forall t :: t in s.f.wokenP ==> MayHold(s, t, s.f.wokenP[t]))
  }

  /** Every job is ahead of every pill. */
  predicate PillsLast(js: seq<Job>) {
    forall i, j :: 0 <= i < j < |js| && js[i].Pill? ==> js[j].Pill?
  }

  predicate AcceptedOk(accepted: seq<Job>, pills: nat) {
    Pills(accepted) == pills && PillsLast(accepted)
  }

  predicate TakenOk(s: State) {
    && Pills(F.Items(s.f.taken)) == |s.exited|
    && s.started == Works(F.Items(s.f.taken))
    && |s.running| + s.ended == |s.started|
  }

  /** Each worker takes one pill when it exits, and none before. */
  ghost predicate OnePillEach(s: State) {
    forall w {:trigger PillsBy(s.f.taken, w)} :: PillsBy(s.f.taken, w) == if w in s.exited then 1 else 0
  }

  ghost predicate PoolOk(s: State) {
    && ThreadsOk(s) && HeldOk(s)
    && AcceptedOk(s.f.accepted, PillsSent(s)) && TakenOk(s) && OnePillEach(s)
  }

  ghost predicate Inv(s: State) {
    F.Inv(s.f) && PoolOk(s)
  }

  lemma InitInv(s: State)
    requires Init(s)
    ensures Inv(s)
  {
  }

  lemma {:induction false} PillCounted(js: seq<Job>, k: nat)
    requires k < |js| && js[k].Pill?
    ensures Pills(js) > 0
  {
    if k < |js| - 1 {
      PillCounted(js[..|js| - 1], k);
    }
  }

  lemma AcceptedSnoc(js: seq<Job>, j: Job, pills: nat)
    requires AcceptedOk(js, pills) && (j.Pill? || pills == 0)
    ensures AcceptedOk(js + [j], pills + if j.Pill? then 1 else 0)
  {
    CountSnoc(js, j);
    if k :| 0 <= k < |js| && js[k].Pill? {
      PillCounted(js, k);
    }
  }

  lemma AddInv(s: State, tid: nat, e: Job, blocking: bool, who: nat)
    requires Inv(s) && F.MaySignalC(s.f, who) && s.dtor.NotStarted? && e.Work? && tid > s.n
    requires !F.Inside(s.f, tid) || (tid in s.f.wokenP && blocking)
    ensures Inv(s.(f := F.Enq(s.f, tid, e, blocking, who)))
  {
    F.EnqInv(s.f, tid, e, blocking, who);
    F.EnqEffect(s.f, tid, e, blocking, who);
    AddThreads(s, F.Enq(s.f, tid, e, blocking, who), tid, e);
    AcceptedSnoc(s.f.accepted, e, 0);
  }

  lemma AddThreads(s: State, f': F.State<Job>, tid: nat, e: Job)
    requires ThreadsOk(s) && HeldOk(s) && F.EnqFrame(s.f, f', tid, e)
    requires s.dtor.NotStarted? && e.Work? && tid > s.n
    ensures ThreadsOk(s.(f := f')) && HeldOk(s.(f := f'))
  {
  }

  lemma PilledInv(s: State, who: nat)
    requires Inv(s) && F.MaySignalC(s.f, who) && s.dtor.Pilling? && s.dtor.k < s.n
    requires !F.Inside(s.f, s.n) || s.n in s.f.wokenP
    ensures Inv(Pilled(s, who))
  {
    F.EnqInv(s.f, s.n, Pill, true, who);
    F.EnqEffect(s.f, s.n, Pill, true, who);
    PilledPool(s, F.Enq(s.f, s.n, Pill, true, who));
  }

  lemma PilledPool(s: State, f': F.State<Job>)
    requires PoolOk(s) && s.dtor.Pilling? && s.dtor.k < s.n
    requires F.EnqFrame(s.f, f', s.n, Pill) && s.n !in s.f.sleepP
    ensures PoolOk(s.(f := f', dtor := if F.HasSpace(|s.f.q|, s.f.max) then Pilling(s.dtor.k + 1) else s.dtor))
  {
    PillThreads(s, f');
    AcceptedSnoc(s.f.accepted, Pill, s.dtor.k);
  }

  lemma PillThreads(s: State, f': F.State<Job>)
    requires ThreadsOk(s) && HeldOk(s) && s.dtor.Pilling? && s.dtor.k < s.n
    requires F.EnqFrame(s.f, f', s.n, Pill) && s.n !in s.f.sleepP
    ensures var s' := s.(f := f', dtor := if F.HasSpace(|s.f.q|, s.f.max) then Pilling(s.dtor.k + 1) else s.dtor);
            ThreadsOk(s') && HeldOk(s')
  {
  }

  lemma TakenInv(s: State, w: nat, who: nat)
    requires Inv(s) && F.MaySignalP(s.f, who) && w < s.n && w !in s.running && w !in s.exited
    requires !F.Inside(s.f, w) || w in s.f.wokenC
    ensures Inv(Taken(s, w, who))
  {
    F.DeqInv(s.f, w, who);
    assert w !in s.f.sleepC;
    TakenOkToo(s, w, who);
    TakenQueue(s, w, who);
  }

  lemma TakenQueue(s: State, w: nat, who: nat)
    ensures Taken(s, w, who).f == F.Deq(s.f, w, who)
  {
  }

  lemma TakenOkToo(s: State, w: nat, who: nat)
    requires PoolOk(s) && w < s.n && w !in s.running && w !in s.exited && w !in s.f.sleepC
    ensures PoolOk(Taken(s, w, who))
  {
    F.DeqEffect(s.f, w, who);
    WithTakenOk(s, F.Deq(s.f, w, who), w);
  }

  lemma WithTakenOk(s: State, f': F.State<Job>, w: nat)
    requires PoolOk(s) && F.DeqFrame(s.f, f', w)
    requires w < s.n && w !in s.running && w !in s.exited && w !in s.f.sleepC
    ensures PoolOk(WithTaken(s, f', w))
  {
    TakenThreads(s, f', w);
    TakenHeld(s, f', w);
    TakenAccepted(s, f', w);
    if s.f.q == [] {
      NothingCounted(s, f', w);
    } else {
      TakenCounts(s, f', w);
    }
  }

  lemma TakenAccepted(s: State, f': F.State<Job>, w: nat)
    requires AcceptedOk(s.f.accepted, PillsSent(s)) && f'.accepted == s.f.accepted
    ensures var s' := WithTaken(s, f', w); AcceptedOk(s'.f.accepted, PillsSent(s'))
  {
  }

  lemma NothingCounted(s: State, f': F.State<Job>, w: nat)
    requires TakenOk(s) && OnePillEach(s) && s.f.q == [] && f'.taken == s.f.taken
    ensures TakenOk(WithTaken(s, f', w)) && OnePillEach(WithTaken(s, f', w))
  {
  }

  lemma TakenThreads(s: State, f': F.State<Job>, w: nat)
    requires ThreadsOk(s) && w < s.n && w !in s.running && w !in s.exited
    requires F.DeqFrame(s.f, f', w) && w !in s.f.sleepC
    ensures ThreadsOk(WithTaken(s, f', w))
  {
    assert w in Workers(s.n);
    var before, after := s.f.sleepC + s.f.wokenC, f'.sleepC + f'.wokenC;
    if s.f.q == [] {
      assert after == before + {w};
    } else {
      assert after <= before - {w};
    }
  }

  lemma TakenHeld(s: State, f': F.State<Job>, w: nat)
    requires HeldOk(s)
    requires forall t :: t in f'.sleepP ==> F.Holds(s.f, t, f'.sleepP[t])
    requires forall t :: t in f'.wokenP ==> F.Holds(s.f, t, f'.wokenP[t])
    ensures HeldOk(WithTaken(s, f', w))
  {
  }

  lemma TakenCounts(s: State, f': F.State<Job>, w: nat)
    requires TakenOk(s) && OnePillEach(s) && s.f.q != [] && w !in s.running && w !in s.exited
    requires f'.taken == s.f.taken + [F.Take(w, s.f.q[0])]
    ensures TakenOk(WithTaken(s, f', w)) && OnePillEach(WithTaken(s, f', w))
  {
    var s', t := WithTaken(s, f', w), F.Take(w, s.f.q[0]);
    F.ItemsSnoc(s.f.taken, t);
    CountSnoc(F.Items(s.f.taken), s.f.q[0]);
    forall v ensures PillsBy(s'.f.taken, v) == if v in s'.exited then 1 else 0 {
      PillsBySnoc(s.f.taken, t, v);
    }
  }

  lemma WakeOk(s: State, f': F.State<Job>)
    requires PoolOk(s) && WakeFrame(s.f, f')
    ensures PoolOk(s.(f := f'))
  {
  }

  lemma ReturnInv(s: State, w: nat)
    requires PoolOk(s) && Enabled(s, Return(w))
    ensures PoolOk(Next(s, Return(w)))
  {
    F.MapSizes(s.running, w, s.running[w]);
    assert (s.running - {w}).Keys == s.running.Keys - {w};
  }

  /** The destructor moves on without touching the queue. */
  lemma DestructorInv(s: State, d: Destructor)
    requires PoolOk(s) && PillsSent(s.(dtor := d)) == PillsSent(s) && (d.Finished? ==> s.exited == Workers(s.n))
    requires s.dtor.NotStarted? ==> d.NotStarted? || (s.f.sleepP == map[] && s.f.wokenP == map[])
    requires !s.dtor.NotStarted? ==> !d.NotStarted?
    ensures PoolOk(s.(dtor := d))
  {
  }

  lemma NextInv(s: State, step: Step)
    requires Inv(s) && Enabled(s, step)
    ensures Inv(Next(s, step))
  {
    match step
    case AddJob(tid, id, who) => AddInv(s, tid, Work(id), s.blocking, who);
    case AddJobWakes(tid, who) =>
      assert MayHold(s, tid, s.f.wokenP[tid]);
      AddInv(s, tid, s.f.wokenP[tid], true, who);
    case Take(w, who) => TakenInv(s, w, who);
    case TakeWakes(w, who) => WorkerWakes(s, w, who);
    case Return(w) => ReturnInv(s, w);
    case StartDestructor => DestructorInv(s, Pilling(0));
    case AddPill(who) => PilledInv(s, who);
    case AddPillWakes(who) =>
      assert MayHold(s, s.n, s.f.wokenP[s.n]);
      PilledInv(s, who);
    case StartJoin => DestructorInv(s, Joining);
    case Join => DestructorInv(s, Finished);
    case SpuriousC(tid) => SpuriousInv(s, F.SpuriousC(tid));
    case SpuriousP(tid) => SpuriousInv(s, F.SpuriousP(tid));
  }

  lemma WorkerWakes(s: State, w: nat, who: nat)
    requires Inv(s) && Enabled(s, TakeWakes(w, who))
    ensures Inv(Next(s, TakeWakes(w, who)))
  {
    assert w in Workers(s.n);
    TakenInv(s, w, who);
  }

  lemma SpuriousInv(s: State, step: F.Step<Job>)
    requires Inv(s) && F.Enabled(s.f, step) && (step.SpuriousC? || step.SpuriousP?)
    ensures Inv(s.(f := F.Next(s.f, step)))
  {
    F.NextInv(s.f, step);
    SpuriousOk(s, step);
  }

  lemma SpuriousOk(s: State, step: F.Step<Job>)
    requires PoolOk(s) && F.Enabled(s.f, step) && (step.SpuriousC? || step.SpuriousP?)
    ensures PoolOk(s.(f := F.Next(s.f, step)))
  {
    SignalFrame(s.f, step.tid);
    if step.SpuriousC? {
      WakeOk(s, F.SignalC(s.f, step.tid));
    } else {
      WakeOk(s, F.SignalP(s.f, step.tid));
    }
  }

  /** A wake-up moves a thread from sleeping to woken and changes nothing else. */
  ghost predicate WakeFrame(f: F.State<Job>, f': F.State<Job>) {
    && f'.max == f.max && f'.accepted == f.accepted && f'.taken == f.taken
    && f'.sleepC + f'.wokenC == f.sleepC + f.wokenC
    && (forall t :: t in f'.sleepP ==> F.Holds(f, t, f'.sleepP[t]))
    && (forall t :: t in f'.wokenP ==> F.Holds(f, t, f'.wokenP[t]))
  }

  lemma SignalFrame(f: F.State<Job>, who: nat)
    ensures WakeFrame(f, F.SignalC(f, who)) && WakeFrame(f, F.SignalP(f, who))
  {
  }

  lemma {:induction false} LeadsInv(s: State, steps: seq<Step>, t: State)
    requires Inv(s) && Leads(s, steps, t)
    ensures Inv(t)
    decreases |steps|
  {
    if steps != [] {
      NextInv(s, steps[0]);
      LeadsInv(Next(s, steps[0]), steps[1..], t);
    }
  }

  lemma ReachableInv(init: State, steps: seq<Step>, s: State)
    requires Init(init) && Leads(init, steps, s)
    ensures Inv(s)
  {
    InitInv(init);
    LeadsInv(init, steps, s);
  }

  // ---- Shutdown is complete ----

  lemma {:induction false} NoPillNoWork(js: seq<Job>)
    requires Pills(js) == 0 && forall k :: 0 <= k < |js| ==> js[k].Pill?
    ensures js == []
  {
    if js != [] {
      PillCounted(js, 0);
    }
  }

  /** A job offered to a pool with space is accepted; otherwise the caller waits with it, or is refused. */
  lemma AddJobExact(init: State, steps: seq<Step>, s: State, tid: nat, id: nat, who: nat)
    requires Init(init) && Leads(init, steps, s) && Enabled(s, AddJob(tid, id, who))
    ensures var t := Next(s, AddJob(tid, id, who));
            if |s.f.q| < 100 * s.n then t.f.q == s.f.q + [Work(id)] && t.f.accepted == s.f.accepted + [Work(id)]
            else
              && t.f.q == s.f.q && t.f.accepted == s.f.accepted
              && (if s.blocking then tid in t.f.sleepP && t.f.sleepP[tid] == Work(id) else !F.Inside(t.f, tid))
  {
    ReachableInv(init, steps, s);
    F.EnqExact(s.f, tid, Work(id), s.blocking, who);
  }

  /** What a worker does with the job it takes: it runs it, or exits if it is a pill. */
  predicate JobTaken(s: State, t: State, w: nat) {
    && s.f.q != [] && t.f.q == s.f.q[1..]
    && (if s.f.q[0].Work?
        then w in t.running && t.running[w] == s.f.q[0] && t.started == s.started + [s.f.q[0]] && t.exited == s.exited
        else w in t.exited && t.running == s.running && t.started == s.started)
  }

  lemma JobTakenBy(s: State, f': F.State<Job>, w: nat)
    requires s.f.q != [] && f'.q == s.f.q[1..]
    ensures JobTaken(s, WithTaken(s, f', w), w)
  {
  }

  /** A worker that takes a job runs it; one that takes a pill exits. */
  lemma TakeExact(s: State, step: Step)
    requires Enabled(s, step) && (step.Take? || step.TakeWakes?) && s.f.q != []
    ensures JobTaken(s, Next(s, step), step.w)
  {
    DequeuedRest(s.f, step.w, step.who);
    JobTakenBy(s, F.Deq(s.f, step.w, step.who), step.w);
  }

  lemma DequeuedRest(f: F.State<Job>, w: nat, who: nat)
    requires f.q != []
    ensures F.Deq(f, w, who).q == f.q[1..]
  {
  }

  /**
   When the destructor is done the queue is empty, every job ever accepted has been started
   exactly once, in the order of acceptance, and has returned, and each worker has taken
   exactly one pill.
   */
  lemma ShutdownComplete(init: State, steps: seq<Step>, s: State)
    requires Init(init) && Leads(init, steps, s) && s.dtor.Finished?
    ensures s.f.q == [] && s.running == map[]
    ensures s.started == Works(s.f.accepted) && s.ended == |s.started|
    ensures s.n == init.n && forall w: nat :: PillsBy(s.f.taken, w) == if w < init.n then 1 else 0
  {
    SizeKept(init, steps, s);
    ReachableInv(init, steps, s);
    QueueDrained(s);
    assert F.Items(s.f.taken) + [] == F.Items(s.f.taken);
    assert s.running.Keys == {};
  }

  lemma {:induction false} SizeKept(s: State, steps: seq<Step>, t: State)
    requires Leads(s, steps, t)
    ensures t.n == s.n
    decreases |steps|
  {
    if steps != [] {
      SizeKept(Next(s, steps[0]), steps[1..], t);
    }
  }

  lemma OnlyPillsAfter(items: seq<Job>, q: seq<Job>, k: nat)
    requires PillsLast(items + q) && k < |items| && items[k].Pill?
    ensures forall i :: 0 <= i < |q| ==> q[i].Pill?
  {
    forall i | 0 <= i < |q| ensures q[i].Pill? {
      assert (items + q)[k].Pill? && (items + q)[|items| + i] == q[i];
    }
  }

  lemma QueueDrained(s: State)
    requires F.Conserved(s.f) && PoolOk(s) && s.dtor.Finished?
    ensures s.f.q == []
  {
    var items := F.Items(s.f.taken);
    PillsAppend(items, s.f.q);
    var k := SomePill(items);
    OnlyPillsAfter(items, s.f.q, k);
    NoPillNoWork(s.f.q);
  }

  // ---- Shutdown cannot get stuck ----

  /** Until the destructor has finished, some thread can take a step, without any spurious wake-up. */
  lemma NeverStuck(init: State, steps: seq<Step>, s: State) returns (step: Step)
    requires Init(init) && Leads(init, steps, s) && !s.dtor.NotStarted? && !s.dtor.Finished?
    ensures Enabled(s, step) && !Spurious(step)
  {
    ReachableInv(init, steps, s);
    var whoC, whoP := AnySleepers(s.f);
    if w :| w in s.running || w in s.f.wokenC || (w in Workers(s.n) && w !in s.f.sleepC && w !in s.exited) {
      step := WorkerCanMove(s, w, whoP);
    } else {
      step := DestructorCanMove(s, whoC);
    }
  }

  /** A worker that runs a job, has been woken, or is outside the queue can go on. */
  lemma WorkerCanMove(s: State, w: nat, whoP: nat) returns (step: Step)
    requires Inv(s) && F.MaySignalP(s.f, whoP)
    requires w in s.running || w in s.f.wokenC || (w < s.n && w !in s.f.sleepC && w !in s.exited)
    ensures Enabled(s, step) && !Spurious(step)
  {
    if w in s.running {
      step := Return(w);
    } else if w in s.f.wokenC {
      step := TakeWakes(w, whoP);
    } else {
      OutsideWorker(s, w);
      step := Take(w, whoP);
    }
  }

  /** Only threads that are no workers wait for space. */
  lemma OutsideWorker(s: State, w: nat)
    requires Inv(s) && w < s.n && w !in s.f.sleepC && w !in s.f.wokenC
    ensures !F.Inside(s.f, w)
  {
    assert w in s.f.sleepP ==> MayHold(s, w, s.f.sleepP[w]);
    assert w in s.f.wokenP ==> MayHold(s, w, s.f.wokenP[w]);
  }

  lemma AnySleepers(f: F.State<Job>) returns (whoC: nat, whoP: nat)
    ensures F.MaySignalC(f, whoC) && F.MaySignalP(f, whoP)
  {
    whoC, whoP := 0, 0;
    if f.sleepC != {} {
      whoC :| whoC in f.sleepC;
    }
    if f.sleepP != map[] {
      assert exists t :: t in f.sleepP;
      whoP :| whoP in f.sleepP;
    }
  }

  lemma FullSubset(small: set<nat>, big: set<nat>)
    requires small <= big && |small| >= |big|
    ensures small == big
  {
    if x :| x in big && x !in small {
      assert small <= big - {x};
      SubsetSize(small, big - {x});
    }
  }

  lemma {:induction false} SubsetSize(small: set<nat>, big: set<nat>)
    requires small <= big
    ensures |small| <= |big|
  {
    if x :| x in small {
      SubsetSize(small - {x}, big - {x});
    }
  }

  /** If a worker still sleeps, the queue is empty, so as many workers have exited as pills were sent. */
  lemma SleeperMeansDrained(s: State)
    requires Inv(s) && s.f.wokenC == {} && s.f.sleepC != {}
    ensures s.f.q == [] && |s.exited| == PillsSent(s)
  {
    PillsAppend(F.Items(s.f.taken), s.f.q);
  }

  lemma ExitedAtMostSent(s: State)
    requires Inv(s)
    ensures |s.exited| <= PillsSent(s)
  {
    PillsAppend(F.Items(s.f.taken), s.f.q);
  }

  /** With all workers asleep or gone, the destructor is not blocked. */
  lemma DestructorCanMove(s: State, whoC: nat) returns (step: Step)
    requires Inv(s) && F.MaySignalC(s.f, whoC) && !s.dtor.NotStarted? && !s.dtor.Finished?
    requires s.f.wokenC == {} && forall w :: w in Workers(s.n) ==> w in s.f.sleepC || w in s.exited
    ensures Enabled(s, step) && !Spurious(step)
  {
    if s.dtor.Pilling? {
      step := PillerCanMove(s, whoC);
    } else {
      JoinerCanMove(s);
      step := Join;
    }
  }

  lemma PillerCanMove(s: State, whoC: nat) returns (step: Step)
    requires Inv(s) && F.MaySignalC(s.f, whoC) && s.dtor.Pilling?
    requires s.f.wokenC == {} && forall w :: w in Workers(s.n) ==> w in s.f.sleepC || w in s.exited
    ensures Enabled(s, step) && !Spurious(step)
  {
    if s.dtor.k < s.n {
      PillNotBlocked(s);
      step := if s.n in s.f.wokenP then AddPillWakes(whoC) else AddPill(whoC);
    } else {
      step := StartJoin;
    }
  }

  lemma JoinerCanMove(s: State)
    requires Inv(s) && s.dtor.Joining?
    requires s.f.wokenC == {} && forall w :: w in Workers(s.n) ==> w in s.f.sleepC || w in s.exited
    ensures s.exited == Workers(s.n)
  {
    if s.f.sleepC != {} {
      SleeperMeansDrained(s);
      FullSubset(s.exited, Workers(s.n));
    }
  }

  lemma PillNotBlocked(s: State)
    requires Inv(s) && s.dtor.Pilling? && s.dtor.k < s.n
    requires s.f.wokenC == {} && forall w :: w in Workers(s.n) ==> w in s.f.sleepC || w in s.exited
    ensures s.n !in s.f.sleepC && s.n !in s.f.sleepP
  {
    ExitedAtMostSent(s);
    assert s.exited != Workers(s.n);
    assert s.f.sleepC != {};
    SleeperMeansDrained(s);
    assert forall t :: t in s.f.wokenP ==> MayHold(s, t, s.f.wokenP[t]);
    assert s.n in s.f.sleepP ==> s.f.wokenP.Keys == {} && |s.f.wokenP| == 0;
  }

  // ---- Shutdown ends ----

  /** How many steps a shutdown can still take, however the threads are scheduled. */
  function StepsLeft(s: State): int {
    6 * (s.n - PillsSent(s)) + 4 * |s.f.q| + |s.running| + (s.n - |s.exited| - |s.f.sleepC|)
    + 2 * |s.f.wokenP|
    + (if F.Inside(s.f, s.n) then 0 else 1)
    + (if s.dtor.Finished? then 0 else if s.dtor.Joining? then 1 else 2)
  }

  lemma StepsLeftNat(s: State)
    requires Inv(s)
    ensures StepsLeft(s) >= 0
  {
    assert |s.f.sleepC + s.exited| == |s.f.sleepC| + |s.exited|;
    SubsetSize(s.f.sleepC + s.exited, Workers(s.n));
  }

  lemma SignalCSize(f: F.State<Job>, who: nat, n: nat)
    ensures var f' := F.SignalC(f, who);
            && |f'.sleepC| + 1 >= |f.sleepC| && f'.q == f.q && f'.wokenP == f.wokenP
            && (F.Inside(f', n) <==> F.Inside(f, n))
  {
  }

  lemma SignalPSize(f: F.State<Job>, who: nat, n: nat)
    ensures var f' := F.SignalP(f, who);
            && |f'.wokenP| <= |f.wokenP| + 1 && f'.q == f.q && f'.sleepC == f.sleepC
            && (F.Inside(f', n) <==> F.Inside(f, n))
  {
    if who in f.sleepP && who !in f.wokenP {
      F.MapSizes(f.wokenP, who, f.sleepP[who]);
    }
  }

  lemma TakeSizes(f: F.State<Job>, w: nat, who: nat, n: nat)
    requires w != n && w !in f.sleepC
    ensures var f' := F.Deq(f, w, who);
            && (F.Inside(f', n) <==> F.Inside(f, n))
            && (f.q == [] ==> f'.q == [] && |f'.sleepC| == |f.sleepC| + 1 && f'.wokenP == f.wokenP)
            && (f.q != [] ==> |f'.q| == |f.q| - 1 && f'.sleepC == f.sleepC && |f'.wokenP| <= |f.wokenP| + 1)
  {
    if f.q != [] {
      SignalPSize(f.(wokenC := f.wokenC - {w}, q := f.q[1..], taken := f.taken + [F.Take(w, f.q[0])]), who, n);
    }
  }

  lemma PillSizes(f: F.State<Job>, n: nat, who: nat)
    requires n !in f.sleepC && n !in f.wokenC && n !in f.sleepP
    ensures var f' := F.Enq(f, n, Pill, true, who);
            && |f'.wokenP| == |f.wokenP| - (if n in f.wokenP then 1 else 0)
            && (F.HasSpace(|f.q|, f.max) ==>
                  |f'.q| == |f.q| + 1 && |f'.sleepC| + 1 >= |f.sleepC| && !F.Inside(f', n))
            && (!F.HasSpace(|f.q|, f.max) ==> f'.q == f.q && f'.sleepC == f.sleepC && F.Inside(f', n))
  {
    F.MapSizes(f.wokenP, n, Pill);
    if F.HasSpace(|f.q|, f.max) {
      SignalCSize(f.(wokenP := f.wokenP - {n}, q := f.q + [Pill], accepted := f.accepted + [Pill]), who, n);
    }
  }

  lemma TakeCounts(s: State, w: nat, who: nat)
    requires w < s.n && w !in s.running && w !in s.exited && w !in s.f.sleepC
    ensures StepsLeft(Taken(s, w, who)) < StepsLeft(s)
  {
    TakeSizes(s.f, w, who, s.n);
    WithTakenCounts(s, F.Deq(s.f, w, who), w);
  }

  lemma WithTakenCounts(s: State, f': F.State<Job>, w: nat)
    requires w !in s.running && w !in s.exited
    requires F.Inside(f', s.n) <==> F.Inside(s.f, s.n)
    requires s.f.q == [] ==> f'.q == [] && |f'.sleepC| == |s.f.sleepC| + 1 && f'.wokenP == s.f.wokenP
    requires s.f.q != [] ==>
               |f'.q| == |s.f.q| - 1 && f'.sleepC == s.f.sleepC && |f'.wokenP| <= |s.f.wokenP| + 1
    ensures StepsLeft(WithTaken(s, f', w)) < StepsLeft(s)
  {
    if s.f.q != [] {
      if s.f.q[0].Pill? {
        PillTakenCounts(s, f', w);
      } else {
        WorkTakenCounts(s, f', w, s.f.q[0]);
      }
    }
  }

  lemma PillTakenCounts(s: State, f': F.State<Job>, w: nat)
    requires w !in s.exited && (F.Inside(f', s.n) <==> F.Inside(s.f, s.n))
    requires |f'.q| == |s.f.q| - 1 && f'.sleepC == s.f.sleepC && |f'.wokenP| <= |s.f.wokenP| + 1
    ensures StepsLeft(s.(f := f', exited := s.exited + {w})) < StepsLeft(s)
  {
    assert |s.exited + {w}| == |s.exited| + 1;
  }

  lemma WorkTakenCounts(s: State, f': F.State<Job>, w: nat, j: Job)
    requires w !in s.running && (F.Inside(f', s.n) <==> F.Inside(s.f, s.n))
    requires |f'.q| == |s.f.q| - 1 && f'.sleepC == s.f.sleepC && |f'.wokenP| <= |s.f.wokenP| + 1
    ensures StepsLeft(s.(f := f', running := s.running[w := j], started := s.started + [j])) < StepsLeft(s)
  {
    F.MapSizes(s.running, w, j);
  }

  lemma PillCounts(s: State, who: nat)
    requires s.dtor.Pilling? && s.dtor.k < s.n
    requires s.n !in s.f.sleepC && s.n !in s.f.wokenC && s.n !in s.f.sleepP
    ensures StepsLeft(Pilled(s, who)) < StepsLeft(s)
  {
    PillSizes(s.f, s.n, who);
  }

  lemma ReturnCounts(s: State, w: nat)
    requires w in s.running
    ensures StepsLeft(Next(s, Return(w))) < StepsLeft(s)
  {
    F.MapSizes(s.running, w, s.running[w]);
  }

  lemma EveryStepCounts(s: State, step: Step)
    requires Inv(s) && Enabled(s, step) && !s.dtor.NotStarted? && !Spurious(step)
    ensures StepsLeft(Next(s, step)) < StepsLeft(s) && !Next(s, step).dtor.NotStarted?
  {
    PillHeldOnlyWhilePilling(s);
    StepCounts(s, step);
  }

  lemma PillHeldOnlyWhilePilling(s: State)
    requires Inv(s) && !s.dtor.NotStarted?
    ensures s.f.wokenC <= Workers(s.n) && s.f.sleepC <= Workers(s.n) && s.f.wokenC !! s.f.sleepC
    ensures s.f.wokenC !! s.running.Keys && s.f.wokenC !! s.exited
    ensures s.n in s.f.wokenP ==> PillsSent(s) < s.n && s.n !in s.f.sleepP
  {
    assert s.n in s.f.wokenP ==> MayHold(s, s.n, s.f.wokenP[s.n]);
  }

  lemma StepCounts(s: State, step: Step)
    requires Enabled(s, step) && !s.dtor.NotStarted? && !Spurious(step)
    requires s.f.wokenC <= Workers(s.n) && s.f.sleepC <= Workers(s.n) && s.f.wokenC !! s.f.sleepC
    requires s.f.wokenC !! s.running.Keys && s.f.wokenC !! s.exited
    requires s.n in s.f.wokenP ==> PillsSent(s) < s.n && s.n !in s.f.sleepP
    ensures StepsLeft(Next(s, step)) < StepsLeft(s) && !Next(s, step).dtor.NotStarted?
  {
    match step
    case Take(w, who) => TakeCounts(s, w, who);
    case TakeWakes(w, who) => WakeCounts(s, w, who);
    case Return(w) => ReturnCounts(s, w);
    case AddPill(who) => PillCounts(s, who);
    case AddPillWakes(who) => PillCounts(s, who);
    case StartJoin => JoinCounts(s, step);
    case Join => JoinCounts(s, step);
  }

  lemma WakeCounts(s: State, w: nat, who: nat)
    requires w in s.f.wokenC && w !in s.running && w !in s.exited && w !in s.f.sleepC && w in Workers(s.n)
    ensures StepsLeft(Taken(s, w, who)) < StepsLeft(s)
  {
    TakeCounts(s, w, who);
  }

  lemma JoinCounts(s: State, step: Step)
    requires Enabled(s, step) && (step.StartJoin? || step.Join?)
    ensures StepsLeft(Next(s, step)) < StepsLeft(s)
  {
  }

  /** The steps so far and the steps left never exceed what was left at the start. */
  lemma {:induction false} StepsBounded(init: State, before: seq<Step>, s: State, steps: seq<Step>, t: State)
    requires Init(init) && Leads(init, before, s) && Leads(s, steps, t) && !s.dtor.NotStarted?
    requires forall k :: 0 <= k < |steps| ==> !Spurious(steps[k])
    ensures |steps| + StepsLeft(t) <= StepsLeft(s)
    decreases |steps|
  {
    if steps != [] {
      OneStep(init, before, s, steps[0]);
      StepsBounded(init, before + [steps[0]], Next(s, steps[0]), steps[1..], t);
    }
  }

  lemma OneStep(init: State, before: seq<Step>, s: State, step: Step)
    requires Init(init) && Leads(init, before, s) && Enabled(s, step) && !s.dtor.NotStarted? && !Spurious(step)
    ensures Leads(init, before + [step], Next(s, step))
    ensures StepsLeft(Next(s, step)) < StepsLeft(s) && !Next(s, step).dtor.NotStarted?
  {
    ReachableInv(init, before, s);
    EveryStepCounts(s, step);
    LeadsTo(init, before, s, step);
  }

  lemma {:induction false} LeadsTo(s: State, steps: seq<Step>, t: State, more: Step)
    requires Leads(s, steps, t) && Enabled(t, more)
    ensures Leads(s, steps + [more], Next(t, more))
    decreases |steps|
  {
    if steps == [] {
      assert Leads(Next(t, more), [], Next(t, more));
    } else {
      LeadsTo(Next(s, steps[0]), steps[1..], t, more);
      assert (steps + [more])[1..] == steps[1..] + [more];
    }
  }

  lemma {:induction false} LeadsJoin(s: State, a: seq<Step>, t: State, b: seq<Step>, u: State)
    requires Leads(s, a, t) && Leads(t, b, u)
    ensures Leads(s, a + b, u)
    decreases |a|
  {
    if a == [] {
      assert a + b == b;
    } else {
      LeadsJoin(Next(s, a[0]), a[1..], t, b, u);
      assert (a + b)[1..] == a[1..] + b;
    }
  }

  /**
   Once the destructor has started, the threads can take only so many more steps, whatever the
   schedule; by NeverStuck they do not stop before it has finished.
   */
  lemma ShutdownEnds(init: State, before: seq<Step>, s: State, steps: seq<Step>, t: State)
    requires Init(init) && Leads(init, before, s) && !s.dtor.NotStarted? && Leads(s, steps, t)
    requires forall k :: 0 <= k < |steps| ==> !Spurious(steps[k])
    ensures |steps| <= StepsLeft(s)
  {
    StepsBounded(init, before, s, steps, t);
    LeadsJoin(init, before, s, steps, t);
    ReachableInv(init, before + steps, t);
    StepsLeftNat(t);
  }
}
