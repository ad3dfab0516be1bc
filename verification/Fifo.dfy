/**
 The blocking queue: one mutex, two condition variables, and any number of threads that
 enqueue and dequeue. A wait gives up the mutex, so each operation is cut at its waits.
 */
module Fifo {
  datatype EnqOutcome = Accepted | MustWait | Refused

  predicate HasSpace(size: nat, max: nat) {
    max == 0 || size < max
  }

  /** The object. Each method is one pass through the loop of `enq` or `deq`. */
  class Queue<T(0)> {
    const max: nat
    var q: seq<T>

    constructor (max: nat)
      ensures this.max == max && q == []
    {
      this.max := max;
      q := [];
    }

    method TryEnq(e: T, blocking: bool) returns (r: EnqOutcome)
      modifies this
      ensures HasSpace(|old(q)|, max) ==> r == Accepted && q == old(q) + [e]
      ensures !HasSpace(|old(q)|, max) ==> r == (if blocking then MustWait else Refused) && q == old(q)
    {
      if max == 0 || |q| < max {
        q := q + [e];
        return Accepted;
      }
      if blocking {
        return MustWait;
      } else {
        return Refused;
      }
    }

    /** `signal` says that the space condition is signalled. */
    method TryDeq() returns (took: bool, e: T, signal: bool)
      modifies this
      ensures took <==> old(q) != []
      ensures took ==> old(q) == [e] + q && (signal <==> max != 0 && |q| < max)
      ensures !took ==> q == old(q) && !signal
    {
      if q == [] {
        e := *;
        return false, e, false;
      }
      e := q[0];
      q := q[1..];
      took, signal := true, max != 0 && |q| < max;
    }
  }

  // ---- All interleavings ----

  /** One item taken from the queue, and by whom. */
  datatype Take<T> = Take(tid: nat, item: T)

  /**
   Threads in the queue are asleep on one of the conditions, or woken and waiting for the
   mutex; a producer holds its item meanwhile. `accepted` and `taken` are history.
   */
  datatype State<T> = State(
    max: nat, q: seq<T>,
    sleepC: set<nat>, wokenC: set<nat>,
    sleepP: map<nat, T>, wokenP: map<nat, T>,
    accepted: seq<T>, taken: seq<Take<T>>)

  function Fresh<T>(max: nat): State<T> {
    State(max, [], {}, {}, map[], map[], [], [])
  }

  predicate Inside<T>(s: State<T>, tid: nat) {
    tid in s.sleepC || tid in s.wokenC || tid in s.sleepP || tid in s.wokenP
  }

  /** A signal wakes one sleeper, `who`, if there is one. */
  predicate MaySignalC<T>(s: State<T>, who: nat) {
    s.sleepC == {} || who in s.sleepC
  }

  function SignalC<T>(s: State<T>, who: nat): State<T> {
    if who in s.sleepC then s.(sleepC := s.sleepC - {who}, wokenC := s.wokenC + {who}) else s
  }

  predicate MaySignalP<T>(s: State<T>, who: nat) {
    s.sleepP == map[] || who in s.sleepP
  }

  function SignalP<T>(s: State<T>, who: nat): State<T> {
    if who in s.sleepP then s.(sleepP := s.sleepP - {who}, wokenP := s.wokenP[who := s.sleepP[who]]) else s
  }

  /** A thread that holds the mutex and is not asleep tries to enqueue e, or to dequeue. */
  function Enq<T>(s: State<T>, tid: nat, e: T, blocking: bool, who: nat): State<T> {
    var s' := s.(wokenP := s.wokenP - {tid});
    if HasSpace(|s.q|, s.max) then SignalC(s'.(q := s.q + [e], accepted := s.accepted + [e]), who)
    else if blocking then s'.(sleepP := s.sleepP[tid := e])
    else s'
  }

  function Deq<T>(s: State<T>, tid: nat, who: nat): State<T> {
    var s' := s.(wokenC := s.wokenC - {tid});
    if s.q == [] then s'.(sleepC := s.sleepC + {tid})
    else
      var s'' := s'.(q := s.q[1..], taken := s.taken + [Take(tid, s.q[0])]);
      if s.max != 0 && |s.q| - 1 < s.max then SignalP(s'', who) else s''
  }

  datatype Step<T> =
    | Enqueue(tid: nat, e: T, blocking: bool, who: nat)
    | EnqueueWakes(tid: nat, who: nat)
    | Dequeue(tid: nat, who: nat)
    | DequeueWakes(tid: nat, who: nat)
    | SpuriousC(tid: nat)
    | SpuriousP(tid: nat)

  predicate Enabled<T>(s: State<T>, step: Step<T>) {
    match step
    case Enqueue(tid, e, blocking, who) => !Inside(s, tid) && MaySignalC(s, who)
    case EnqueueWakes(tid, who) => tid in s.wokenP && MaySignalC(s, who)
    case Dequeue(tid, who) => !Inside(s, tid) && MaySignalP(s, who)
    case DequeueWakes(tid, who) => tid in s.wokenC && MaySignalP(s, who)
    case SpuriousC(tid) => tid in s.sleepC
    case SpuriousP(tid) => tid in s.sleepP
  }

  function Next<T>(s: State<T>, step: Step<T>): State<T>
    requires Enabled(s, step)
  {
    match step
    case Enqueue(tid, e, blocking, who) => Enq(s, tid, e, blocking, who)
    case EnqueueWakes(tid, who) => Enq(s, tid, s.wokenP[tid], true, who)
    case Dequeue(tid, who) => Deq(s, tid, who)
    case DequeueWakes(tid, who) => Deq(s, tid, who)
    case SpuriousC(tid) => SignalC(s, tid)
    case SpuriousP(tid) => SignalP(s, tid)
  }

  ghost predicate Leads<T>(s: State<T>, steps: seq<Step<T>>, t: State<T>)
    decreases |steps|
  {
    if steps == [] then s == t
    else Enabled(s, steps[0]) && Leads(Next(s, steps[0]), steps[1..], t)
  }

  function Items<T>(taken: seq<Take<T>>): (items: seq<T>)
    ensures |items| == |taken|
  {
    seq(|taken|, i requires 0 <= i < |taken| => taken[i].item)
  }

  lemma ItemsSnoc<T>(taken: seq<Take<T>>, t: Take<T>)
    ensures Items(taken + [t]) == Items(taken) + [t.item]
  {
  }

  /** Dequeue order is enqueue order, and nothing is lost or made up. */
  ghost predicate Conserved<T>(s: State<T>) {
    s.accepted == Items(s.taken) + s.q
  }

  predicate Bounded<T>(s: State<T>) {
    && (s.max != 0 ==> |s.q| <= s.max)
    && (s.max == 0 ==> s.sleepP == map[] && s.wokenP == map[])
  }

  /** No wake-up is lost: if a thread sleeps, enough threads are already awake for all there is to do. */
  predicate NoLostWakeup<T>(s: State<T>) {
    && (s.sleepC == {} || |s.q| <= |s.wokenC|)
    && (s.sleepP == map[] || s.max - |s.q| <= |s.wokenP|)
  }

  predicate Disjoint<T>(s: State<T>) {
    s.sleepC !! s.wokenC && s.sleepP.Keys !! s.wokenP.Keys
    && (s.sleepC + s.wokenC) !! (s.sleepP.Keys + s.wokenP.Keys)
  }

  ghost predicate Inv<T>(s: State<T>) {
    Conserved(s) && Bounded(s) && NoLostWakeup(s) && Disjoint(s)
  }

  /** What an attempt to enqueue comes to: accepted exactly if there is space, else a wait or a refusal. */
  lemma EnqExact<T>(s: State<T>, tid: nat, e: T, blocking: bool, who: nat)
    requires !Inside(s, tid) || tid in s.wokenP
    requires Disjoint(s) && MaySignalC(s, who)
    ensures var t := Enq(s, tid, e, blocking, who);
            if s.max == 0 || |s.q| < s.max then
              && t.q == s.q + [e] && t.accepted == s.accepted + [e] && !Inside(t, tid)
              && (s.sleepC != {} ==> who in t.wokenC && t.sleepC == s.sleepC - {who})
            else
              && t.q == s.q && t.accepted == s.accepted
              && (if blocking then tid in t.sleepP && t.sleepP[tid] == e else !Inside(t, tid))
  {
  }

  /** What an attempt to dequeue comes to: the oldest item exactly if there is one, else a wait. */
  lemma DeqExact<T>(s: State<T>, tid: nat, who: nat)
    requires !Inside(s, tid) || tid in s.wokenC
    requires Disjoint(s) && MaySignalP(s, who)
    ensures var t := Deq(s, tid, who);
            if s.q != [] then
              && s.q == [t.taken[|t.taken| - 1].item] + t.q && t.taken == s.taken + [Take(tid, s.q[0])]
              && !Inside(t, tid)
              && (s.sleepP != map[] && s.max != 0 && |t.q| < s.max ==> who in t.wokenP && who !in t.sleepP)
            else t.q == s.q && t.taken == s.taken && tid in t.sleepC
  {
  }

  lemma MapSizes<T>(m: map<nat, T>, tid: nat, e: T)
    ensures tid !in m ==> |m[tid := e]| == |m| + 1 && m - {tid} == m
    ensures tid in m ==> |m - {tid}| == |m| - 1
    ensures tid in m ==> m != map[]
  {
    if tid in m {
      assert (m - {tid})[tid := m[tid]] == m;
    }
  }

  lemma SignalCInv<T>(s: State<T>, who: nat)
    requires Conserved(s) && Bounded(s) && Disjoint(s) && MaySignalC(s, who)
    requires s.sleepC == {} || |s.q| <= |s.wokenC| + 1
    requires s.sleepP == map[] || s.max - |s.q| <= |s.wokenP|
    ensures Inv(SignalC(s, who))
  {
  }

  lemma SignalPInv<T>(s: State<T>, who: nat)
    requires Conserved(s) && Bounded(s) && Disjoint(s) && MaySignalP(s, who)
    requires s.sleepC == {} || |s.q| <= |s.wokenC|
    requires s.sleepP == map[] || s.max - |s.q| <= |s.wokenP| + 1
    ensures Inv(SignalP(s, who))
  {
    if who in s.sleepP {
      MapSizes(s.sleepP, who, s.sleepP[who]);
      MapSizes(s.wokenP, who, s.sleepP[who]);
    }
  }

  lemma EnqInv<T>(s: State<T>, tid: nat, e: T, blocking: bool, who: nat)
    requires Inv(s) && MaySignalC(s, who)
    requires !Inside(s, tid) || (tid in s.wokenP && blocking)
    ensures Inv(Enq(s, tid, e, blocking, who))
  {
    if HasSpace(|s.q|, s.max) {
      PushInv(s, tid, e, who);
    } else {
      FullInv(s, tid, e, blocking);
    }
  }

  lemma PushInv<T>(s: State<T>, tid: nat, e: T, who: nat)
    requires Inv(s) && MaySignalC(s, who) && HasSpace(|s.q|, s.max)
    requires !Inside(s, tid) || tid in s.wokenP
    ensures Inv(SignalC(s.(wokenP := s.wokenP - {tid}, q := s.q + [e], accepted := s.accepted + [e]), who))
  {
    var s' := s.(wokenP := s.wokenP - {tid}, q := s.q + [e], accepted := s.accepted + [e]);
    MapSizes(s.wokenP, tid, e);
    assert Items(s.taken) + s.q + [e] == Items(s.taken) + (s.q + [e]);
    SignalCInv(s', who);
  }

  lemma FullInv<T>(s: State<T>, tid: nat, e: T, blocking: bool)
    requires Inv(s) && !HasSpace(|s.q|, s.max)
    requires !Inside(s, tid) || tid in s.wokenP
    ensures Inv(s.(wokenP := s.wokenP - {tid}))
    ensures Inv(s.(wokenP := s.wokenP - {tid}, sleepP := s.sleepP[tid := e]))
  {
  }

  lemma DeqInv<T>(s: State<T>, tid: nat, who: nat)
    requires Inv(s) && MaySignalP(s, who)
    requires !Inside(s, tid) || tid in s.wokenC
    ensures Inv(Deq(s, tid, who))
  {
    if s.q != [] {
      PopInv(s, tid, who);
    } else {
      EmptyInv(s, tid);
    }
  }

  lemma EmptyInv<T>(s: State<T>, tid: nat)
    requires Inv(s) && s.q == []
    requires !Inside(s, tid) || tid in s.wokenC
    ensures Inv(s.(wokenC := s.wokenC - {tid}, sleepC := s.sleepC + {tid}))
  {
  }

  lemma PopInv<T>(s: State<T>, tid: nat, who: nat)
    requires Inv(s) && MaySignalP(s, who) && s.q != []
    requires !Inside(s, tid) || tid in s.wokenC
    ensures Inv(Deq(s, tid, who))
  {
    var s' := s.(wokenC := s.wokenC - {tid}, q := s.q[1..], taken := s.taken + [Take(tid, s.q[0])]);
    assert Items(s'.taken) == Items(s.taken) + [s.q[0]];
    assert Conserved(s');
    assert |s'.wokenC| == |s.wokenC| - if tid in s.wokenC then 1 else 0;
    if s.max != 0 {
      SignalPInv(s', who);
    }
  }

  /** What an attempt to enqueue may change, apart from the invariant. */
  ghost predicate EnqFrame<T>(s: State<T>, s': State<T>, tid: nat, e: T) {
    && s'.max == s.max && s'.taken == s.taken
    && s'.sleepC + s'.wokenC == s.sleepC + s.wokenC
    && s'.accepted == (if HasSpace(|s.q|, s.max) then s.accepted + [e] else s.accepted)
    && (forall t :: t in s'.sleepP ==> (t in s.sleepP && s'.sleepP[t] == s.sleepP[t])
                                       || (t == tid && s'.sleepP[t] == e && !HasSpace(|s.q|, s.max)))
    && (forall t :: t in s'.wokenP ==> t != tid && t in s.wokenP && s'.wokenP[t] == s.wokenP[t])
  }

  lemma EnqEffect<T>(s: State<T>, tid: nat, e: T, blocking: bool, who: nat)
    ensures EnqFrame(s, Enq(s, tid, e, blocking, who), tid, e)
  {
  }

  ghost predicate Holds<T>(s: State<T>, t: nat, e: T) {
    (t in s.sleepP && s.sleepP[t] == e) || (t in s.wokenP && s.wokenP[t] == e)
  }

  /** What an attempt to dequeue may change, apart from the invariant. */
  ghost predicate DeqFrame<T>(s: State<T>, s': State<T>, tid: nat) {
    && s'.max == s.max && s'.accepted == s.accepted
    && s'.sleepP.Keys + s'.wokenP.Keys == s.sleepP.Keys + s.wokenP.Keys
    && (forall t :: t in s'.sleepP ==> Holds(s, t, s'.sleepP[t]))
    && (forall t :: t in s'.wokenP ==> Holds(s, t, s'.wokenP[t]))
    && (if s.q == [] then s'.sleepC + s'.wokenC == s.sleepC + s.wokenC + {tid} && s'.taken == s.taken
        else s'.sleepC + s'.wokenC <= s.sleepC + s.wokenC && tid !in s'.wokenC && s'.sleepC == s.sleepC
             && s'.taken == s.taken + [Take(tid, s.q[0])])
  }

  lemma DeqEffect<T>(s: State<T>, tid: nat, who: nat)
    ensures DeqFrame(s, Deq(s, tid, who), tid)
  {
  }

  lemma NextInv<T>(s: State<T>, step: Step<T>)
    requires Inv(s) && Enabled(s, step)
    ensures Inv(Next(s, step))
  {
    match step
    case Enqueue(tid, e, blocking, who) => EnqInv(s, tid, e, blocking, who);
    case EnqueueWakes(tid, who) => EnqInv(s, tid, s.wokenP[tid], true, who);
    case Dequeue(tid, who) => DeqInv(s, tid, who);
    case DequeueWakes(tid, who) => DeqInv(s, tid, who);
    case SpuriousC(tid) => SignalCInv(s, tid);
    case SpuriousP(tid) => SignalPInv(s, tid);
  }

  lemma {:induction false} LeadsInv<T>(s: State<T>, steps: seq<Step<T>>, t: State<T>)
    requires Inv(s) && Leads(s, steps, t)
    ensures Inv(t)
    decreases |steps|
  {
    if steps != [] {
      NextInv(s, steps[0]);
      LeadsInv(Next(s, steps[0]), steps[1..], t);
    }
  }

  lemma {:induction false} MaxKept<T>(s: State<T>, steps: seq<Step<T>>, t: State<T>)
    requires Leads(s, steps, t)
    ensures t.max == s.max
    decreases |steps|
  {
    if steps != [] {
      MaxKept(Next(s, steps[0]), steps[1..], t);
    }
  }

  /** In every run: first in, first out, never beyond the limit, and no wake-up lost. */
  lemma EveryRun<T>(max: nat, steps: seq<Step<T>>, s: State<T>)
    requires Leads(Fresh(max), steps, s)
    ensures s.accepted == Items(s.taken) + s.q
    ensures s.max == max && (max != 0 ==> |s.q| <= max)
    ensures s.sleepC == {} || |s.q| <= |s.wokenC|
    ensures s.sleepP == map[] || max - |s.q| <= |s.wokenP|
  {
    assert Inv(Fresh<T>(max));
    LeadsInv(Fresh(max), steps, s);
    MaxKept(Fresh(max), steps, s);
  }
}
