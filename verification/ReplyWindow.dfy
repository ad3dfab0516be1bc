/**
 The server's memory of one client: the list of requests it has accepted and not yet been
 told to forget, each with the saved reply once the handler has finished.
 */
module ReplyWindow {
  import opened RpcMessages

  /** `saved` is `None` until the reply is added (`cb_present` in the source). */
  datatype Entry = Entry(xid: nat, saved: Option<Result>)

  datatype Verdict = New | InProgress | Done(result: Result) | Forgotten

  /**
   One walk over the list: purge every entry up to rep, but stop at a match. Only a walk
   that finds no match reaches the end, where the new entry goes.
   */
  function Scan(l: seq<Entry>, xid: nat, rep: nat): (Verdict, seq<Entry>) {
    if l == [] then (New, [Entry(xid, None)])
    else if l[0].xid == xid then
      if xid <= rep then (Forgotten, l[1..])
      else if l[0].saved.Some? then (Done(l[0].saved.value), l)
      else (InProgress, l)
    else
      var (v, rest) := Scan(l[1..], xid, rep);
      if l[0].xid <= rep then (v, rest) else (v, [l[0]] + rest)
  }

  /** Save a reply in the first entry for xid; without such an entry nothing happens. */
  function Save(l: seq<Entry>, xid: nat, result: Result): seq<Entry> {
    if l == [] then []
    else if l[0].xid == xid then [Entry(xid, Some(result))] + l[1..]
    else [l[0]] + Save(l[1..], xid, result)
  }

  predicate Has(l: seq<Entry>, xid: nat) {
    exists k :: 0 <= k < |l| && l[k].xid == xid
  }

  predicate Distinct(l: seq<Entry>) {
    forall j, k :: 0 <= j < k < |l| ==> l[j].xid != l[k].xid
  }

  /** The entries a complete purge keeps. */
  function Above(l: seq<Entry>, rep: nat): seq<Entry> {
    if l == [] then []
    else (if l[0].xid > rep then [l[0]] else []) + Above(l[1..], rep)
  }

  /** The purge walk gets as far as the entry for x: no match stops it earlier. */
  predicate Reaches(l: seq<Entry>, xid: nat, x: nat) {
    exists k :: 0 <= k < |l| && l[k].xid == x && forall j :: 0 <= j < k ==> l[j].xid != xid
  }

  lemma HasCons(e: Entry, l: seq<Entry>, x: nat)
    ensures Has([e] + l, x) <==> e.xid == x || Has(l, x)
  {
    var c := [e] + l;
    if Has(l, x) {
      var k :| 0 <= k < |l| && l[k].xid == x;
      assert c[k + 1].xid == x;
    }
    if e.xid == x {
      assert c[0].xid == x;
    }
  }

  lemma AboveMember(l: seq<Entry>, rep: nat, e: Entry)
    ensures e in Above(l, rep) <==> e in l && e.xid > rep
  {
  }

  /** A request is NEW exactly when its xid is not in the list, and only then is the purge complete. */
  lemma {:induction false} NewMeansAbsent(l: seq<Entry>, xid: nat, rep: nat)
    ensures Scan(l, xid, rep).0.New? <==> !Has(l, xid)
    ensures Scan(l, xid, rep).0.New? ==> Scan(l, xid, rep).1 == Above(l, rep) + [Entry(xid, None)]
  {
    if l != [] {
      assert l == [l[0]] + l[1..];
      HasCons(l[0], l[1..], xid);
      NewMeansAbsent(l[1..], xid, rep);
    }
  }

  /** What a match answers, and what it leaves: the prefix is purged, the rest is untouched. */
  lemma {:induction false} MatchAnswers(l: seq<Entry>, k: nat, xid: nat, rep: nat)
    requires k < |l| && l[k].xid == xid && forall j :: 0 <= j < k ==> l[j].xid != xid
    ensures Scan(l, xid, rep).0 == if xid <= rep then Forgotten
                                   else if l[k].saved.Some? then Done(l[k].saved.value)
                                   else InProgress
    ensures Scan(l, xid, rep).1 == Above(l[..k], rep) + (if xid <= rep then l[k + 1..] else l[k..])
  {
    if k > 0 {
      MatchAnswers(l[1..], k - 1, xid, rep);
      TailSlices(l, k);
    }
  }

  lemma TailSlices(l: seq<Entry>, k: nat)
    requires 0 < k < |l|
    ensures l[1..][..k - 1] == l[..k][1..] && l[1..][k..] == l[k + 1..] && l[1..][k - 1..] == l[k..]
    ensures l[..k] == [l[0]] + l[..k][1..]
  {
  }

  /** Exactly what a scan removes: the entries up to rep that the walk reaches. */
  lemma {:induction false} ScanKeeps(l: seq<Entry>, xid: nat, rep: nat, x: nat)
    requires Distinct(l)
    ensures Has(Scan(l, xid, rep).1, x) <==>
              (if xid == x && !Has(l, x) then true else Has(l, x) && !(x <= rep && Reaches(l, xid, x)))
  {
    if l == [] {
      assert Scan(l, xid, rep).1[0] == Entry(xid, None);
    } else {
      var head, tail := l[0], l[1..];
      assert l == [head] + tail;
      HasCons(head, tail, x);
      HasCons(head, Scan(tail, xid, rep).1, x);
      if head.xid == xid {
        ReachesHead(l, xid, x);
      } else {
        ScanKeeps(tail, xid, rep, x);
        ReachesTail(l, xid, x);
      }
    }
  }

  lemma ReachesHead(l: seq<Entry>, xid: nat, x: nat)
    requires l != [] && l[0].xid == xid
    ensures Reaches(l, xid, x) <==> x == xid
  {
  }

  lemma ReachesTail(l: seq<Entry>, xid: nat, x: nat)
    requires l != [] && l[0].xid != xid
    ensures Reaches(l, xid, x) <==> l[0].xid == x || Reaches(l[1..], xid, x)
  {
    var t := l[1..];
    if Reaches(t, xid, x) {
      var k :| 0 <= k < |t| && t[k].xid == x && forall j :: 0 <= j < k ==> t[j].xid != xid;
      assert l[k + 1].xid == x && forall j :: 0 <= j < k + 1 ==> l[j].xid != xid;
    }
    if Reaches(l, xid, x) && l[0].xid != x {
      var k :| 0 <= k < |l| && l[k].xid == x && forall j :: 0 <= j < k ==> l[j].xid != xid;
      assert t[k - 1].xid == x && forall j :: 0 <= j < k - 1 ==> t[j] == l[j + 1];
    }
  }

  /** Every entry of the result was there before, or is the fresh one. */
  lemma {:induction false} ScanMembers(l: seq<Entry>, xid: nat, rep: nat, e: Entry)
    ensures e in Scan(l, xid, rep).1 ==> e in l || (e == Entry(xid, None) && !Has(l, xid))
    ensures e in l && e.xid > rep ==> e in Scan(l, xid, rep).1
  {
    if l != [] {
      ScanMembers(l[1..], xid, rep, e);
      assert l == [l[0]] + l[1..];
      HasCons(l[0], l[1..], xid);
    }
  }

  lemma {:induction false} ScanDistinct(l: seq<Entry>, xid: nat, rep: nat)
    requires Distinct(l)
    ensures Distinct(Scan(l, xid, rep).1)
  {
    if l != [] && l[0].xid != xid {
      var rest := Scan(l[1..], xid, rep).1;
      ScanDistinct(l[1..], xid, rep);
      forall k | 0 <= k < |rest| ensures rest[k].xid != l[0].xid {
        ScanMembers(l[1..], xid, rep, rest[k]);
      }
    }
  }

  /** Saving changes the stored reply of one entry and nothing else. */
  lemma {:induction false} SaveEffect(l: seq<Entry>, xid: nat, result: Result)
    ensures |Save(l, xid, result)| == |l|
    ensures forall k :: 0 <= k < |l| ==> Save(l, xid, result)[k].xid == l[k].xid
    ensures forall k :: 0 <= k < |l| && l[k].xid != xid ==> Save(l, xid, result)[k] == l[k]
    ensures Distinct(l) ==>
              forall k :: 0 <= k < |l| && l[k].xid == xid ==> Save(l, xid, result)[k] == Entry(xid, Some(result))
  {
    if l != [] {
      SaveEffect(l[1..], xid, result);
      assert forall k :: 1 <= k < |l| ==> l[1..][k - 1] == l[k];
    }
  }

  // ---- Whole histories of one client's list ----

  datatype Op = Check(xid: nat, rep: nat) | Add(xid: nat, result: Result)

  function Apply(l: seq<Entry>, op: Op): seq<Entry> {
    match op
    case Check(xid, rep) => Scan(l, xid, rep).1
    case Add(xid, result) => Save(l, xid, result)
  }

  function Run(ops: seq<Op>): seq<Entry> {
    if ops == [] then [] else Apply(Run(ops[..|ops| - 1]), ops[|ops| - 1])
  }

  predicate NewAt(ops: seq<Op>, i: nat, x: nat)
    requires i < |ops|
  {
    ops[i].Check? && ops[i].xid == x && Scan(Run(ops[..i]), x, ops[i].rep).0.New?
  }

  /** The operation at k purges the entry for x. */
  predicate DropsAt(ops: seq<Op>, k: nat, x: nat)
    requires k < |ops|
  {
    && ops[k].Check?
    && Has(Run(ops[..k]), x)
    && x <= ops[k].rep
    && Reaches(Run(ops[..k]), ops[k].xid, x)
  }

  lemma RunStep(ops: seq<Op>, i: nat)
    requires i < |ops|
    ensures Run(ops[..i + 1]) == Apply(Run(ops[..i]), ops[i])
  {
    assert ops[..i + 1][..i] == ops[..i];
  }

  /** The list never holds an xid twice. */
  lemma {:induction false} RunDistinct(ops: seq<Op>)
    ensures Distinct(Run(ops))
  {
    if ops != [] {
      var before, op := ops[..|ops| - 1], ops[|ops| - 1];
      RunDistinct(before);
      match op
      case Check(xid, rep) => ScanDistinct(Run(before), xid, rep);
      case Add(xid, result) => SaveEffect(Run(before), xid, result);
    }
  }

  /** Exactly how presence of x changes in one operation. */
  lemma PresenceStep(ops: seq<Op>, i: nat, x: nat)
    requires i < |ops|
    ensures Has(Run(ops[..i + 1]), x) <==>
              NewAt(ops, i, x) || (Has(Run(ops[..i]), x) && !DropsAt(ops, i, x))
  {
    RunStep(ops, i);
    RunDistinct(ops[..i]);
    var l := Run(ops[..i]);
    match ops[i] {
      case Check(xid, rep) =>
        NewMeansAbsent(l, xid, rep);
        ScanKeeps(l, xid, rep, x);
      case Add(xid, result) =>
        SaveEffect(l, xid, result);
        var l' := Save(l, xid, result);
        if Has(l, x) {
          var k :| 0 <= k < |l| && l[k].xid == x;
          assert l'[k].xid == x;
        }
    }
  }

  /** While nothing drops it, an entry stays. */
  lemma {:induction false} PresenceKept(ops: seq<Op>, i: nat, j: nat, x: nat)
    requires i <= j <= |ops| && Has(Run(ops[..i]), x)
    requires forall k :: i <= k < j ==> !DropsAt(ops, k, x)
    ensures Has(Run(ops[..j]), x)
    decreases j - i
  {
    if i < j {
      PresenceStep(ops, i, x);
      PresenceKept(ops, i + 1, j, x);
    }
  }

  /** Once dropped, an entry stays away until the next NEW verdict. */
  lemma {:induction false} AbsenceKept(ops: seq<Op>, i: nat, j: nat, x: nat)
    requires i <= j <= |ops| && !Has(Run(ops[..i]), x)
    requires forall k :: i <= k < j ==> !NewAt(ops, k, x)
    ensures !Has(Run(ops[..j]), x)
    decreases j - i
  {
    if i < j {
      PresenceStep(ops, i, x);
      AbsenceKept(ops, i + 1, j, x);
    }
  }

  /** Two NEW verdicts for one xid need an acknowledgement of it strictly between them. */
  lemma TwoNewsNeedAcknowledgement(ops: seq<Op>, i: nat, j: nat, x: nat)
    requires i < j < |ops| && NewAt(ops, i, x) && NewAt(ops, j, x)
    ensures exists k :: i < k < j && ops[k].Check? && ops[k].rep >= x
  {
    PresenceStep(ops, i, x);
    NewMeansAbsent(Run(ops[..j]), x, ops[j].rep);
    if forall k :: i + 1 <= k < j ==> !DropsAt(ops, k, x) {
      PresenceKept(ops, i + 1, j, x);
    }
  }

  /**
   The exact condition under which a copy of an accepted request is taken for a new one:
   after the latest NEW verdict for x, some purge walk carrying rep >= x got as far as x's entry.
   */
  lemma NewAgainIffPurged(ops: seq<Op>, i: nat, j: nat, x: nat)
    requires i < j < |ops| && NewAt(ops, i, x) && ops[j].Check? && ops[j].xid == x
    requires forall k :: i < k < j ==> !NewAt(ops, k, x)
    ensures NewAt(ops, j, x) <==> exists k :: i < k < j && DropsAt(ops, k, x)
  {
    PresenceStep(ops, i, x);
    NewMeansAbsent(Run(ops[..j]), x, ops[j].rep);
    if k :| i < k < j && DropsAt(ops, k, x) {
      PresenceStep(ops, k, x);
      AbsenceKept(ops, k + 1, j, x);
    } else {
      PresenceKept(ops, i + 1, j, x);
    }
  }

  /** A saved reply above every later acknowledgement stays, unchanged unless it is saved again. */
  lemma {:induction false} ReplyRetained(ops: seq<Op>, i: nat, j: nat, e: Entry)
    requires i <= j <= |ops| && e in Run(ops[..i])
    requires forall k :: i <= k < j && ops[k].Check? ==> ops[k].rep < e.xid
    requires forall k :: i <= k < j && ops[k].Add? ==> ops[k].xid != e.xid
    ensures e in Run(ops[..j])
    decreases j - i
  {
    if i < j {
      RunStep(ops, i);
      var l := Run(ops[..i]);
      match ops[i] {
        case Check(xid, rep) => ScanMembers(l, xid, rep, e);
        case Add(xid, result) =>
          SaveEffect(l, xid, result);
          var k :| 0 <= k < |l| && l[k] == e;
          assert Save(l, xid, result)[k] == e;
      }
      ReplyRetained(ops, i + 1, j, e);
    }
  }

  lemma {:induction false} XidsBounded(ops: seq<Op>, max: nat, e: Entry)
    requires forall k :: 0 <= k < |ops| && ops[k].Check? ==> ops[k].xid <= max
    requires e in Run(ops)
    ensures e.xid <= max
  {
    if ops != [] {
      var before, op := ops[..|ops| - 1], ops[|ops| - 1];
      match op {
        case Check(xid, rep) =>
          ScanMembers(Run(before), xid, rep, e);
          if e in Run(before) {
            XidsBounded(before, max, e);
          }
        case Add(xid, result) =>
          SaveEffect(Run(before), xid, result);
          var k :| 0 <= k < |Run(ops)| && Run(ops)[k] == e;
          XidsBounded(before, max, Run(before)[k]);
      }
    }
  }

  /** Distinct xids in (low, high] are at most high - low many. */
  lemma {:induction false} Pigeonhole(l: seq<Entry>, low: nat, high: nat)
    requires Distinct(l) && low <= high
    requires forall e :: e in l ==> low < e.xid <= high
    ensures |l| <= high - low
    decreases high - low
  {
    if k :| 0 <= k < |l| && l[k].xid == high {
      var rest := l[..k] + l[k + 1..];
      forall e | e in rest ensures low < e.xid <= high - 1 {
        assert e in l;
      }
      Pigeonhole(rest, low, high - 1);
    } else if l != [] {
      assert low < l[0].xid <= high;
      Pigeonhole(l, low, high - 1);
    }
  }

  /** After NEW with acknowledgement r, what is kept lies in (r, max], so it is at most max - r entries. */
  lemma WindowBound(ops: seq<Op>, j: nat, max: nat)
    requires j < |ops| && ops[j].Check? && NewAt(ops, j, ops[j].xid) && ops[j].rep < ops[j].xid
    requires forall k :: 0 <= k <= j && ops[k].Check? ==> ops[k].xid <= max
    ensures forall e :: e in Run(ops[..j + 1]) ==> ops[j].rep < e.xid <= max
    ensures |Run(ops[..j + 1])| <= max - ops[j].rep
  {
    var l, op := Run(ops[..j]), ops[j];
    RunStep(ops, j);
    NewMeansAbsent(l, op.xid, op.rep);
    forall e | e in Run(ops[..j + 1]) ensures op.rep < e.xid <= max {
      AboveMember(l, op.rep, e);
      if e in l {
        XidsBounded(ops[..j], max, e);
      }
    }
    RunDistinct(ops[..j + 1]);
    Pigeonhole(Run(ops[..j + 1]), op.rep, max);
  }
}
