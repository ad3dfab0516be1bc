/**
 The client's record of the replies it has seen or given up on. The abstract record is
 the set of reported xids; the window is the list the client really keeps, whose front
 goes to the server in every request as `xid_rep`.
 */
module XidWindow {
  import opened Wire

  /** Every xid from 1 to f has been reported, and f + 1 has not. */
  ghost predicate IsFront(reported: set<nat>, f: nat) {
    && (forall x :: 1 <= x <= f ==> x in reported)
    && f + 1 !in reported
  }

  /** The largest f such that 1..f have all been reported. */
  ghost function Front(reported: set<nat>): (f: nat)
    ensures IsFront(reported, f)
  {
    CountUp(reported, set x | x in reported && x > 0, 0)
  }

  ghost function CountUp(reported: set<nat>, left: set<nat>, k: nat): (f: nat)
    requires left == set x | x in reported && x > k
    requires forall x :: 1 <= x <= k ==> x in reported
    ensures IsFront(reported, f)
    decreases left
  {
    if k + 1 in reported then
      assert k + 1 in left;
      CountUp(reported, left - {k + 1}, k + 1)
    else k
  }

  lemma FrontUnique(reported: set<nat>, f: nat)
    requires IsFront(reported, f)
    ensures Front(reported) == f
  {
    var g := Front(reported);
    assert g < f ==> g + 1 in reported;
    assert f < g ==> f + 1 in reported;
  }

  lemma FrontMonotone(small: set<nat>, big: set<nat>)
    requires small <= big
    ensures Front(small) <= Front(big)
  {
    var f, g := Front(small), Front(big);
    assert g + 1 !in small;
  }

  /** An xid that has not been reported lies above the front. */
  lemma OpenAboveFront(reported: set<nat>, x: nat)
    requires x >= 1 && x !in reported
    ensures Front(reported) < x
  {
  }

  ghost predicate Sorted(w: seq<u32>) {
    forall i, j :: 0 <= i < j < |w| ==> w[i] <= w[j]
  }

  /**
   What the window promises about the reported xids: it is sorted and never empty, its
   front is the largest F such that 1..F were all reported, and its values above F are
   exactly the reported ones above F. Equal values may occur more than once.
   */
  ghost predicate Represents(w: seq<u32>, reported: set<nat>) {
    && |w| > 0
    && Sorted(w)
    && (forall x :: x in reported ==> x < U32)
    && w[0] == Front(reported)
    && (forall x: u32 :: x > w[0] ==> (x in w <==> x in reported))
  }

  lemma RepresentsFresh()
    ensures Represents([0], {})
  {
    FrontUnique({}, 0);
  }

  /** The loop state of the compress pass: like Represents, but 1 + front may still be in the list. */
  ghost predicate Covers(w: seq<u32>, reported: set<nat>) {
    && |w| > 0
    && Sorted(w)
    && (forall x :: x in reported ==> x < U32)
    && (forall x :: 1 <= x <= w[0] ==> x in reported)
    && (forall x: u32 :: x > w[0] ==> (x in w <==> x in reported))
  }

  lemma InsertCovers(before: seq<u32>, reported: set<nat>, at: nat, x: u32)
    requires Represents(before, reported) && x > before[0]
    requires 0 < at <= |before|
    requires forall k :: 0 <= k < at ==> before[k] <= x
    requires forall k :: at <= k < |before| ==> before[k] > x
    ensures Covers(before[..at] + [x] + before[at..], reported + {x})
  {
    var after := before[..at] + [x] + before[at..];
    forall y: u32 ensures y in after <==> y in before || y == x {
      assert before == before[..at] + before[at..];
      assert after[at] == x;
    }
  }

  /** Popping the front is right as long as the next value is the front again or its successor. */
  lemma PopCovers(w: seq<u32>, reported: set<nat>)
    requires Covers(w, reported) && |w| > 1
    requires w[1] as int <= w[0] as int + 1
    ensures Covers(w[1..], reported)
  {
    var v := w[1..];
    assert w[1] in w;
    forall y: u32 | y > v[0] ensures y in v <==> y in reported {
      assert w == [w[0]] + v;
    }
    forall x | 1 <= x <= v[0] ensures x in reported {
    }
  }

  /** Once no element is the successor of the front, the list represents the reported xids. */
  lemma CompressedRepresents(w: seq<u32>, reported: set<nat>)
    requires Covers(w, reported)
    requires forall k :: 0 <= k < |w| ==> w[k] as int != w[0] as int + 1
    ensures Represents(w, reported)
  {
    if w[0] + 1 < U32 {
      var next: u32 := w[0] as int + 1;
      assert next !in w;
    }
    FrontUnique(reported, w[0]);
  }
}
