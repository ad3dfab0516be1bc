/** Directory listings as bytes: what `serialize` writes and exactly which buffers `deserialize` accepts. */
module Directory {
  import opened Wire
  import opened RpcMessages

  type Entry = (u64, Bytes)
  type FileList = seq<Entry>

  function FromLe32(b: Bytes): u32
    requires |b| == 4
  {
    LittleEndianOfBytes(b);
    PowersOf256();
    FromLittleEndian(b)
  }

  function FromLe64(b: Bytes): u64
    requires |b| == 8
  {
    LittleEndianOfBytes(b);
    PowersOf256();
    FromLittleEndian(b)
  }

  // ---- Writing ----

  predicate NamesFit(fl: FileList) {
    forall i :: 0 <= i < |fl| ==> |fl[i].1| < U32
  }

  function EntryBytes(e: Entry): Bytes
    requires |e.1| < U32
  {
    LittleEndian(e.0, 8) + LittleEndian(|e.1|, 4) + e.1
  }

  function Entries(fl: FileList): Bytes
    requires NamesFit(fl)
  {
    if fl == [] then [] else EntryBytes(fl[0]) + Entries(fl[1..])
  }

  function Listing(fl: FileList): Bytes
    requires |fl| < U32 && NamesFit(fl)
  {
    LittleEndian(|fl|, 4) + Entries(fl)
  }

  lemma {:induction false} EntriesSnoc(fl: FileList, e: Entry)
    requires NamesFit(fl) && |e.1| < U32
    ensures Entries(fl + [e]) == Entries(fl) + EntryBytes(e)
  {
    if fl == [] {
      assert [e][1..] == [];
      assert Entries([e]) == EntryBytes(e) + Entries([]);
    } else {
      assert (fl + [e])[1..] == fl[1..] + [e];
      EntriesSnoc(fl[1..], e);
      Join(EntryBytes(fl[0]), Entries(fl[1..]), EntryBytes(e));
    }
  }

  method Serialize(fl: FileList) returns (buf: Bytes)
    requires |fl| < U32 && NamesFit(fl)
    ensures buf == Listing(fl)
  {
    buf := LittleEndian(|fl|, 4);
    var i := 0;
    while i < |fl|
      invariant 0 <= i <= |fl|
      invariant buf == LittleEndian(|fl|, 4) + Entries(fl[..i])
    {
      var size := |fl[i].1|;
      ghost var was := buf;
      buf := buf + LittleEndian(fl[i].0, 8);
      buf := buf + LittleEndian(size, 4);
      buf := buf + fl[i].1;
      EntriesSnoc(fl[..i], fl[i]);
      assert fl[..i + 1] == fl[..i] + [fl[i]];
      assert buf == was + EntryBytes(fl[i]);
      i := i + 1;
    }
    assert fl[..i] == fl;
  }

  // ---- Reading ----

  /** One entry off the front, the last of the list or not; what is left must not be empty unless it is. */
  function ReadEntry(rest: Bytes, last: bool): Option<(Entry, Bytes)> {
    if |rest| <= 12 then None
    else
      var n := FromLe32(rest[8..12]);
      if 12 + n >= |rest| + (if last then 1 else 0) then None
      else Some(((FromLe64(rest[..8]), rest[12..12 + n]), rest[12 + n..]))
  }

  function ReadEntries(rest: Bytes, n: nat): Option<FileList>
    decreases n
  {
    if n == 0 then Some([])
    else
      match ReadEntry(rest, n == 1)
      case None => None
      case Some((e, left)) =>
        match ReadEntries(left, n - 1)
        case None => None
        case Some(es) => Some([e] + es)
  }

  /** The list a buffer holds, if it is accepted. */
  function Read(buf: Bytes): Option<FileList>
    requires |buf| >= 4
  {
    ReadEntries(buf[4..], FromLe32(buf[..4]))
  }

  /** Every entry takes at least 12 bytes, so the length check at the start refuses nothing more. */
  lemma {:induction false} ReadNeedsBytes(rest: Bytes, n: nat)
    requires ReadEntries(rest, n).Some?
    ensures |rest| >= 12 * n
    decreases n
  {
    if n > 0 {
      ReadNeedsBytes(ReadEntry(rest, n == 1).value.1, n - 1);
    }
  }

  /**
    Appends what it reads to `into`. A read past the end yields 0, and is always followed by a refusal.
    On a refusal the entries read so far have been appended.
  */
  method Deserialize(buf: Bytes, into: FileList) returns (ok: bool, fl: FileList)
    requires 4 <= |buf| < U32 - 1
    ensures ok == Read(buf).Some?
    ensures ok ==> fl == into + Read(buf).value
    ensures into <= fl
  {
    var n := FromLe32(buf[..4]);
    if n * 12 + 4 > |buf| {
      if Read(buf).Some? {
        ReadNeedsBytes(buf[4..], n);
      }
      return false, into;
    }
    ok, fl := ReadAll(buf, n, into);
  }

  /** The loop of `deserialize`, from behind the count. */
  method ReadAll(buf: Bytes, n: nat, into: FileList) returns (ok: bool, fl: FileList)
    requires |buf| >= 4
    ensures ok == ReadEntries(buf[4..], n).Some?
    ensures ok ==> fl == into + ReadEntries(buf[4..], n).value
    ensures into <= fl
  {
    fl := into;
    var p, i := 4, 0;
    ghost var all, es := ReadEntries(buf[4..], n), [];
    while i < n
      invariant 0 <= i <= n && 4 <= p <= |buf|
      invariant fl == into + es
      invariant all == Prepend(es, ReadEntries(buf[p..], n - i))
    {
      var fits, e, q := NextEntry(buf, p, i == n - 1, n - i, es);
      if !fits {
        return false, fl;
      }
      fl := fl + [e];
      es := es + [e];
      p, i := q, i + 1;
    }
    return true, fl;
  }

  /** One turn of the loop, at position p with k entries to go. */
  method NextEntry(buf: Bytes, at: nat, last: bool, ghost k: nat, ghost es: FileList)
    returns (fits: bool, e: Entry, q: nat)
    requires at <= |buf| && k > 0 && last == (k == 1)
    ensures !fits ==> ReadEntries(buf[at..], k) == None
    ensures fits ==> at <= q <= |buf|
    ensures fits ==> Prepend(es, ReadEntries(buf[at..], k)) == Prepend(es + [e], ReadEntries(buf[q..], k - 1))
  {
    e, q := (0, []), at;
    var id := ReadLe64(buf, q);
    q := q + 8;
    if q >= |buf| {
      return false, e, q;
    }
    var size := ReadLe32(buf, q);
    q := q + 4;
    if q >= |buf| {
      return false, e, q;
    }
    var start := q;
    q := q + size;
    ReadEntryIn(buf, at, q, last);
    if q >= |buf| + (if last then 1 else 0) {
      return false, e, q;
    }
    e := (id, buf[start..q]);
    PrependMore(es, e, ReadEntries(buf[q..], k - 1));
    return true, e, q;
  }

  function Prepend(es: FileList, r: Option<FileList>): (r': Option<FileList>)
    ensures es == [] ==> r' == r
  {
    match r
    case None => None
    case Some(fs) =>
      assert [] + fs == fs;
      Some(es + fs)
  }

  lemma PrependMore(es: FileList, e: Entry, r: Option<FileList>)
    ensures Prepend(es, Prepend([e], r)) == Prepend(es + [e], r)
  {
    if r.Some? {
      assert es + ([e] + r.value) == es + [e] + r.value;
    }
  }

  lemma ReadEntryIn(buf: Bytes, p: nat, q: nat, last: bool)
    requires p + 12 < |buf| && q == p + 12 + ReadLe32(buf, p + 8)
    ensures ReadEntry(buf[p..], last)
         == if q >= |buf| + (if last then 1 else 0) then None
            else Some(((ReadLe64(buf, p), buf[p + 12..q]), buf[q..]))
  {
    assert buf[p..][8..12] == buf[p + 8..p + 12];
    if q <= |buf| {
      assert buf[p..][..8] == buf[p..p + 8];
      assert buf[p..][12..q - p] == buf[p + 12..q];
      assert buf[p..][q - p..] == buf[q..];
    }
  }

  function ReadLe32(buf: Bytes, p: nat): u32 {
    if p + 4 <= |buf| then FromLe32(buf[p..p + 4]) else 0
  }

  function ReadLe64(buf: Bytes, p: nat): u64 {
    if p + 8 <= |buf| then FromLe64(buf[p..p + 8]) else 0
  }

  // ---- Which buffers are accepted ----

  /** The bytes t behind the list, or the last name, leave something for the last size check to see. */
  predicate Ends(fl: FileList, t: Bytes) {
    fl == [] || fl[|fl| - 1].1 != [] || t != []
  }

  lemma ReadEntryBack(e: Entry, t: Bytes, last: bool)
    requires |e.1| < U32
    ensures ReadEntry(EntryBytes(e) + t, last)
         == if t != [] || (last && e.1 != []) then Some((e, t)) else None
  {
    var rest, n := EntryBytes(e) + t, |e.1|;
    assert rest[..8] == LittleEndian(e.0, 8);
    assert rest[8..12] == LittleEndian(n, 4);
    assert rest[12..12 + n] == e.1;
    assert rest[12 + n..] == t;
    PowersOf256();
    LittleEndianRoundTrip(n, 4);
    LittleEndianRoundTrip(e.0, 8);
  }

  lemma FourParts(b: Bytes, q: nat)
    requires 12 <= q <= |b|
    ensures b == b[..8] + b[8..12] + b[12..q] + b[q..]
  {
  }

  lemma ReadEntryOnly(rest: Bytes, last: bool)
    requires ReadEntry(rest, last).Some?
    ensures var (e, t) := ReadEntry(rest, last).value;
            |e.1| < U32 && rest == EntryBytes(e) + t && (t != [] || (last && e.1 != []))
  {
    var n := FromLe32(rest[8..12]);
    LittleEndianOfBytes(rest[..8]);
    LittleEndianOfBytes(rest[8..12]);
    FourParts(rest, n as int + 12);
  }

  lemma {:induction false} ReadEntriesBack(fl: FileList, t: Bytes)
    requires NamesFit(fl)
    ensures ReadEntries(Entries(fl) + t, |fl|) == if Ends(fl, t) then Some(fl) else None
    decreases |fl|
  {
    if fl != [] {
      var e, es := fl[0], fl[1..];
      ReadEntriesBack(es, t);
      assert fl == [e] + es;
      ReadConsBack(e, es, Entries(es), t, |es|);
    } else {
      assert Entries(fl) + t == t;
    }
  }

  lemma ReadConsBack(e: Entry, es: FileList, b: Bytes, t: Bytes, n: nat)
    requires |e.1| < U32 && n == |es| && (es == [] ==> b == []) && (es != [] ==> b != [])
    requires ReadEntries(b + t, n) == if Ends(es, t) then Some(es) else None
    ensures ReadEntries(EntryBytes(e) + b + t, n + 1) == if Ends([e] + es, t) then Some([e] + es) else None
  {
    Join(EntryBytes(e), b, t);
    assert b == [] ==> b + t == t;
    ReadEntryBack(e, b + t, n + 1 == 1);
    ReadStep(EntryBytes(e) + b + t, n + 1, e, es, b + t, t);
  }

  lemma ReadStep(rest: Bytes, n: nat, e: Entry, es: FileList, left: Bytes, t: Bytes)
    requires n == |es| + 1 && (if es == [] then left == t else left != [])
    requires ReadEntry(rest, n == 1) == if left != [] || (n == 1 && e.1 != []) then Some((e, left)) else None
    requires ReadEntries(left, n - 1) == if Ends(es, t) then Some(es) else None
    ensures ReadEntries(rest, n) == if Ends([e] + es, t) then Some([e] + es) else None
  {
  }

  lemma Join(a: Bytes, b: Bytes, t: Bytes)
    ensures a + b + t == a + (b + t)
  {
  }

  lemma EntriesCons(e: Entry, es: FileList)
    requires |e.1| < U32 && NamesFit(es)
    ensures Entries([e] + es) == EntryBytes(e) + Entries(es)
  {
    assert ([e] + es)[1..] == es;
  }

  lemma {:induction false} ReadEntriesOnly(rest: Bytes, n: nat) returns (t: Bytes)
    requires ReadEntries(rest, n).Some?
    ensures var fl := ReadEntries(rest, n).value;
            |fl| == n && NamesFit(fl) && rest == Entries(fl) + t && Ends(fl, t)
    decreases n
  {
    if n == 0 {
      t := rest;
    } else {
      ReadEntryOnly(rest, n == 1);
      var (e, left) := ReadEntry(rest, n == 1).value;
      t := ReadEntriesOnly(left, n - 1);
      var es := ReadEntries(left, n - 1).value;
      EntriesCons(e, es);
      Join(EntryBytes(e), Entries(es), t);
    }
  }

  ghost predicate Holds(buf: Bytes, fl: FileList) {
    |fl| < U32 && NamesFit(fl) && exists t :: buf == Listing(fl) + t && Ends(fl, t)
  }

  /** `deserialize` accepts a buffer as fl exactly when it starts with the listing of fl and does not end too soon. */
  lemma AcceptedIff(buf: Bytes, fl: FileList)
    requires |buf| >= 4
    ensures Read(buf) == Some(fl) <==> Holds(buf, fl)
  {
    if Read(buf) == Some(fl) {
      ReadOnly(buf, fl);
    }
    if Holds(buf, fl) {
      var t :| buf == Listing(fl) + t && Ends(fl, t);
      ReadListing(fl, t);
    }
  }

  lemma ReadOnly(buf: Bytes, fl: FileList)
    requires |buf| >= 4 && Read(buf) == Some(fl)
    ensures Holds(buf, fl)
  {
    var t := ReadEntriesOnly(buf[4..], FromLe32(buf[..4]));
    LittleEndianOfBytes(buf[..4]);
    assert buf == buf[..4] + buf[4..];
    Join(LittleEndian(|fl|, 4), Entries(fl), t);
    assert buf == Listing(fl) + t;
  }

  lemma ReadListing(fl: FileList, t: Bytes)
    requires |fl| < U32 && NamesFit(fl)
    ensures Read(Listing(fl) + t) == if Ends(fl, t) then Some(fl) else None
  {
    var buf := Listing(fl) + t;
    assert buf[..4] == LittleEndian(|fl|, 4) && buf[4..] == Entries(fl) + t;
    PowersOf256();
    LittleEndianRoundTrip(|fl|, 4);
    ReadEntriesBack(fl, t);
  }

  /** A serialized list comes back unless its last name is empty; then it is refused. */
  lemma RoundTripIff(fl: FileList)
    requires |fl| < U32 && NamesFit(fl)
    ensures Read(Listing(fl)) == Some(fl) <==> fl == [] || fl[|fl| - 1].1 != []
    ensures Read(Listing(fl)) == Some(fl) || Read(Listing(fl)) == None
  {
    assert Listing(fl) + [] == Listing(fl);
    ReadListing(fl, []);
  }
}
