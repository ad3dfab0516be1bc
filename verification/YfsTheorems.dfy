/** Over any run of `createfile` calls the store implements a tree of names with insert-if-absent. */
module YfsTheorems {
  import opened Wire
  import opened RpcMessages
  import opened Directory
  import opened Yfs

  // ---- The abstract tree ----

  type Tree = map<u64, map<Bytes, u64>>

  function TreeLookup(t: Tree, p: u64, name: Bytes): (Status, u64) {
    if p !in t then (IOERR, 0) else if name in t[p] then (OK, t[p][name]) else (NOENT, 0)
  }

  /** Insert if absent: the inum is used only for a name that is new in an existing directory. */
  function TreeCreate(t: Tree, p: u64, name: Bytes, inum: u64): (Status, u64, Tree) {
    var (r, id) := TreeLookup(t, p, name);
    if r == NOENT then (OK, inum, WithName(t, p, name, inum)) else (r, id, t)
  }

  function WithName(t: Tree, p: u64, name: Bytes, inum: u64): Tree
    requires p in t
  {
    var dir: map<Bytes, u64> := t[p][name := inum];
    t[p := dir]
  }

  function Names(fl: FileList): map<Bytes, u64> {
    if fl == [] then map[] else Names(fl[..|fl| - 1])[fl[|fl| - 1].1 := fl[|fl| - 1].0]
  }

  function Listed(buf: Bytes): FileList {
    if |buf| >= 4 && Read(buf).Some? then Read(buf).value else []
  }

  function Abstract(s: Store): Tree {
    map p | p in s.data && IsDir(p) :: Names(Listed(s.data[p]))
  }

  // ---- The invariant ----

  predicate UniqueNames(fl: FileList) {
    && (forall i :: 0 <= i < |fl| ==> fl[i].1 != [])
    && (forall i, j :: 0 <= i < j < |fl| ==> fl[i].1 != fl[j].1)
  }

  predicate GoodDirectory(buf: Bytes, attr: map<u64, Attr>) {
    && |buf| >= 4 && Read(buf).Some?
    && |Listed(buf)| < U32 && NamesFit(Listed(buf)) && buf == Listing(Listed(buf))
    && UniqueNames(Listed(buf))
    && forall i :: 0 <= i < |Listed(buf)| ==> IsFile(Listed(buf)[i].0) && Listed(buf)[i].0 in attr
  }

  /** Directories take at most v bytes each. */
  predicate Inv(s: Store, v: nat) {
    && s.data.Keys == s.attr.Keys
    && forall p :: p in s.data && IsDir(p) ==> GoodDirectory(s.data[p], s.attr) && |s.data[p]| <= v
  }

  lemma EmptyInv()
    ensures Inv(EmptyStore(), 4)
    ensures Abstract(EmptyStore()) == map[ROOT := map[]]
  {
    RoundTripIff([]);
    assert Listed(Listing([])) == [];
  }

  // ---- Listings as maps ----

  lemma {:induction false} NamesFind(fl: FileList, name: Bytes)
    requires UniqueNames(fl)
    ensures Find(fl, name) == if name in Names(fl) then Some(Names(fl)[name]) else None
    decreases |fl|
  {
    if fl != [] {
      var init, last := fl[..|fl| - 1], fl[|fl| - 1];
      NamesFind(init, name);
      FindSnoc(init, last, name);
      assert fl == init + [last];
      FindMeans(init, name);
    }
  }

  /** Every pair of the map is listed, every listed pair is in the map, and none is listed twice. */
  lemma {:induction false} NamesMeans(fl: FileList)
    requires UniqueNames(fl)
    ensures forall i :: 0 <= i < |fl| ==> fl[i].1 in Names(fl) && Names(fl)[fl[i].1] == fl[i].0
    ensures |Names(fl)| == |fl|
    decreases |fl|
  {
    if fl != [] {
      var init, last := fl[..|fl| - 1], fl[|fl| - 1];
      NamesMeans(init);
      FindMeans(init, last.1);
      NamesFind(init, last.1);
      assert forall i :: 0 <= i < |init| ==> fl[i] == init[i];
    }
  }

  // ---- One call ----

  lemma LookupAgrees(s: Store, v: nat, p: u64, name: Bytes)
    requires Inv(s, v) && v < U32 - 1 && IsDir(p)
    ensures Readable(s, p) && Looked(s, p, name) == TreeLookup(Abstract(s), p, name)
  {
    if p in s.data {
      NamesFind(Listed(s.data[p]), name);
    }
  }

  lemma ReadDirAgrees(s: Store, v: nat, p: u64)
    requires Inv(s, v) && p in s.data && IsDir(p)
    ensures Read(s.data[p]).Some?
    ensures var fl := Read(s.data[p]).value; var t := Abstract(s)[p];
            && |fl| == |t| && (forall i :: 0 <= i < |fl| ==> fl[i].1 in t && t[fl[i].1] == fl[i].0)
            && forall i, j :: 0 <= i < j < |fl| ==> fl[i].1 != fl[j].1
  {
    NamesMeans(Listed(s.data[p]));
  }

  /** A listing with one more name. */
  lemma Extended(fl: FileList, id: u64, name: Bytes)
    requires |fl| + 1 < U32 && NamesFit(fl) && |name| < U32 && name != []
    ensures NamesFit(fl + [(id, name)])
    ensures Read(Listing(fl + [(id, name)])) == Some(fl + [(id, name)])
    ensures |Listing(fl + [(id, name)])| == |Listing(fl)| + 12 + |name|
    ensures Names(fl + [(id, name)]) == Names(fl)[name := id]
  {
    RoundTripIff(fl + [(id, name)]);
    EntriesSnoc(fl, (id, name));
    assert (fl + [(id, name)])[..|fl|] == fl;
  }

  lemma ExtendedIsGood(fl: FileList, attr: map<u64, Attr>, id: u64, name: Bytes)
    requires |fl| + 1 < U32 && NamesFit(fl) && 0 < |name| < U32 && IsFile(id) && id in attr
    requires UniqueNames(fl) && Find(fl, name) == None
    requires forall i :: 0 <= i < |fl| ==> IsFile(fl[i].0) && fl[i].0 in attr
    ensures NamesFit(fl + [(id, name)]) && GoodDirectory(Listing(fl + [(id, name)]), attr)
  {
    Extended(fl, id, name);
    FindMeans(fl, name);
  }

  /** The store after a directory p has been rewritten and a file extent created. */
  function Inserted(s: Store, p: u64, buf: Bytes, id: u64): Store {
    AfterPut(AfterPut(s, p, buf), id, [])
  }

  lemma InsertedInv(s: Store, v: nat, p: u64, buf: Bytes, id: u64, w: nat)
    requires Inv(s, v) && IsDir(p) && IsFile(id) && p in s.data && v <= w && |buf| <= w
    requires GoodDirectory(buf, Inserted(s, p, buf, id).attr)
    ensures Inv(Inserted(s, p, buf, id), w)
  {
    var s' := Inserted(s, p, buf, id);
    forall q | q in s'.data && IsDir(q) ensures GoodDirectory(s'.data[q], s'.attr) && |s'.data[q]| <= w {
      if q != p {
        assert s'.data[q] == s.data[q] && GoodDirectory(s.data[q], s.attr);
        StillGood(s.data[q], s.attr, s'.attr);
      }
    }
  }

  lemma StillGood(buf: Bytes, attr: map<u64, Attr>, more: map<u64, Attr>)
    requires GoodDirectory(buf, attr) && attr.Keys <= more.Keys
    ensures GoodDirectory(buf, more)
  {
  }

  lemma InsertedGood(s: Store, v: nat, p: u64, fl: FileList, id: u64, name: Bytes)
    requires Inv(s, v) && IsDir(p) && IsFile(id) && name != [] && v + 12 + |name| < U32 - 1
    requires p in s.data && fl == Listed(s.data[p]) && Find(fl, name) == None
    requires NamesFit(fl) && |fl| + 1 < U32
    ensures NamesFit(fl + [(id, name)])
    ensures Inv(Inserted(s, p, Listing(fl + [(id, name)]), id), v + 12 + |name|)
  {
    Extended(fl, id, name);
    var buf := Listing(fl + [(id, name)]);
    ExtendedIsGood(fl, Inserted(s, p, buf, id).attr, id, name);
    InsertedInv(s, v, p, buf, id, v + 12 + |name|);
  }

  /** The put of the new file changes no directory. */
  lemma InsertedTree(s: Store, p: u64, buf: Bytes, id: u64, name: Bytes)
    requires IsDir(p) && IsFile(id) && p in s.data
    requires Names(Listed(buf)) == Names(Listed(s.data[p]))[name := id]
    ensures Abstract(Inserted(s, p, buf, id)) == WithName(Abstract(s), p, name, id)
  {
  }

  lemma CreatedNew(s: Store, p: u64, name: Bytes, rand: nat, fl: FileList)
    requires p in s.data && 4 <= |s.data[p]| && |s.data[p]| + 12 + |name| < U32 - 1
    requires Read(s.data[p]) == Some(fl) && Find(fl, name) == None
    ensures Readable(s, p) && Fits(s, p, name) && NamesFit(fl) && |fl| * 12 + 4 <= |s.data[p]|
    ensures var id := NewInum(rand, true);
            Created(s, p, name, rand) == (OK, id, Inserted(s, p, Listing(fl + [(id, name)]), id))
  {
    ReadFits(s.data[p], fl);
  }

  lemma InsertRefines(s: Store, v: nat, p: u64, fl: FileList, id: u64, name: Bytes)
    requires Inv(s, v) && IsDir(p) && IsFile(id) && name != [] && v + 12 + |name| < U32 - 1
    requires p in s.data && fl == Listed(s.data[p]) && Find(fl, name) == None
    requires NamesFit(fl) && |fl| + 1 < U32
    ensures NamesFit(fl + [(id, name)])
    ensures var s' := Inserted(s, p, Listing(fl + [(id, name)]), id);
            Inv(s', v + 12 + |name|) && Abstract(s') == WithName(Abstract(s), p, name, id)
  {
    Extended(fl, id, name);
    InsertedGood(s, v, p, fl, id, name);
    InsertedTree(s, p, Listing(fl + [(id, name)]), id, name);
  }

  /** The case in which a call writes: a new name in an existing directory. */
  lemma CreateNewRefines(s: Store, v: nat, p: u64, name: Bytes, rand: nat) returns (r: Status, id: u64, s': Store)
    requires Inv(s, v) && IsDir(p) && name != [] && v + 12 + |name| < U32 - 1
    requires p in s.data && Find(Listed(s.data[p]), name) == None
    ensures Readable(s, p) && Fits(s, p, name) && Created(s, p, name, rand) == (r, id, s')
    ensures r == OK && id == NewInum(rand, true)
    ensures Inv(s', v + 12 + |name|) && Abstract(s') == WithName(Abstract(s), p, name, id)
  {
    var fl := Listed(s.data[p]);
    r, id := OK, NewInum(rand, true);
    NewInumIsFile(rand);
    CreatedNew(s, p, name, rand, fl);
    InsertRefines(s, v, p, fl, id, name);
    s' := Inserted(s, p, Listing(fl + [(id, name)]), id);
  }

  /** What a new name does to the store, apart from the directory: an empty file appears, and nothing else changes. */
  lemma NewFileExact(s: Store, p: u64, name: Bytes, rand: nat, fl: FileList)
    requires IsDir(p) && p in s.data && 4 <= |s.data[p]| && |s.data[p]| + 12 + |name| < U32 - 1
    requires Read(s.data[p]) == Some(fl) && Find(fl, name) == None
    ensures Readable(s, p) && Fits(s, p, name)
    ensures var (r, id, s') := Created(s, p, name, rand);
            && r == OK && id in s'.data && s'.data[id] == [] && id in s'.attr
            && s'.data.Keys == s.data.Keys + {id} && s'.attr.Keys == s.attr.Keys + {p, id}
            && (forall j :: j in s.data && j != p && j != id ==> s'.data[j] == s.data[j])
            && forall j :: j in s.attr ==> s'.attr[j] == s.attr[j]
  {
    NewInumIsFile(rand);
    CreatedNew(s, p, name, rand, fl);
  }

  /** A call that does not create a name changes nothing. */
  lemma NothingNewNothingChanged(s: Store, p: u64, name: Bytes, rand: nat)
    requires Readable(s, p) && Fits(s, p, name) && Looked(s, p, name).0 != NOENT
    ensures Created(s, p, name, rand).2 == s
  {
  }

  /** Whatever a call does, every other directory keeps its bytes: a new file never overwrites one. */
  lemma OtherDirectoriesKept(s: Store, p: u64, name: Bytes, rand: nat, q: u64)
    requires Readable(s, p) && Fits(s, p, name) && IsDir(q) && q != p
    ensures var s' := Created(s, p, name, rand).2;
            && (q in s'.data <==> q in s.data)
            && (q in s.data ==> s'.data[q] == s.data[q])
  {
    NewInumIsFile(rand);
  }

  lemma CreateRefines(s: Store, v: nat, p: u64, name: Bytes, rand: nat)
    requires Inv(s, v) && IsDir(p) && name != [] && v + 12 + |name| < U32 - 1
    ensures Readable(s, p) && Fits(s, p, name)
    ensures var (r, id, s') := Created(s, p, name, rand);
            && Inv(s', v + 12 + |name|)
            && (r, id, Abstract(s')) == TreeCreate(Abstract(s), p, name, NewInum(rand, true))
            && (r == OK ==> Looked(s', p, name) == (OK, id) && id in s'.attr)
  {
    LookupAgrees(s, v, p, name);
    if p in s.data && Find(Listed(s.data[p]), name) == None {
      NamesFind(Listed(s.data[p]), name);
      var r, id, s' := CreateNewRefines(s, v, p, name, rand);
    }
    var (r, id, s') := Created(s, p, name, rand);
    LookupAgrees(s', v + 12 + |name|, p, name);
    if r == OK {
      FindMeans(Listed(s'.data[p]), name);
    }
  }

  /** A new name can be read back exactly when it is not empty: an empty one makes the directory unreadable. */
  lemma ReadableAfterCreateIff(s: Store, v: nat, p: u64, name: Bytes, rand: nat) returns (s': Store)
    requires Inv(s, v) && IsDir(p) && v + 12 + |name| < U32 - 1
    requires p in s.data && Find(Listed(s.data[p]), name) == None
    ensures Readable(s, p) && Fits(s, p, name) && Created(s, p, name, rand) == (OK, NewInum(rand, true), s')
    ensures Readable(s', p) && (Looked(s', p, name).0 == OK <==> name != [])
  {
    var fl, id := Listed(s.data[p]), NewInum(rand, true);
    NewInumIsFile(rand);
    CreatedNew(s, p, name, rand, fl);
    s' := Inserted(s, p, Listing(fl + [(id, name)]), id);
    LookedUpIff(s', p, fl, id, name);
  }

  lemma LookedUpIff(s: Store, p: u64, fl: FileList, id: u64, name: Bytes)
    requires |fl| + 1 < U32 && NamesFit(fl) && |Listing(fl)| + 12 + |name| < U32 - 1
    requires Find(fl, name) == None && p in s.data && s.data[p] == Listing(fl + [(id, name)])
    ensures Readable(s, p) && (Looked(s, p, name).0 == OK <==> name != [])
  {
    EntriesSnoc(fl, (id, name));
    RoundTripIff(fl + [(id, name)]);
    FindSnoc(fl, (id, name), name);
  }

  // ---- Whole runs ----

  datatype Creation = Creation(p: u64, name: Bytes, rand: nat)

  predicate Legal(calls: seq<Creation>) {
    forall i :: 0 <= i < |calls| ==> IsDir(calls[i].p) && calls[i].name != []
  }

  function Volume(calls: seq<Creation>): nat {
    if calls == [] then 0 else Volume(calls[1..]) + 12 + |calls[0].name|
  }

  /** The store after the calls, and their answers. */
  function Run(s: Store, v: nat, calls: seq<Creation>): (Store, seq<(Status, u64)>)
    requires Inv(s, v) && Legal(calls) && v + Volume(calls) < U32 - 1
    decreases |calls|
  {
    if calls == [] then (s, [])
    else
      var c := calls[0];
      CreateRefines(s, v, c.p, c.name, c.rand);
      var (r, id, s') := Created(s, c.p, c.name, c.rand);
      var (last, answers) := Run(s', v + 12 + |c.name|, calls[1..]);
      (last, [(r, id)] + answers)
  }

  function TreeRun(t: Tree, calls: seq<Creation>): (Tree, seq<(Status, u64)>)
    decreases |calls|
  {
    if calls == [] then (t, [])
    else
      var c := calls[0];
      var (r, id, t') := TreeCreate(t, c.p, c.name, NewInum(c.rand, true));
      var (last, answers) := TreeRun(t', calls[1..]);
      (last, [(r, id)] + answers)
  }

  /** From any good store every run gives the answers of the tree and ends in a store that stands for it. */
  lemma {:induction false} RunRefines(s: Store, v: nat, calls: seq<Creation>)
    requires Inv(s, v) && Legal(calls) && v + Volume(calls) < U32 - 1
    ensures var (s', answers) := Run(s, v, calls);
            && Inv(s', v + Volume(calls))
            && (Abstract(s'), answers) == TreeRun(Abstract(s), calls)
    decreases |calls|
  {
    if calls != [] {
      var c := calls[0];
      CreateRefines(s, v, c.p, c.name, c.rand);
      RunRefines(Created(s, c.p, c.name, c.rand).2, v + 12 + |c.name|, calls[1..]);
    }
  }

  /** After any run, `lookup` answers as the tree does, in every directory and for every name. */
  lemma LookupAfterRun(s: Store, v: nat, calls: seq<Creation>, p: u64, name: Bytes)
    requires Inv(s, v) && Legal(calls) && v + Volume(calls) < U32 - 1 && IsDir(p)
    ensures var s' := Run(s, v, calls).0;
            Readable(s', p) && Looked(s', p, name) == TreeLookup(TreeRun(Abstract(s), calls).0, p, name)
  {
    RunRefines(s, v, calls);
    LookupAgrees(Run(s, v, calls).0, v + Volume(calls), p, name);
  }

  /** After any run, `readdir` lists the tree's directory, each name once, and each inum is a file with attributes. */
  lemma ReadDirAfterRun(s: Store, v: nat, calls: seq<Creation>, p: u64)
    requires Inv(s, v) && Legal(calls) && v + Volume(calls) < U32 - 1 && IsDir(p)
    ensures var (s', t) := (Run(s, v, calls).0, TreeRun(Abstract(s), calls).0);
            && (p in s'.data <==> p in t)
            && (p in t ==>
                  && |s'.data[p]| >= 4 && Read(s'.data[p]).Some?
                  && var fl := Read(s'.data[p]).value;
                     && |fl| == |t[p]|
                     && (forall i :: 0 <= i < |fl| ==> fl[i].1 in t[p] && t[p][fl[i].1] == fl[i].0)
                     && (forall i, j :: 0 <= i < j < |fl| ==> fl[i].1 != fl[j].1)
                     && forall i :: 0 <= i < |fl| ==> IsFile(fl[i].0) && fl[i].0 in s'.attr)
  {
    RunRefines(s, v, calls);
    var s' := Run(s, v, calls).0;
    if p in s'.data {
      ReadDirAgrees(s', v + Volume(calls), p);
    }
  }

  // ---- Distinct inums ----

  /** No two names, in whatever directories, have the same inum. */
  predicate DistinctInums(t: Tree) {
    forall p, n, q, m :: p in t && n in t[p] && q in t && m in t[q] && t[p][n] == t[q][m] ==> p == q && n == m
  }

  predicate Taken(t: Tree, inum: u64) {
    exists p, n :: p in t && n in t[p] && t[p][n] == inum
  }

  function Low(c: Creation): nat {
    c.rand % 0x7FFF_FFFF
  }

  /** The random numbers of the calls differ below bit 31 from each other. */
  predicate DistinctRands(calls: seq<Creation>) {
    forall i, j :: 0 <= i < j < |calls| ==> Low(calls[i]) != Low(calls[j])
  }

  /** None of the inums that the calls may use is taken. */
  predicate FreshRands(t: Tree, calls: seq<Creation>) {
    forall i :: 0 <= i < |calls| ==> !Taken(t, NewInum(calls[i].rand, true))
  }

  lemma CreateDistinct(t: Tree, p: u64, name: Bytes, inum: u64)
    requires DistinctInums(t) && !Taken(t, inum)
    ensures var t' := TreeCreate(t, p, name, inum).2;
            DistinctInums(t') && forall i :: Taken(t', i) ==> i == inum || Taken(t, i)
  {
    var t' := TreeCreate(t, p, name, inum).2;
    forall i | Taken(t', i) ensures i == inum || Taken(t, i) {
      var q, n :| q in t' && n in t'[q] && t'[q][n] == i;
      assert (q == p && n == name && i == inum) || (q in t && n in t[q] && t[q][n] == i);
    }
    forall q, n, r, m | q in t' && n in t'[q] && r in t' && m in t'[r] && t'[q][n] == t'[r][m]
      ensures q == r && n == m
    {
      SameName(t, p, name, inum, q, n, r, m);
    }
  }

  lemma SameName(t: Tree, p: u64, name: Bytes, inum: u64, q: u64, n: Bytes, r: u64, m: Bytes)
    requires DistinctInums(t) && !Taken(t, inum)
    requires var t' := TreeCreate(t, p, name, inum).2;
             q in t' && n in t'[q] && r in t' && m in t'[r] && t'[q][n] == t'[r][m]
    ensures q == r && n == m
  {
    var t' := TreeCreate(t, p, name, inum).2;
    assert q in t && n in t[q] && t'[q][n] == t[q][n] ==> Taken(t, t[q][n]);
    assert r in t && m in t[r] && t'[r][m] == t[r][m] ==> Taken(t, t[r][m]);
  }

  lemma {:induction false} TreeRunDistinct(t: Tree, calls: seq<Creation>)
    requires DistinctInums(t) && DistinctRands(calls) && FreshRands(t, calls)
    ensures DistinctInums(TreeRun(t, calls).0)
    decreases |calls|
  {
    if calls != [] {
      var c, rest := calls[0], calls[1..];
      var inum := NewInum(c.rand, true);
      assert !Taken(t, inum);
      CreateDistinct(t, c.p, c.name, inum);
      var t' := TreeCreate(t, c.p, c.name, inum).2;
      forall i | 0 <= i < |rest| ensures !Taken(t', NewInum(rest[i].rand, true)) {
        assert rest[i] == calls[i + 1];
        assert Low(calls[0]) != Low(calls[i + 1]);
        NewInumExact(rest[i].rand, c.rand, true, true);
      }
      assert DistinctRands(rest) by {
        forall i, j | 0 <= i < j < |rest| ensures Low(rest[i]) != Low(rest[j]) {
          assert rest[i] == calls[i + 1] && rest[j] == calls[j + 1];
        }
      }
      TreeRunDistinct(t', rest);
    }
  }

  /**
   Calls whose random numbers differ from each other, and from those of the inums already listed, list distinct
   inums: over a whole run no two names share a file.
   */
  lemma RunListsDistinctInums(s: Store, v: nat, calls: seq<Creation>)
    requires Inv(s, v) && Legal(calls) && v + Volume(calls) < U32 - 1
    requires DistinctInums(Abstract(s)) && DistinctRands(calls) && FreshRands(Abstract(s), calls)
    ensures DistinctInums(Abstract(Run(s, v, calls).0))
  {
    RunRefines(s, v, calls);
    TreeRunDistinct(Abstract(s), calls);
  }
}
