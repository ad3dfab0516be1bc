/** The extent store, the file system calls over it, and the tree of names they implement. */
module Yfs {
  import opened Wire
  import opened RpcMessages
  import opened Directory

  datatype Status = OK | RPCERR | NOENT | IOERR | FBIG

  datatype Attr = Attr(atime: u32, mtime: u32, ctime: u32, size: u32)

  const ROOT: u64 := 1

  /** Bit 31 tells files from directories. */
  predicate IsFile(inum: u64) {
    inum / 0x8000_0000 % 2 == 1
  }

  predicate IsDir(inum: u64) {
    !IsFile(inum)
  }

  /** A random number below 2^31 - 1 with bit 31 set or clear; the two parts share no bit (see `OrIsSum`). */
  function NewInum(rand: nat, isfile: bool): u64 {
    rand % 0x7FFF_FFFF + (if isfile then 0x8000_0000 else 0)
  }

  lemma OrIsSum(x: bv64)
    requires x < 0x8000_0000
    ensures x | 0x8000_0000 == x + 0x8000_0000
  {
  }

  lemma BitIsQuotient(x: bv64)
    ensures x & 0x8000_0000 != 0 <==> x / 0x8000_0000 % 2 == 1
  {
  }

  /** Files are the inums with bit 31 set, whatever the bits above and below it are. */
  lemma IsFileIsBit31(high: nat, bit: nat, low: nat)
    requires bit <= 1 && low < 0x8000_0000 && high * 0x1_0000_0000 + bit * 0x8000_0000 + low < U64
    ensures IsFile(high * 0x1_0000_0000 + bit * 0x8000_0000 + low) <==> bit == 1
    ensures IsDir(high * 0x1_0000_0000 + bit * 0x8000_0000 + low) <==> bit == 0
  {
  }

  lemma NewInumIsFile(rand: nat)
    ensures IsFile(NewInum(rand, true)) && IsDir(NewInum(rand, false))
  {
  }

  /** The random number is kept below bit 31: two new inums are equal exactly if their random numbers agree there. */
  lemma NewInumExact(a: nat, b: nat, f: bool, g: bool)
    ensures NewInum(a, f) % 0x8000_0000 == a % 0x7FFF_FFFF
    ensures NewInum(a, f) == NewInum(b, g) <==> a % 0x7FFF_FFFF == b % 0x7FFF_FFFF && f == g
    ensures a < 0x7FFF_FFFF && b < 0x7FFF_FFFF ==> (NewInum(a, f) == NewInum(b, f) <==> a == b)
  {
  }

  // ---- The extent server ----

  /** Contents and attributes by extent. */
  datatype Store = Store(data: map<u64, Bytes>, attr: map<u64, Attr>)

  function EmptyStore(): Store {
    Store(map[ROOT := Listing([])], map[ROOT := Attr(0, 0, 0, 0)])
  }

  /** An extent keeps the attributes it was created with. */
  function AfterPut(s: Store, id: u64, buf: Bytes): Store {
    Store(s.data[id := buf], if id in s.attr then s.attr else s.attr[id := Attr(0, 0, 0, 0)])
  }

  class ExtentServer {
    var data: map<u64, Bytes>
    var attr: map<u64, Attr>

    ghost function State(): Store
      reads this
    {
      Store(data, attr)
    }

    constructor ()
      ensures State() == EmptyStore()
    {
      var fl: FileList := [];
      var buf := Serialize(fl);
      attr := map[ROOT := Attr(0, 0, 0, 0)];
      data := map[ROOT := buf];
    }

    method Put(id: u64, buf: Bytes) returns (r: Status)
      modifies this
      ensures r == OK && State() == AfterPut(old(State()), id, buf)
    {
      if id !in attr {
        attr := attr[id := Attr(0, 0, 0, 0)];
      }
      data := data[id := buf];
      r := OK;
    }

    method Get(id: u64) returns (r: Status, buf: Bytes)
      ensures r == if id in data then OK else NOENT
      ensures r == OK ==> buf == data[id]
    {
      if id !in data {
        return NOENT, [];
      }
      return OK, data[id];
    }

    method GetAttr(id: u64) returns (r: Status, a: Attr)
      ensures r == if id in attr then OK else NOENT
      ensures r == OK ==> a == attr[id]
    {
      if id !in attr {
        return NOENT, Attr(0, 0, 0, 0);
      }
      return OK, attr[id];
    }
  }

  // ---- Names in a listing ----

  /** The first entry with the name. */
  function Find(fl: FileList, name: Bytes): Option<u64> {
    if fl == [] then None
    else if fl[0].1 == name then Some(fl[0].0)
    else Find(fl[1..], name)
  }

  lemma {:induction false} FindSnoc(fl: FileList, e: Entry, name: Bytes)
    ensures Find(fl + [e], name)
         == if Find(fl, name).Some? then Find(fl, name) else if e.1 == name then Some(e.0) else None
  {
    if fl != [] {
      assert (fl + [e])[1..] == fl[1..] + [e];
      FindSnoc(fl[1..], e, name);
    } else {
      assert (fl + [e])[1..] == [];
    }
  }

  lemma {:induction false} FindMeans(fl: FileList, name: Bytes)
    ensures Find(fl, name) == None <==> forall i :: 0 <= i < |fl| ==> fl[i].1 != name
    ensures Find(fl, name).Some? ==> exists i :: 0 <= i < |fl| && fl[i] == (Find(fl, name).value, name)
  {
    if fl != [] && fl[0].1 != name {
      FindMeans(fl[1..], name);
      assert forall i :: 1 <= i < |fl| ==> fl[i] == fl[1..][i - 1];
    } else if fl != [] {
      assert fl[0] == (Find(fl, name).value, name);
    }
  }

  // ---- The file system calls ----

  /** Directory extents hold at least the count that `deserialize` reads first. */
  predicate Readable(s: Store, p: u64) {
    p in s.data ==> 4 <= |s.data[p]| < U32 - 1
  }

  function Looked(s: Store, p: u64, name: Bytes): (Status, u64)
    requires Readable(s, p)
  {
    if p !in s.data || Read(s.data[p]) == None then (IOERR, 0)
    else
      match Find(Read(s.data[p]).value, name)
      case None => (NOENT, 0)
      case Some(id) => (OK, id)
  }

  predicate Fits(s: Store, p: u64, name: Bytes) {
    p in s.data ==> |s.data[p]| + 12 + |name| < U32 - 1
  }

  /** What `createfile` answers and leaves behind. */
  function Created(s: Store, p: u64, name: Bytes, rand: nat): (Status, u64, Store)
    requires Readable(s, p) && Fits(s, p, name)
  {
    var (r, id) := Looked(s, p, name);
    if r == OK then (OK, id, s)
    else if r == NOENT then
      var fl := Read(s.data[p]).value;
      var inum := NewInum(rand, true);
      ReadFits(s.data[p], fl);
      (OK, inum, AfterPut(AfterPut(s, p, Listing(fl + [(inum, name)])), inum, []))
    else (IOERR, 0, s)
  }

  lemma ReadFits(buf: Bytes, fl: FileList)
    requires 4 <= |buf| < U32 && Read(buf) == Some(fl)
    ensures NamesFit(fl) && |fl| * 12 + 4 <= |buf|
  {
    AcceptedIff(buf, fl);
    ReadNeedsBytes(buf[4..], FromLe32(buf[..4]));
    var t := ReadEntriesOnly(buf[4..], FromLe32(buf[..4]));
  }

  class YfsClient {
    const ec: ExtentServer

    constructor (ec: ExtentServer)
      ensures this.ec == ec
    {
      this.ec := ec;
    }

    method Lookup(p: u64, name: Bytes) returns (r: Status, id: u64)
      requires Readable(ec.State(), p)
      ensures (r, id) == Looked(ec.State(), p, name)
    {
      id := 0;
      var st, buf := ec.Get(p);
      if st != OK {
        return IOERR, id;
      }
      var ok, fl := Deserialize(buf, []);
      if !ok {
        return IOERR, id;
      }
      var i := 0;
      while i < |fl|
        invariant 0 <= i <= |fl|
        invariant Find(fl, name) == Find(fl[i..], name)
      {
        if fl[i].1 == name {
          id := fl[i].0;
          return OK, id;
        }
        assert fl[i..][1..] == fl[i + 1..];
        i := i + 1;
      }
      return NOENT, id;
    }

    method ReadDir(p: u64, into: FileList) returns (r: Status, fl: FileList)
      requires Readable(ec.State(), p)
      ensures r == if p in ec.data && Read(ec.data[p]).Some? then OK else IOERR
      ensures r == OK ==> fl == into + Read(ec.data[p]).value
    {
      fl := into;
      var st, buf := ec.Get(p);
      if st != OK {
        return IOERR, fl;
      }
      var ok;
      ok, fl := Deserialize(buf, into);
      r := if ok then OK else IOERR;
    }

    method CreateFile(p: u64, name: Bytes, rand: nat) returns (r: Status, id: u64)
      requires Readable(ec.State(), p) && Fits(ec.State(), p, name)
      modifies ec
      ensures (r, id, ec.State()) == Created(old(ec.State()), p, name, rand)
    {
      r, id := Lookup(p, name);
      if r == OK {
        return;
      } else if r == NOENT {
        var fl;
        r, fl := ReadDir(p, []);
        if r == OK {
          assert [] + Read(ec.data[p]).value == Read(ec.data[p]).value;
          ReadFits(ec.data[p], fl);
          id := NewInum(rand, true);
          fl := fl + [(id, name)];
          var pbuf := Serialize(fl);
          r := ec.Put(p, pbuf);
          if r != OK {
            return IOERR, id;
          }
          r := ec.Put(id, []);
          if r != OK {
            return IOERR, id;
          }
          return OK, id;
        }
      }
      return IOERR, id;
    }
  }
}
