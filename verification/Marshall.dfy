/** The growing output buffer, the cursor that reads it back, and the headers that share it. */
module Marshall {
  import opened Wire
  import opened Codec

  const DEFAULT_RPC_SZ := 1024
  const RPC_HEADER_SZ := 24
  const SIZE_WORD := 4

  datatype ReqHeader = ReqHeader(xid: i32, proc: i32, cltNonce: u32, srvNonce: u32, xidRep: i32)
  datatype ReplyHeader = ReplyHeader(xid: i32, ret: i32)

  // ---- Headers on the wire ----

  /** 32-bit words in network order, signed or not. */
  function Words(xs: seq<int>): (b: Bytes)
    ensures |b| == 4 * |xs|
    decreases |xs|, xs
  {
    if xs == [] then [] else Words(xs[..|xs| - 1]) + BigEndian(xs[|xs| - 1], 4)
  }

  function ReqInts(h: ReqHeader): seq<int> {
    [h.xid, h.proc, h.cltNonce, h.srvNonce, h.xidRep]
  }

  function ReqBytes(h: ReqHeader): (b: Bytes)
    ensures |b| == 20
  {
    Words(ReqInts(h))
  }

  function ReplyBytes(h: ReplyHeader): (b: Bytes)
    ensures |b| == 8
  {
    Words([h.xid, h.ret])
  }

  /** Four bytes as a signed integer. */
  function ReadI32(u: Reader): (i32, Reader) {
    var (x, u') := ReadInt(u, 4);
    ReadU32Range(u);
    (Signed(x), u')
  }

  lemma ReadU32Range(u: Reader)
    ensures ReadInt(u, 4).0 < U32
  {
    ReadIntRange(u, 4);
    PowersOf256();
  }

  lemma {:induction false} ReadIntRange(u: Reader, width: nat)
    ensures ReadInt(u, width).0 < Pow256(width)
  {
    if width > 0 {
      ReadIntRange(u, width - 1);
    }
  }

  function ReadWords(u: Reader, n: nat): (r: (seq<i32>, Reader))
    ensures |r.0| == n
    decreases n, u
  {
    if n == 0 then ([], u)
    else
      var (xs, u1) := ReadWords(u, n - 1);
      var (x, u2) := ReadI32(u1);
      (xs + [x], u2)
  }

  function ReqOf(w: seq<i32>): ReqHeader
    requires |w| == 5
  {
    ReqHeader(w[0], w[1], Pattern(w[2]), Pattern(w[3]), w[4])
  }

  lemma I32RoundTrip(x: int, tail: Bytes)
    ensures ReadI32(Reader(BigEndian(x, 4) + tail, true)) == (Signed(x % U32), Reader(tail, true))
  {
    IntRoundTrip(x, 4, tail);
    PowersOf256();
  }

  function SignedAll(xs: seq<int>): seq<i32> {
    seq(|xs|, i requires 0 <= i < |xs| => Signed(xs[i] % U32))
  }

  lemma {:induction false} WordsRoundTrip(xs: seq<int>, tail: Bytes)
    ensures ReadWords(Reader(Words(xs) + tail, true), |xs|)
         == (SignedAll(xs), Reader(tail, true))
    decreases |xs|
  {
    if xs != [] {
      var init, b := xs[..|xs| - 1], BigEndian(xs[|xs| - 1], 4);
      WordsRoundTrip(init, b + tail);
      Regroup(Words(init), b, tail);
      I32RoundTrip(xs[|xs| - 1], tail);
      assert SignedAll(xs) == SignedAll(init) + [Signed(xs[|xs| - 1] % U32)];
    } else {
      assert SignedAll(xs) == [];
      assert Words(xs) + tail == tail;
    }
  }

  /** Words packed from position 4 are read back from there. */
  lemma WordsBack(xs: seq<int>, n: nat, b: Bytes, k: nat)
    requires n == |xs| && k == 4 + 4 * n <= |b| && b[4..k] == Words(xs)
    ensures ReadWords(Reader(b[4..], true), n).0 == SignedAll(xs)
  {
    assert b[4..] == Words(xs) + b[k..];
    WordsRoundTrip(xs, b[k..]);
  }

  lemma ReqOfInts(h: ReqHeader)
    ensures ReqOf(SignedAll(ReqInts(h))) == h
  {
    SignedBack(h.xid);
    SignedBack(h.proc);
    PatternBack(h.cltNonce);
    PatternBack(h.srvNonce);
    SignedBack(h.xidRep);
  }

  lemma SignedBack(x: i32)
    ensures Signed(x % U32) == x
  {
  }

  lemma PatternBack(x: u32)
    ensures Pattern(Signed(x % U32)) == x
  {
  }

  lemma {:induction false} ReadIntOk(u: Reader, width: nat)
    ensures ReadInt(u, width).1.ok == (u.ok && |u.rest| >= width)
    ensures |ReadInt(u, width).1.rest| == if |u.rest| >= width then |u.rest| - width else 0
  {
    if width > 0 {
      ReadIntOk(u, width - 1);
    }
  }

  lemma {:induction false} ReadWordsOk(u: Reader, n: nat)
    ensures ReadWords(u, n).1.ok == (u.ok && |u.rest| >= 4 * n)
    ensures |ReadWords(u, n).1.rest| == if |u.rest| >= 4 * n then |u.rest| - 4 * n else 0
  {
    if n > 0 {
      ReadWordsOk(u, n - 1);
      ReadIntOk(ReadWords(u, n - 1).1, 4);
    }
  }

  // ---- marshall ----

  class Marshaller {
    var buf: array<byte>
    var capa: int
    var ind: int

    ghost predicate Valid()
      reads this
    {
      0 <= ind <= capa == buf.Length && DEFAULT_RPC_SZ <= capa
    }

    ghost function Written(): Bytes
      requires Valid()
      reads this, buf
    {
      buf[..ind]
    }

    constructor ()
      ensures Valid() && fresh(buf) && ind == RPC_HEADER_SZ
    {
      buf := new byte[DEFAULT_RPC_SZ];
      capa := DEFAULT_RPC_SZ;
      ind := RPC_HEADER_SZ;
    }

    /** realloc: a larger block with the old contents at its front. */
    method Reallocate()
      requires buf.Length <= capa
      modifies this`buf
      ensures fresh(buf) && buf.Length == capa && buf[..old(buf).Length] == old(buf[..])
    {
      var b := new byte[capa];
      forall i | 0 <= i < buf.Length {
        b[i] := buf[i];
      }
      buf := b;
    }

    method RawByte(x: byte)
      requires Valid()
      modifies this, buf
      ensures Valid() && (buf == old(buf) || fresh(buf))
      ensures old(ind < capa) ==> buf == old(buf)
      ensures ind == old(ind) + 1 && capa == old(if ind < capa then capa else 2 * capa)
      ensures Written() == old(Written()) + [x]
      ensures buf == old(buf) ==> forall i :: ind <= i < buf.Length ==> buf[i] == old(buf[i])
    {
      if ind >= capa {
        capa := capa * 2;
        Reallocate();
      }
      buf[ind] := x;
      ind := ind + 1;
    }

    method RawBytes(p: Bytes)
      requires Valid()
      modifies this, buf
      ensures Valid() && (buf == old(buf) || fresh(buf))
      ensures capa == old(if ind + |p| <= capa then capa else if capa > |p| then 2 * capa else capa + |p|)
      ensures Written() == old(Written()) + p
    {
      var n := |p|;
      if ind + n > capa {
        capa := if capa > n then 2 * capa else capa + n;
        Reallocate();
      }
      CopyIn(p);
      ind := ind + n;
    }

    /** memcpy to the head position. */
    method CopyIn(p: Bytes)
      requires 0 <= ind && ind + |p| <= buf.Length
      modifies buf
      ensures buf[..ind + |p|] == old(buf[..ind]) + p
    {
      forall i | 0 <= i < |p| {
        buf[ind + i] := p[i];
      }
    }

    /** `pack`, and the overloads for 32-bit integers. */
    method Pack(x: int)
      requires Valid()
      modifies this, buf
      ensures Valid() && (buf == old(buf) || fresh(buf))
      ensures old(ind + 4 <= capa) ==> buf == old(buf) && forall i :: ind <= i < buf.Length ==> buf[i] == old(buf[i])
      ensures ind == old(ind) + 4
      ensures Written() == old(Written()) + BigEndian(x, 4)
    {
      RawByte((x / 0x100_0000 % 256) as byte);
      RawByte((x / 0x1_0000 % 256) as byte);
      RawByte((x / 0x100 % 256) as byte);
      RawByte((x % 256) as byte);
      FourMore(x, 0);
      AppendFour(old(Written()), (x / 0x100_0000 % 256) as byte, (x / 0x1_0000 % 256) as byte,
                 (x / 0x100 % 256) as byte, (x % 256) as byte);
    }

    method PutInt(x: int, width: nat)
      requires Valid() && (width == 1 || width == 2 || width == 4 || width == 8)
      modifies this, buf
      ensures Valid() && (buf == old(buf) || fresh(buf))
      ensures Written() == old(Written()) + BigEndian(x, width)
    {
      if width == 8 {
        Pack(x / U32);
        Pack(x);
        Regroup(old(Written()), BigEndian(x / U32, 4), BigEndian(x, 4));
        EightBytes(x);
      } else if width == 4 {
        Pack(x);
      } else {
        if width == 2 {
          RawByte((x / 0x100 % 256) as byte);
          BigEndianStep(x / 0x100, 0);
        }
        RawByte((x % 256) as byte);
        BigEndianStep(x, width - 1);
      }
    }

    method PutStr(s: Bytes)
      requires Valid()
      modifies this, buf
      ensures Valid() && (buf == old(buf) || fresh(buf))
      ensures Written() == old(Written()) + (BigEndian(|s|, 4) + s)
    {
      Pack(|s|);
      RawBytes(s);
      Regroup(old(Written()), BigEndian(|s|, 4), s);
    }

    method PutVec(vs: seq<Value>, t: Type)
      requires Valid() && IsType(t) && forall i :: 0 <= i < |vs| ==> HasType(vs[i], t)
      modifies this, buf
      ensures Valid() && (buf == old(buf) || fresh(buf))
      ensures Written() == old(Written()) + (BigEndian(|vs|, 4) + EncodeVec(vs, t))
      decreases t, 2, 1
    {
      Pack(|vs|);
      PutElements(vs, t);
      Regroup(old(Written()), BigEndian(|vs|, 4), EncodeVec(vs, t));
    }

    method PutElements(vs: seq<Value>, t: Type)
      requires Valid() && IsType(t) && forall i :: 0 <= i < |vs| ==> HasType(vs[i], t)
      modifies this, buf
      ensures Valid() && (buf == old(buf) || fresh(buf))
      ensures Written() == old(Written()) + EncodeVec(vs, t)
      decreases t, 2, 0
    {
      ghost var w := Written();
      var i := 0;
      while i < |vs|
        invariant 0 <= i <= |vs|
        invariant Valid() && (buf == old(buf) || fresh(buf))
        invariant Written() == w + EncodeVec(vs[..i], t)
      {
        Put(vs[i], t);
        EncodeVecNext(w, vs, t, i);
        i := i + 1;
      }
      assert vs[..i] == vs;
    }

    method PutMap(es: seq<(Value, Value)>, key: Type, val: Type)
      requires Valid() && IsType(key) && IsType(val)
      requires forall i :: 0 <= i < |es| ==> HasType(es[i].0, key) && HasType(es[i].1, val)
      modifies this, buf
      ensures Valid() && (buf == old(buf) || fresh(buf))
      ensures Written() == old(Written()) + (BigEndian(|es|, 4) + EncodeEntries(es, key, val))
      decreases TMap(key, val), 0, 2
    {
      Pack(|es|);
      PutEntries(es, key, val);
      Regroup(old(Written()), BigEndian(|es|, 4), EncodeEntries(es, key, val));
    }

    method PutEntries(es: seq<(Value, Value)>, key: Type, val: Type)
      requires Valid() && IsType(key) && IsType(val)
      requires forall i :: 0 <= i < |es| ==> HasType(es[i].0, key) && HasType(es[i].1, val)
      modifies this, buf
      ensures Valid() && (buf == old(buf) || fresh(buf))
      ensures Written() == old(Written()) + EncodeEntries(es, key, val)
      decreases TMap(key, val), 0, 1
    {
      ghost var w := Written();
      var i := 0;
      while i < |es|
        invariant 0 <= i <= |es|
        invariant Valid() && (buf == old(buf) || fresh(buf))
        invariant Written() == w + EncodeEntries(es[..i], key, val)
      {
        PutEntry(es[i].0, es[i].1, key, val);
        EncodeEntriesNext(w, es, key, val, i);
        i := i + 1;
      }
      assert es[..i] == es;
    }

    method PutEntry(k: Value, v: Value, key: Type, val: Type)
      requires Valid() && IsType(key) && IsType(val) && HasType(k, key) && HasType(v, val)
      modifies this, buf
      ensures Valid() && (buf == old(buf) || fresh(buf))
      ensures Written() == old(Written()) + (Encode(k, key) + Encode(v, val))
      decreases TMap(key, val), 0, 0
    {
      Put(k, key);
      Put(v, val);
      Regroup(old(Written()), Encode(k, key), Encode(v, val));
    }

    method Put(v: Value, t: Type)
      requires Valid() && IsType(t) && HasType(v, t)
      modifies this, buf
      ensures Valid() && (buf == old(buf) || fresh(buf))
      ensures Written() == old(Written()) + Encode(v, t)
      decreases t, 1, 0
    {
      match t
      case TInt(width, _) => PutInt(v.v, width);
      case TStr => PutStr(v.s);
      case TVec(elem) => PutVec(v.vs, elem);
      case TMap(key, val) => PutMap(v.entries, key, val);
    }

    /** The arguments of one call, marshalled one after the other. */
    method PutArgs(vs: seq<Value>, ts: seq<Type>)
      requires Valid() && AllTyped(vs, ts)
      modifies this, buf
      ensures Valid() && (buf == old(buf) || fresh(buf))
      ensures Written() == old(Written()) + EncodeArgs(vs, ts)
    {
      ghost var w := Written();
      var i := 0;
      while i < |vs|
        invariant 0 <= i <= |vs|
        invariant Valid() && (buf == old(buf) || fresh(buf))
        invariant Written() == w + EncodeArgs(vs[..i], ts[..i])
      {
        Put(vs[i], ts[i]);
        EncodeArgsNext(w, vs, ts, i);
        i := i + 1;
      }
      assert vs[..i] == vs && ts[..i] == ts;
    }

    /** Fills bytes 4 to 24 of a buffer already written, and nothing else. */
    method PackReqHeader(h: ReqHeader)
      requires Valid() && RPC_HEADER_SZ <= ind
      modifies this, buf
      ensures Valid() && buf == old(buf) && ind == old(ind)
      ensures Written() == old(Written()[..SIZE_WORD]) + ReqBytes(h) + old(Written()[RPC_HEADER_SZ..])
    {
      var saved := ind;
      ind := SIZE_WORD;
      PackReqFields(h);
      ind := saved;
      Overwritten(buf[..], old(buf[..]), RPC_HEADER_SZ, ind);
    }

    method PackReqFields(h: ReqHeader)
      requires Valid() && ind + 20 <= capa
      modifies this, buf
      ensures Valid() && buf == old(buf) && ind == old(ind) + 20
      ensures forall i :: ind <= i < buf.Length ==> buf[i] == old(buf[i])
      ensures Written() == old(Written()) + ReqBytes(h)
    {
      ghost var w := Written();
      ghost var x1 := PackNext(h.xid, w, []);
      ghost var x2 := PackNext(h.proc, w, x1);
      ghost var x3 := PackNext(h.cltNonce, w, x2);
      ghost var x4 := PackNext(h.srvNonce, w, x3);
      ghost var x5 := PackNext(h.xidRep, w, x4);
      assert x5 == ReqInts(h);
    }

    /** The next field of a header that follows w. */
    method PackNext(x: int, ghost w: Bytes, ghost xs: seq<int>) returns (ghost all: seq<int>)
      requires Valid() && ind + 4 <= capa && Written() == w + Words(xs)
      modifies this, buf
      ensures Valid() && buf == old(buf) && ind == old(ind) + 4
      ensures forall i :: ind <= i < buf.Length ==> buf[i] == old(buf[i])
      ensures all == xs + [x] && Written() == w + Words(all)
    {
      Pack(x);
      all := xs + [x];
      WordsSnoc(xs, x, all);
      Regroup(w, Words(xs), BigEndian(x, 4));
    }

    /** Fills bytes 4 to 12; the rest of the reserved prefix keeps what it held. */
    method PackReplyHeader(h: ReplyHeader)
      requires Valid() && RPC_HEADER_SZ <= ind
      modifies this, buf
      ensures Valid() && buf == old(buf) && ind == old(ind)
      ensures Written() == old(Written()[..SIZE_WORD]) + ReplyBytes(h) + old(Written()[12..])
    {
      var saved := ind;
      ind := SIZE_WORD;
      ghost var w := Written();
      ghost var xs := PackNext(h.xid, w, []);
      xs := PackNext(h.ret, w, xs);
      assert xs == [h.xid, h.ret];
      ind := saved;
      Overwritten(buf[..], old(buf[..]), 12, ind);
    }
  }

  /** A buffer changed only below k. */
  lemma Overwritten(s: Bytes, was: Bytes, k: nat, n: nat)
    requires k <= n <= |s| == |was| && forall i :: k <= i < |s| ==> s[i] == was[i]
    ensures s[..n] == s[..k] + was[..n][k..]
  {
  }

  lemma AppendFour(w: Bytes, a: byte, b: byte, c: byte, d: byte)
    ensures w + [a] + [b] + [c] + [d] == w + [a, b, c, d]
  {
  }

  lemma WordsSnoc(xs: seq<int>, x: int, all: seq<int>)
    requires all == xs + [x]
    ensures Words(all) == Words(xs) + BigEndian(x, 4)
  {
    assert all[..|xs|] == xs;
  }

  lemma BigEndianStep(x: int, width: nat)
    ensures BigEndian(x, width + 1) == BigEndian(x / 256, width) + [(x % 256) as byte]
  {
  }

  /** The low four bytes by shifting. */
  lemma FourMore(x: int, width: nat)
    ensures BigEndian(x, width + 4)
         == BigEndian(x / U32, width) + [(x / 0x100_0000 % 256) as byte, (x / 0x1_0000 % 256) as byte,
                                         (x / 0x100 % 256) as byte, (x % 256) as byte]
  {
    var a, b, c := x / 0x100, x / 0x1_0000, x / 0x100_0000;
    BigEndianStep(x, width + 3);
    assert a == x / 256;
    BigEndianStep(a, width + 2);
    assert b == a / 256;
    BigEndianStep(b, width + 1);
    assert c == b / 256;
    BigEndianStep(c, width);
    assert c / 256 == x / U32;
    AppendFour(BigEndian(c / 256, width), (c % 256) as byte, (b % 256) as byte, (a % 256) as byte, (x % 256) as byte);
  }

  lemma EightBytes(x: int)
    ensures BigEndian(x / U32, 4) + BigEndian(x, 4) == BigEndian(x, 8)
  {
    FourMore(x, 0);
    FourMore(x, 4);
  }

  lemma EncodeVecNext(w: Bytes, vs: seq<Value>, t: Type, i: nat)
    requires i < |vs| && forall k :: 0 <= k < |vs| ==> HasType(vs[k], t)
    ensures w + EncodeVec(vs[..i + 1], t) == w + EncodeVec(vs[..i], t) + Encode(vs[i], t)
  {
    TakeTwice(vs, i, i + 1);
    Regroup(w, EncodeVec(vs[..i], t), Encode(vs[i], t));
  }

  lemma EncodeEntriesNext(w: Bytes, es: seq<(Value, Value)>, key: Type, val: Type, i: nat)
    requires i < |es| && forall k :: 0 <= k < |es| ==> HasType(es[k].0, key) && HasType(es[k].1, val)
    ensures w + EncodeEntries(es[..i + 1], key, val)
         == w + EncodeEntries(es[..i], key, val) + (Encode(es[i].0, key) + Encode(es[i].1, val))
  {
    TakeTwice(es, i, i + 1);
    Regroup3(w, EncodeEntries(es[..i], key, val), Encode(es[i].0, key), Encode(es[i].1, val));
  }

  lemma Regroup3(w: Bytes, a: Bytes, b: Bytes, c: Bytes)
    ensures w + (a + b + c) == w + a + (b + c)
  {
  }

  lemma EncodeArgsNext(w: Bytes, vs: seq<Value>, ts: seq<Type>, i: nat)
    requires i < |vs| && AllTyped(vs, ts)
    ensures w + EncodeArgs(vs[..i + 1], ts[..i + 1]) == w + EncodeArgs(vs[..i], ts[..i]) + Encode(vs[i], ts[i])
  {
    TakeTwice(vs, i, i + 1);
    TakeTwice(ts, i, i + 1);
    Regroup(w, EncodeArgs(vs[..i], ts[..i]), Encode(vs[i], ts[i]));
  }

  lemma Be32IsBigEndian(x: u32)
    ensures Be32(x) == BigEndian(x, 4)
    ensures Be32(x)[0] as int == x / 0x100_0000 && Be32(x)[3] as int == x % 0x100
  {
    FourMore(x, 0);
  }

  /** Only the low bytes of an integer are written. */
  lemma {:induction false} LowBytes(x: int, y: int, q: int, width: nat)
    requires x == y + q * Pow256(width)
    ensures BigEndian(x, width) == BigEndian(y, width)
    decreases width
  {
    if width > 0 {
      var p := Pow256(width - 1);
      DigitsOf(x, y, q * p);
      LowBytes(x / 256, y / 256, q, width - 1);
    }
  }

  lemma DigitsOf(x: int, y: int, d: int)
    requires x == y + 256 * d
    ensures x % 256 == y % 256 && x / 256 == y / 256 + d
  {
  }

  lemma LowWord(x: int)
    ensures BigEndian(x, 4) == BigEndian(x % U32, 4)
  {
    PowersOf256();
    LowBytes(x, x % U32, x / U32, 4);
  }

  lemma Word(x: int, y: u32)
    requires y == x % U32
    ensures BigEndian(x, 4) == Be32(y)
  {
    LowWord(x);
    Be32IsBigEndian(y);
  }

  /** The header fields of a request in their order, each most significant byte first. */
  lemma ReqLayout(h: ReqHeader)
    ensures ReqBytes(h)
         == Be32(Pattern(h.xid)) + Be32(Pattern(h.proc)) + Be32(h.cltNonce) + Be32(h.srvNonce) + Be32(Pattern(h.xidRep))
  {
    FiveWords(h.xid, h.proc, h.cltNonce, h.srvNonce, h.xidRep);
    Word(h.xid, Pattern(h.xid));
    Word(h.proc, Pattern(h.proc));
    Word(h.cltNonce, h.cltNonce);
    Word(h.srvNonce, h.srvNonce);
    Word(h.xidRep, Pattern(h.xidRep));
  }

  lemma ReplyLayout(h: ReplyHeader)
    ensures ReplyBytes(h) == Be32(Pattern(h.xid)) + Be32(Pattern(h.ret))
  {
    TwoWords(h.xid, h.ret);
    Word(h.xid, Pattern(h.xid));
    Word(h.ret, Pattern(h.ret));
  }

  lemma FiveWords(a: int, b: int, c: int, d: int, e: int)
    ensures Words([a, b, c, d, e])
         == BigEndian(a, 4) + BigEndian(b, 4) + BigEndian(c, 4) + BigEndian(d, 4) + BigEndian(e, 4)
  {
    TwoWords(a, b);
    ThreeMore([a, b], [a, b, c], [a, b, c, d], [a, b, c, d, e], c, d, e);
  }

  lemma ThreeMore(x2: seq<int>, x3: seq<int>, x4: seq<int>, x5: seq<int>, c: int, d: int, e: int)
    requires x3 == x2 + [c] && x4 == x3 + [d] && x5 == x4 + [e]
    ensures Words(x5) == Words(x2) + BigEndian(c, 4) + BigEndian(d, 4) + BigEndian(e, 4)
  {
    WordsSnoc(x2, c, x3);
    WordsSnoc(x3, d, x4);
    WordsSnoc(x4, e, x5);
  }

  lemma TwoWords(a: int, b: int)
    ensures Words([a, b]) == BigEndian(a, 4) + BigEndian(b, 4)
  {
    WordsSnoc([], a, [a]);
    WordsSnoc([a], b, [a, b]);
  }

  // ---- unmarshall ----

  class Unmarshaller {
    var buf: Bytes
    var ind: int
    var ok: bool

    ghost predicate Valid()
      reads this
    {
      0 <= ind && (ind <= |buf| || !ok)
    }

    ghost function State(): Reader
      requires 0 <= ind
      reads this
    {
      Reader(if ind <= |buf| then buf[ind..] else [], ok)
    }

    constructor (b: Bytes)
      ensures Valid() && buf == b && ind == 0 && ok
    {
      buf, ind, ok := b, 0, true;
    }

    method RawByte() returns (c: byte)
      requires 0 <= ind
      modifies this
      ensures buf == old(buf) && (old(Valid()) ==> Valid()) && 0 <= ind
      ensures (c, State()) == Codec.RawByte(old(State()))
    {
      c := 0;
      if ind >= |buf| {
        ok := false;
      } else {
        c := buf[ind];
        ind := ind + 1;
      }
    }

    /** Empty when the buffer is too short, as the target string was. */
    method RawBytes(n: nat) returns (s: Bytes)
      requires Valid()
      modifies this
      ensures buf == old(buf) && Valid()
      ensures (s, State()) == Codec.RawBytes(old(State()), n)
    {
      s := [];
      if ind + n > |buf| {
        ok := false;
      } else {
        s := buf[ind..ind + n];
        assert buf[ind..][..n] == s && buf[ind..][n..] == buf[ind + n..];
        ind := ind + n;
      }
    }

    /** Two more bytes below the `high` ones, the k bytes of `u` read so far. */
    method TwoBytes(high: nat, ghost u: Reader, ghost k: nat) returns (x: nat)
      requires 0 <= ind && (high, State()) == ReadInt(u, k)
      modifies this
      ensures buf == old(buf) && (old(Valid()) ==> Valid()) && 0 <= ind
      ensures (x, State()) == ReadInt(u, k + 2)
    {
      ghost var u0 := State();
      var b0 := RawByte();
      ghost var u1 := State();
      var b1 := RawByte();
      ByteStep(u, k, high, u0, b0, u1);
      ByteStep(u, k + 1, high * 256 + b0 as int, u1, b1, State());
      x := high * 0x1_0000 + b0 as int * 0x100 + b1 as int;
    }

    method U32() returns (x: nat)
      requires 0 <= ind
      modifies this
      ensures buf == old(buf) && (old(Valid()) ==> Valid()) && 0 <= ind
      ensures (x, State()) == ReadInt(old(State()), 4)
    {
      x := TwoBytes(0, State(), 0);
      x := TwoBytes(x, old(State()), 2);
    }

    /** `unpack`: the same bytes as a signed integer. */
    method Unpack() returns (x: i32)
      requires 0 <= ind
      modifies this
      ensures buf == old(buf) && (old(Valid()) ==> Valid()) && 0 <= ind
      ensures (x, State()) == ReadI32(old(State()))
    {
      ReadU32Range(State());
      var p := U32();
      x := Signed(p);
    }

    /** The next header field, n fields of `u` having been read. */
    method NextWord(ghost u: Reader, ghost n: nat, ghost xs: seq<i32>)
      returns (x: i32, ghost all: seq<i32>)
      requires 0 <= ind && ReadWords(u, n) == (xs, State())
      modifies this
      ensures buf == old(buf) && 0 <= ind
      ensures all == xs + [x] && ReadWords(u, n + 1) == (all, State())
    {
      ghost var u1 := State();
      x := Unpack();
      WordStep(u, n, xs, u1, x, State());
      all := xs + [x];
    }

    method GetInt(width: nat, signed: bool) returns (x: int)
      requires Valid() && (width == 1 || width == 2 || width == 4 || width == 8)
      modifies this
      ensures buf == old(buf) && Valid()
      ensures (Int(x), State()) == Decode(old(State()), TInt(width, signed))
    {
      ghost var u := State();
      if width == 8 {
        var h := U32();
        ReadsJoin(u, 4, h, State(), 4);
        var l := U32();
        x := h * Wire.U32 + l;
      } else if width == 4 {
        x := U32();
      } else if width == 2 {
        x := TwoBytes(0, u, 0);
      } else {
        var b := RawByte();
        ByteStep(u, 0, 0, u, b, State());
        x := b as int;
      }
      PowersOf256();
      if signed && 2 * x >= Pow256(width) {
        x := x - Pow256(width);
      }
    }

    method Get(t: Type) returns (v: Value)
      requires Valid() && IsType(t)
      modifies this
      ensures buf == old(buf) && Valid()
      ensures (v, State()) == Decode(old(State()), t)
      decreases t
    {
      match t
      case TInt(width, signed) =>
        var x := GetInt(width, signed);
        v := Int(x);
      case TStr =>
        var n := U32();
        var s := [];
        if ok {
          s := RawBytes(n);
        }
        v := Str(s);
      case TVec(elem) =>
        var n := U32();
        ghost var u := State();
        var vs, i := [], 0;
        while i < n
          invariant 0 <= i <= n && buf == old(buf) && Valid()
          invariant (vs, State()) == DecodeVec(u, elem, i)
        {
          var z := Get(elem);
          vs := vs + [z];
          i := i + 1;
        }
        v := Vec(vs);
      case TMap(key, val) =>
        var n := U32();
        ghost var u := State();
        var d, i := [], 0;
        while i < n
          invariant 0 <= i <= n && buf == old(buf) && Valid()
          invariant (d, State()) == DecodeEntries(u, key, val, i)
        {
          var a := Get(key);
          var b := Get(val);
          d := Insert(d, a, b);
          i := i + 1;
        }
        v := Map(d);
    }

    method GetArgs(ts: seq<Type>) returns (vs: seq<Value>)
      requires Valid() && forall i :: 0 <= i < |ts| ==> IsType(ts[i])
      modifies this
      ensures buf == old(buf) && Valid()
      ensures (vs, State()) == DecodeArgs(old(State()), ts)
    {
      vs := [];
      var i := 0;
      while i < |ts|
        invariant 0 <= i <= |ts| && buf == old(buf) && Valid()
        invariant (vs, State()) == DecodeArgs(old(State()), ts[..i])
      {
        var v := Get(ts[i]);
        vs := vs + [v];
        TakeTwice(ts, i, i + 1);
        i := i + 1;
      }
      assert ts[..i] == ts;
    }

    method Done() returns (done: bool)
      requires Valid()
      ensures done == OkDone(State())
    {
      done := ok && ind == |buf|;
    }

    method UnpackReqHeader() returns (h: ReqHeader)
      modifies this
      ensures buf == old(buf) && ind == RPC_HEADER_SZ && Valid()
      ensures forall g :: old(ok) && |buf| >= RPC_HEADER_SZ && buf[SIZE_WORD..RPC_HEADER_SZ] == ReqBytes(g) ==> h == g
      ensures ok == (old(ok) && |buf| >= RPC_HEADER_SZ)
    {
      ind := SIZE_WORD;
      ghost var u := State();
      ReadWordsOk(u, 5);
      var xid, w1 := NextWord(u, 0, []);
      var proc, w2 := NextWord(u, 1, w1);
      var clt, w3 := NextWord(u, 2, w2);
      var srv, w4 := NextWord(u, 3, w3);
      var rep, w5 := NextWord(u, 4, w4);
      h := ReqHeader(xid, proc, Pattern(clt), Pattern(srv), rep);
      ReqUnpacked(buf, u, 5, w5, h);
      ind := RPC_HEADER_SZ;
    }

    /** A reply of 12 to 23 bytes leaves `ok` set with the cursor past the end: only `TakeIn` may follow. */
    method UnpackReplyHeader() returns (h: ReplyHeader)
      modifies this
      ensures buf == old(buf) && ind == RPC_HEADER_SZ
      ensures forall g :: old(ok) && |buf| >= 12 && buf[SIZE_WORD..12] == ReplyBytes(g) ==> h == g
      ensures ok == (old(ok) && |buf| >= 12)
    {
      ind := SIZE_WORD;
      ghost var u := State();
      ReadWordsOk(u, 2);
      var xid, w1 := NextWord(u, 0, []);
      var ret, w2 := NextWord(u, 1, w1);
      h := ReplyHeader(xid, ret);
      ReplyUnpacked(buf, u, 2, w2, h);
      ind := RPC_HEADER_SZ;
    }

    /** Takes the buffer of another unmarshaller, ready to read what follows the header. */
    method TakeIn(another: Unmarshaller)
      requires another != this
      modifies this, another
      ensures buf == old(another.buf) && ind == RPC_HEADER_SZ && ok == (|buf| >= RPC_HEADER_SZ) && Valid()
      ensures another.buf == [] && another.ind == 0 && another.ok == old(another.ok)
    {
      buf := another.buf;
      another.buf, another.ind := [], 0;
      ind := RPC_HEADER_SZ;
      ok := |buf| >= RPC_HEADER_SZ;
    }
  }

  lemma ByteStep(u: Reader, width: nat, x: nat, u1: Reader, b: byte, u2: Reader)
    requires ReadInt(u, width) == (x, u1) && RawByte(u1) == (b, u2)
    ensures ReadInt(u, width + 1) == (x * 256 + b as int, u2)
  {
  }

  lemma WordStep(u: Reader, n: nat, xs: seq<i32>, u1: Reader, x: i32, u2: Reader)
    requires ReadWords(u, n) == (xs, u1) && ReadI32(u1) == (x, u2)
    ensures ReadWords(u, n + 1) == (xs + [x], u2)
  {
  }

  lemma ReqUnpacked(b: Bytes, u: Reader, n: nat, w: seq<i32>, h: ReqHeader)
    requires |b| >= RPC_HEADER_SZ ==> u.rest == b[SIZE_WORD..]
    requires n == 5 && w == ReadWords(u, n).0 && h == ReqOf(w)
    ensures forall g :: u.ok && |b| >= RPC_HEADER_SZ && b[SIZE_WORD..RPC_HEADER_SZ] == ReqBytes(g) ==> h == g
  {
    forall g | u.ok && |b| >= RPC_HEADER_SZ && b[SIZE_WORD..RPC_HEADER_SZ] == ReqBytes(g) ensures h == g {
      WordsBack(ReqInts(g), n, b, RPC_HEADER_SZ);
      ReqOfInts(g);
    }
  }

  lemma ReplyUnpacked(b: Bytes, u: Reader, n: nat, w: seq<i32>, h: ReplyHeader)
    requires |b| >= 12 ==> u.rest == b[SIZE_WORD..]
    requires n == 2 && w == ReadWords(u, n).0 && h == ReplyHeader(w[0], w[1])
    ensures forall g :: u.ok && |b| >= 12 && b[SIZE_WORD..12] == ReplyBytes(g) ==> h == g
  {
    forall g | u.ok && |b| >= 12 && b[SIZE_WORD..12] == ReplyBytes(g) ensures h == g {
      WordsBack([g.xid, g.ret], n, b, 12);
      SignedBack(g.xid);
      SignedBack(g.ret);
    }
  }

  /** Reading on from where m bytes have been read. */
  lemma {:induction false} ReadsJoin(u: Reader, m: nat, h: nat, u1: Reader, k: nat)
    requires ReadInt(u, m) == (h, u1)
    ensures ReadInt(u, m + k) == (h * Pow256(k) + ReadInt(u1, k).0, ReadInt(u1, k).1)
    decreases k
  {
    if k > 0 {
      ReadsJoin(u, m, h, u1, k - 1);
      var (l, u2) := ReadInt(u1, k - 1);
      ByteStep(u, m + k - 1, h * Pow256(k - 1) + l, u2, RawByte(u2).0, RawByte(u2).1);
      ByteStep(u1, k - 1, l, u2, RawByte(u2).0, RawByte(u2).1);
      TimesOver(h, Pow256(k - 1), l, RawByte(u2).0 as int);
    }
  }

  lemma TimesOver(h: int, p: int, l: int, b: int)
    ensures (h * p + l) * 256 + b == h * (256 * p) + (l * 256 + b)
  {
  }

  // ---- A whole exchange ----

  lemma HeaderSlices(p: Bytes, w: Bytes, h: Bytes, k: nat)
    requires k == SIZE_WORD + |h| <= RPC_HEADER_SZ <= |w| && p == w[..SIZE_WORD] + h + w[k..]
    ensures |p| == |w| && p[SIZE_WORD..k] == h && p[RPC_HEADER_SZ..] == w[RPC_HEADER_SZ..]
  {
  }

  /** The client's side: arguments first, the header into the reserved prefix afterwards. */
  method BuildRequest(h: ReqHeader, vs: seq<Value>, ts: seq<Type>) returns (p: Bytes)
    requires AllTyped(vs, ts)
    ensures |p| >= RPC_HEADER_SZ && p[SIZE_WORD..RPC_HEADER_SZ] == ReqBytes(h)
    ensures p[RPC_HEADER_SZ..] == EncodeArgs(vs, ts)
  {
    var m := new Marshaller();
    m.PutArgs(vs, ts);
    ghost var w := m.Written();
    m.PackReqHeader(h);
    p := m.buf[..m.ind];
    HeaderSlices(p, w, ReqBytes(h), RPC_HEADER_SZ);
  }

  /** The server's side: the header, then the arguments as the handler declares them, then `okdone`. */
  method AcceptRequest(p: Bytes, us: seq<Type>) returns (h: ReqHeader, vs: seq<Value>, done: bool)
    requires |p| >= RPC_HEADER_SZ && forall i :: 0 <= i < |us| ==> IsType(us[i])
    ensures forall g :: p[SIZE_WORD..RPC_HEADER_SZ] == ReqBytes(g) ==> h == g
    ensures vs == DecodeArgs(Reader(p[RPC_HEADER_SZ..], true), us).0
    ensures done == OkDone(DecodeArgs(Reader(p[RPC_HEADER_SZ..], true), us).1)
  {
    var u := new Unmarshaller(p);
    h := u.UnpackReqHeader();
    vs := u.GetArgs(us);
    done := u.Done();
  }

  /** A request arrives as it was sent; a handler of another arity is told that the arguments do not fit. */
  method RequestTrip(h: ReqHeader, vs: seq<Value>, ts: seq<Type>, us: seq<Type>)
    returns (h': ReqHeader, vs': seq<Value>, done: bool)
    requires AllTyped(vs, ts) && forall i :: 0 <= i < |us| ==> IsType(us[i])
    ensures h' == h
    ensures us == ts ==> done && vs' == vs
    ensures us < ts || ts < us ==> !done
  {
    var p := BuildRequest(h, vs, ts);
    h', vs', done := AcceptRequest(p, us);
    DecodedWith(vs, ts, us);
  }

  method BuildReply(h: ReplyHeader, vs: seq<Value>, ts: seq<Type>) returns (p: Bytes)
    requires AllTyped(vs, ts)
    ensures |p| >= RPC_HEADER_SZ && p[SIZE_WORD..12] == ReplyBytes(h)
    ensures p[RPC_HEADER_SZ..] == EncodeArgs(vs, ts)
  {
    var m := new Marshaller();
    m.PutArgs(vs, ts);
    ghost var w := m.Written();
    m.PackReplyHeader(h);
    p := m.buf[..m.ind];
    HeaderSlices(p, w, ReplyBytes(h), 12);
  }

  /** The client unpacks the header, takes the packet over and reads the result. */
  method AcceptReply(p: Bytes, us: seq<Type>) returns (h: ReplyHeader, vs: seq<Value>, done: bool)
    requires |p| >= RPC_HEADER_SZ && forall i :: 0 <= i < |us| ==> IsType(us[i])
    ensures forall g :: p[SIZE_WORD..12] == ReplyBytes(g) ==> h == g
    ensures vs == DecodeArgs(Reader(p[RPC_HEADER_SZ..], true), us).0
    ensures done == OkDone(DecodeArgs(Reader(p[RPC_HEADER_SZ..], true), us).1)
  {
    var u := new Unmarshaller(p);
    h := u.UnpackReplyHeader();
    var un := new Unmarshaller([]);
    un.TakeIn(u);
    vs := un.GetArgs(us);
    done := un.Done();
  }

  /** A reply arrives as it was sent, although its header fills only part of the reserved prefix. */
  method ReplyTrip(h: ReplyHeader, v: Value, t: Type, us: seq<Type>)
    returns (h': ReplyHeader, vs': seq<Value>, done: bool)
    requires IsType(t) && HasType(v, t) && forall i :: 0 <= i < |us| ==> IsType(us[i])
    ensures h' == h
    ensures us == [t] ==> done && vs' == [v]
    ensures us < [t] || [t] < us ==> !done
  {
    var p := BuildReply(h, [v], [t]);
    h', vs', done := AcceptReply(p, us);
    DecodedWith([v], [t], us);
  }

  lemma DecodedWith(vs: seq<Value>, ts: seq<Type>, us: seq<Type>)
    requires AllTyped(vs, ts) && forall i :: 0 <= i < |us| ==> IsType(us[i])
    ensures us == ts ==> DecodeArgs(Reader(EncodeArgs(vs, ts), true), us).0 == vs
    ensures us == ts ==> OkDone(DecodeArgs(Reader(EncodeArgs(vs, ts), true), us).1)
    ensures us < ts || ts < us ==> !OkDone(DecodeArgs(Reader(EncodeArgs(vs, ts), true), us).1)
  {
    if us == ts {
      DecodedWithOwnTypes(vs, ts);
    } else if us < ts {
      assert us == ts[..|us|];
      DecodedWithFewerTypes(vs, ts, |us|);
    } else if ts < us {
      DecodedWithMoreTypes(vs, ts, us);
    }
  }
}
