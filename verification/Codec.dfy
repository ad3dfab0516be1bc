/** The wire format of typed values and argument lists, and its inverse. */
module Codec {
  import opened Wire
  import opened RpcMessages

  /** Integers of 1, 2, 4 or 8 bytes, strings, vectors, and maps keyed by integers or strings. */
  datatype Type = TInt(width: nat, signed: bool) | TStr | TVec(elem: Type) | TMap(key: Type, val: Type)

  /** A map value lists its entries in key order, as iteration over it does. */
  datatype Value = Int(v: int) | Str(s: Bytes) | Vec(vs: seq<Value>) | Map(entries: seq<(Value, Value)>)

  predicate IsType(t: Type) {
    match t
    case TInt(width, signed) => width == 1 || width == 2 || width == 4 || (width == 8 && !signed)
    case TStr => true
    case TVec(elem) => IsType(elem)
    case TMap(key, val) => IsType(key) && IsType(val) && (key.TInt? || key.TStr?)
  }

  predicate InRange(v: int, width: nat, signed: bool) {
    if signed then -(Pow256(width) as int) <= 2 * v < Pow256(width) else 0 <= v < Pow256(width)
  }

  predicate BytesLess(a: Bytes, b: Bytes) {
    if b == [] then false
    else if a == [] then true
    else a[0] < b[0] || (a[0] == b[0] && BytesLess(a[1..], b[1..]))
  }

  /** The order of map keys. */
  predicate KeyLess(a: Value, b: Value) {
    match (a, b)
    case (Int(x), Int(y)) => x < y
    case (Str(x), Str(y)) => BytesLess(x, y)
    case _ => false
  }

  /** Every key is above all keys before it. */
  predicate Ascending(es: seq<(Value, Value)>) {
    es == [] || (Ascending(es[..|es| - 1]) && AllBelow(es[..|es| - 1], es[|es| - 1].0))
  }

  predicate AllBelow(es: seq<(Value, Value)>, k: Value) {
    es == [] || (KeyLess(es[0].0, k) && AllBelow(es[1..], k))
  }

  predicate HasType(v: Value, t: Type) {
    match (v, t)
    case (Int(x), TInt(width, signed)) => InRange(x, width, signed)
    case (Str(s), TStr) => |s| < U32
    case (Vec(vs), TVec(elem)) => |vs| < U32 && forall i :: 0 <= i < |vs| ==> HasType(vs[i], elem)
    case (Map(es), TMap(key, val)) =>
      && |es| < U32
      && (forall i :: 0 <= i < |es| ==> HasType(es[i].0, key) && HasType(es[i].1, val))
      && Ascending(es)
    case _ => false
  }

  // ---- Encoding ----

  /** The low `width` bytes of x, most significant first. */
  function BigEndian(x: int, width: nat): (b: Bytes)
    ensures |b| == width
    decreases width, x
  {
    if width == 0 then [] else BigEndian(x / 256, width - 1) + [(x % 256) as byte]
  }

  function Encode(v: Value, t: Type): Bytes
    requires HasType(v, t)
    decreases t, 2, 0
  {
    match t
    case TInt(width, _) => BigEndian(v.v, width)
    case TStr => BigEndian(|v.s|, 4) + v.s
    case TVec(elem) => BigEndian(|v.vs|, 4) + EncodeVec(v.vs, elem)
    case TMap(key, val) => BigEndian(|v.entries|, 4) + EncodeEntries(v.entries, key, val)
  }

  function EncodeVec(vs: seq<Value>, t: Type): Bytes
    requires forall i :: 0 <= i < |vs| ==> HasType(vs[i], t)
    decreases t, 3, |vs|
  {
    if vs == [] then [] else EncodeVec(vs[..|vs| - 1], t) + Encode(vs[|vs| - 1], t)
  }

  function EncodeEntries(es: seq<(Value, Value)>, key: Type, val: Type): Bytes
    requires forall i :: 0 <= i < |es| ==> HasType(es[i].0, key) && HasType(es[i].1, val)
    decreases TMap(key, val), 1, |es|
  {
    if es == [] then []
    else
      var e := es[|es| - 1];
      EncodeEntries(es[..|es| - 1], key, val) + Encode(e.0, key) + Encode(e.1, val)
  }

  // ---- Decoding ----

  /** What an `unmarshall` has still to read. A read past the end yields 0 and clears `ok` for good. */
  datatype Reader = Reader(rest: Bytes, ok: bool)

  function RawByte(u: Reader): (byte, Reader) {
    if u.rest == [] then (0, u.(ok := false)) else (u.rest[0], u.(rest := u.rest[1..]))
  }

  function ReadInt(u: Reader, width: nat): (nat, Reader)
    decreases width, u
  {
    if width == 0 then (0, u)
    else
      var (high, u1) := ReadInt(u, width - 1);
      var (low, u2) := RawByte(u1);
      (high * 256 + low as int, u2)
  }

  function RawBytes(u: Reader, n: nat): (Bytes, Reader) {
    if n > |u.rest| then ([], u.(ok := false)) else (u.rest[..n], u.(rest := u.rest[n..]))
  }

  function FromPattern(x: nat, width: nat, signed: bool): int {
    if signed && 2 * x >= Pow256(width) then x - Pow256(width) else x
  }

  function Decode(u: Reader, t: Type): (Value, Reader)
    decreases t, 2, 0
  {
    match t
    case TInt(width, signed) =>
      var (x, u') := ReadInt(u, width);
      (Int(FromPattern(x, width, signed)), u')
    case TStr =>
      var (n, u1) := ReadInt(u, 4);
      if u1.ok then var (s, u2) := RawBytes(u1, n); (Str(s), u2) else (Str([]), u1)
    case TVec(elem) =>
      var (n, u1) := ReadInt(u, 4);
      var (vs, u2) := DecodeVec(u1, elem, n);
      (Vec(vs), u2)
    case TMap(key, val) =>
      var (n, u1) := ReadInt(u, 4);
      var (es, u2) := DecodeEntries(u1, key, val, n);
      (Map(es), u2)
  }

  function DecodeVec(u: Reader, t: Type, n: nat): (seq<Value>, Reader)
    decreases t, 3, n
  {
    if n == 0 then ([], u)
    else
      var (vs, u1) := DecodeVec(u, t, n - 1);
      var (v, u2) := Decode(u1, t);
      (vs + [v], u2)
  }

  /** `d[k] = v` on the ordered entries of a map. */
  function Insert(es: seq<(Value, Value)>, k: Value, v: Value): seq<(Value, Value)> {
    if es == [] then [(k, v)]
    else if es[0].0 == k then [(k, v)] + es[1..]
    else if KeyLess(k, es[0].0) then [(k, v)] + es
    else [es[0]] + Insert(es[1..], k, v)
  }

  function DecodeEntries(u: Reader, key: Type, val: Type, n: nat): (seq<(Value, Value)>, Reader)
    decreases TMap(key, val), 1, n
  {
    if n == 0 then ([], u)
    else
      var (es, u1) := DecodeEntries(u, key, val, n - 1);
      var (k, u2) := Decode(u1, key);
      var (v, u3) := Decode(u2, val);
      (Insert(es, k, v), u3)
  }

  // ---- Argument lists ----

  predicate AllTyped(vs: seq<Value>, ts: seq<Type>) {
    |vs| == |ts| && forall i :: 0 <= i < |vs| ==> IsType(ts[i]) && HasType(vs[i], ts[i])
  }

  function EncodeArgs(vs: seq<Value>, ts: seq<Type>): Bytes
    requires AllTyped(vs, ts)
  {
    if vs == [] then []
    else EncodeArgs(vs[..|vs| - 1], ts[..|ts| - 1]) + Encode(vs[|vs| - 1], ts[|ts| - 1])
  }

  function DecodeArgs(u: Reader, ts: seq<Type>): (seq<Value>, Reader) {
    if ts == [] then ([], u)
    else
      var (vs, u1) := DecodeArgs(u, ts[..|ts| - 1]);
      var (v, u2) := Decode(u1, ts[|ts| - 1]);
      (vs + [v], u2)
  }

  predicate OkDone(u: Reader) {
    u.ok && u.rest == []
  }

  // ---- The inverse ----

  lemma {:induction false} IntRoundTrip(x: int, width: nat, tail: Bytes)
    ensures ReadInt(Reader(BigEndian(x, width) + tail, true), width) == (x % Pow256(width), Reader(tail, true))
    decreases width
  {
    if width > 0 {
      var high, low := BigEndian(x / 256, width - 1), [(x % 256) as byte];
      assert high + low + tail == high + (low + tail);
      IntRoundTrip(x / 256, width - 1, low + tail);
      assert (low + tail)[1..] == tail;
      assert RawByte(Reader(low + tail, true)) == (low[0], Reader(tail, true));
      ModStep(x, Pow256(width - 1));
    } else {
      assert BigEndian(x, width) + tail == tail;
    }
  }

  lemma ModStep(x: int, p: nat)
    requires p > 0
    ensures x / 256 % p * 256 + x % 256 == x % (256 * p)
  {
    var q, r := x / 256 / p, x / 256 % p;
    assert x / 256 == q * p + r;
    assert x == (q * p + r) * 256 + x % 256 == q * (256 * p) + (r * 256 + x % 256);
    ModUnique(x, 256 * p, q, r * 256 + x % 256);
  }

  lemma ModUnique(x: int, m: nat, q: int, r: int)
    requires m > 0 && x == q * m + r && 0 <= r < m
    ensures x % m == r
  {
    var d := x / m - q;
    assert d * m == r - x % m;
    assert d >= 1 ==> d * m >= m;
    assert d <= -1 ==> d * m <= -1 * m;
  }

  lemma PatternRoundTrip(x: int, width: nat, signed: bool)
    requires InRange(x, width, signed)
    ensures FromPattern(x % Pow256(width), width, signed) == x
  {
    if x < 0 {
      ModUnique(x, Pow256(width), -1, x + Pow256(width));
    } else {
      ModUnique(x, Pow256(width), 0, x);
    }
  }

  /** Every pattern of bytes stands for a value of its type, negative exactly if its highest bit is set. */
  lemma PatternInRange(x: nat, width: nat, signed: bool)
    requires x < Pow256(width)
    ensures InRange(FromPattern(x, width, signed), width, signed)
    ensures FromPattern(x, width, signed) < 0 <==> signed && 2 * x >= Pow256(width)
    ensures FromPattern(x, width, signed) % Pow256(width) == x
  {
    var p := Pow256(width);
    if signed && 2 * x >= p {
      ModUnique(x - p, p, -1, x);
    } else {
      ModUnique(x, p, 0, x);
    }
  }

  lemma CountRoundTrip(n: nat, tail: Bytes)
    requires n < U32
    ensures ReadInt(Reader(BigEndian(n, 4) + tail, true), 4) == (n, Reader(tail, true))
  {
    IntRoundTrip(n, 4, tail);
    PowersOf256();
    ModUnique(n, U32, 0, n);
  }

  lemma {:induction false} BytesLessAsymmetric(a: Bytes, b: Bytes)
    requires BytesLess(a, b)
    ensures !BytesLess(b, a) && a != b
  {
    if a != [] && a[0] == b[0] {
      BytesLessAsymmetric(a[1..], b[1..]);
    }
  }

  /** The order of string keys: at the first difference the smaller byte, or the end of the string, comes first. */
  lemma {:induction false} BytesLessIff(a: Bytes, b: Bytes)
    ensures BytesLess(a, b) <==> exists k :: FirstDifference(a, b, k)
  {
    if a != [] && b != [] && a[0] == b[0] {
      BytesLessIff(a[1..], b[1..]);
      forall k: nat | FirstDifference(a[1..], b[1..], k) ensures FirstDifference(a, b, k + 1) {
        Deeper(a, b, k);
      }
      forall k: nat | FirstDifference(a, b, k) ensures k > 0 && FirstDifference(a[1..], b[1..], k - 1) {
        if k > 0 {
          Deeper(a, b, k - 1);
        }
      }
    } else if BytesLess(a, b) {
      assert FirstDifference(a, b, 0);
    }
  }

  lemma Deeper(a: Bytes, b: Bytes, k: nat)
    requires a != [] && b != [] && a[0] == b[0]
    ensures FirstDifference(a[1..], b[1..], k) <==> FirstDifference(a, b, k + 1)
  {
    if k + 1 <= |a| && k + 1 < |b| {
      assert a[..k + 1] == [a[0]] + a[1..][..k] && b[..k + 1] == [b[0]] + b[1..][..k];
      assert a[..k + 1][1..] == a[1..][..k] && b[..k + 1][1..] == b[1..][..k];
    }
  }

  predicate FirstDifference(a: Bytes, b: Bytes, k: nat) {
    k <= |a| && k < |b| && a[..k] == b[..k] && (k == |a| || a[k] < b[k])
  }

  /** What a key stands for in the entries of a map. */
  function Lookup(es: seq<(Value, Value)>, k: Value): Option<Value> {
    if es == [] then None else if es[0].0 == k then Some(es[0].1) else Lookup(es[1..], k)
  }

  /** Assigning to a key changes what that key stands for, and no other. */
  lemma {:induction false} InsertIsAssignment(es: seq<(Value, Value)>, k: Value, v: Value, j: Value)
    ensures Lookup(Insert(es, k, v), j) == if j == k then Some(v) else Lookup(es, j)
  {
    if es != [] && es[0].0 != k && !KeyLess(k, es[0].0) {
      InsertIsAssignment(es[1..], k, v, j);
    }
  }

  lemma KeyLessAsymmetric(a: Value, b: Value)
    requires KeyLess(a, b)
    ensures !KeyLess(b, a) && a != b
  {
    if a.Str? {
      BytesLessAsymmetric(a.s, b.s);
    }
  }

  /** A key above all others goes to the end. */
  lemma {:induction false} InsertLast(es: seq<(Value, Value)>, k: Value, v: Value)
    requires AllBelow(es, k)
    ensures Insert(es, k, v) == es + [(k, v)]
  {
    if es != [] {
      KeyLessAsymmetric(es[0].0, k);
      InsertLast(es[1..], k, v);
    }
  }

  /** Decoding with the same type gives back the value and leaves the bytes behind it. */
  lemma {:induction false} RoundTrip(v: Value, t: Type, tail: Bytes)
    requires HasType(v, t)
    ensures Decode(Reader(Encode(v, t) + tail, true), t) == (v, Reader(tail, true))
    decreases t, 2, 0
  {
    match t
    case TInt(width, signed) =>
      IntRoundTrip(v.v, width, tail);
      PatternRoundTrip(v.v, width, signed);
    case TStr =>
      StrRoundTrip(v.s, tail);
    case TVec(elem) =>
      VecRoundTrip(v.vs, elem, tail);
      VecHeader(v.vs, elem, EncodeVec(v.vs, elem), tail);
    case TMap(key, val) =>
      EntriesRoundTrip(v.entries, key, val, tail);
      MapHeader(v.entries, key, val, EncodeEntries(v.entries, key, val), tail);
  }

  lemma StrRoundTrip(s: Bytes, tail: Bytes)
    requires |s| < U32
    ensures Decode(Reader(BigEndian(|s|, 4) + s + tail, true), TStr) == (Str(s), Reader(tail, true))
  {
    Regroup(BigEndian(|s|, 4), s, tail);
    CountRoundTrip(|s|, s + tail);
    RawBytesRoundTrip(s, tail);
  }

  lemma RawBytesRoundTrip(s: Bytes, tail: Bytes)
    ensures RawBytes(Reader(s + tail, true), |s|) == (s, Reader(tail, true))
  {
  }

  lemma VecHeader(vs: seq<Value>, elem: Type, b: Bytes, tail: Bytes)
    requires |vs| < U32 && DecodeVec(Reader(b + tail, true), elem, |vs|) == (vs, Reader(tail, true))
    ensures Decode(Reader(BigEndian(|vs|, 4) + b + tail, true), TVec(elem)) == (Vec(vs), Reader(tail, true))
  {
    Regroup(BigEndian(|vs|, 4), b, tail);
    CountRoundTrip(|vs|, b + tail);
  }

  lemma MapHeader(es: seq<(Value, Value)>, key: Type, val: Type, b: Bytes, tail: Bytes)
    requires |es| < U32 && DecodeEntries(Reader(b + tail, true), key, val, |es|) == (es, Reader(tail, true))
    ensures Decode(Reader(BigEndian(|es|, 4) + b + tail, true), TMap(key, val)) == (Map(es), Reader(tail, true))
  {
    Regroup(BigEndian(|es|, 4), b, tail);
    CountRoundTrip(|es|, b + tail);
  }

  lemma {:induction false} VecRoundTrip(vs: seq<Value>, t: Type, tail: Bytes)
    requires forall i :: 0 <= i < |vs| ==> HasType(vs[i], t)
    ensures DecodeVec(Reader(EncodeVec(vs, t) + tail, true), t, |vs|) == (vs, Reader(tail, true))
    decreases t, 3, |vs|
  {
    if vs != [] {
      var init, last := vs[..|vs| - 1], vs[|vs| - 1];
      var b := Encode(last, t);
      VecRoundTrip(init, t, b + tail);
      RoundTrip(last, t, tail);
      Regroup(EncodeVec(init, t), b, tail);
      VecSnoc(Reader(EncodeVec(vs, t) + tail, true), t, vs, Reader(b + tail, true), Reader(tail, true));
    } else {
      assert EncodeVec(vs, t) + tail == tail;
    }
  }

  lemma Regroup(a: Bytes, b: Bytes, tail: Bytes)
    ensures a + b + tail == a + (b + tail)
  {
  }

  lemma VecSnoc(u: Reader, t: Type, vs: seq<Value>, u1: Reader, u2: Reader)
    requires vs != [] && DecodeVec(u, t, |vs| - 1) == (vs[..|vs| - 1], u1)
    requires Decode(u1, t) == (vs[|vs| - 1], u2)
    ensures DecodeVec(u, t, |vs|) == (vs, u2)
  {
    assert vs == vs[..|vs| - 1] + [vs[|vs| - 1]];
  }

  lemma {:induction false} EntriesRoundTrip(es: seq<(Value, Value)>, key: Type, val: Type, tail: Bytes)
    requires Ascending(es) && forall i :: 0 <= i < |es| ==> HasType(es[i].0, key) && HasType(es[i].1, val)
    ensures DecodeEntries(Reader(EncodeEntries(es, key, val) + tail, true), key, val, |es|) == (es, Reader(tail, true))
    decreases TMap(key, val), 1, |es|
  {
    if es != [] {
      var init, e := es[..|es| - 1], es[|es| - 1];
      var a, b, c := EncodeEntries(init, key, val), Encode(e.0, key), Encode(e.1, val);
      EntriesRoundTrip(init, key, val, b + (c + tail));
      RoundTrip(e.0, key, c + tail);
      RoundTrip(e.1, val, tail);
      Regroup(a + b, c, tail);
      Regroup(a, b, c + tail);
      LastInserted(es);
      EntriesSnoc(Reader(a + b + c + tail, true), key, val, es,
                  Reader(b + (c + tail), true), Reader(c + tail, true), Reader(tail, true));
    } else {
      assert EncodeEntries(es, key, val) + tail == tail;
    }
  }

  lemma LastInserted(es: seq<(Value, Value)>)
    requires es != [] && Ascending(es)
    ensures Insert(es[..|es| - 1], es[|es| - 1].0, es[|es| - 1].1) == es
  {
    InsertLast(es[..|es| - 1], es[|es| - 1].0, es[|es| - 1].1);
    assert es == es[..|es| - 1] + [es[|es| - 1]];
  }

  lemma EntriesSnoc(u: Reader, key: Type, val: Type, es: seq<(Value, Value)>, u1: Reader, u2: Reader, u3: Reader)
    requires es != [] && Insert(es[..|es| - 1], es[|es| - 1].0, es[|es| - 1].1) == es
    requires DecodeEntries(u, key, val, |es| - 1) == (es[..|es| - 1], u1)
    requires Decode(u1, key) == (es[|es| - 1].0, u2) && Decode(u2, val) == (es[|es| - 1].1, u3)
    ensures DecodeEntries(u, key, val, |es|) == (es, u3)
  {
  }

  lemma {:induction false} ArgsRoundTrip(vs: seq<Value>, ts: seq<Type>, tail: Bytes)
    requires AllTyped(vs, ts)
    ensures DecodeArgs(Reader(EncodeArgs(vs, ts) + tail, true), ts) == (vs, Reader(tail, true))
    decreases |vs|
  {
    if vs != [] {
      var vi, ti, v, t := vs[..|vs| - 1], ts[..|ts| - 1], vs[|vs| - 1], ts[|ts| - 1];
      var b := Encode(v, t);
      ArgsRoundTrip(vi, ti, b + tail);
      RoundTrip(v, t, tail);
      Regroup(EncodeArgs(vi, ti), b, tail);
      ArgsSnoc(Reader(EncodeArgs(vs, ts) + tail, true), ts, vs, Reader(b + tail, true), Reader(tail, true));
    } else {
      assert EncodeArgs(vs, ts) + tail == tail;
    }
  }

  lemma ArgsSnoc(u: Reader, ts: seq<Type>, vs: seq<Value>, u1: Reader, u2: Reader)
    requires ts != [] && |vs| == |ts|
    requires DecodeArgs(u, ts[..|ts| - 1]) == (vs[..|vs| - 1], u1)
    requires Decode(u1, ts[|ts| - 1]) == (vs[|vs| - 1], u2)
    ensures DecodeArgs(u, ts) == (vs, u2)
  {
    assert vs == vs[..|vs| - 1] + [vs[|vs| - 1]];
  }

  // ---- A wrong number of arguments is noticed ----

  /** Reading never makes `ok` true again, and never puts bytes back. */
  predicate Later(u: Reader, u': Reader) {
    (!u.ok ==> !u'.ok) && |u'.rest| <= |u.rest|
  }

  lemma {:induction false} ReadIntLater(u: Reader, width: nat)
    ensures Later(u, ReadInt(u, width).1)
    ensures u.rest == [] && width > 0 ==> !ReadInt(u, width).1.ok
  {
    if width > 0 {
      ReadIntLater(u, width - 1);
    }
  }

  lemma {:induction false} DecodeLater(u: Reader, t: Type)
    ensures Later(u, Decode(u, t).1)
    decreases t, 2, 0
  {
    match t
    case TInt(width, signed) => ReadIntLater(u, width);
    case TStr => ReadIntLater(u, 4);
    case TVec(elem) =>
      ReadIntLater(u, 4);
      DecodeVecLater(ReadInt(u, 4).1, elem, ReadInt(u, 4).0);
    case TMap(key, val) =>
      ReadIntLater(u, 4);
      DecodeEntriesLater(ReadInt(u, 4).1, key, val, ReadInt(u, 4).0);
  }

  lemma {:induction false} DecodeVecLater(u: Reader, t: Type, n: nat)
    ensures Later(u, DecodeVec(u, t, n).1)
    decreases t, 3, n
  {
    if n > 0 {
      DecodeVecLater(u, t, n - 1);
      DecodeLater(DecodeVec(u, t, n - 1).1, t);
    }
  }

  lemma {:induction false} DecodeEntriesLater(u: Reader, key: Type, val: Type, n: nat)
    ensures Later(u, DecodeEntries(u, key, val, n).1)
    decreases TMap(key, val), 1, n
  {
    if n > 0 {
      DecodeEntriesLater(u, key, val, n - 1);
      var u1 := DecodeEntries(u, key, val, n - 1).1;
      DecodeLater(u1, key);
      DecodeLater(Decode(u1, key).1, val);
    }
  }

  /** At the end of the buffer nothing can be decoded. */
  lemma DecodeAtEnd(ok: bool, t: Type)
    requires IsType(t)
    ensures !Decode(Reader([], ok), t).1.ok
  {
    var u := Reader([], ok);
    match t
    case TInt(width, signed) => ReadIntLater(u, width);
    case TStr => ReadIntLater(u, 4);
    case TVec(elem) =>
      ReadIntLater(u, 4);
      DecodeVecLater(ReadInt(u, 4).1, elem, ReadInt(u, 4).0);
    case TMap(key, val) =>
      ReadIntLater(u, 4);
      DecodeEntriesLater(ReadInt(u, 4).1, key, val, ReadInt(u, 4).0);
  }

  lemma EncodeNotEmpty(v: Value, t: Type)
    requires IsType(t) && HasType(v, t)
    ensures |Encode(v, t)| > 0
  {
  }

  /** The encoding of a list is that of its first k arguments and, if there are more, something after it. */
  lemma {:induction false} EncodeArgsSplit(vs: seq<Value>, ts: seq<Type>, k: nat) returns (tail: Bytes)
    requires AllTyped(vs, ts) && k <= |ts|
    ensures EncodeArgs(vs, ts) == EncodeArgs(vs[..k], ts[..k]) + tail
    ensures k < |ts| ==> tail != []
    decreases |vs|
  {
    if k < |ts| {
      var vi, ti := vs[..|vs| - 1], ts[..|ts| - 1];
      var t := EncodeArgsSplit(vi, ti, k);
      TakeTwice(vs, k, |vs| - 1);
      TakeTwice(ts, k, |ts| - 1);
      tail := EncodeArgsLast(vs, ts, EncodeArgs(vs[..k], ts[..k]), t);
    } else {
      assert vs[..k] == vs && ts[..k] == ts;
      tail := [];
    }
  }

  lemma TakeTwice<T>(s: seq<T>, k: nat, n: nat)
    requires k <= n <= |s|
    ensures s[..n][..k] == s[..k]
  {
  }

  lemma EncodeArgsLast(vs: seq<Value>, ts: seq<Type>, a: Bytes, t: Bytes) returns (tail: Bytes)
    requires AllTyped(vs, ts) && vs != [] && EncodeArgs(vs[..|vs| - 1], ts[..|ts| - 1]) == a + t
    ensures EncodeArgs(vs, ts) == a + tail && tail != []
  {
    var b := Encode(vs[|vs| - 1], ts[|ts| - 1]);
    EncodeNotEmpty(vs[|vs| - 1], ts[|ts| - 1]);
    Regroup(a, t, b);
    tail := t + b;
  }

  /** Decoding an argument list with its own types returns the values, and is done. */
  lemma DecodedWithOwnTypes(vs: seq<Value>, ts: seq<Type>)
    requires AllTyped(vs, ts)
    ensures DecodeArgs(Reader(EncodeArgs(vs, ts), true), ts).0 == vs
    ensures OkDone(DecodeArgs(Reader(EncodeArgs(vs, ts), true), ts).1)
  {
    assert EncodeArgs(vs, ts) + [] == EncodeArgs(vs, ts);
    ArgsRoundTrip(vs, ts, []);
  }

  /** Decoding with only the first k types leaves bytes over. */
  lemma DecodedWithFewerTypes(vs: seq<Value>, ts: seq<Type>, k: nat)
    requires AllTyped(vs, ts) && k < |ts|
    ensures !OkDone(DecodeArgs(Reader(EncodeArgs(vs, ts), true), ts[..k]).1)
  {
    var tail := EncodeArgsSplit(vs, ts, k);
    ArgsRoundTrip(vs[..k], ts[..k], tail);
  }

  lemma {:induction false} ArgsSticky(u: Reader, ts: seq<Type>, k: nat)
    requires k <= |ts| && !DecodeArgs(u, ts[..k]).1.ok
    ensures !DecodeArgs(u, ts).1.ok
    decreases |ts|
  {
    if k < |ts| {
      assert ts[..|ts| - 1][..k] == ts[..k];
      ArgsSticky(u, ts[..|ts| - 1], k);
      DecodeLater(DecodeArgs(u, ts[..|ts| - 1]).1, ts[|ts| - 1]);
    } else {
      assert ts[..k] == ts;
    }
  }

  lemma OneMore(u: Reader, ts: seq<Type>, all: seq<Type>)
    requires |ts| < |all| && all[..|ts|] == ts && IsType(all[|ts|]) && DecodeArgs(u, ts).1.rest == []
    ensures !DecodeArgs(u, all[..|ts| + 1]).1.ok
  {
    TakeTwice(all, |ts|, |ts| + 1);
    DecodeAtEnd(DecodeArgs(u, ts).1.ok, all[|ts|]);
  }

  /** Decoding with more types than were encoded runs off the end. */
  lemma DecodedWithMoreTypes(vs: seq<Value>, ts: seq<Type>, all: seq<Type>)
    requires AllTyped(vs, ts) && |ts| < |all| && all[..|ts|] == ts && IsType(all[|ts|])
    ensures !OkDone(DecodeArgs(Reader(EncodeArgs(vs, ts), true), all).1)
  {
    var u := Reader(EncodeArgs(vs, ts), true);
    DecodedWithOwnTypes(vs, ts);
    OneMore(u, ts, all);
    ArgsSticky(u, all, |ts| + 1);
  }
}
