/** The byte forms behind every digest: UTF-8 text, big-endian integers, and length-prefixed fields
    (the writers of internal/center/activity/source.go, query.go and types.go). */
module Bytes {

  type Byte = b: int | 0 <= b < 256

  const TWO_63: int := 0x8000_0000_0000_0000
  const TWO_64: int := 0x1_0000_0000_0000_0000

  lemma Cut(a: seq<Byte>, x: seq<Byte>, b: seq<Byte>, y: seq<Byte>)
    requires a + x == b + y && |a| == |b|
    ensures a == b && x == y
  {
    assert a == (a + x)[..|a|] && b == (b + y)[..|b|];
    assert x == (a + x)[|a|..] && y == (b + y)[|b|..];
  }

  lemma Assoc(a: seq<Byte>, b: seq<Byte>, c: seq<Byte>)
    ensures (a + b) + c == a + (b + c)
  {
  }

  // ----- UTF-8 -----

  function Utf8Char(c: char): (r: seq<Byte>)
    ensures 1 <= |r| <= 4
  {
    var n := c as int;
    if n < 0x80 then [n]
    else if n < 0x800 then [0xC0 + n / 64, 0x80 + n % 64]
    else if n < 0x10000 then [0xE0 + n / 4096, 0x80 + n / 64 % 64, 0x80 + n % 64]
    else [0xF0 + n / 262144, 0x80 + n / 4096 % 64, 0x80 + n / 64 % 64, 0x80 + n % 64]
  }

  function Utf8(s: string): seq<Byte> {
    if s == "" then [] else Utf8Char(s[0]) + Utf8(s[1..])
  }

  /** The first byte of a character tells its length, so what follows it is no part of it. */
  lemma Utf8CharSplit(c: char, d: char, x: seq<Byte>, y: seq<Byte>)
    requires Utf8Char(c) + x == Utf8Char(d) + y
    ensures c == d && x == y
  {
    var s, t := Utf8Char(c) + x, Utf8Char(d) + y;
    assert s[0] == Utf8Char(c)[0] && t[0] == Utf8Char(d)[0];
    Cut(Utf8Char(c), x, Utf8Char(d), y);
    SameCode(c as int, d as int);
  }

  lemma SameCode(m: int, n: int)
    ensures m / 64 == n / 64 && m % 64 == n % 64 ==> m == n
    ensures m / 64 / 64 == m / 4096 && m / 4096 / 64 == m / 262144
    ensures n / 64 / 64 == n / 4096 && n / 4096 / 64 == n / 262144
  {
  }

  lemma {:induction false} Utf8Injective(s: string, t: string)
    requires Utf8(s) == Utf8(t)
    ensures s == t
  {
    if s != "" && t != "" {
      Utf8CharSplit(s[0], t[0], Utf8(s[1..]), Utf8(t[1..]));
      Utf8Injective(s[1..], t[1..]);
    }
  }

  lemma {:induction false} Utf8Length(s: string)
    ensures |s| <= |Utf8(s)| <= 4 * |s|
  {
    if s != "" {
      Utf8Length(s[1..]);
    }
  }

  // ----- integers -----

  /** The low `width` bytes, most significant first. */
  function BigEndian(n: nat, width: nat): (r: seq<Byte>)
    ensures |r| == width
  {
    if width == 0 then [] else BigEndian(n / 256, width - 1) + [n % 256]
  }

  function Pow256(k: nat): nat {
    if k == 0 then 1 else 256 * Pow256(k - 1)
  }

  lemma {:induction false} BigEndianInjective(m: nat, n: nat, width: nat)
    requires m < Pow256(width) && n < Pow256(width) && BigEndian(m, width) == BigEndian(n, width)
    ensures m == n
    decreases width
  {
    if width > 0 {
      var s, t := BigEndian(m, width), BigEndian(n, width);
      assert s[..width - 1] == BigEndian(m / 256, width - 1) && t[..width - 1] == BigEndian(n / 256, width - 1);
      assert s[width - 1] == m % 256 && t[width - 1] == n % 256;
      BigEndianInjective(m / 256, n / 256, width - 1);
    }
  }

  function FromBigEndian(s: seq<Byte>): nat {
    if s == [] then 0 else 256 * FromBigEndian(s[..|s| - 1]) + s[|s| - 1]
  }

  /** Reading back what was written, as long as it fits. */
  lemma {:induction false} BigEndianReads(n: nat, width: nat)
    requires n < Pow256(width)
    ensures FromBigEndian(BigEndian(n, width)) == n
    decreases width
  {
    if width > 0 {
      var s := BigEndian(n, width);
      assert s[..width - 1] == BigEndian(n / 256, width - 1);
      BigEndianReads(n / 256, width - 1);
    }
  }

  /** An unsigned or a signed 64-bit integer as eight bytes. */
  function U64(n: nat): seq<Byte> {
    BigEndian(n, 8)
  }

  /** In two's complement. */
  function I64(i: int): seq<Byte> {
    U64(if i >= 0 then i else if i + TWO_64 >= 0 then i + TWO_64 else 0)
  }

  lemma Pow256Eight()
    ensures Pow256(8) == TWO_64
  {
    assert Pow256(4) == 0x1_0000_0000;
    assert Pow256(8) == 256 * (256 * (256 * (256 * Pow256(4))));
  }

  lemma U64Split(m: nat, n: nat, x: seq<Byte>, y: seq<Byte>)
    requires m < TWO_64 && n < TWO_64 && U64(m) + x == U64(n) + y
    ensures m == n && x == y
  {
    Pow256Eight();
    Cut(U64(m), x, U64(n), y);
    BigEndianInjective(m, n, 8);
  }

  // ----- fields -----

  const LONGEST: int := 0x40_0000_0000_0000

  /** No machine holds a string of 2^54 characters or more; its bytes are then fewer than 2^56. */
  predicate Held(s: string) {
    |s| < LONGEST
  }

  /** What the digest writers write: a length-prefixed string, an unsigned or signed integer, a flag. */
  datatype Field = Text(s: string) | Num(n: nat) | Micro(i: int) | Flag(b: bool)

  predicate FieldOk(f: Field) {
    match f
    case Text(s) => Held(s)
    case Num(n) => n < TWO_64
    case Micro(i) => -TWO_63 <= i < TWO_63
    case Flag(_) => true
  }

  predicate SameForm(f: Field, g: Field) {
    f.Text? == g.Text? && f.Num? == g.Num? && f.Micro? == g.Micro?
  }

  function FieldBytes(f: Field): seq<Byte> {
    match f
    case Text(s) => U64(|Utf8(s)|) + Utf8(s)
    case Num(n) => U64(n)
    case Micro(i) => I64(i)
    case Flag(b) => if b then [1] else [0]
  }

  function Encode(fields: seq<Field>): seq<Byte> {
    if fields == [] then [] else FieldBytes(fields[0]) + Encode(fields[1..])
  }

  lemma TextSplit(s: string, t: string, x: seq<Byte>, y: seq<Byte>)
    requires FieldOk(Text(s)) && FieldOk(Text(t)) && FieldBytes(Text(s)) + x == FieldBytes(Text(t)) + y
    ensures s == t && x == y
  {
    var a, b := Utf8(s), Utf8(t);
    Utf8Length(s);
    Utf8Length(t);
    Assoc(U64(|a|), a, x);
    Assoc(U64(|b|), b, y);
    U64Split(|a|, |b|, a + x, b + y);
    Cut(a, x, b, y);
    Utf8Injective(s, t);
  }

  lemma MicroSplit(i: int, j: int, x: seq<Byte>, y: seq<Byte>)
    requires -TWO_63 <= i < TWO_63 && -TWO_63 <= j < TWO_63 && I64(i) + x == I64(j) + y
    ensures i == j && x == y
  {
    U64Split(if i >= 0 then i else i + TWO_64, if j >= 0 then j else j + TWO_64, x, y);
  }

  lemma FlagSplit(b: bool, c: bool, x: seq<Byte>, y: seq<Byte>)
    requires FieldBytes(Flag(b)) + x == FieldBytes(Flag(c)) + y
    ensures b == c && x == y
  {
    Cut(FieldBytes(Flag(b)), x, FieldBytes(Flag(c)), y);
  }

  lemma FieldSplit(f: Field, g: Field, x: seq<Byte>, y: seq<Byte>)
    requires SameForm(f, g) && FieldOk(f) && FieldOk(g) && FieldBytes(f) + x == FieldBytes(g) + y
    ensures f == g && x == y
  {
    match f
    case Text(s) => TextSplit(s, g.s, x, y);
    case Num(n) => U64Split(n, g.n, x, y);
    case Micro(i) => MicroSplit(i, g.i, x, y);
    case Flag(b) => FlagSplit(b, g.b, x, y);
  }

  predicate SameForms(fs: seq<Field>, gs: seq<Field>) {
    |fs| == |gs| && forall i :: 0 <= i < |fs| ==> SameForm(fs[i], gs[i])
  }

  predicate FieldsOk(fs: seq<Field>) {
    forall i :: 0 <= i < |fs| ==> FieldOk(fs[i])
  }

  lemma EncodeFirst(fs: seq<Field>, x: seq<Byte>)
    requires fs != []
    ensures Encode(fs) + x == FieldBytes(fs[0]) + (Encode(fs[1..]) + x)
  {
  }

  /** Fields of the same forms are told apart by their bytes, whatever follows them. */
  lemma {:induction false} FieldsSplit(fs: seq<Field>, gs: seq<Field>, x: seq<Byte>, y: seq<Byte>)
    requires SameForms(fs, gs) && FieldsOk(fs) && FieldsOk(gs) && Encode(fs) + x == Encode(gs) + y
    ensures fs == gs && x == y
  {
    if fs == [] {
      assert Encode(fs) + x == x && Encode(gs) + y == y;
    } else {
      EncodeFirst(fs, x);
      EncodeFirst(gs, y);
      FieldSplit(fs[0], gs[0], Encode(fs[1..]) + x, Encode(gs[1..]) + y);
      FieldsSplit(fs[1..], gs[1..], x, y);
      assert fs == [fs[0]] + fs[1..] && gs == [gs[0]] + gs[1..];
    }
  }

  lemma {:induction false} EncodeJoins(fs: seq<Field>, gs: seq<Field>)
    ensures Encode(fs + gs) == Encode(fs) + Encode(gs)
  {
    if fs == [] {
      assert fs + gs == gs;
    } else {
      assert (fs + gs)[1..] == fs[1..] + gs;
      EncodeJoins(fs[1..], gs);
      assert Encode(fs + gs) == FieldBytes(fs[0]) + (Encode(fs[1..]) + Encode(gs));
    }
  }
}
