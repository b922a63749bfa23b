/** Bytes of a shared mapping, raw writes into it, and the integer encodings the slot fields use. */
module Bytes {

  type byte = x: int | 0 <= x < 256

  const U16 := 0x1_0000
  const U32 := 0x1_0000_0000
  const USIZE := 0x1_0000_0000_0000_0000

  datatype Option<+T> = None | Some(value: T)

  // ---- Raw writes ---------------------------------------------------------------

  /** One copy of `data` to byte offset `off` of a mapping. */
  datatype Write = Write(off: nat, data: seq<byte>)

  predicate Fits(mem: seq<byte>, w: Write) {
    w.off + |w.data| <= |mem|
  }

  function Splice(mem: seq<byte>, w: Write): (r: seq<byte>)
    requires Fits(mem, w)
    ensures |r| == |mem|
    ensures forall a :: 0 <= a < |mem| && (a < w.off || w.off + |w.data| <= a) ==> r[a] == mem[a]
    ensures At(r, w)
  {
    mem[..w.off] + w.data + mem[w.off + |w.data|..]
  }

  /** The bytes of `w` are in place. */
  predicate At(mem: seq<byte>, w: Write) {
    Fits(mem, w) && mem[w.off..w.off + |w.data|] == w.data
  }

  predicate Apart(v: Write, w: Write) {
    v.off + |v.data| <= w.off || w.off + |w.data| <= v.off
  }

  ghost predicate AllAt(mem: seq<byte>, ws: seq<Write>) {
    forall j :: 0 <= j < |ws| ==> At(mem, ws[j])
  }

  ghost predicate AllFit(mem: seq<byte>, ws: seq<Write>) {
    forall j :: 0 <= j < |ws| ==> Fits(mem, ws[j])
  }

  /** The mapping after all of `ws`, in order. */
  ghost function ApplyAll(mem: seq<byte>, ws: seq<Write>): (r: seq<byte>)
    requires AllFit(mem, ws)
    ensures |r| == |mem|
  {
    if ws == [] then
      mem
    else
      var last := ws[|ws| - 1];
      assert Fits(mem, last);
      Splice(ApplyAll(mem, ws[..|ws| - 1]), last)
  }

  lemma SpliceKeeps(mem: seq<byte>, w: Write, v: Write)
    requires Fits(mem, w) && At(mem, v) && Apart(v, w)
    ensures At(Splice(mem, w), v)
  {
    var r := Splice(mem, w);
    assert forall a :: v.off <= a < v.off + |v.data| ==> r[a] == mem[a];
    assert r[v.off..v.off + |v.data|] == mem[v.off..v.off + |v.data|];
  }

  /** A write apart from all of `ws` leaves every one of them in place. */
  lemma SpliceKeepsAll(mem: seq<byte>, w: Write, ws: seq<Write>)
    requires Fits(mem, w) && AllAt(mem, ws)
    requires forall j :: 0 <= j < |ws| ==> Apart(ws[j], w)
    ensures AllAt(Splice(mem, w), ws)
  {
    forall j | 0 <= j < |ws| ensures At(Splice(mem, w), ws[j]) {
      SpliceKeeps(mem, w, ws[j]);
    }
  }

  lemma ApplySnoc(mem: seq<byte>, ws: seq<Write>, w: Write)
    requires AllFit(mem, ws) && Fits(mem, w)
    ensures AllFit(mem, ws + [w])
    ensures ApplyAll(mem, ws + [w]) == Splice(ApplyAll(mem, ws), w)
  {
    assert (ws + [w])[..|ws + [w]| - 1] == ws;
  }

  /** Bytes that no write of `ws` covers keep their value. */
  lemma {:induction false} ApplyFrame(mem: seq<byte>, ws: seq<Write>, a: nat)
    requires AllFit(mem, ws) && a < |mem|
    requires forall j :: 0 <= j < |ws| ==> a < ws[j].off || ws[j].off + |ws[j].data| <= a
    ensures ApplyAll(mem, ws)[a] == mem[a]
  {
    if ws != [] {
      ApplyFrame(mem, ws[..|ws| - 1], a);
    }
  }

  // ---- Fixed-width integers --------------------------------------------------------

  function Pow256(width: nat): (r: nat)
    ensures r > 0
  {
    if width == 0 then 1 else 256 * Pow256(width - 1)
  }

  /** The low `width` bytes of `n`, least significant first: storing it through a cast. */
  function LittleEndian(n: nat, width: nat): (s: seq<byte>)
    ensures |s| == width
  {
    if width == 0 then [] else [n % 256] + LittleEndian(n / 256, width - 1)
  }

  function FromLittleEndian(s: seq<byte>): nat {
    if s == [] then 0 else s[0] as int + 256 * FromLittleEndian(s[1..])
  }

  /** Storing a number in `width` bytes and loading it back truncates it modulo 256^width. */
  lemma {:induction false} CastRoundTrip(n: nat, width: nat)
    ensures FromLittleEndian(LittleEndian(n, width)) == n % Pow256(width)
  {
    if width > 0 {
      CastRoundTrip(n / 256, width - 1);
      CastStep(n, Pow256(width - 1));
      assert LittleEndian(n, width)[1..] == LittleEndian(n / 256, width - 1);
    }
  }

  lemma CastStep(n: nat, p: nat)
    requires p > 0
    ensures n % (256 * p) == n % 256 + 256 * (n / 256 % p)
  {
    var a := n / 256;
    var q, r := a / p, a % p;
    assert a == q * p + r;
    assert n == 256 * a + n % 256;
    assert 256 * (q * p) == q * (256 * p);
    ModUnique(n, 256 * p, q, 256 * r + n % 256);
  }

  lemma ModUnique(n: nat, m: nat, q: nat, r: nat)
    requires n == q * m + r && r < m
    ensures n % m == r
  {
    var d := n / m;
    assert n == d * m + n % m;
    MulStep(d, q, m);
    MulStep(q, d, m);
  }

  lemma MulMono(a: nat, b: nat, x: nat)
    requires a <= b
    ensures a * x <= b * x
  {
  }

  lemma MulStep(a: nat, b: nat, m: nat)
    ensures a < b ==> a * m + m <= b * m
  {
    if a < b {
      MulMono(a + 1, b, m);
      assert (a + 1) * m == a * m + m;
    }
  }

  lemma DivideTwice(n: nat, p: nat)
    requires p > 0
    ensures n / 10 / p == n / (10 * p)
  {
    var m := n / 10;
    var q, r := m / p, m % p;
    assert m == q * p + r;
    assert n == 10 * m + n % 10;
    assert 10 * (q * p) == q * (10 * p);
    QuotientUnique(n, 10 * p, q, 10 * r + n % 10);
  }

  lemma QuotientUnique(n: nat, m: nat, q: nat, r: nat)
    requires n == q * m + r && r < m
    ensures n / m == q
  {
    ModUnique(n, m, q, r);
    var d := n / m;
    assert n == d * m + r;
    MulStep(d, q, m);
    MulStep(q, d, m);
  }

  lemma {:induction false} LittleEndianBound(s: seq<byte>)
    ensures FromLittleEndian(s) < Pow256(|s|)
  {
    if s != [] {
      LittleEndianBound(s[1..]);
    }
  }

  lemma Widths()
    ensures Pow256(2) == U16 && Pow256(4) == U32
  {
    assert Pow256(1) == 256 && Pow256(2) == 65536 && Pow256(3) == 16777216;
  }

  /** `n as u16`, as stored. */
  function U16Bytes(n: nat): (s: seq<byte>)
    ensures |s| == 2
  {
    LittleEndian(n, 2)
  }

  /** `n as u32`, as stored. */
  function U32Bytes(n: nat): (s: seq<byte>)
    ensures |s| == 4
  {
    LittleEndian(n, 4)
  }

  /** The byte order on the wire. */
  lemma ByteOrder(n: nat)
    ensures U16Bytes(n) == [n % 256, n / 256 % 256]
    ensures U32Bytes(n) == [n % 256, n / 256 % 256, n / 0x1_0000 % 256, n / 0x100_0000 % 256]
  {
    assert LittleEndian(n / 256, 1) == [n / 256 % 256];
    assert LittleEndian(n / 256 / 256 / 256, 1) == [n / 0x100_0000 % 256];
    assert LittleEndian(n / 256 / 256, 2) == [n / 0x1_0000 % 256] + LittleEndian(n / 256 / 256 / 256, 1);
    assert LittleEndian(n / 256, 3) == [n / 256 % 256] + LittleEndian(n / 256 / 256, 2);
  }

  lemma U16RoundTrip(n: nat)
    ensures FromLittleEndian(U16Bytes(n)) == n % U16
  {
    CastRoundTrip(n, 2);
    Widths();
  }

  lemma U32RoundTrip(n: nat)
    ensures FromLittleEndian(U32Bytes(n)) == n % U32
  {
    CastRoundTrip(n, 4);
    Widths();
  }

  function Zeros(n: nat): (s: seq<byte>)
    ensures |s| == n
    ensures forall j :: 0 <= j < n ==> s[j] == 0
  {
    seq(n, _ => 0)
  }
}
