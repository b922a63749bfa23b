/** Overflow region names (`config.rs`), without the macOS hashing of long names. */
module Names {
  import opened Bytes
  import opened Layout

  predicate IsDigit(c: char) {
    '0' <= c <= '9'
  }

  function Digit(d: nat): (c: char)
    requires d < 10
    ensures IsDigit(c) && c as int - '0' as int == d
  {
    (d + '0' as int) as char
  }

  /** `{n}` of `format!` */
  function Decimal(n: nat): (s: string)
    ensures |s| > 0
    ensures forall j :: 0 <= j < |s| ==> IsDigit(s[j])
  {
    if n < 10 then [Digit(n)] else Decimal(n / 10) + [Digit(n % 10)]
  }

  function Value(c: char): nat
    requires IsDigit(c)
  {
    c as int - '0' as int
  }

  function FromDecimal(s: string): nat
    requires forall j :: 0 <= j < |s| ==> IsDigit(s[j])
  {
    if s == [] then 0 else 10 * FromDecimal(s[..|s| - 1]) + Value(s[|s| - 1])
  }

  /** Printing loses nothing. */
  lemma {:induction false} DecimalRoundTrip(n: nat)
    ensures FromDecimal(Decimal(n)) == n
  {
    if n < 10 {
      assert Decimal(n)[..0] == [];
    } else {
      var s := Decimal(n);
      DecimalRoundTrip(n / 10);
      assert s[..|s| - 1] == Decimal(n / 10);
    }
  }

  function Pow10(k: nat): (r: nat)
    ensures r > 0
  {
    if k == 0 then 1 else 10 * Pow10(k - 1)
  }

  /** The digits are those of the number, most significant first, without a leading zero. */
  lemma {:induction false} DecimalDigits(n: nat, k: nat)
    requires k < |Decimal(n)|
    ensures Value(Decimal(n)[|Decimal(n)| - 1 - k]) == n / Pow10(k) % 10
    ensures n > 0 ==> Decimal(n)[0] != '0'
  {
    if n >= 10 {
      DecimalDigits(n / 10, if k == 0 then 0 else k - 1);
      if k > 0 {
        DivideTwice(n, Pow10(k - 1));
      }
    } else {
      assert Pow10(0) == 1;
    }
  }

  function Kind(dir: Dir): (s: string)
    ensures |s| == 3
  {
    match dir
    case Req => "req"
    case Rsp => "rsp"
  }

  /** The generation suffix; generation 0 has none. */
  function Suffix(gen: nat): string {
    if gen == 0 then "" else "-g" + Decimal(gen)
  }

  /** `overflow_name` */
  function OverflowName(prefix: string, name: string, dir: Dir, slot: nat, gen: nat): string {
    prefix + "-" + name + "-" + Kind(dir) + "-" + Decimal(slot) + Suffix(gen)
  }

  /** The four shapes of a printed name. */
  lemma PrintedNames(prefix: string, name: string, slot: nat, gen: nat)
    ensures OverflowName(prefix, name, Req, slot, 0) == prefix + "-" + name + "-req-" + Decimal(slot)
    ensures OverflowName(prefix, name, Rsp, slot, 0) == prefix + "-" + name + "-rsp-" + Decimal(slot)
    ensures gen > 0 ==>
              && OverflowName(prefix, name, Req, slot, gen)
                 == prefix + "-" + name + "-req-" + Decimal(slot) + "-g" + Decimal(gen)
              && OverflowName(prefix, name, Rsp, slot, gen)
                 == prefix + "-" + name + "-rsp-" + Decimal(slot) + "-g" + Decimal(gen)
  {
    hide Decimal;
    var head := prefix + "-" + name;
    assert head + "-" + Kind(Req) + "-" == head + "-req-";
    assert head + "-" + Kind(Rsp) + "-" == head + "-rsp-";
    var plain, plain' := head + "-req-" + Decimal(slot), head + "-rsp-" + Decimal(slot);
    assert plain + "" == plain && plain' + "" == plain';
    assert plain + ("-g" + Decimal(gen)) == plain + "-g" + Decimal(gen);
    assert plain' + ("-g" + Decimal(gen)) == plain' + "-g" + Decimal(gen);
  }

  /** Number of leading digits. */
  function DigitRun(s: string): (n: nat)
    ensures n <= |s|
  {
    if s == "" || !IsDigit(s[0]) then 0 else 1 + DigitRun(s[1..])
  }

  lemma {:induction false} DigitRunStops(digits: string, rest: string)
    requires forall j :: 0 <= j < |digits| ==> IsDigit(digits[j])
    requires rest == "" || !IsDigit(rest[0])
    ensures DigitRun(digits + rest) == |digits|
  {
    var s := digits + rest;
    if digits == "" {
      assert s == rest;
    } else {
      assert s[1..] == digits[1..] + rest;
      DigitRunStops(digits[1..], rest);
    }
  }

  /** The two variable parts can be told apart again: the digits end where the suffix begins. */
  lemma TailInjective(slot: nat, gen: nat, slot': nat, gen': nat)
    requires Decimal(slot) + Suffix(gen) == Decimal(slot') + Suffix(gen')
    ensures slot == slot' && gen == gen'
  {
    var s, d, d' := Decimal(slot) + Suffix(gen), Decimal(slot), Decimal(slot');
    DigitRunStops(d, Suffix(gen));
    DigitRunStops(d', Suffix(gen'));
    assert d == s[..|d|] == d';
    assert Suffix(gen) == s[|d|..] == Suffix(gen');
    DecimalRoundTrip(slot);
    DecimalRoundTrip(slot');
    SuffixInjective(gen, gen');
  }

  lemma SuffixInjective(gen: nat, gen': nat)
    requires Suffix(gen) == Suffix(gen')
    ensures gen == gen'
  {
    if gen > 0 && gen' > 0 {
      assert Decimal(gen) == Suffix(gen)[2..] == Suffix(gen')[2..] == Decimal(gen');
      DecimalRoundTrip(gen);
      DecimalRoundTrip(gen');
    }
  }

  /** Where the direction and the two numbers stand in a printed name. */
  lemma NameParts(prefix: string, name: string, dir: Dir, slot: nat, gen: nat)
    ensures var s, n := OverflowName(prefix, name, dir, slot, gen), |prefix| + |name| + 2;
            |s| >= n + 4 && s[n..n + 3] == Kind(dir) && s[n + 4..] == Decimal(slot) + Suffix(gen)
  {
    hide Decimal, Suffix, Kind;
    var head, tail := prefix + "-" + name + "-", Decimal(slot) + Suffix(gen);
    assert |head| == |prefix| + |name| + 2;
    var s := head + Kind(dir) + "-" + tail;
    assert s[|head|..|head| + 3] == Kind(dir) && s[|head| + 4..] == tail;
    assert OverflowName(prefix, name, dir, slot, gen) == s;
  }

  /** Distinct (direction, slot, generation) triples of one bus never print to the same name, across
      the plain form of generation 0 and the suffixed form of the others. */
  lemma OverflowNamesInjective(prefix: string, name: string, dir: Dir, slot: nat, gen: nat, dir': Dir, slot': nat,
                               gen': nat)
    requires OverflowName(prefix, name, dir, slot, gen) == OverflowName(prefix, name, dir', slot', gen')
    ensures dir == dir' && slot == slot' && gen == gen'
  {
    NameParts(prefix, name, dir, slot, gen);
    NameParts(prefix, name, dir', slot', gen');
    hide OverflowName, Decimal, Suffix;
    assert Kind(Req)[1] != Kind(Rsp)[1];
    TailInjective(slot, gen, slot', gen');
  }
}
