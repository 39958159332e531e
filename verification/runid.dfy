/** Run ids as they are printed, and as the `run` query reads them back. */
module RunIds {
  import opened Domain
  import opened Repo

  const U128_MAX: nat := 0xFFFF_FFFF_FFFF_FFFF_FFFF_FFFF_FFFF_FFFF
  const WIDTH: nat := 32

  function Pow(base: nat, n: nat): nat {
    if n == 0 then 1 else base * Pow(base, n - 1)
  }

  predicate DigitsBelow(ds: seq<nat>, base: nat) {
    forall i :: 0 <= i < |ds| ==> ds[i] < base
  }

  /** The `count` lowest base-16 digits of `n`, most significant first. */
  function HexDigits(n: nat, count: nat): (ds: seq<nat>)
    ensures |ds| == count
    ensures DigitsBelow(ds, 16)
  {
    if count == 0 then [] else HexDigits(n / 16, count - 1) + [n % 16]
  }

  function DigitChar(d: nat): char
    requires d < 16
  {
    "0123456789abcdef"[d]
  }

  /** The digit a character stands for in the given base. */
  function DigitOf(c: char, base: nat): Option<nat>
    requires base == 10 || base == 16
  {
    var v := if '0' <= c <= '9' then c as nat - '0' as nat
      else if 'a' <= c <= 'f' then c as nat - 'a' as nat + 10
      else if 'A' <= c <= 'F' then c as nat - 'A' as nat + 10
      else 16;
    if v < base then Some(v) else None
  }

  function Chars(ds: seq<nat>): (s: string)
    requires DigitsBelow(ds, 16)
    ensures |s| == |ds|
  {
    if ds == [] then [] else Chars(ds[..|ds| - 1]) + [DigitChar(ds[|ds| - 1])]
  }

  /** The printed form: 32 lower-case hexadecimal digits, zero padded. */
  function Display(id: RunId): (s: string)
    ensures |s| == WIDTH
  {
    Chars(HexDigits(id, WIDTH))
  }

  function FromBase(ds: seq<nat>, base: nat): nat {
    if ds == [] then 0 else FromBase(ds[..|ds| - 1], base) * base + ds[|ds| - 1]
  }

  /** The digits of `s`, or none if a character is not a digit or the value passes
      the 128-bit range; `acc` is the value read so far. */
  function ParseDigits(s: string, base: nat, acc: nat): Option<nat>
    requires base == 10 || base == 16
  {
    if s == "" then Some(acc)
    else
      var d := DigitOf(s[0], base);
      if d.None? || acc * base > U128_MAX || acc * base + d.value > U128_MAX then None
      else ParseDigits(s[1..], base, acc * base + d.value)
  }

  /** Reading a 128-bit number: one leading plus sign is allowed, an empty string
      or a lone sign is not. */
  function ParseU128(s: string, base: nat): Option<nat>
    requires base == 10 || base == 16
  {
    if s == "" || s == "+" || s == "-" then None
    else if s[0] == '+' then ParseDigits(s[1..], base, 0)
    else ParseDigits(s, base, 0)
  }

  // Printing loses nothing.

  lemma PowStep(base: nat, n: nat)
    ensures Pow(base, n + 1) == base * Pow(base, n)
  {
  }

  lemma {:induction false} HexValue(n: nat, count: nat)
    requires n < Pow(16, count)
    ensures FromBase(HexDigits(n, count), 16) == n
  {
    if count > 0 {
      PowStep(16, count - 1);
      HexValue(n / 16, count - 1);
      var ds := HexDigits(n / 16, count - 1);
      assert (ds + [n % 16])[..|ds|] == ds;
    }
  }

  lemma Squared(base: nat, n: nat, p: nat)
    requires Pow(base, n) == p
    ensures Pow(base, n + n) == p * p
  {
    PowAdds(base, n, n);
  }

  lemma WidthIsEnough()
    ensures Pow(16, 32) == U128_MAX + 1
    ensures Pow(10, 32) <= U128_MAX
  {
    assert Pow(16, 4) == 0x1_0000 && Pow(10, 4) == 10000;
    hide Pow;
    Squared(16, 4, 0x1_0000);
    Squared(16, 8, 0x1_0000_0000);
    Squared(16, 16, 0x1_0000_0000_0000_0000);
    Squared(10, 4, 10000);
    Squared(10, 8, 100000000);
    Squared(10, 16, 10000000000000000);
  }

  lemma {:induction false} PowAdds(base: nat, a: nat, b: nat)
    ensures Pow(base, a + b) == Pow(base, a) * Pow(base, b)
  {
    if b > 0 {
      PowAdds(base, a, b - 1);
      assert Pow(base, a + b) == base * Pow(base, a + (b - 1));
      Reassociate(base, Pow(base, a), Pow(base, b - 1));
    }
  }

  lemma Reassociate(x: nat, y: nat, z: nat)
    ensures x * (y * z) == y * (x * z)
  {
    assert x * (y * z) == (x * y) * z == (y * x) * z == y * (x * z);
  }

  // Reading digits.

  lemma {:induction false} CharsAt(ds: seq<nat>, i: nat)
    requires DigitsBelow(ds, 16)
    requires i < |ds|
    ensures Chars(ds)[i] == DigitChar(ds[i])
  {
    if i < |ds| - 1 {
      CharsAt(ds[..|ds| - 1], i);
    }
  }

  lemma DigitRoundTrip(d: nat, base: nat)
    requires d < 16 && (base == 10 || base == 16)
    ensures DigitOf(DigitChar(d), base) == if d < base then Some(d) else None
    ensures DigitChar(d) != '+' && DigitChar(d) != '-'
    ensures DigitChar(d) == if d < 10 then ('0' as int + d) as char else ('a' as int + (d - 10)) as char
  {
  }

  /** Reading `ds` after a number `acc`: the value, wherever it stays in range. */
  function Continue(acc: nat, ds: seq<nat>, base: nat): nat
    decreases |ds|
  {
    if ds == [] then acc else Continue(acc * base + ds[0], ds[1..], base)
  }

  lemma {:induction false} ContinueIsFromBase(acc: nat, ds: seq<nat>, base: nat)
    ensures Continue(acc, ds, base) == acc * Pow(base, |ds|) + FromBase(ds, base)
  {
    if ds != [] {
      var init, last := ds[..|ds| - 1], ds[|ds| - 1];
      ContinueIsFromBase(acc, init, base);
      ContinueSnoc(acc, init, last, base);
      assert ds == init + [last];
      PowStep(base, |init|);
      ShiftOne(acc, Pow(base, |init|), FromBase(init, base), base);
    }
  }

  lemma ShiftOne(acc: nat, p: nat, v: nat, base: nat)
    ensures (acc * p + v) * base == acc * (base * p) + v * base
  {
    Reassociate(base, acc, p);
    assert (acc * p + v) * base == acc * p * base + v * base;
  }

  lemma {:induction false} ContinueSnoc(acc: nat, ds: seq<nat>, d: nat, base: nat)
    ensures Continue(acc, ds + [d], base) == Continue(acc, ds, base) * base + d
    decreases |ds|
  {
    if ds == [] {
      assert [] + [d] == [d] && [d][1..] == [];
      assert Continue(acc * base + d, [], base) == acc * base + d;
    } else {
      assert (ds + [d])[1..] == ds[1..] + [d];
      ContinueSnoc(acc * base + ds[0], ds[1..], d, base);
    }
  }

  lemma {:induction false} ContinueGrows(acc: nat, ds: seq<nat>, base: nat)
    requires base >= 1
    ensures Continue(acc, ds, base) >= acc
    decreases |ds|
  {
    if ds != [] {
      assert acc * base >= acc;
      ContinueGrows(acc * base + ds[0], ds[1..], base);
    }
  }

  lemma BelowCons(ds: seq<nat>, base: nat)
    requires ds != []
    ensures DigitsBelow(ds, base) <==> ds[0] < base && DigitsBelow(ds[1..], base)
  {
    assert forall i :: 1 <= i < |ds| ==> ds[i] == ds[1..][i - 1];
  }

  /** Reading one printed digit: it must fit the base, and the value the range. */
  lemma ParseOne(d: nat, s: string, base: nat, acc: nat)
    requires base == 10 || base == 16
    requires d < 16 && s != "" && s[0] == DigitChar(d)
    ensures ParseDigits(s, base, acc) ==
      if d >= base || acc * base + d > U128_MAX then None else ParseDigits(s[1..], base, acc * base + d)
  {
    DigitRoundTrip(d, base);
    hide DigitOf, DigitChar;
  }

  /** Digits are read to their value, unless one does not fit the base or the value does
      not fit the range. */
  lemma {:induction false} ParsePrinted(ds: seq<nat>, s: string, base: nat, acc: nat)
    requires base == 10 || base == 16
    requires |s| == |ds| && forall i :: 0 <= i < |ds| ==> ds[i] < 16 && s[i] == DigitChar(ds[i])
    requires acc <= U128_MAX
    ensures ParseDigits(s, base, acc) ==
      if DigitsBelow(ds, base) && Continue(acc, ds, base) <= U128_MAX then Some(Continue(acc, ds, base)) else None
  {
    if ds != [] {
      hide DigitChar;
      var next := acc * base + ds[0];
      assert Continue(acc, ds, base) == Continue(next, ds[1..], base);
      ParseOne(ds[0], s, base, acc);
      hide ParseDigits, Continue, DigitsBelow;
      BelowCons(ds, base);
      ContinueGrows(next, ds[1..], base);
      if ds[0] < base && next <= U128_MAX {
        ParsePrinted(ds[1..], s[1..], base, next);
      }
    }
  }

  lemma {:induction false} CharsAreDigits(ds: seq<nat>)
    requires DigitsBelow(ds, 16)
    ensures forall i :: 0 <= i < |ds| ==> Chars(ds)[i] == DigitChar(ds[i]) && Chars(ds)[i] != '+' && Chars(ds)[i] != '-'
  {
    forall i | 0 <= i < |ds|
      ensures Chars(ds)[i] == DigitChar(ds[i]) && Chars(ds)[i] != '+' && Chars(ds)[i] != '-'
    {
      CharsAt(ds, i);
      DigitRoundTrip(ds[i], 16);
    }
  }

  /** The decimal reader: digits, with or without a leading plus sign, are read to their
      value exactly when there is one and it fits 128 bits. */
  lemma DecimalReader(ds: seq<nat>)
    requires DigitsBelow(ds, 10)
    ensures DigitsBelow(ds, 16)
    ensures var read := if ds != [] && FromBase(ds, 10) <= U128_MAX then Some(FromBase(ds, 10)) else None;
      ParseU128(Chars(ds), 10) == read && ParseU128("+" + Chars(ds), 10) == read
  {
    CharsAreDigits(ds);
    ContinueIsFromBase(0, ds, 10);
    var s := Chars(ds);
    assert ("+" + s)[0] == '+' && ("+" + s)[1..] == s;
    assert ds != [] ==> s[0] != '+' && s[0] != '-';
    assert ds == [] ==> "+" + s == "+";
    ParsePrinted(ds, s, 10, 0);
  }

  /** A printed id, read in either base. */
  lemma ReadPrinted(id: RunId, base: nat)
    requires base == 10 || base == 16
    requires id <= U128_MAX
    ensures var ds := HexDigits(id, WIDTH);
      ParseU128(Display(id), base) == if DigitsBelow(ds, base) then Some(FromBase(ds, base)) else None
  {
    var ds := HexDigits(id, WIDTH);
    forall i | 0 <= i < |ds|
      ensures ds[i] < 16 && Display(id)[i] == DigitChar(ds[i]) && Display(id)[i] != '+'
    {
      CharsAt(ds, i);
      DigitRoundTrip(ds[i], base);
    }
    ContinueIsFromBase(0, ds, base);
    WidthIsEnough();
    if base == 16 {
      HexValue(id, WIDTH);
    } else if DigitsBelow(ds, 10) {
      BelowPower(ds, 10);
    }
    ParsePrinted(ds, Display(id), base, 0);
  }

  lemma {:induction false} BelowPower(ds: seq<nat>, base: nat)
    requires base >= 1 && DigitsBelow(ds, base)
    ensures FromBase(ds, base) < Pow(base, |ds|)
  {
    if ds != [] {
      var init := ds[..|ds| - 1];
      BelowPower(init, base);
      PowStep(base, |init|);
      LastDigitFits(FromBase(init, base), Pow(base, |init|), base, ds[|ds| - 1]);
    }
  }

  lemma Monotone(x: nat, a: nat, b: nat)
    requires a <= b
    ensures x * a <= x * b
  {
  }

  lemma LastDigitFits(v: nat, p: nat, base: nat, d: nat)
    requires v < p && d < base
    ensures v * base + d < base * p
  {
    Reassociate(base, 1, v + 1);
    Monotone(base, v + 1, p);
    assert base * (v + 1) == v * base + base;
  }

  lemma {:induction false} DecimalNeverMore(ds: seq<nat>)
    ensures FromBase(ds, 10) <= FromBase(ds, 16)
    ensures FromBase(ds, 10) == FromBase(ds, 16) <==> FromBase(ds[..if |ds| == 0 then 0 else |ds| - 1], 16) == 0
  {
    if ds != [] {
      var init := ds[..|ds| - 1];
      DecimalNeverMore(init);
      if FromBase(init, 16) == 0 {
        assert FromBase(init, 10) == 0;
      }
    } else {
      assert ds[..0] == [];
    }
  }

  lemma {:induction false} HexDigitsShift(n: nat, count: nat)
    ensures HexDigits(n, count + 1)[1..] == HexDigits(n, count)
  {
    if count > 0 {
      HexDigitsShift(n / 16, count - 1);
      assert HexDigits(n, count + 1)[1..] == HexDigits(n / 16, count)[1..] + [n % 16];
    }
  }

  lemma CharsOfTail(ds: seq<nat>)
    requires DigitsBelow(ds, 16) && ds != []
    ensures DigitsBelow(ds[1..], 16) && Chars(ds[1..]) == Chars(ds)[1..]
  {
    CharsAreDigits(ds);
    CharsAreDigits(ds[1..]);
  }

  /** The printed form, digit by digit: zero is 32 zeros, and the last digit of any id is
      that of its remainder by 16, a lower-case letter from ten on, after the printed form
      of its quotient without its first digit. */
  lemma DisplayByDigit(id: RunId)
    ensures Display(0) == "00000000000000000000000000000000"
    ensures Display(id) == Display(id / 16)[1..]
      + [if id % 16 < 10 then ('0' as int + id % 16) as char else ('a' as int + (id % 16 - 10)) as char]
  {
    ZeroDigits(WIDTH);
    CharsAreDigits(HexDigits(0, WIDTH));
    var init := HexDigits(id / 16, WIDTH - 1);
    HexDigitsShift(id / 16, WIDTH - 1);
    CharsOfTail(HexDigits(id / 16, WIDTH));
    DigitRoundTrip(id % 16, 16);
    assert (init + [id % 16])[..WIDTH - 1] == init;
  }

  /** The hexadecimal reader inverts the printed form of every 128-bit id, so no two
      ids print alike. */
  lemma HexRoundTrip(id: RunId)
    requires id <= U128_MAX
    ensures ParseU128(Display(id), 16) == Some(id)
  {
    ReadPrinted(id, 16);
    WidthIsEnough();
    HexValue(id, WIDTH);
  }

  lemma DisplayInjective(a: RunId, b: RunId)
    requires a <= U128_MAX && b <= U128_MAX
    requires Display(a) == Display(b)
    ensures a == b
  {
    HexRoundTrip(a);
    HexRoundTrip(b);
  }

  /** The `run` query reads ids in decimal. Given a printed id it finds the original
      one exactly when the id is below ten; a larger id is either rejected, because
      a letter occurs in it, or read as a strictly smaller number. */
  lemma DecimalReading(id: RunId)
    requires id <= U128_MAX
    ensures ParseU128(Display(id), 10) == Some(id) <==> id < 10
    ensures ParseU128(Display(id), 10).Some? ==> ParseU128(Display(id), 10).value <= id
    ensures ParseU128(Display(id), 10).None? <==> exists i :: 0 <= i < WIDTH && HexDigits(id, WIDTH)[i] >= 10
  {
    var ds := HexDigits(id, WIDTH);
    ReadPrinted(id, 10);
    WidthIsEnough();
    HexValue(id, WIDTH);
    DecimalNeverMore(ds);
    var init := HexDigits(id / 16, WIDTH - 1);
    assert ds[..|ds| - 1] == init && ds[|ds| - 1] == id % 16;
    PowStep(16, WIDTH - 1);
    HexValue(id / 16, WIDTH - 1);
    if id < 10 {
      ZeroDigits(WIDTH - 1);
      assert ds == init + [id % 16];
    } else if id < 16 {
      assert ds[WIDTH - 1] >= 10;
    }
  }

  lemma {:induction false} ZeroDigits(count: nat)
    ensures DigitsBelow(HexDigits(0, count), 1)
  {
    if count > 0 {
      ZeroDigits(count - 1);
    }
  }

  /** What the `run` query returns for an id string: an error, or the lookup's result. */
  datatype QueryResult = InvalidRunId | Found(run: Option<Run>)

  function QueryRun(runs: seq<Run>, id: string): QueryResult {
    match ParseU128(id, 10)
    case None => InvalidRunId
    case Some(n) => Found(Lookup(runs, n))
  }

  lemma LettersAreHigh(id: RunId)
    ensures forall i :: 0 <= i < WIDTH ==> (Display(id)[i] >= 'a' <==> HexDigits(id, WIDTH)[i] >= 10)
  {
    var ds := HexDigits(id, WIDTH);
    CharsAreDigits(ds);
    forall i | 0 <= i < WIDTH
      ensures Display(id)[i] >= 'a' <==> ds[i] >= 10
    {
      DigitRoundTrip(ds[i], 16);
    }
  }

  /** Asking for a run by the id the API printed for it: the answer is that run
      exactly when its id is below ten. */
  lemma QueryByPrintedId(runs: seq<Run>, run: Run)
    requires UniqueIds(runs) && run in runs && run.id <= U128_MAX
    ensures QueryRun(runs, Display(run.id)) == Found(Some(run)) <==> run.id < 10
    ensures QueryRun(runs, Display(run.id)) == InvalidRunId <==> exists i :: 0 <= i < WIDTH && Display(run.id)[i] >= 'a'
  {
    DecimalReading(run.id);
    LettersAreHigh(run.id);
    var i :| 0 <= i < |runs| && runs[i] == run;
    IndexIsUnique(runs, i);
    if run.id >= 10 && ParseU128(Display(run.id), 10).Some? {
      var other := Lookup(runs, ParseU128(Display(run.id), 10).value);
      assert other.Some? ==> other.value.id != run.id;
    }
  }

  /** A stored run can be shadowed by another: the printed id of run 16 reads as 10. */
  lemma SixteenReadsAsTen()
    ensures ParseU128(Display(16), 10) == Some(10)
  {
    ReadPrinted(16, 10);
    var ds := HexDigits(16, WIDTH);
    var init, high := HexDigits(1, WIDTH - 1), HexDigits(0, WIDTH - 2);
    assert ds == init + [0] && init == high + [1];
    ZeroDigits(WIDTH - 2);
    assert ds == high + [1, 0];
    assert ds[..|ds| - 1] == init && init[..|init| - 1] == high;
    ZeroValue(high);
    assert FromBase(init, 10) == 1;
    assert FromBase(ds, 10) == 10;
  }

  lemma {:induction false} ZeroValue(ds: seq<nat>)
    requires DigitsBelow(ds, 1)
    ensures FromBase(ds, 10) == 0
  {
    if ds != [] {
      ZeroValue(ds[..|ds| - 1]);
    }
  }
}
