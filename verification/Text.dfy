/** Numerals, strings and other small notions shared by the other modules. */
module Text {
  datatype Option<+T> = None | Some(value: T)

  function Max(a: int, b: int): int { if a < b then b else a }

  function Min(a: int, b: int): int { if a < b then a else b }

  function Digit(d: nat): char
    requires d < 10
  {
    ('0' as int + d) as char
  }

  predicate IsDigit(c: char) { '0' <= c <= '9' }

  /** `String(n)` for a natural number. */
  function Decimal(n: nat): string {
    if n < 10 then [Digit(n)] else Decimal(n / 10) + [Digit(n % 10)]
  }

  function DigitValue(c: char): nat
    requires IsDigit(c)
  {
    c as int - '0' as int
  }

  /** The number a digit string denotes. */
  function Value(s: string): nat
    requires forall i :: 0 <= i < |s| ==> IsDigit(s[i])
  {
    if s == [] then 0 else 10 * Value(s[..|s| - 1]) + DigitValue(s[|s| - 1])
  }

  /** `s.padStart(width, "0")`. */
  function PadZeros(s: string, width: nat): string {
    if |s| >= width then s else seq(width - |s|, _ => '0') + s
  }

  lemma {:induction false} DecimalDenotes(n: nat)
    ensures forall i :: 0 <= i < |Decimal(n)| ==> IsDigit(Decimal(n)[i])
    ensures Value(Decimal(n)) == n && Decimal(n) != []
  {
    if n < 10 {
      assert Decimal(n)[..0] == [];
    } else {
      DecimalDenotes(n / 10);
      assert Decimal(n)[..|Decimal(n)| - 1] == Decimal(n / 10);
    }
  }

  lemma {:induction false} LeadingZeros(k: nat, s: string)
    requires forall i :: 0 <= i < |s| ==> IsDigit(s[i])
    ensures Value(seq(k, _ => '0') + s) == Value(s)
  {
    var padded := seq(k, _ => '0') + s;
    if s == [] {
      ZerosAreZero(k);
      assert padded == seq(k, _ => '0');
    } else {
      LeadingZeros(k, s[..|s| - 1]);
      assert padded[..|padded| - 1] == seq(k, _ => '0') + s[..|s| - 1];
    }
  }

  lemma {:induction false} ZerosAreZero(k: nat)
    ensures Value(seq(k, _ => '0')) == 0
  {
    if k > 0 {
      ZerosAreZero(k - 1);
      assert seq(k, _ => '0')[..k - 1] == seq(k - 1, _ => '0');
    }
  }

  lemma PaddedDenotes(n: nat, width: nat)
    ensures var s := PadZeros(Decimal(n), width);
            (forall i :: 0 <= i < |s| ==> IsDigit(s[i])) && Value(s) == n
  {
    DecimalDenotes(n);
    if |Decimal(n)| < width { LeadingZeros(width - |Decimal(n)|, Decimal(n)); }
  }

  function Each(f: string -> string, ss: seq<string>): seq<string> {
    if ss == [] then [] else [f(ss[0])] + Each(f, ss[1..])
  }

  function Nonempty(ss: seq<string>): seq<string> {
    if ss == [] then [] else (if ss[0] == "" then [] else [ss[0]]) + Nonempty(ss[1..])
  }

  lemma {:induction false} EachIs(f: string -> string, ss: seq<string>)
    ensures |Each(f, ss)| == |ss| && forall i :: 0 <= i < |ss| ==> Each(f, ss)[i] == f(ss[i])
  {
    if ss != [] { EachIs(f, ss[1..]); }
  }

  lemma {:induction false} NonemptyKeeps(p: string -> bool, ss: seq<string>)
    requires forall i :: 0 <= i < |ss| && ss[i] != "" ==> p(ss[i])
    ensures forall i :: 0 <= i < |Nonempty(ss)| ==> Nonempty(ss)[i] != "" && p(Nonempty(ss)[i])
  {
    if ss != [] { NonemptyKeeps(p, ss[1..]); }
  }

  /** What is not empty stays, in its order. */
  lemma {:induction false} NonemptyIs(ss: seq<string>, s: string)
    ensures s in Nonempty(ss) <==> s in ss && s != ""
  {
    if ss != [] {
      NonemptyIs(ss[1..], s);
      assert s in ss <==> s == ss[0] || s in ss[1..];
    }
  }

  lemma {:induction false} NonemptyAppend(ss: seq<string>, s: string)
    ensures Nonempty(ss + [s]) == Nonempty(ss) + if s == "" then [] else [s]
  {
    if ss == [] {
      assert [s][1..] == [];
    } else {
      NonemptyAppend(ss[1..], s);
      assert (ss + [s])[1..] == ss[1..] + [s];
    }
  }
}
