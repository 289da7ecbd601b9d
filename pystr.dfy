/** The parts of Python's `str` that the caller-tree engine relies on:
    `split` with and without a limit, `strip`, `isnumeric`, `int` and `str`
    on natural numbers.  Only ASCII digits count as numeric here. */
module PyStr {

  import opened Errors

  /** Python's `s.split(sep)`: the pieces between occurrences of `sep`,
      empty pieces included, so that there is always at least one. */
  function Split(s: string, sep: char): (parts: seq<string>)
    ensures |parts| >= 1
    ensures forall i :: 0 <= i < |parts| ==> sep !in parts[i]
    decreases |s|
  {
    if s == [] then [""]
    else if s[0] == sep then [""] + Split(s[1..], sep)
    else
      var rest := Split(s[1..], sep);
      [[s[0]] + rest[0]] + rest[1..]
  }

  /** Python's `sep.join(parts)` for a one-character separator. */
  function Join(parts: seq<string>, sep: char): string
    requires |parts| >= 1
  {
    if |parts| == 1 then parts[0] else parts[0] + [sep] + Join(parts[1..], sep)
  }

  /** Joining the pieces back with the separator gives the string that was split. */
  lemma {:induction false} JoinSplit(s: string, sep: char)
    ensures Join(Split(s, sep), sep) == s
    decreases |s|
  {
    if s == [] {
    } else if s[0] == sep {
      JoinSplit(s[1..], sep);
      assert Split(s, sep)[1..] == Split(s[1..], sep);
    } else {
      JoinSplit(s[1..], sep);
      var rest := Split(s[1..], sep);
      assert Split(s, sep)[1..] == rest[1..];
      if |rest| > 1 {
        assert rest[1..][0] == rest[1];
      }
    }
  }

  /** A piece without the separator splits into itself. */
  lemma {:induction false} SplitPiece(p: string, sep: char)
    requires sep !in p
    ensures Split(p, sep) == [p]
    decreases |p|
  {
    if p != [] {
      assert p[0] in p;
      assert forall c :: c in p[1..] ==> c in p;
      SplitPiece(p[1..], sep);
      assert [p[0]] + p[1..] == p;
    }
  }

  /** A piece without the separator, then the separator, splits into that
      piece followed by the pieces of the rest. */
  lemma {:induction false} SplitPieceThen(p: string, sep: char, rest: string)
    requires sep !in p
    ensures Split(p + [sep] + rest, sep) == [p] + Split(rest, sep)
    decreases |p|
  {
    var s := p + [sep] + rest;
    if p == [] {
      assert s == [sep] + rest;
      assert s[1..] == rest;
    } else {
      assert p[0] in p;
      assert forall c :: c in p[1..] ==> c in p;
      assert s[0] == p[0];
      assert s[1..] == p[1..] + [sep] + rest;
      SplitPieceThen(p[1..], sep, rest);
      assert [p[0]] + p[1..] == p;
    }
  }

  /** Splitting a join of separator-free pieces gives the pieces back. */
  lemma {:induction false} SplitJoin(parts: seq<string>, sep: char)
    requires |parts| >= 1
    requires forall i :: 0 <= i < |parts| ==> sep !in parts[i]
    ensures Split(Join(parts, sep), sep) == parts
    decreases |parts|
  {
    if |parts| == 1 {
      SplitPiece(parts[0], sep);
    } else {
      var rest := parts[1..];
      assert forall i :: 0 <= i < |rest| ==> sep !in rest[i] by {
        forall i | 0 <= i < |rest| ensures sep !in rest[i] {
          assert rest[i] == parts[i + 1];
        }
      }
      SplitJoin(rest, sep);
      SplitPieceThen(parts[0], sep, Join(rest, sep));
      assert [parts[0]] + rest == parts;
    }
  }

  /** The last element of Python's `s.split(sep, n)` when it has more than
      `n` elements: whatever follows the n-th separator.  None when `s`
      holds fewer than `n` separators (the list then has at most n elements). */
  function AfterSeparators(s: string, sep: char, n: nat): Option<string>
    decreases |s|
  {
    if n == 0 then Some(s)
    else if s == [] then None
    else if s[0] == sep then AfterSeparators(s[1..], sep, n - 1)
    else AfterSeparators(s[1..], sep, n)
  }

  /** `s.split(sep, n)[n]` exists exactly when the unlimited split has more
      than `n` pieces, and it is those remaining pieces joined back. */
  lemma {:induction false} AfterSeparatorsIsSplitTail(s: string, sep: char, n: nat)
    ensures AfterSeparators(s, sep, n).Some? <==> |Split(s, sep)| > n
    ensures AfterSeparators(s, sep, n).Some? ==>
              AfterSeparators(s, sep, n).value == Join(Split(s, sep)[n..], sep)
    decreases |s|
  {
    if n == 0 {
      JoinSplit(s, sep);
      assert Split(s, sep)[0..] == Split(s, sep);
    } else if s == [] {
    } else if s[0] == sep {
      AfterSeparatorsIsSplitTail(s[1..], sep, n - 1);
      if |Split(s[1..], sep)| > n - 1 {
        assert Split(s, sep)[n..] == Split(s[1..], sep)[n - 1..];
      }
    } else {
      AfterSeparatorsIsSplitTail(s[1..], sep, n);
      var rest := Split(s[1..], sep);
      assert |Split(s, sep)| == |rest|;
      if |rest| > n {
        assert Split(s, sep)[n..] == rest[n..];
      }
    }
  }

  // ---- whitespace and strip ----

  /** Characters for which Python's `str.isspace()` holds. */
  predicate IsSpace(c: char) {
    var n := c as int;
    n == 0x20 || (0x09 <= n <= 0x0D) || (0x1C <= n <= 0x1F) || n == 0x85 || n == 0xA0
    || n == 0x1680 || (0x2000 <= n <= 0x200A) || n == 0x2028 || n == 0x2029
    || n == 0x202F || n == 0x205F || n == 0x3000
  }

  predicate AllSpace(s: string) {
    forall i :: 0 <= i < |s| ==> IsSpace(s[i])
  }

  /** The number of whitespace characters `s` starts with. */
  function SpaceRun(s: string): (k: nat)
    ensures k <= |s|
  {
    if s == [] || !IsSpace(s[0]) then 0 else 1 + SpaceRun(s[1..])
  }

  /** SpaceRun counts a leading run of whitespace that cannot be extended. */
  lemma {:induction false} SpaceRunSpans(s: string)
    ensures AllSpace(s[..SpaceRun(s)])
    ensures SpaceRun(s) < |s| ==> !IsSpace(s[SpaceRun(s)])
  {
    if s != [] && IsSpace(s[0]) {
      SpaceRunSpans(s[1..]);
      var k := SpaceRun(s);
      assert forall i :: 1 <= i < k ==> s[..k][i] == s[1..][..k - 1][i - 1];
    }
  }

  /** SpaceRun is the only length with those two properties. */
  lemma {:induction false} SpaceRunUnique(s: string, k: nat)
    requires k <= |s| && AllSpace(s[..k]) && (k < |s| ==> !IsSpace(s[k]))
    ensures SpaceRun(s) == k
  {
    if k > 0 {
      assert IsSpace(s[..k][0]);
      assert s[1..][..k - 1] == s[..k][1..];
      SpaceRunUnique(s[1..], k - 1);
    }
  }

  function TrimLeft(s: string): string {
    s[SpaceRun(s)..]
  }

  function TrimRight(s: string): string
    decreases |s|
  {
    if s == [] || !IsSpace(s[|s| - 1]) then s else TrimRight(s[..|s| - 1])
  }

  /** TrimRight drops a suffix and leaves no whitespace at the end. */
  lemma {:induction false} TrimRightDrops(s: string)
    ensures |TrimRight(s)| <= |s| && TrimRight(s) == s[..|TrimRight(s)|]
    ensures TrimRight(s) == [] || !IsSpace(TrimRight(s)[|TrimRight(s)| - 1])
    ensures AllSpace(s[|TrimRight(s)|..])
    decreases |s|
  {
    if s != [] && IsSpace(s[|s| - 1]) {
      var p := s[..|s| - 1];
      TrimRightDrops(p);
      var n := |TrimRight(s)|;
      assert s[n..] == p[n..] + [s[|s| - 1]];
    }
  }

  /** Python's `s.strip()`. */
  function Strip(s: string): string {
    TrimRight(TrimLeft(s))
  }

  /** The stripped string is a piece of `s` with whitespace at neither end,
      and every character dropped in front of it is whitespace. */
  lemma StripTrims(s: string)
    ensures var r := Strip(s);
            r == [] || (!IsSpace(r[0]) && !IsSpace(r[|r| - 1]))
    ensures exists k :: 0 <= k <= |s| - |Strip(s)| && Strip(s) == s[k..k + |Strip(s)|]
                        && AllSpace(s[..k]) && AllSpace(s[k + |Strip(s)|..])
  {
    var k := SpaceRun(s);
    var t := TrimLeft(s);
    SpaceRunSpans(s);
    TrimRightDrops(t);
    var r := Strip(s);
    assert r == t[..|r|];
    if r != [] {
      assert r[0] == t[0] == s[k];
    }
    assert r == s[k..k + |r|];
    assert s[k + |r|..] == t[|r|..];
  }

  // ---- numerals ----

  predicate IsDigit(c: char) { '0' <= c <= '9' }

  predicate AllDigits(s: string) {
    forall i :: 0 <= i < |s| ==> IsDigit(s[i])
  }

  /** Python's `s.isnumeric()`, restricted to ASCII digits. */
  predicate IsNumeric(s: string) {
    |s| > 0 && AllDigits(s)
  }

  /** A numeral as Python's `str` writes a natural number: no leading zero
      unless the number is zero itself. */
  predicate IsCanonical(s: string) {
    IsNumeric(s) && (s[0] != '0' || |s| == 1)
  }

  function DigitValue(c: char): (d: nat)
    requires IsDigit(c)
    ensures d < 10
  {
    c as int - '0' as int
  }

  function DigitChar(d: nat): (c: char)
    requires d < 10
    ensures IsDigit(c) && DigitValue(c) == d
  {
    ('0' as int + d) as char
  }

  /** Python's `int(s)` on a string of digits. */
  function ParseNat(s: string): nat
    requires AllDigits(s)
  {
    if s == [] then 0 else ParseNat(s[..|s| - 1]) * 10 + DigitValue(s[|s| - 1])
  }

  /** Python's `str(n)` on a natural number. */
  function NatToString(n: nat): (s: string)
    ensures IsCanonical(s)
  {
    if n < 10 then [DigitChar(n)]
    else
      var p := NatToString(n / 10);
      var s := p + [DigitChar(n % 10)];
      assert s[0] == p[0];
      s
  }

  /** `int(str(n)) == n`. */
  lemma {:induction false} ParseNatToString(n: nat)
    ensures ParseNat(NatToString(n)) == n
  {
    if n >= 10 {
      ParseNatToString(n / 10);
      var s := NatToString(n);
      assert s[..|s| - 1] == NatToString(n / 10);
    }
  }

  lemma {:induction false} ParseNatLeading(s: string)
    requires IsNumeric(s)
    ensures ParseNat(s) >= DigitValue(s[0])
    decreases |s|
  {
    if |s| > 1 {
      ParseNatLeading(s[..|s| - 1]);
    }
  }

  /** `str(int(s)) == s` for a canonical numeral; a numeral with a leading
      zero, such as "07", does not come back. */
  lemma {:induction false} NatToStringParse(s: string)
    requires IsCanonical(s)
    ensures NatToString(ParseNat(s)) == s
    decreases |s|
  {
    if |s| > 1 {
      var p := s[..|s| - 1];
      assert p[0] == s[0];
      NatToStringParse(p);
      ParseNatLeading(p);
      var n := ParseNat(s);
      var d := DigitValue(s[|s| - 1]);
      assert n == ParseNat(p) * 10 + d;
      assert n / 10 == ParseNat(p) && n % 10 == d;
      assert DigitChar(d) == s[|s| - 1];
      assert s == p + [s[|s| - 1]];
    } else {
      assert DigitChar(DigitValue(s[0])) == s[0];
    }
  }
}
