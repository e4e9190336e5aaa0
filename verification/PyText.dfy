// The text operations the modelled code uses, on ASCII strings.

module PyText {
  import opened Wrappers

  function LowerChar(c: char): char {
    if 'A' <= c <= 'Z' then (c as int + 32) as char else c
  }

  function Lower(s: string): string {
    seq(|s|, i requires 0 <= i < |s| => LowerChar(s[i]))
  }

  predicate IsSpace(c: char) {
    c == ' ' || '\t' <= c <= '\r'
  }

  function StripLeft(s: string): string {
    if s != "" && IsSpace(s[0]) then StripLeft(s[1..]) else s
  }

  function StripRight(s: string): string {
    if s != "" && IsSpace(s[|s| - 1]) then StripRight(s[..|s| - 1]) else s
  }

  function Strip(s: string): string {
    StripRight(StripLeft(s))
  }

  predicate HasPrefix(s: string, p: string) {
    p <= s
  }

  predicate HasSuffix(s: string, p: string) {
    |p| <= |s| && s[|s| - |p|..] == p
  }

  predicate Contains(s: string, p: string) {
    p <= s || (s != "" && Contains(s[1..], p))
  }

  /** The pieces of `s` between the separators. */
  function SplitOn(s: string, sep: char): (parts: seq<string>)
    ensures |parts| >= 1
  {
    if s == "" then [""]
    else
      var rest := SplitOn(s[1..], sep);
      if s[0] == sep then [""] + rest else [[s[0]] + rest[0]] + rest[1..]
  }

  function Join(parts: seq<string>, sep: string): string
    requires |parts| >= 1
  {
    if |parts| == 1 then parts[0] else parts[0] + sep + Join(parts[1..], sep)
  }

  lemma {:induction false} JoinSplit(s: string, sep: char)
    ensures Join(SplitOn(s, sep), [sep]) == s
  {
    if s != "" {
      var rest := SplitOn(s[1..], sep);
      JoinSplit(s[1..], sep);
      if s[0] == sep {
        assert ([""] + rest)[1..] == rest;
      } else {
        var parts := [[s[0]] + rest[0]] + rest[1..];
        assert parts[1..] == rest[1..];
        assert Join(parts, [sep]) == [s[0]] + Join(rest, [sep]);
      }
    }
  }

  lemma {:induction false} SplitFirst(a: string, b: string, sep: char)
    requires sep !in a
    ensures SplitOn(a + [sep] + b, sep) == [a] + SplitOn(b, sep)
  {
    var s := a + [sep] + b;
    if a == "" {
      assert s[1..] == b;
    } else {
      assert s[1..] == a[1..] + [sep] + b && s[0] == a[0];
      SplitFirst(a[1..], b, sep);
      assert [a[0]] + a[1..] == a;
    }
  }

  lemma {:induction false} SplitNone(a: string, sep: char)
    requires sep !in a
    ensures SplitOn(a, sep) == [a]
  {
    if a != "" {
      SplitNone(a[1..], sep);
      assert [a[0]] + a[1..] == a;
    }
  }

  /** The text before and after the first separator; all of it and nothing when there is none. */
  function Partition(s: string, sep: char): (string, string) {
    if s == "" then ("", "")
    else if s[0] == sep then ("", s[1..])
    else var (before, after) := Partition(s[1..], sep); ([s[0]] + before, after)
  }

  lemma {:induction false} PartitionFirst(a: string, b: string, sep: char)
    requires sep !in a
    ensures Partition(a + [sep] + b, sep) == (a, b)
    ensures Partition(a, sep) == (a, "")
  {
    var s := a + [sep] + b;
    if a == "" {
      assert s[1..] == b;
    } else {
      assert s[1..] == a[1..] + [sep] + b && s[0] == a[0];
      PartitionFirst(a[1..], b, sep);
      assert [a[0]] + a[1..] == a;
    }
  }

  function DigitOf(c: char): nat {
    if '0' <= c <= '9' then c as int - '0' as int
    else if 'a' <= c <= 'z' then c as int - 'a' as int + 10
    else if 'A' <= c <= 'Z' then c as int - 'A' as int + 10
    else 36
  }

  /** Digits with single underscores between them. */
  function ParseDigits(s: string, base: nat, acc: nat, needDigit: bool): Option<nat> {
    if s == "" then if needDigit then None else Some(acc)
    else if s[0] == '_' then if needDigit then None else ParseDigits(s[1..], base, acc, true)
    else if DigitOf(s[0]) < base then ParseDigits(s[1..], base, acc * base + DigitOf(s[0]), false)
    else None
  }

  /** Python's int(text, base) for bases 10 and 16, on ASCII text. */
  function ParseInt(s: string, base: nat): Option<int> {
    var t := Strip(s);
    var negative := t != "" && t[0] == '-';
    var u := if t != "" && (t[0] == '-' || t[0] == '+') then t[1..] else t;
    var v := if base == 16 && (HasPrefix(u, "0x") || HasPrefix(u, "0X"))
             then (if HasPrefix(u[2..], "_") then u[3..] else u[2..]) else u;
    match ParseDigits(v, base, 0, true)
    case None => None
    case Some(n) => if negative then Some(0 - n as int) else Some(n as int)
  }

  predicate AllDigits(s: string) {
    forall c <- s :: '0' <= c <= '9'
  }

  function Decimal(n: nat): (s: string)
    ensures s != "" && AllDigits(s)
  {
    if n < 10 then [('0' as int + n) as char] else Decimal(n / 10) + [('0' as int + n % 10) as char]
  }

  lemma {:induction false} ParseDigitsSnoc(s: string, c: char, base: nat, acc: nat, needDigit: bool)
    requires DigitOf(c) < base && c != '_'
    requires ParseDigits(s, base, acc, needDigit).Some?
    ensures ParseDigits(s + [c], base, acc, needDigit) ==
      Some(ParseDigits(s, base, acc, needDigit).value * base + DigitOf(c))
  {
    if s == "" {
      assert (s + [c])[1..] == "";
    } else {
      assert (s + [c])[1..] == s[1..] + [c];
      if s[0] == '_' {
        ParseDigitsSnoc(s[1..], c, base, acc, true);
      } else {
        ParseDigitsSnoc(s[1..], c, base, acc * base + DigitOf(s[0]), false);
      }
    }
  }

  lemma {:induction false} ParseDecimal(n: nat)
    ensures ParseDigits(Decimal(n), 10, 0, true) == Some(n)
  {
    if n >= 10 {
      ParseDecimal(n / 10);
      ParseDigitsSnoc(Decimal(n / 10), ('0' as int + n % 10) as char, 10, 0, true);
    }
  }

  lemma StripNothing(s: string)
    requires s != "" && !IsSpace(s[0]) && !IsSpace(s[|s| - 1])
    ensures Strip(s) == s
  {
  }

  lemma ParseIntDecimal(n: nat)
    ensures ParseInt(Decimal(n), 10) == Some(n)
  {
    ParseDecimal(n);
    var s := Decimal(n);
    assert s[0] in s && s[|s| - 1] in s;
    StripNothing(s);
  }
}
