/**
 * The parts of Java's string handling that the registry's keys and URLs rely on:
 * how `+` renders a null reference or an Integer, `String.toLowerCase` on ASCII
 * letters, and a reference join/split on one separator character.
 */
module JavaText {
  import opened Wrappers

  /** `"" + s` in Java: the text of `s`, or "null" for a null reference. */
  function Render(s: Option<string>): (r: string)
    ensures s.Some? ==> r == s.value
  {
    match s
    case None => "null"
    case Some(t) => t
  }

  predicate IsDigit(ch: char) { '0' <= ch <= '9' }

  /** The decimal digits of a natural number, most significant first, without leading zeros. */
  function Digits(n: nat): (r: string)
    ensures |r| >= 1
    ensures forall i :: 0 <= i < |r| ==> IsDigit(r[i])
    ensures n >= 10 ==> r[0] != '0'
  {
    if n < 10 then ['0' + n as char]
    else Digits(n / 10) + ['0' + (n % 10) as char]
  }

  /** `Integer.toString(n)`: a minus sign for negative values, then the digits. */
  function IntToString(n: int): (r: string)
    ensures n >= 0 ==> r == Digits(n)
    ensures n < 0 ==> |r| >= 2 && r[0] == '-' && r[1..] == Digits(-n)
  {
    if n >= 0 then Digits(n) else "-" + Digits(-n)
  }

  /** `"" + p` for a nullable Integer. */
  function RenderInteger(p: Option<int>): (r: string)
    ensures ':' !in r && '/' !in r
  {
    match p
    case None => "null"
    case Some(n) => IntToString(n)
  }

  /** The value of one decimal digit; any other character reads as 0. */
  function DigitValue(ch: char): nat
  {
    if IsDigit(ch) then (ch - '0') as nat else 0
  }

  /** The independent reading of a digit string, most significant digit first. */
  function DecimalValue(s: string): nat
  {
    if |s| == 0 then 0 else DecimalValue(s[..|s| - 1]) * 10 + DigitValue(s[|s| - 1])
  }

  /** The digits of `n` read back as `n`. */
  lemma {:induction false} DigitsDenote(n: nat)
    ensures DecimalValue(Digits(n)) == n
  {
    if n >= 10 {
      DigitsDenote(n / 10);
      var r := Digits(n);
      assert r[..|r| - 1] == Digits(n / 10);
    }
  }

  /** `Integer.toString` reads back: the digits after an optional sign denote the magnitude. */
  lemma IntToStringReadsBack(n: int)
    ensures n >= 0 ==> DecimalValue(IntToString(n)) == n
    ensures n < 0 ==> DecimalValue(IntToString(n)[1..]) == -n
  {
    if n >= 0 {
      DigitsDenote(n);
    } else {
      DigitsDenote(-n);
    }
  }

  /** Different integers render differently. */
  lemma IntToStringInjective(a: int, b: int)
    requires IntToString(a) == IntToString(b)
    ensures a == b
  {
    IntToStringReadsBack(a);
    IntToStringReadsBack(b);
  }

  /** `Character.toLowerCase` restricted to ASCII: 'A'..'Z' become 'a'..'z', all else is kept. */
  function LowerChar(ch: char): char
  {
    if 'A' <= ch <= 'Z' then ch - 'A' + 'a' else ch
  }

  /** `String.toLowerCase` on ASCII text. */
  function ToLower(s: string): (r: string)
    ensures |r| == |s|
    ensures forall i :: 0 <= i < |s| ==> r[i] == LowerChar(s[i])
  {
    if s == [] then [] else [LowerChar(s[0])] + ToLower(s[1..])
  }

  /** Lower-casing twice is lower-casing once. */
  lemma ToLowerIdempotent(s: string)
    ensures ToLower(ToLower(s)) == ToLower(s)
  {
    var once := ToLower(s);
    var twice := ToLower(once);
    assert |twice| == |once|;
    forall i | 0 <= i < |once| ensures twice[i] == once[i] {
      assert once[i] == LowerChar(s[i]);
    }
  }

  /** The fields joined with the separator between each pair: `a + "-" + b + "-" + c`. */
  function Join(parts: seq<string>, sep: char): string
    requires |parts| >= 1
  {
    if |parts| == 1 then parts[0] else parts[0] + [sep] + Join(parts[1..], sep)
  }

  /** A join of six fields, written out as the concatenation it stands for. */
  lemma JoinSix(a: string, b: string, c: string, d: string, e: string, f: string, sep: char)
    ensures Join([a, b, c, d, e, f], sep) == a + [sep] + b + [sep] + c + [sep] + d + [sep] + e + [sep] + f
  {
    var fs := [a, b, c, d, e, f];
    assert Join(fs[5..], sep) == f;
    assert fs[4..][1..] == fs[5..];
    assert Join(fs[4..], sep) == e + [sep] + f;
    assert fs[3..][1..] == fs[4..];
    assert Join(fs[3..], sep) == d + [sep] + e + [sep] + f;
    assert fs[2..][1..] == fs[3..];
    assert Join(fs[2..], sep) == c + [sep] + d + [sep] + e + [sep] + f;
    assert fs[1..][1..] == fs[2..];
    assert Join(fs[1..], sep) == b + [sep] + c + [sep] + d + [sep] + e + [sep] + f;
  }

  /**
   * The reference reading of a joined string: cut at every separator. Unlike
   * Java's `String.split`, trailing empty fields are kept.
   */
  function Split(s: string, sep: char): (r: seq<string>)
    ensures |r| >= 1
  {
    if s == [] then [[]]
    else
      var rest := Split(s[1..], sep);
      if s[0] == sep then [[]] + rest else [[s[0]] + rest[0]] + rest[1..]
  }

  lemma {:induction false} SplitNoSeparator(p: string, sep: char)
    requires sep !in p
    ensures Split(p, sep) == [p]
  {
    if p != [] {
      SplitNoSeparator(p[1..], sep);
      assert [p[0]] + p[1..] == p;
    }
  }

  lemma {:induction false} SplitAtFirst(p: string, sep: char, q: string)
    requires sep !in p
    ensures Split(p + [sep] + q, sep) == [p] + Split(q, sep)
  {
    var s := p + [sep] + q;
    if p == [] {
      assert s[1..] == q;
    } else {
      assert s[1..] == p[1..] + [sep] + q;
      SplitAtFirst(p[1..], sep, q);
      assert [p[0]] + p[1..] == p;
    }
  }

  /** Splitting undoes joining when no field holds the separator. */
  lemma {:induction false} SplitJoin(parts: seq<string>, sep: char)
    requires |parts| >= 1
    requires forall i :: 0 <= i < |parts| ==> sep !in parts[i]
    ensures Split(Join(parts, sep), sep) == parts
  {
    if |parts| == 1 {
      SplitNoSeparator(parts[0], sep);
    } else {
      SplitJoin(parts[1..], sep);
      SplitAtFirst(parts[0], sep, Join(parts[1..], sep));
      assert [parts[0]] + parts[1..] == parts;
    }
  }
}
