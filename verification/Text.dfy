/** Values that may be absent, and results that are a value or an error. */
module Wrappers {
  datatype Option<+T> = None | Some(value: T)

  datatype Result<+T, +E> = Ok(value: T) | Err(error: E)
}

/** Runs of the state machines are sequences of states. */
module Runs {
  function Last<S>(ss: seq<S>): S
    requires ss != []
  {
    ss[|ss| - 1]
  }
}

/**
 The library routines the name handling relies on: splitting and joining strings,
 and decimal integers of the width of Go's 64-bit `int`.
 */
module Text {
  import opened Wrappers

  /** `strings.Split` for a separator of one character. */
  function Split(s: string, sep: char): (parts: seq<string>)
    ensures |parts| >= 1
    ensures forall p :: p in parts ==> sep !in p
    ensures Join(parts, [sep]) == s
  {
    if s == "" then [""]
    else
      var rest := Split(s[1..], sep);
      assert s == [s[0]] + s[1..];
      if s[0] == sep then
        var parts := [""] + rest;
        assert parts[1..] == rest;
        parts
      else
        var parts := [[s[0]] + rest[0]] + rest[1..];
        assert parts[1..] == rest[1..];
        parts
  }

  /** `strings.Join`. */
  function Join(parts: seq<string>, sep: string): string {
    if |parts| == 0 then ""
    else if |parts| == 1 then parts[0]
    else parts[0] + sep + Join(parts[1..], sep)
  }

  lemma JoinCons(part: string, rest: seq<string>, sep: string)
    requires rest != []
    ensures Join([part] + rest, sep) == part + sep + Join(rest, sep)
  {
    assert ([part] + rest)[1..] == rest;
  }

  lemma {:induction false} SplitNothing(p: string, sep: char)
    requires sep !in p
    ensures Split(p, sep) == [p]
  {
    if p != "" {
      assert p == [p[0]] + p[1..];
      SplitNothing(p[1..], sep);
    }
  }

  lemma {:induction false} SplitPrefix(p: string, s: string, sep: char)
    requires sep !in p
    ensures Split(p + [sep] + s, sep) == [p] + Split(s, sep)
  {
    var whole := p + [sep] + s;
    if p == "" {
      assert whole[1..] == s;
    } else {
      assert whole[1..] == p[1..] + [sep] + s;
      assert p == [p[0]] + p[1..];
      SplitPrefix(p[1..], s, sep);
      var rest := Split(whole[1..], sep);
      assert rest[0] == p[1..] && rest[1..] == Split(s, sep);
    }
  }

  /** Splitting undoes joining, for parts that do not hold the separator. */
  lemma {:induction false} SplitJoin(parts: seq<string>, sep: char)
    requires |parts| >= 1 && forall p :: p in parts ==> sep !in p
    ensures Split(Join(parts, [sep]), sep) == parts
  {
    if |parts| == 1 {
      SplitNothing(parts[0], sep);
    } else {
      SplitPrefix(parts[0], Join(parts[1..], [sep]), sep);
      SplitJoin(parts[1..], sep);
      assert parts == [parts[0]] + parts[1..];
    }
  }

  lemma {:induction false} JoinConcat(a: seq<string>, b: seq<string>, sep: string)
    requires a != [] && b != []
    ensures Join(a + b, sep) == Join(a, sep) + sep + Join(b, sep)
  {
    if |a| == 1 {
      JoinCons(a[0], b, sep);
      assert a + b == [a[0]] + b;
    } else {
      JoinConcat(a[1..], b, sep);
      JoinCons(a[0], a[1..] + b, sep);
      assert a + b == [a[0]] + (a[1..] + b);
      assert a[0] + sep + (Join(a[1..], sep) + sep + Join(b, sep))
          == a[0] + sep + Join(a[1..], sep) + sep + Join(b, sep);
    }
  }

  /** A separator splits into what is before it and what is behind it, whatever they hold. */
  lemma SplitConcat(p: string, s: string, sep: char)
    ensures Split(p + [sep] + s, sep) == Split(p, sep) + Split(s, sep)
  {
    JoinConcat(Split(p, sep), Split(s, sep), [sep]);
    SplitJoin(Split(p, sep) + Split(s, sep), sep);
  }

  /** Splitting invents no characters. */
  lemma {:induction false} SplitChars(s: string, sep: char, p: string, c: char)
    requires p in Split(s, sep) && c in p
    ensures c in s
  {
    if s != "" {
      var rest := Split(s[1..], sep);
      if p in rest {
        SplitChars(s[1..], sep, p, c);
      } else if s[0] != sep && c != s[0] {
        assert p == [s[0]] + rest[0];
        SplitChars(s[1..], sep, rest[0], c);
      }
    }
  }

  /** A prefix that does not hold the separator can be read back from a joined string. */
  lemma PrefixCancels(a: string, x: string, b: string, y: string, sep: char)
    requires sep !in a && sep !in b
    requires a + [sep] + x == b + [sep] + y
    ensures a == b && x == y
  {
    SplitPrefix(a, x, sep);
    SplitPrefix(b, y, sep);
    assert ([a] + Split(x, sep))[0] == ([b] + Split(y, sep))[0];
    assert x == (a + [sep] + x)[|a| + 1..] == (b + [sep] + y)[|b| + 1..] == y;
  }

  const MIN_INT := -0x8000_0000_0000_0000
  const MAX_INT := 0x7fff_ffff_ffff_ffff

  predicate AllDigits(s: string) {
    forall i :: 0 <= i < |s| ==> '0' <= s[i] <= '9'
  }

  function Digits(s: string): (n: int)
    requires AllDigits(s)
    ensures n >= 0
  {
    if s == "" then 0
    else Digits(s[..|s| - 1]) * 10 + (s[|s| - 1] as int - '0' as int)
  }

  /** `strconv.Atoi`: an optional sign, at least one digit, and a value that fits the width. */
  function Atoi(s: string): Option<int> {
    var signed := s != "" && (s[0] == '-' || s[0] == '+');
    var digits := if signed then s[1..] else s;
    if digits == "" || !AllDigits(digits) then None
    else
      var n := if s[0] == '-' then -Digits(digits) else Digits(digits);
      if MIN_INT <= n <= MAX_INT then Some(n) else None
  }

  function PrintNat(n: nat): (s: string)
    ensures s != "" && AllDigits(s)
    ensures Digits(s) == n
  {
    var last := ('0' as int + n % 10) as char;
    if n < 10 then [last]
    else
      var s := PrintNat(n / 10) + [last];
      assert s[..|s| - 1] == PrintNat(n / 10);
      s
  }

  /** The usual decimal notation. */
  function Itoa(n: int): string {
    if n < 0 then "-" + PrintNat(-n) else PrintNat(n)
  }

  /** A plus sign is accepted, and numbers that do not fit are not. */
  lemma AtoiBounds(n: int)
    ensures n < MIN_INT || n > MAX_INT ==> Atoi(Itoa(n)) == None
    ensures 0 <= n <= MAX_INT ==> Atoi("+" + Itoa(n)) == Some(n)
  {
    if n < 0 {
      assert Itoa(n)[1..] == PrintNat(-n);
    } else {
      assert ("+" + Itoa(n))[1..] == PrintNat(n);
    }
  }

  /** Leading zeros do not matter. */
  lemma {:induction false} LeadingZero(s: string)
    requires AllDigits(s)
    ensures Digits("0" + s) == Digits(s)
  {
    if s != "" {
      var n := |s| - 1;
      assert ("0" + s)[..|s|] == "0" + s[..n];
      LeadingZero(s[..n]);
    } else {
      assert "0" + s == "0" && "0"[..0] == "";
    }
  }

  lemma AtoiItoa(n: int)
    requires MIN_INT <= n <= MAX_INT
    ensures Atoi(Itoa(n)) == Some(n)
    ensures ':' !in Itoa(n)
  {
    if n < 0 {
      assert Itoa(n)[1..] == PrintNat(-n);
    } else {
      var s := PrintNat(n);
      assert s[0] in s;
    }
  }
}
