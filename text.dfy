/** The string conventions of Go that the core relies on: formatting an
    integer with `%v`, splitting a string on a separator, and a simplified
    reader of the flag forms the local backend writes. The last two are the
    reading side of what the core writes; they let the model state what a
    consumer of the manager's output recovers from it. */
module Text {
  import opened Wrappers

  predicate IsDigit(c: char) { '0' <= c <= '9' }

  function DigitChar(d: nat): (c: char)
    requires d < 10
    ensures IsDigit(c)
  {
    ('0' as int + d) as char
  }

  function DigitValue(c: char): int { c as int - '0' as int }

  /** The decimal digits of a natural number, most significant first,
      without leading zeros. */
  function Digits(n: nat): (s: string)
    ensures |s| > 0
    ensures forall i :: 0 <= i < |s| ==> IsDigit(s[i])
    ensures (s[0] == '0') == (n == 0)
    ensures n < 10 ==> |s| == 1
    decreases n
  {
    if n < 10 then [DigitChar(n)] else Digits(n / 10) + [DigitChar(n % 10)]
  }

  /** An integer as Go's fmt package prints it with `%v`: a minus sign for a
      negative value, then the digits of its magnitude, with no leading zero
      unless the value is zero. */
  function Decimal(n: int): (s: string)
    ensures |s| > 0 && (s[0] == '-') == (n < 0)
    ensures n >= 0 ==> IsDigit(s[0])
    ensures forall i :: 1 <= i < |s| ==> IsDigit(s[i])
    ensures n < 0 ==> |s| >= 2
    ensures (s[if n < 0 then 1 else 0] == '0') == (n == 0)
    ensures n == 0 ==> s == "0"
  {
    if n < 0 then "-" + Digits(-n) else Digits(n)
  }

  /** The value of a string of decimal digits (most significant first). */
  function DigitsValue(s: string): int
    decreases |s|
  {
    if s == [] then 0 else DigitsValue(s[..|s| - 1]) * 10 + DigitValue(s[|s| - 1])
  }

  /** Reads back what Decimal writes. */
  function ParseDecimal(s: string): int
  {
    if |s| > 0 && s[0] == '-' then -DigitsValue(s[1..]) else DigitsValue(s)
  }

  lemma {:induction false} DigitsRoundTrip(n: nat)
    ensures DigitsValue(Digits(n)) == n
    decreases n
  {
    if n >= 10 {
      var s := Digits(n);
      assert s[..|s| - 1] == Digits(n / 10);
      DigitsRoundTrip(n / 10);
    }
  }

  lemma DecimalRoundTrip(n: int)
    ensures ParseDecimal(Decimal(n)) == n
  {
    if n < 0 {
      assert Decimal(n)[1..] == Digits(-n);
      DigitsRoundTrip(-n);
    } else {
      DigitsRoundTrip(n);
    }
  }

  /** The parts joined with one separator between neighbours, as Go's
      strings.Join does. */
  function JoinWith(parts: seq<string>, sep: char): string
    requires |parts| >= 1
    decreases |parts|
  {
    if |parts| == 1 then parts[0] else parts[0] + [sep] + JoinWith(parts[1..], sep)
  }

  /** Go's strings.Split for a one-character separator: the pieces of `s`
      between its separators, with an empty piece wherever two separators
      meet or one stands at an end. */
  function Split(s: string, sep: char): (parts: seq<string>)
    ensures |parts| >= 1
    ensures forall i :: 0 <= i < |parts| ==> sep !in parts[i]
    ensures JoinWith(parts, sep) == s
    decreases |s|
  {
    if s == [] then [""]
    else
      var rest := Split(s[1..], sep);
      if s[0] == sep then
        assert ([""] + rest)[1..] == rest;
        [""] + rest
      else
        var parts := [[s[0]] + rest[0]] + rest[1..];
        assert parts[1..] == rest[1..];
        assert JoinWith(parts, sep) == [s[0]] + JoinWith(rest, sep);
        parts
  }

  lemma {:induction false} SplitNoSeparator(s: string, sep: char)
    requires sep !in s
    ensures Split(s, sep) == [s]
    decreases |s|
  {
    if s != [] {
      assert forall i :: 0 <= i < |s[1..]| ==> s[1..][i] == s[i + 1];
      SplitNoSeparator(s[1..], sep);
      assert s == [s[0]] + s[1..];
    }
  }

  lemma {:induction false} SplitAround(a: string, b: string, sep: char)
    ensures Split(a + [sep] + b, sep) == Split(a, sep) + Split(b, sep)
    decreases |a|
  {
    var s := a + [sep] + b;
    if a == [] {
      assert s[1..] == b;
    } else {
      assert s[1..] == a[1..] + [sep] + b;
      SplitAround(a[1..], b, sep);
    }
  }

  /** Splitting undoes joining, so the pieces are recovered exactly when no
      piece contains the separator. */
  lemma {:induction false} SplitJoin(parts: seq<string>, sep: char)
    requires |parts| >= 1
    requires forall i :: 0 <= i < |parts| ==> sep !in parts[i]
    ensures Split(JoinWith(parts, sep), sep) == parts
    decreases |parts|
  {
    SplitNoSeparator(parts[0], sep);
    if |parts| > 1 {
      SplitJoin(parts[1..], sep);
      SplitAround(parts[0], JoinWith(parts[1..], sep), sep);
    }
  }

  lemma {:induction false} JoinWithSnoc(parts: seq<string>, x: string, sep: char)
    requires |parts| >= 1
    ensures JoinWith(parts + [x], sep) == JoinWith(parts, sep) + [sep] + x
    decreases |parts|
  {
    if |parts| > 1 {
      assert (parts + [x])[1..] == parts[1..] + [x];
      JoinWithSnoc(parts[1..], x, sep);
    }
  }

  /** The position of the first occurrence of `c` in `s`. */
  function IndexOf(s: string, c: char): (k: nat)
    requires c in s
    ensures k < |s| && s[k] == c && c !in s[..k]
  {
    if s[0] == c then 0 else 1 + IndexOf(s[1..], c)
  }

  /** One flag as a command line reader sees it. */
  datatype Flag = Flag(name: string, value: string)

  function Cons(f: Flag, rest: Option<seq<Flag>>): Option<seq<Flag>>
  {
    match rest
    case None => None
    case Some(fs) => Some([f] + fs)
  }

  /** A simplified command line reader (the program name excluded), enough
      for the arguments the local backend writes: `-name=value` carries its
      value, a boolean flag `-name` stands alone and means "true", any other
      `-name` takes the next argument, whatever it is, as its value. `None`
      stands for any argument this reader does not accept (one that is not a
      flag, or a value-taking flag at the very end). It does not reproduce
      Go's flag package beyond that: it accepts undefined flags, does not
      stop at the first non-flag argument and has no `--name` form. */
  function ReadFlags(args: seq<string>, boolFlags: set<string>): Option<seq<Flag>>
    decreases |args|
  {
    if args == [] then Some([])
    else if |args[0]| < 2 || args[0][0] != '-' then None
    else
      var body := args[0][1..];
      if '=' in body then
        var k := IndexOf(body, '=');
        Cons(Flag(body[..k], body[k + 1..]), ReadFlags(args[1..], boolFlags))
      else if body in boolFlags then
        Cons(Flag(body, "true"), ReadFlags(args[1..], boolFlags))
      else if |args| == 1 then None
      else Cons(Flag(body, args[1]), ReadFlags(args[2..], boolFlags))
  }
}
