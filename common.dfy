/** Values shared by every part of the model: the Option and Result wrappers,
    Go's `%d` rendering of an int, the `fmt.Sprintf` templates the services use
    to build resource paths, and `strings.Join`. */
module Common {

  datatype Option<+T> = None | Some(value: T)

  datatype Result<+T, +E> = Success(value: T) | Failure(error: E)

  predicate IsDigit(c: char) { '0' <= c <= '9' }

  /** A non-empty run of decimal digits. */
  predicate Digits(s: string) {
    |s| > 0 && forall i :: 0 <= i < |s| ==> IsDigit(s[i])
  }

  function DigitChar(d: nat): (c: char)
    requires d < 10
    ensures IsDigit(c)
  {
    (('0' as int) + d) as char
  }

  function DigitValue(c: char): (d: nat)
    requires IsDigit(c)
    ensures d < 10 && DigitChar(d) == c
  {
    (c as int) - ('0' as int)
  }

  /** The decimal digits of n, most significant first. */
  function NatString(n: nat): (s: string)
    ensures Digits(s)
    ensures s[0] == '0' ==> n == 0 && s == "0"
    decreases n
  {
    if n < 10 then [DigitChar(n)] else NatString(n / 10) + [DigitChar(n % 10)]
  }

  /** Go's `%d` verb applied to an int: a '-' in front of the digits of a
      negative number, no sign otherwise. */
  function IntString(n: int): string {
    if n < 0 then "-" + NatString(-n) else NatString(n)
  }

  /** What `%d` can print: digits, optionally after a single '-'. */
  predicate SignedDigits(s: string) {
    Digits(s) || (|s| > 1 && s[0] == '-' && Digits(s[1..]))
  }

  function ParseNat(s: string): nat
    requires Digits(s)
    decreases |s|
  {
    if |s| == 1 then DigitValue(s[0])
    else 10 * ParseNat(s[..|s| - 1]) + DigitValue(s[|s| - 1])
  }

  /** The inverse of IntString. */
  function ParseInt(s: string): int
    requires SignedDigits(s)
  {
    if Digits(s) then ParseNat(s) else -(ParseNat(s[1..]) as int)
  }

  lemma {:induction false} ParseNatString(n: nat)
    ensures ParseNat(NatString(n)) == n
    decreases n
  {
    if n >= 10 {
      var s := NatString(n);
      assert s[..|s| - 1] == NatString(n / 10);
      ParseNatString(n / 10);
    }
  }

  /** Parsing what `%d` printed gives the number back, so two distinct IDs
      never print the same. */
  lemma IntStringRoundTrip(n: int)
    ensures SignedDigits(IntString(n))
    ensures ParseInt(IntString(n)) == n
  {
    if n < 0 {
      var s := IntString(n);
      assert s[1..] == NatString(-n);
      assert !Digits(s) by { assert !IsDigit(s[0]); }
      ParseNatString(-n);
    } else {
      ParseNatString(n);
    }
  }

  lemma IntStringInjective(a: int, b: int)
    requires IntString(a) == IntString(b)
    ensures a == b
  {
    IntStringRoundTrip(a);
    IntStringRoundTrip(b);
  }

  // ---------------------------------------------------------------------
  // fmt.Sprintf restricted to the templates the services use: literal text
  // and `%d` verbs, one argument per verb.

  /** Every '%' in t starts a `%d` verb. */
  predicate Template(t: string)
    decreases |t|
  {
    if t == [] then true
    else if t[0] == '%' then |t| >= 2 && t[1] == 'd' && Template(t[2..])
    else Template(t[1..])
  }

  function Verbs(t: string): nat
    requires Template(t)
    decreases |t|
  {
    if t == [] then 0
    else if t[0] == '%' then 1 + Verbs(t[2..])
    else Verbs(t[1..])
  }

  /** fmt.Sprintf(t, args...) when every verb of t is `%d` and args has one
      int per verb. */
  function Sprintf(t: string, args: seq<int>): string
    requires Template(t) && Verbs(t) == |args|
    decreases |t|
  {
    if t == [] then ""
    else if t[0] == '%' then IntString(args[0]) + Sprintf(t[2..], args[1..])
    else [t[0]] + Sprintf(t[1..], args)
  }

  /** One literal character in front of a template is copied as it is. */
  lemma SprintfChar(c: char, t: string, args: seq<int>)
    requires c != '%'
    requires Template(t) && Verbs(t) == |args|
    ensures Template([c] + t) && Verbs([c] + t) == |args|
    ensures Sprintf([c] + t, args) == [c] + Sprintf(t, args)
  {
    var u := [c] + t;
    assert u != [] && u[0] == c && u[1..] == t;
  }

  /** Literal text in front of a template is copied as it is. */
  lemma {:induction false} SprintfLiteral(p: string, t: string, args: seq<int>)
    requires '%' !in p
    requires Template(t) && Verbs(t) == |args|
    ensures Template(p + t) && Verbs(p + t) == |args|
    ensures Sprintf(p + t, args) == p + Sprintf(t, args)
    decreases |p|
  {
    if p == [] {
      assert p + t == t;
    } else {
      var c, q := p[0], p[1..];
      assert c != '%' && '%' !in q by {
        assert c in p;
        assert forall x :: x in q ==> x in p;
      }
      SprintfLiteral(q, t, args);
      SprintfChar(c, q + t, args);
      assert [c] + (q + t) == p + t && [c] + (q + Sprintf(t, args)) == p + Sprintf(t, args) by {
        assert [c] + q == p;
      }
    }
  }

  /** A `%d` verb in front of a template prints the first argument. */
  lemma SprintfVerb(t: string, a: int, args: seq<int>)
    requires Template(t) && Verbs(t) == |args|
    ensures Template("%d" + t) && Verbs("%d" + t) == 1 + |args|
    ensures Sprintf("%d" + t, [a] + args) == IntString(a) + Sprintf(t, args)
  {
    var u := "%d" + t;
    assert u[0] == '%' && u[1] == 'd' && u[2..] == t;
    assert ([a] + args)[0] == a && ([a] + args)[1..] == args;
  }

  /** The text of a template given as its literal parts:
      parts[0] + "%d" + parts[1] + ... + "%d" + parts[n]. */
  function TemplateText(parts: seq<string>): string
    requires |parts| > 0
    decreases |parts|
  {
    if |parts| == 1 then parts[0] else parts[0] + ("%d" + TemplateText(parts[1..]))
  }

  /** fmt.Sprintf(TemplateText(parts), args...): the literal parts with the
      `%d` rendering of one argument between consecutive ones (SprintfFills
      proves the two agree). */
  function Format(parts: seq<string>, args: seq<int>): string
    requires |parts| == |args| + 1
    decreases |parts|
  {
    if |parts| == 1 then parts[0] else parts[0] + (IntString(args[0]) + Format(parts[1..], args[1..]))
  }

  /** Sprintf on a template made of '%'-free parts puts each argument, in
      order, where its verb stood. */
  lemma {:induction false} SprintfFills(parts: seq<string>, args: seq<int>)
    requires |parts| == |args| + 1
    requires forall i :: 0 <= i < |parts| ==> '%' !in parts[i]
    ensures Template(TemplateText(parts)) && Verbs(TemplateText(parts)) == |args|
    ensures Sprintf(TemplateText(parts), args) == Format(parts, args)
    decreases |parts|
  {
    if |parts| == 1 {
      SprintfLiteral(parts[0], "", []);
      assert parts[0] + "" == parts[0];
    } else {
      var rest := TemplateText(parts[1..]);
      assert Template(rest) && Verbs(rest) == |args| - 1 && Sprintf(rest, args[1..]) == Format(parts[1..], args[1..]) by {
        SprintfFills(parts[1..], args[1..]);
      }
      assert Sprintf("%d" + rest, args) == IntString(args[0]) + Format(parts[1..], args[1..]) by {
        SprintfVerb(rest, args[0], args[1..]);
        assert [args[0]] + args[1..] == args;
      }
      SprintfLiteral(parts[0], "%d" + rest, args);
    }
  }

  lemma Assoc(x: string, y: string, z: string)
    ensures x + (y + z) == x + y + z
  {
  }

  // Format written out for the numbers of arguments the services use.

  lemma Format1(parts: seq<string>, a: int)
    requires |parts| == 2
    ensures Format(parts, [a]) == parts[0] + IntString(a) + parts[1]
  {
    assert Format(parts[1..], []) == parts[1];
    Assoc(parts[0], IntString(a), parts[1]);
  }

  /** Takes a number and the text before the last part out of the
      nesting Format builds. */
  lemma Extend(p: string, n: string, rest: string, q: string, last: string)
    requires rest == q + last
    ensures p + (n + rest) == p + n + q + last
  {
    calc {
      p + (n + rest);
      { Assoc(n, q, last); }
      p + ((n + q) + last);
      { Assoc(p, n + q, last); }
      (p + (n + q)) + last;
      { Assoc(p, n, q); }
      p + n + q + last;
    }
  }

  lemma Format2(parts: seq<string>, a: int, b: int)
    requires |parts| == 3
    ensures Format(parts, [a, b]) == parts[0] + IntString(a) + parts[1] + IntString(b) + parts[2]
  {
    var p0, p1, p2, A, B := parts[0], parts[1], parts[2], IntString(a), IntString(b);
    Format1(parts[1..], b);
    assert [a, b][1..] == [b];
    Extend(p0, A, Format(parts[1..], [b]), p1 + B, p2);
    Assoc(p0 + A, p1, B);
  }

  lemma Format3(parts: seq<string>, a: int, b: int, c: int)
    requires |parts| == 4
    ensures Format(parts, [a, b, c])
         == parts[0] + IntString(a) + parts[1] + IntString(b) + parts[2] + IntString(c) + parts[3]
  {
    var p0, p1, p2, p3 := parts[0], parts[1], parts[2], parts[3];
    var A, B, C := IntString(a), IntString(b), IntString(c);
    Format2(parts[1..], b, c);
    assert [a, b, c][1..] == [b, c];
    Extend(p0, A, Format(parts[1..], [b, c]), p1 + B + p2 + C, p3);
    var P := p0 + A;
    calc {
      P + (p1 + B + p2 + C);
      { Assoc(P, p1 + B + p2, C); }
      P + (p1 + B + p2) + C;
      { Assoc(P, p1 + B, p2); }
      P + (p1 + B) + p2 + C;
      { Assoc(P, p1, B); }
      P + p1 + B + p2 + C;
    }
  }

  lemma Format4(parts: seq<string>, a: int, b: int, c: int, d: int)
    requires |parts| == 5
    ensures Format(parts, [a, b, c, d])
         == parts[0] + IntString(a) + parts[1] + IntString(b) + parts[2] + IntString(c) + parts[3]
            + IntString(d) + parts[4]
  {
    var p0, p1, p2, p3, p4 := parts[0], parts[1], parts[2], parts[3], parts[4];
    var A, B, C, D := IntString(a), IntString(b), IntString(c), IntString(d);
    Format3(parts[1..], b, c, d);
    assert [a, b, c, d][1..] == [b, c, d];
    Extend(p0, A, Format(parts[1..], [b, c, d]), p1 + B + p2 + C + p3 + D, p4);
    var P := p0 + A;
    calc {
      P + (p1 + B + p2 + C + p3 + D);
      { Assoc(P, p1 + B + p2 + C + p3, D); }
      P + (p1 + B + p2 + C + p3) + D;
      { Assoc(P, p1 + B + p2 + C, p3); }
      P + (p1 + B + p2 + C) + p3 + D;
      { Assoc(P, p1 + B + p2, C); }
      P + (p1 + B + p2) + C + p3 + D;
      { Assoc(P, p1 + B, p2); }
      P + (p1 + B) + p2 + C + p3 + D;
      { Assoc(P, p1, B); }
      P + p1 + B + p2 + C + p3 + D;
    }
  }

  /** Text that cannot continue the digits of a `%d` rendering. */
  predicate Delimits(s: string) { s == [] || !IsDigit(s[0]) }

  /** Parts between which rendered numbers stay apart: every part after the
      first starts with a non-digit, and only the last may be empty. */
  predicate Separated(parts: seq<string>) {
    forall i :: 1 <= i < |parts| ==> Delimits(parts[i]) && (parts[i] == [] ==> i == |parts| - 1)
  }

  /** Every char of `%d`'s output after the first is a digit. */
  lemma IntStringShape(n: int)
    ensures |IntString(n)| > 0
    ensures forall i :: 1 <= i < |IntString(n)| ==> IsDigit(IntString(n)[i])
  {
    if n < 0 {
      var s := IntString(n);
      assert forall i :: 1 <= i < |s| ==> s[i] == NatString(-n)[i - 1];
    }
  }

  /** The index of the first non-digit of u at or after k (|u| if none). */
  function RunEnd(u: string, k: nat): nat
    requires k <= |u|
    decreases |u| - k
  {
    if k == |u| || !IsDigit(u[k]) then k else RunEnd(u, k + 1)
  }

  lemma {:induction false} DigitRunEnd(s: string, x: string, k: nat)
    requires 1 <= k <= |s|
    requires forall i :: 1 <= i < |s| ==> IsDigit(s[i])
    requires Delimits(x)
    ensures RunEnd(s + x, k) == |s|
    decreases |s| - k
  {
    var u := s + x;
    if k < |s| {
      assert u[k] == s[k];
      DigitRunEnd(s, x, k + 1);
    } else if x != [] {
      assert u[k] == x[0];
    }
  }

  /** A rendered number followed by a delimiting text can be split back
      into the two. */
  lemma IntStringPrefixFree(a: int, b: int, x: string, y: string)
    requires Delimits(x) && Delimits(y)
    requires IntString(a) + x == IntString(b) + y
    ensures a == b && x == y
  {
    var s, t := IntString(a), IntString(b);
    IntStringShape(a);
    IntStringShape(b);
    var u := s + x;
    DigitRunEnd(s, x, 1);
    DigitRunEnd(t, y, 1);
    assert s == u[..|s|] == t;
    IntStringInjective(a, b);
    assert x == u[|s|..] == y;
  }

  /** The text Format puts after the first rendered number delimits it. */
  lemma FormatDelimited(parts: seq<string>, args: seq<int>)
    requires |parts| == |args| + 1
    requires |parts| >= 1 && Delimits(parts[0]) && (parts[0] == [] ==> |parts| == 1)
    ensures Delimits(Format(parts, args))
  {
    if |parts| > 1 {
      assert Format(parts, args)[0] == parts[0][0];
    }
  }

  /** Distinct arguments give distinct paths: the numbers can be read back
      from the text Format produces. */
  lemma {:induction false} FormatInjective(parts: seq<string>, a: seq<int>, b: seq<int>)
    requires |parts| == |a| + 1 && |a| == |b|
    requires Separated(parts)
    requires Format(parts, a) == Format(parts, b)
    ensures a == b
    decreases |parts|
  {
    if |parts| > 1 {
      var rest := parts[1..];
      assert Separated(rest) by {
        assert forall i :: 1 <= i < |rest| ==> rest[i] == parts[i + 1];
      }
      var x, y := Format(rest, a[1..]), Format(rest, b[1..]);
      assert rest[0] == parts[1];
      FormatDelimited(rest, a[1..]);
      FormatDelimited(rest, b[1..]);
      assert IntString(a[0]) + x == IntString(b[0]) + y by {
        var p, l, r := parts[0], IntString(a[0]) + x, IntString(b[0]) + y;
        assert Format(parts, a) == p + l && Format(parts, b) == p + r;
        assert l == (p + l)[|p|..] && r == (p + r)[|p|..];
      }
      IntStringPrefixFree(a[0], b[0], x, y);
      FormatInjective(rest, a[1..], b[1..]);
      assert a == [a[0]] + a[1..] && b == [b[0]] + b[1..];
    }
  }

  // ---------------------------------------------------------------------

  /** strings.Join: the parts with sep between consecutive ones. */
  function Join(parts: seq<string>, sep: string): string
    decreases |parts|
  {
    if |parts| == 0 then ""
    else if |parts| == 1 then parts[0]
    else parts[0] + sep + Join(parts[1..], sep)
  }
}
