/** String helpers the Go code takes from its standard library (`strings.Join`,
    `strings.Contains`, the `%d` verb of `fmt.Sprintf`), and the text a builder
    loop writes one line per element. */
module Text {

  /** `strings.Join`: the parts, in order, with `sep` between consecutive ones. */
  function Join(parts: seq<string>, sep: string): string
  {
    if |parts| == 0 then ""
    else if |parts| == 1 then parts[0]
    else parts[0] + sep + Join(parts[1..], sep)
  }

  /** Joining two non-empty runs of parts puts exactly one separator between them. */
  lemma {:induction false} JoinConcat(a: seq<string>, b: seq<string>, sep: string)
    requires a != [] && b != []
    ensures Join(a + b, sep) == Join(a, sep) + sep + Join(b, sep)
    decreases |a|
  {
    if |a| == 1 {
      assert (a + b)[1..] == b;
    } else {
      assert (a + b)[1..] == a[1..] + b;
      JoinConcat(a[1..], b, sep);
    }
  }

  /** Appending one more part to a non-empty join, the way a builder loop does. */
  lemma JoinSnoc(parts: seq<string>, p: string, sep: string)
    requires parts != []
    ensures Join(parts + [p], sep) == Join(parts, sep) + sep + p
  {
    JoinConcat(parts, [p], sep);
  }

  /** Every part occurs in the join at its own index: after the join of the parts
      before it and one separator, and before one separator and the join of the
      parts after it. */
  lemma JoinAt(parts: seq<string>, sep: string, i: nat)
    requires i < |parts|
    ensures Join(parts, sep) ==
            Join(parts[..i], sep) + (if i > 0 then sep else "") + parts[i] +
            (if i + 1 < |parts| then sep else "") + Join(parts[i + 1..], sep)
  {
    var before, after := parts[..i], parts[i + 1..];
    assert parts == before + [parts[i]] + after;
    if i > 0 && i + 1 < |parts| {
      JoinConcat(before + [parts[i]], after, sep);
      JoinConcat(before, [parts[i]], sep);
    } else if i > 0 {
      assert parts == before + [parts[i]];
      JoinConcat(before, [parts[i]], sep);
    } else if i + 1 < |parts| {
      assert parts == [parts[i]] + after;
      JoinConcat([parts[i]], after, sep);
    } else {
      assert parts == [parts[i]];
    }
  }

  /** `strings.Contains`: `sub` occurs somewhere in `s` (the empty string occurs everywhere). */
  predicate Contains(s: string, sub: string)
    decreases |s|
  {
    sub <= s || (s != [] && Contains(s[1..], sub))
  }

  /** An occurrence at any offset makes `Contains` true. */
  lemma {:induction false} ContainsAt(s: string, sub: string, i: nat)
    requires i <= |s| && sub <= s[i..]
    ensures Contains(s, sub)
    decreases i
  {
    if i > 0 {
      assert s[1..][i - 1..] == s[i..];
      ContainsAt(s[1..], sub, i - 1);
    }
  }

  /** Conversely, `Contains` is only true where there is an occurrence. */
  lemma {:induction false} ContainsWitness(s: string, sub: string) returns (i: nat)
    requires Contains(s, sub)
    ensures i <= |s| && sub <= s[i..]
    decreases |s|
  {
    if sub <= s {
      i := 0;
    } else {
      var j := ContainsWitness(s[1..], sub);
      assert s[1..][j..] == s[j + 1..];
      i := j + 1;
    }
  }

  /** A string spliced between two others is contained in the result. */
  lemma ContainsInfix(a: string, sub: string, b: string)
    ensures Contains(a + sub + b, sub)
  {
    assert (a + sub + b)[|a|..] == sub + b;
    ContainsAt(a + sub + b, sub, |a|);
  }

  /** Both inner pieces of a text written in five pieces occur in it. */
  lemma ContainsInnerPieces(a: string, b: string, c: string, d: string, e: string)
    ensures Contains(a + b + c + d + e, c)
    ensures Contains(a + b + c + d + e, d)
  {
    assert a + b + c + d + e == (a + b) + c + (d + e);
    ContainsInfix(a + b, c, d + e);
    assert a + b + c + d + e == (a + b + c) + d + e;
    ContainsInfix(a + b + c, d, e);
  }

  /** Every part of a join occurs in it. */
  lemma JoinContainsPart(parts: seq<string>, sep: string, i: nat)
    requires i < |parts|
    ensures Contains(Join(parts, sep), parts[i])
  {
    var before := Join(parts[..i], sep) + (if i > 0 then sep else "");
    var after := (if i + 1 < |parts| then sep else "") + Join(parts[i + 1..], sep);
    JoinAt(parts, sep, i);
    assert Join(parts, sep) == before + parts[i] + after;
    ContainsInfix(before, parts[i], after);
  }

  /** `s` ends with `suffix`. */
  predicate EndsWith(s: string, suffix: string)
  {
    |suffix| <= |s| && s[|s| - |suffix|..] == suffix
  }

  /** A text written in five pieces starts with the first and ends with the last. */
  lemma FramedByEnds(a: string, b: string, c: string, d: string, e: string)
    ensures a <= a + b + c + d + e
    ensures EndsWith(a + b + c + d + e, e)
  {
    var s := a + b + c + d + e;
    assert s == a + (b + c + d + e);
    assert s == (a + b + c + d) + e;
    assert s[|s| - |e|..] == e;
  }

  /** A text written in four pieces starts with the first, and is the first alone
      exactly when the other three are empty. */
  lemma HeadAlone(a: string, b: string, c: string, d: string)
    ensures a <= a + b + c + d
    ensures a + b + c + d == a <==> b == [] && c == [] && d == []
  {
    assert a + b + c + d == a + (b + c + d);
    assert |a + b + c + d| == |a| + |b| + |c| + |d|;
  }

  /** The digit character for `d`. */
  function DigitChar(d: nat): (c: char)
    requires d < 10
    ensures '0' <= c <= '9'
  {
    (('0' as int) + d) as char
  }

  /** The value of a digit character. */
  function DigitValue(c: char): int
  {
    c as int - '0' as int
  }

  /** The `%d` rendering of a non-negative Go int: decimal digits, no sign, no
      leading zero. */
  function Decimal(n: nat): (r: string)
    ensures r != []
    ensures forall k :: 0 <= k < |r| ==> '0' <= r[k] <= '9'
    ensures |r| > 1 ==> r[0] != '0'
  {
    if n < 10 then [DigitChar(n)] else Decimal(n / 10) + [DigitChar(n % 10)]
  }

  /** Reading decimal digits back, most significant first. */
  function ParseDecimal(s: string): int
  {
    if s == [] then 0 else 10 * ParseDecimal(s[..|s| - 1]) + DigitValue(s[|s| - 1])
  }

  /** The decimal rendering of a count reads back as that count. */
  lemma {:induction false} DecimalRoundTrip(n: nat)
    ensures ParseDecimal(Decimal(n)) == n
    decreases n
  {
    var r := Decimal(n);
    if n < 10 {
      assert r[..|r| - 1] == [];
    } else {
      assert r[..|r| - 1] == Decimal(n / 10);
      DecimalRoundTrip(n / 10);
    }
  }

  /** The text a builder loop writes when it appends `line(x)` for every element
      `x`, in order. */
  function Lines<T>(xs: seq<T>, line: T -> string): string
  {
    if xs == [] then "" else Lines(xs[..|xs| - 1], line) + line(xs[|xs| - 1])
  }

  /** One more element appends its line. */
  lemma LinesSnoc<T>(xs: seq<T>, x: T, line: T -> string)
    ensures Lines(xs + [x], line) == Lines(xs, line) + line(x)
  {
    assert (xs + [x])[..|xs|] == xs;
  }

  /** The lines of two runs of elements, one after the other. */
  lemma {:induction false} LinesConcat<T>(a: seq<T>, b: seq<T>, line: T -> string)
    ensures Lines(a + b, line) == Lines(a, line) + Lines(b, line)
    decreases |b|
  {
    if b == [] {
      assert a + b == a;
    } else {
      var n := |b| - 1;
      assert (a + b)[..|a| + n] == a + b[..n];
      LinesConcat(a, b[..n], line);
    }
  }

  /** Each element's line sits between the lines before it and those after it. */
  lemma LinesAround<T>(pre: seq<T>, x: T, post: seq<T>, line: T -> string)
    ensures Lines(pre + [x] + post, line) == Lines(pre, line) + line(x) + Lines(post, line)
  {
    LinesConcat(pre + [x], post, line);
    LinesSnoc(pre, x, line);
    assert [x][..0] == [];
  }

  /** As `Lines`, for a loop that writes `line(xs[i], ys[i])` for each index of two
      sequences of the same length. */
  function PairedLines<A, B>(xs: seq<A>, ys: seq<B>, line: (A, B) -> string): string
    requires |xs| == |ys|
  {
    if xs == [] then ""
    else
      var n := |xs| - 1;
      PairedLines(xs[..n], ys[..n], line) + line(xs[n], ys[n])
  }

  /** One more pair appends its line. */
  lemma PairedLinesSnoc<A, B>(xs: seq<A>, ys: seq<B>, x: A, y: B, line: (A, B) -> string)
    requires |xs| == |ys|
    ensures PairedLines(xs + [x], ys + [y], line) == PairedLines(xs, ys, line) + line(x, y)
  {
    assert (xs + [x])[..|xs|] == xs;
    assert (ys + [y])[..|xs|] == ys;
  }

  /** The paired lines of two runs, one after the other. */
  lemma {:induction false} PairedLinesConcat<A, B>(a: seq<A>, b: seq<B>, c: seq<A>, d: seq<B>, line: (A, B) -> string)
    requires |a| == |b| && |c| == |d|
    ensures PairedLines(a + c, b + d, line) == PairedLines(a, b, line) + PairedLines(c, d, line)
    decreases |c|
  {
    if c == [] {
      assert a + c == a && b + d == b;
    } else {
      var n := |c| - 1;
      assert (a + c)[..|a| + n] == a + c[..n];
      assert (b + d)[..|a| + n] == b + d[..n];
      PairedLinesConcat(a, b, c[..n], d[..n], line);
    }
  }

  /** Each index's line sits between the lines before it and those after it. */
  lemma PairedLinesAt<A, B>(xs: seq<A>, ys: seq<B>, i: nat, line: (A, B) -> string)
    requires |xs| == |ys| && i < |xs|
    ensures PairedLines(xs, ys, line) ==
            PairedLines(xs[..i], ys[..i], line) + line(xs[i], ys[i]) + PairedLines(xs[i + 1..], ys[i + 1..], line)
  {
    assert xs == (xs[..i] + [xs[i]]) + xs[i + 1..];
    assert ys == (ys[..i] + [ys[i]]) + ys[i + 1..];
    PairedLinesConcat(xs[..i] + [xs[i]], ys[..i] + [ys[i]], xs[i + 1..], ys[i + 1..], line);
    PairedLinesSnoc(xs[..i], ys[..i], xs[i], ys[i], line);
  }
}
