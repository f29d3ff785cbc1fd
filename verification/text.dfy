/** String and sequence helpers shared by the model: the ASCII subset of
    Python's `str.strip`, `str.lower`, `str.upper`, `str.splitlines`,
    JavaScript's `String.split`/`Array.join`, decimal formatting and parsing. */
module Text {
  import opened Wrappers

  // ---------------------------------------------------------------------------
  // Character classes (ASCII)
  // ---------------------------------------------------------------------------

  /** Python's `str.isspace` on ASCII characters. */
  predicate IsSpace(c: char) {
    c == ' ' || c == '\t' || c == '\n' || c == '\r' || c == '\U{B}' || c == '\U{C}'
    || c == '\U{1C}' || c == '\U{1D}' || c == '\U{1E}' || c == '\U{1F}'
  }

  /** The ASCII line boundaries of Python's `str.splitlines`. */
  predicate IsLineBreak(c: char) {
    c == '\n' || c == '\r' || c == '\U{B}' || c == '\U{C}' || c == '\U{1C}' || c == '\U{1D}' || c == '\U{1E}'
  }

  predicate NoLineBreak(s: string) {
    forall i :: 0 <= i < |s| ==> !IsLineBreak(s[i])
  }

  predicate IsDigit(c: char) { '0' <= c <= '9' }

  predicate AllDigits(s: string) {
    forall i :: 0 <= i < |s| ==> IsDigit(s[i])
  }

  function UpperChar(c: char): char {
    if 'a' <= c <= 'z' then (c as int - 32) as char else c
  }

  function LowerChar(c: char): char {
    if 'A' <= c <= 'Z' then (c as int + 32) as char else c
  }

  function Upper(s: string): string {
    seq(|s|, i requires 0 <= i < |s| => UpperChar(s[i]))
  }

  function Lower(s: string): string {
    seq(|s|, i requires 0 <= i < |s| => LowerChar(s[i]))
  }

  /** Every occurrence of `from` replaced by `to`. */
  function ReplaceChar(s: string, from: char, to: char): string {
    seq(|s|, i requires 0 <= i < |s| => if s[i] == from then to else s[i])
  }

  // ---------------------------------------------------------------------------
  // Prefixes, suffixes, substrings
  // ---------------------------------------------------------------------------

  predicate StartsWith<T(==)>(s: seq<T>, prefix: seq<T>) {
    |prefix| <= |s| && s[..|prefix|] == prefix
  }

  predicate EndsWith<T(==)>(s: seq<T>, suffix: seq<T>) {
    |suffix| <= |s| && s[|s| - |suffix|..] == suffix
  }

  /** `part` occurs in `s` starting at index `i`. */
  predicate OccursAt<T(==)>(s: seq<T>, part: seq<T>, i: int) {
    0 <= i && i + |part| <= |s| && s[i..i + |part|] == part
  }

  predicate Contains<T(==)>(s: seq<T>, part: seq<T>) {
    exists i :: 0 <= i <= |s| - |part| && OccursAt(s, part, i)
  }

  /** The two halves of a concatenation can be read back. */
  lemma AppendParts<T>(a: seq<T>, b: seq<T>)
    ensures StartsWith(a + b, a) && (a + b)[|a|..] == b
  {
    assert (a + b)[..|a|] == a;
  }

  /** The middle of a three-part concatenation can be read back between the
      other two. */
  lemma Framed<T>(a: seq<T>, b: seq<T>, c: seq<T>)
    ensures StartsWith(a + b + c, a) && EndsWith(a + b + c, c)
    ensures (a + b + c)[|a|..|a + b + c| - |c|] == b
  {
    var s := a + b + c;
    assert s[..|a|] == a;
    assert s[|s| - |c|..] == c;
    assert s[|a|..|s| - |c|] == b;
  }

  lemma ContainsSelf<T>(s: seq<T>)
    ensures Contains(s, s)
  {
    assert OccursAt(s, s, 0);
  }

  lemma ContainsLeft<T>(s: seq<T>, part: seq<T>, c: seq<T>)
    requires Contains(s, part)
    ensures Contains(s + c, part)
  {
    var i :| 0 <= i <= |s| - |part| && OccursAt(s, part, i);
    assert (s + c)[i..i + |part|] == s[i..i + |part|];
    assert OccursAt(s + c, part, i);
  }

  lemma ContainsRight<T>(a: seq<T>, s: seq<T>, part: seq<T>)
    requires Contains(s, part)
    ensures Contains(a + s, part)
  {
    var i :| 0 <= i <= |s| - |part| && OccursAt(s, part, i);
    assert (a + s)[|a| + i..|a| + i + |part|] == s[i..i + |part|];
    assert OccursAt(a + s, part, |a| + i);
  }

  lemma EndsWithConcat<T>(a: seq<T>, b: seq<T>)
    ensures EndsWith(a + b, b)
  {
    assert (a + b)[|a + b| - |b|..] == b;
  }

  lemma EndsWithTrans<T>(s: seq<T>, t: seq<T>, u: seq<T>)
    requires EndsWith(s, t) && EndsWith(t, u)
    ensures EndsWith(s, u)
  {
    assert s[|s| - |u|..] == s[|s| - |t|..][|t| - |u|..];
  }

  lemma AppendAssoc<T>(a: seq<T>, b: seq<T>, c: seq<T>)
    ensures a + b + c == a + (b + c)
  {
  }

  lemma ContainsMiddle<T>(a: seq<T>, b: seq<T>, c: seq<T>)
    ensures Contains(a + b + c, b)
  {
    assert OccursAt(a + b + c, b, |a|);
  }

  lemma ContainsExtend<T>(s: seq<T>, part: seq<T>, a: seq<T>, c: seq<T>)
    requires Contains(s, part)
    ensures Contains(a + s + c, part)
  {
    var i :| 0 <= i <= |s| - |part| && OccursAt(s, part, i);
    assert (a + s + c)[|a| + i..|a| + i + |part|] == s[i..i + |part|];
    assert OccursAt(a + s + c, part, |a| + i);
  }

  // ---------------------------------------------------------------------------
  // strip()
  // ---------------------------------------------------------------------------

  function TrimStart(s: string): (r: string)
    ensures |r| <= |s| && r == s[|s| - |r|..]
    ensures r == [] || !IsSpace(r[0])
  {
    if s != [] && IsSpace(s[0]) then TrimStart(s[1..]) else s
  }

  function TrimEnd(s: string): (r: string)
    ensures |r| <= |s| && r == s[..|r|]
    ensures r == [] || !IsSpace(r[|r| - 1])
  {
    if s != [] && IsSpace(s[|s| - 1]) then TrimEnd(s[..|s| - 1]) else s
  }

  /** Python's `str.strip()` with no argument, on ASCII whitespace. */
  function Strip(s: string): (r: string)
    ensures r == [] || (!IsSpace(r[0]) && !IsSpace(r[|r| - 1]))
  {
    TrimEnd(TrimStart(s))
  }

  /** Stripping a text without line breaks, cutting a prefix off the result and
      stripping again leaves a text without line breaks. */
  lemma StripSliceNoBreak(s: string, k: nat)
    requires NoLineBreak(s) && k <= |Strip(s)|
    ensures NoLineBreak(Strip(Strip(s)[k..]))
  {
    var t := Strip(s);
    StripChars(s);
    StripChars(t[k..]);
    var r := Strip(t[k..]);
    forall i | 0 <= i < |r| ensures !IsLineBreak(r[i]) {
      assert r[i] in t[k..];
      assert r[i] in s;
    }
  }

  /** Stripping only removes characters. */
  lemma StripChars(s: string)
    ensures forall c :: c in Strip(s) ==> c in s
  {
    var t := TrimStart(s);
    assert forall c :: c in Strip(s) ==> c in t;
  }

  /** A string that neither starts nor ends with whitespace is its own strip. */
  lemma StripFixed(s: string)
    requires s == [] || (!IsSpace(s[0]) && !IsSpace(s[|s| - 1]))
    ensures Strip(s) == s
  {
  }

  // ---------------------------------------------------------------------------
  // Searching
  // ---------------------------------------------------------------------------

  /** Index of the first `c` in `s`, or `|s|` when there is none. */
  function IndexOf(s: string, c: char): (k: nat)
    ensures k <= |s| && (k < |s| ==> s[k] == c)
    ensures c !in s[..k]
  {
    if s == [] then 0 else if s[0] == c then 0 else
      var k := 1 + IndexOf(s[1..], c);
      assert s[..k] == [s[0]] + s[1..][..k - 1];
      k
  }

  /** The text after the first `c`: `s.split(c, 1)[1]` (empty when `c` does not occur). */
  function AfterFirst(s: string, c: char): string {
    var k := IndexOf(s, c);
    if k < |s| then s[k + 1..] else []
  }

  lemma {:induction false} IndexOfAppend(a: string, b: string, c: char)
    ensures IndexOf(a + b, c) == if IndexOf(a, c) < |a| then IndexOf(a, c) else |a| + IndexOf(b, c)
  {
    if a != [] && a[0] != c {
      IndexOfAppend(a[1..], b, c);
      assert (a + b)[1..] == a[1..] + b;
    }
    if a == [] {
      assert a + b == b;
    }
  }

  // ---------------------------------------------------------------------------
  // splitlines()
  // ---------------------------------------------------------------------------

  function FirstBreak(s: string): (k: nat)
    ensures k <= |s| && (k < |s| ==> IsLineBreak(s[k]))
    ensures NoLineBreak(s[..k])
  {
    if s == [] then 0 else if IsLineBreak(s[0]) then 0 else
      var k := 1 + FirstBreak(s[1..]);
      assert s[..k] == [s[0]] + s[1..][..k - 1];
      k
  }

  /** Python's `str.splitlines()`: lines without their terminators, `\r\n` is one
      terminator, and a final terminator does not open an empty last line. */
  function SplitLines(s: string): (lines: seq<string>)
    ensures forall i :: 0 <= i < |lines| ==> NoLineBreak(lines[i])
    decreases |s|
  {
    if s == [] then []
    else
      var k := FirstBreak(s);
      if k == |s| then [s]
      else
        var next := if s[k] == '\r' && k + 1 < |s| && s[k + 1] == '\n' then k + 2 else k + 1;
        [s[..k]] + SplitLines(s[next..])
  }

  /** A non-empty text without line breaks is a single line. */
  lemma SplitSingleLine(s: string)
    requires s != [] && NoLineBreak(s)
    ensures SplitLines(s) == [s]
  {
    assert s[..|s|] == s;
  }

  // ---------------------------------------------------------------------------
  // JavaScript split(sep) / join(sep)
  // ---------------------------------------------------------------------------

  /** One more character read by `split`: a separator opens a new, empty piece;
      any other character extends the last piece. */
  function PushChar(parts: seq<string>, c: char, sep: char): (r: seq<string>)
    requires parts != []
    ensures r != []
  {
    if c == sep then parts + [[]] else parts[..|parts| - 1] + [parts[|parts| - 1] + [c]]
  }

  /** JavaScript's `s.split(sep)` for a one-character separator: always at least
      one piece, and empty pieces are kept. */
  function SplitOn(s: string, sep: char): (parts: seq<string>)
    ensures parts != []
    decreases |s|
  {
    if s == [] then [[]] else PushChar(SplitOn(s[..|s| - 1], sep), s[|s| - 1], sep)
  }

  /** JavaScript's `parts.join(sep)`. */
  function Join(parts: seq<string>, sep: char): string {
    if parts == [] then []
    else if |parts| == 1 then parts[0]
    else Join(parts[..|parts| - 1], sep) + [sep] + parts[|parts| - 1]
  }

  lemma PushCharAppend(xs: seq<string>, ys: seq<string>, c: char, sep: char)
    requires ys != []
    ensures PushChar(xs + ys, c, sep) == xs + PushChar(ys, c, sep)
  {
    if c != sep {
      assert (xs + ys)[..|xs + ys| - 1] == xs + ys[..|ys| - 1];
    }
  }

  /** Splitting at a separator character distributes over the text on each side. */
  lemma {:induction false} SplitOnAppend(a: string, b: string, sep: char)
    ensures SplitOn(a + [sep] + b, sep) == SplitOn(a, sep) + SplitOn(b, sep)
    decreases |b|
  {
    var s := a + [sep] + b;
    if b == [] {
      assert s[..|s| - 1] == a && s[|s| - 1] == sep;
      assert SplitOn(s, sep) == PushChar(SplitOn(a, sep), sep, sep);
    } else {
      var b' := b[..|b| - 1];
      var c := b[|b| - 1];
      assert s[..|s| - 1] == a + [sep] + b' && s[|s| - 1] == c;
      assert SplitOn(s, sep) == PushChar(SplitOn(a + [sep] + b', sep), c, sep);
      SplitOnAppend(a, b', sep);
      PushCharAppend(SplitOn(a, sep), SplitOn(b', sep), c, sep);
      assert SplitOn(b, sep) == PushChar(SplitOn(b', sep), c, sep);
    }
  }

  /** A string without the separator splits into itself alone. */
  lemma {:induction false} SplitOnAbsent(s: string, sep: char)
    requires sep !in s
    ensures SplitOn(s, sep) == [s]
    decreases |s|
  {
    if s != [] {
      var init := s[..|s| - 1];
      assert sep !in init by {
        forall i | 0 <= i < |init| ensures init[i] != sep { assert init[i] == s[i]; }
      }
      SplitOnAbsent(init, sep);
      assert s == init + [s[|s| - 1]];
    }
  }

  /** No piece contains the separator. */
  lemma {:induction false} SplitOnNoSep(s: string, sep: char)
    ensures forall p :: p in SplitOn(s, sep) ==> sep !in p
    decreases |s|
  {
    if s != [] {
      var init := SplitOn(s[..|s| - 1], sep);
      SplitOnNoSep(s[..|s| - 1], sep);
      var c := s[|s| - 1];
      if c != sep {
        var last := init[|init| - 1];
        assert last in init;
        forall p | p in init[..|init| - 1] ensures sep !in p {
          assert p in init;
        }
      }
    }
  }

  lemma JoinPushChar(parts: seq<string>, c: char, sep: char)
    requires parts != []
    ensures Join(PushChar(parts, c, sep), sep) == Join(parts, sep) + [c]
  {
    var init := parts[..|parts| - 1];
    var last := parts[|parts| - 1];
    if c == sep {
      var r := parts + [[]];
      assert r[..|r| - 1] == parts;
    } else {
      var r := init + [last + [c]];
      assert r[..|r| - 1] == init;
      if |parts| == 1 {
        assert r == [last + [c]];
      } else {
        assert Join(parts, sep) == Join(init, sep) + [sep] + last;
      }
    }
  }

  /** Splitting and re-joining gives back the text. */
  lemma {:induction false} JoinSplit(s: string, sep: char)
    ensures Join(SplitOn(s, sep), sep) == s
    decreases |s|
  {
    if s != [] {
      var init := s[..|s| - 1];
      JoinSplit(init, sep);
      JoinPushChar(SplitOn(init, sep), s[|s| - 1], sep);
      assert s == init + [s[|s| - 1]];
    }
  }

  /** Joining pieces that do not contain the separator and splitting again gives
      back the pieces. */
  lemma {:induction false} SplitJoin(parts: seq<string>, sep: char)
    requires parts != []
    requires forall p :: p in parts ==> sep !in p
    ensures SplitOn(Join(parts, sep), sep) == parts
    decreases |parts|
  {
    var last := parts[|parts| - 1];
    assert last in parts;
    SplitOnAbsent(last, sep);
    if |parts| > 1 {
      var init := parts[..|parts| - 1];
      forall p | p in init ensures sep !in p { assert p in parts; }
      SplitJoin(init, sep);
      SplitOnAppend(Join(init, sep), last, sep);
      assert parts == init + [last];
    }
  }

  /** Joining two non-empty runs of pieces puts one separator between them. */
  lemma {:induction false} JoinAppend(xs: seq<string>, ys: seq<string>, sep: char)
    requires xs != [] && ys != []
    ensures Join(xs + ys, sep) == Join(xs, sep) + [sep] + Join(ys, sep)
    decreases |ys|
  {
    var zs := xs + ys;
    var last := ys[|ys| - 1];
    assert zs[..|zs| - 1] == xs + ys[..|ys| - 1];
    if |ys| > 1 {
      JoinAppend(xs, ys[..|ys| - 1], sep);
    } else {
      assert zs[..|zs| - 1] == xs;
    }
  }

  /** A suffix of the pieces joins to a suffix of the text. */
  lemma JoinSuffix(parts: seq<string>, n: nat, sep: char)
    requires n <= |parts|
    ensures EndsWith(Join(parts, sep), Join(parts[n..], sep))
  {
    var whole := Join(parts, sep);
    var tail := Join(parts[n..], sep);
    if 0 < n < |parts| {
      JoinAppend(parts[..n], parts[n..], sep);
      assert parts == parts[..n] + parts[n..];
      assert whole[|whole| - |tail|..] == tail;
    } else if n == 0 {
      assert parts[n..] == parts;
      assert whole[|whole| - |tail|..] == tail;
    }
  }

  /** Keeping the last `n` pieces of a split text joins back to a tail of the
      text, to all of it when there are no more than `n` pieces. */
  lemma JoinLastN(s: string, sep: char, n: nat)
    ensures EndsWith(s, Join(LastN(SplitOn(s, sep), n), sep))
    ensures |SplitOn(s, sep)| <= n ==> Join(LastN(SplitOn(s, sep), n), sep) == s
  {
    var parts := SplitOn(s, sep);
    var kept := LastN(parts, n);
    JoinSplit(s, sep);
    JoinSuffix(parts, |parts| - |kept|, sep);
    assert parts[|parts| - |kept|..] == kept;
  }

  // ---------------------------------------------------------------------------
  // Decimal formatting and parsing
  // ---------------------------------------------------------------------------

  function DigitChar(d: nat): char
    requires d < 10
  {
    ('0' as int + d) as char
  }

  /** Base-10 text of a natural number, as Python's `str(n)` / JavaScript's
      template literal produce it. */
  function Decimal(n: nat): (r: string)
    ensures r != [] && AllDigits(r)
    ensures |r| == 1 <==> n < 10
  {
    if n < 10 then [DigitChar(n)] else Decimal(n / 10) + [DigitChar(n % 10)]
  }

  /** Value of a string of decimal digits. */
  function DigitsValue(s: string): nat
    requires AllDigits(s)
  {
    if s == [] then 0 else DigitsValue(s[..|s| - 1]) * 10 + (s[|s| - 1] as int - '0' as int)
  }

  /** Python's `int(text)` on a plain decimal literal: surrounding whitespace and
      one sign are allowed, anything else is a `ValueError` (`None`). */
  function ParseInt(text: string): Option<int> {
    var t := Strip(text);
    if t != [] && (t[0] == '+' || t[0] == '-') then
      var digits := t[1..];
      if digits != [] && AllDigits(digits) then
        Some(if t[0] == '-' then -(DigitsValue(digits) as int) else DigitsValue(digits) as int)
      else None
    else if t != [] && AllDigits(t) then Some(DigitsValue(t) as int)
    else None
  }

  lemma {:induction false} DigitsOfDecimal(n: nat)
    ensures DigitsValue(Decimal(n)) == n
  {
    if n >= 10 {
      DigitsOfDecimal(n / 10);
      var d := Decimal(n);
      assert d[..|d| - 1] == Decimal(n / 10);
    }
  }

  /** Formatting a number and parsing it back gives the number. */
  lemma ParseDecimal(n: nat)
    ensures ParseInt(Decimal(n)) == Some(n as int)
  {
    var d := Decimal(n);
    assert !IsSpace(d[0]) && !IsSpace(d[|d| - 1]);
    StripFixed(d);
    DigitsOfDecimal(n);
  }

  /** Different numbers have different decimal texts. */
  lemma {:induction false} DecimalInjective(a: nat, b: nat)
    requires Decimal(a) == Decimal(b)
    ensures a == b
  {
    if a >= 10 && b >= 10 {
      var da, db := Decimal(a), Decimal(b);
      assert da[..|da| - 1] == Decimal(a / 10);
      assert db[..|db| - 1] == Decimal(b / 10);
      DecimalInjective(a / 10, b / 10);
      assert a % 10 == b % 10 by {
        assert da[|da| - 1] == db[|db| - 1];
      }
    }
  }

  // ---------------------------------------------------------------------------
  // Sequences
  // ---------------------------------------------------------------------------

  /** The concatenation of `f(x)` over `xs`, in order. */
  function ConcatMap<T, U>(xs: seq<T>, f: T -> seq<U>): seq<U> {
    if xs == [] then [] else ConcatMap(xs[..|xs| - 1], f) + f(xs[|xs| - 1])
  }

  lemma {:induction false} ConcatMapAppend<T, U>(xs: seq<T>, ys: seq<T>, f: T -> seq<U>)
    ensures ConcatMap(xs + ys, f) == ConcatMap(xs, f) + ConcatMap(ys, f)
    decreases |ys|
  {
    if ys != [] {
      var zs := xs + ys;
      assert zs[..|zs| - 1] == xs + ys[..|ys| - 1];
      ConcatMapAppend(xs, ys[..|ys| - 1], f);
    } else {
      assert xs + ys == xs;
    }
  }

  lemma TakeAll<T>(xs: seq<T>)
    ensures xs[..|xs|] == xs
  {
  }

  lemma TakeTake<T>(xs: seq<T>, k: nat)
    requires k <= |xs|
    ensures xs[..k][..k] == xs[..k]
  {
  }

  lemma TakePrefix<T>(xs: seq<T>, ys: seq<T>, k: nat)
    requires k <= |xs|
    ensures (xs + ys)[..k] == xs[..k]
  {
  }

  /** The images of a whole first run and of a prefix of a second one. */
  lemma ConcatMapTakeAppend<T, U>(xs: seq<T>, ys: seq<T>, n: nat, k: nat, f: T -> seq<U>)
    requires n == |xs| && k <= |ys|
    ensures ConcatMap((xs + ys)[..n + k], f) == ConcatMap(xs[..n], f) + ConcatMap(ys[..k], f)
  {
    assert xs[..n] == xs;
    assert (xs + ys)[..n + k] == xs + ys[..k];
    ConcatMapAppend(xs, ys[..k], f);
  }

  /** Extending the input by one element extends the output by its image. */
  lemma ConcatMapSnoc<T, U>(xs: seq<T>, i: nat, f: T -> seq<U>)
    requires i < |xs|
    ensures ConcatMap(xs[..i + 1], f) == ConcatMap(xs[..i], f) + f(xs[i])
  {
    assert xs[..i + 1][..i] == xs[..i];
  }

  /** The image of a prefix is a prefix of the image. */
  lemma ConcatMapPrefix<T, U>(xs: seq<T>, i: nat, f: T -> seq<U>)
    requires i <= |xs|
    ensures ConcatMap(xs[..i], f) <= ConcatMap(xs, f)
  {
    assert xs == xs[..i] + xs[i..];
    ConcatMapAppend(xs[..i], xs[i..], f);
  }

  /** An element of the concatenation comes from the image of some element. */
  lemma {:induction false} ConcatMapMember<T, U>(xs: seq<T>, f: T -> seq<U>, u: U)
    ensures u in ConcatMap(xs, f) <==> exists i :: 0 <= i < |xs| && u in f(xs[i])
  {
    if xs != [] {
      var init := xs[..|xs| - 1];
      ConcatMapMember(init, f, u);
      if u in ConcatMap(xs, f) {
        if u !in f(xs[|xs| - 1]) {
          var i :| 0 <= i < |init| && u in f(init[i]);
          assert xs[i] == init[i];
        }
      } else {
        forall i | 0 <= i < |xs| ensures u !in f(xs[i]) {
          if i < |init| { assert xs[i] == init[i]; }
        }
      }
    }
  }

  /** The last `n` elements (all of them when there are fewer): `xs.slice(-n)`. */
  function LastN<T>(xs: seq<T>, n: nat): (r: seq<T>)
    ensures |r| <= n && |r| <= |xs|
    ensures r == xs[|xs| - |r|..]
    ensures |xs| <= n ==> r == xs
  {
    if |xs| <= n then xs else xs[|xs| - n..]
  }
}
