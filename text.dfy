/** The JavaScript string operations the application relies on, written out
    over `string` (a sequence of Unicode scalar values). A string pattern given
    to `replace` matches its FIRST occurrence only; a global regular expression
    of one character matches every occurrence (`ReplaceChar`). */
module Text {
  import opened Options

  // ---------------------------------------------------------------------------
  // Searching

  /** `p` occurs in `s` starting at index `i`. */
  predicate OccursAt(s: string, p: string, i: nat) {
    i + |p| <= |s| && s[i..i + |p|] == p
  }

  /** `String.prototype.startsWith(p)`. */
  predicate StartsWith(s: string, p: string) {
    |p| <= |s| && forall i :: 0 <= i < |p| ==> s[i] == p[i]
  }

  /** `String.prototype.indexOf(p, from)`: the first index at or after `from`
      where `p` occurs. */
  function IndexOfFrom(s: string, p: string, from: nat): (r: Option<nat>)
    requires from <= |s|
    ensures r.Some? ==> from <= r.value <= |s| && OccursAt(s, p, r.value)
    ensures r.Some? ==> forall j :: from <= j < r.value ==> !OccursAt(s, p, j)
    ensures r.None? ==> forall j :: from <= j <= |s| ==> !OccursAt(s, p, j)
    decreases |s| - from
  {
    if OccursAt(s, p, from) then Some(from)
    else if from == |s| then None
    else IndexOfFrom(s, p, from + 1)
  }

  function IndexOf(s: string, p: string): Option<nat> {
    IndexOfFrom(s, p, 0)
  }

  /** `String.prototype.includes`. */
  predicate Contains(s: string, p: string) {
    IndexOf(s, p).Some?
  }

  lemma ContainsAt(s: string, p: string, i: nat)
    requires OccursAt(s, p, i)
    ensures Contains(s, p)
  {
  }

  /** A text contains each of its middle parts. */
  lemma ContainsMiddle(a: string, p: string, b: string)
    ensures Contains(a + p + b, p)
  {
    assert (a + p + b)[|a|..|a| + |p|] == p;
    ContainsAt(a + p + b, p, |a|);
  }

  /** Containment survives adding text on either side. */
  lemma ContainsWithin(a: string, s: string, b: string, p: string)
    requires Contains(s, p)
    ensures Contains(a + s, p) && Contains(s + b, p)
  {
    var i := IndexOf(s, p).value;
    assert (a + s)[|a| + i..|a| + i + |p|] == s[i..i + |p|];
    ContainsAt(a + s, p, |a| + i);
    assert (s + b)[i..i + |p|] == s[i..i + |p|];
    ContainsAt(s + b, p, i);
  }

  /** When the first character of `d` does not occur in `x`, the first
      occurrence of `d` in `x + d + rest` is the one right after `x`. */
  lemma FirstOccurrence(x: string, d: string, rest: string)
    requires |d| > 0 && d[0] !in x
    ensures IndexOf(x + d + rest, d) == Some(|x|)
  {
    var s := x + d + rest;
    assert s[|x|..|x| + |d|] == d;
    assert OccursAt(s, d, |x|);
    forall j | 0 <= j < |x| ensures !OccursAt(s, d, j) {
      assert s[j] == x[j];
    }
  }

  lemma NotContainsAt(s: string, p: string, i: nat)
    requires !Contains(s, p)
    ensures !OccursAt(s, p, i)
  {
    if i <= |s| {
      assert IndexOf(s, p).None?;
    }
  }

  // ---------------------------------------------------------------------------
  // Replacing

  /** `s.replace(p, r)` with a string pattern: only the first occurrence of `p`
      is replaced. */
  function ReplaceFirst(s: string, p: string, r: string): string {
    match IndexOf(s, p)
    case None => s
    case Some(i) => s[..i] + r + s[i + |p|..]
  }

  /** When `s` starts with `p`, the first occurrence is that prefix. */
  lemma ReplaceFirstAtStart(s: string, p: string, r: string)
    requires p <= s
    ensures ReplaceFirst(s, p, r) == r + s[|p|..]
  {
    assert OccursAt(s, p, 0);
  }

  lemma ReplaceFirstAbsent(s: string, p: string, r: string)
    requires !Contains(s, p)
    ensures ReplaceFirst(s, p, r) == s
  {
  }

  /** Removing the first occurrence of a prefix leaves the rest. */
  lemma ReplaceFirstPrefix(p: string, x: string)
    ensures ReplaceFirst(p + x, p, "") == x
  {
    ReplaceFirstAtStart(p + x, p, "");
    assert (p + x)[|p|..] == x;
  }

  /** When `p` does not occur before index `k`, replacing its first
      occurrence leaves the first `k` characters alone. */
  lemma ReplaceFirstKeepsPrefix(s: string, p: string, r: string, k: nat)
    requires k <= |s|
    requires forall i :: 0 <= i < k ==> !OccursAt(s, p, i)
    ensures k <= |ReplaceFirst(s, p, r)| && ReplaceFirst(s, p, r)[..k] == s[..k]
  {
  }

  /** `s.replace(/c/g, r)` for a one-character pattern `c`. */
  function ReplaceChar(s: string, c: char, r: string): (out: string)
    ensures c !in r ==> c !in out
    ensures c !in s ==> out == s
    decreases |s|
  {
    if s == [] then []
    else (if s[0] == c then r else [s[0]]) + ReplaceChar(s[1..], c, r)
  }

  lemma {:induction false} ReplaceCharAppend(a: string, b: string, c: char, r: string)
    ensures ReplaceChar(a + b, c, r) == ReplaceChar(a, c, r) + ReplaceChar(b, c, r)
    decreases |a|
  {
    if a != [] {
      var h := if a[0] == c then r else [a[0]];
      assert (a + b)[0] == a[0] && (a + b)[1..] == a[1..] + b;
      assert ReplaceChar(a + b, c, r) == h + ReplaceChar(a[1..] + b, c, r);
      ReplaceCharAppend(a[1..], b, c, r);
      assert ReplaceChar(a, c, r) == h + ReplaceChar(a[1..], c, r);
    } else {
      assert a + b == b;
    }
  }

  // ---------------------------------------------------------------------------
  // Joining and splitting

  /** `Array.prototype.join(sep)`. */
  function Join(parts: seq<string>, sep: string): string {
    if |parts| == 0 then ""
    else if |parts| == 1 then parts[0]
    else parts[0] + sep + Join(parts[1..], sep)
  }

  lemma {:induction false} JoinSnoc(parts: seq<string>, last: string, sep: string)
    ensures Join(parts + [last], sep) == if parts == [] then last else Join(parts, sep) + sep + last
    decreases |parts|
  {
    if |parts| == 1 {
      assert parts + [last] == [parts[0], last];
    } else if |parts| > 1 {
      assert (parts + [last])[1..] == parts[1..] + [last];
      JoinSnoc(parts[1..], last, sep);
    } else {
      assert parts + [last] == [last];
    }
  }

  /** `String.prototype.split(d)` for a non-empty separator, scanning left to
      right: `piece` is the part read since the last separator. */
  function SplitFrom(rest: string, d: string, piece: string): (r: seq<string>)
    requires |d| > 0
    ensures |r| >= 1
    decreases |rest|
  {
    if rest == [] then [piece]
    else if d <= rest then [piece] + SplitFrom(rest[|d|..], d, "")
    else SplitFrom(rest[1..], d, piece + [rest[0]])
  }

  function Split(s: string, d: string): seq<string>
    requires |d| > 0
  {
    SplitFrom(s, d, "")
  }

  lemma {:induction false} JoinSplitFrom(rest: string, d: string, piece: string)
    requires |d| > 0
    ensures Join(SplitFrom(rest, d, piece), d) == piece + rest
    decreases |rest|
  {
    if rest == [] {
    } else if d <= rest {
      var tail := SplitFrom(rest[|d|..], d, "");
      JoinSplitFrom(rest[|d|..], d, "");
      assert ([piece] + tail)[1..] == tail;
      assert rest == d + rest[|d|..];
    } else {
      JoinSplitFrom(rest[1..], d, piece + [rest[0]]);
      assert rest == [rest[0]] + rest[1..];
    }
  }

  /** Joined without a separator, the parts are simply concatenated. */
  lemma ConcatSnoc(parts: seq<string>, last: string)
    ensures Join(parts + [last], "") == Join(parts, "") + last
  {
    JoinSnoc(parts, last, "");
    if parts == [] {
      assert Join(parts, "") == [];
    } else {
      assert Join(parts, "") + "" == Join(parts, "");
    }
  }

  /** Splitting and joining again on the same separator gives the text back. */
  lemma JoinSplit(s: string, d: string)
    requires |d| > 0
    ensures Join(Split(s, d), d) == s
  {
    JoinSplitFrom(s, d, "");
  }

  /** The separator's last character occurs neither earlier in the separator
      nor in any part: then no occurrence of the separator can start inside a
      part. */
  predicate Separable(parts: seq<string>, d: string) {
    && |d| > 0
    && d[|d| - 1] !in d[..|d| - 1]
    && forall k :: 0 <= k < |parts| ==> d[|d| - 1] !in parts[k]
  }

  lemma {:induction false} ScanPart(x: string, tail: string, d: string, piece: string)
    requires |d| > 0 && d[|d| - 1] !in d[..|d| - 1] && d[|d| - 1] !in x
    requires tail == [] || d <= tail
    ensures SplitFrom(x + tail, d, piece) == SplitFrom(tail, d, piece + x)
    decreases |x|
  {
    if x == [] {
      assert x + tail == tail;
      assert piece + x == piece;
    } else {
      var rest := x + tail;
      assert rest[1..] == x[1..] + tail;
      ScanPart(x[1..], tail, d, piece + [x[0]]);
      assert piece + [x[0]] + x[1..] == piece + x;
    }
  }

  lemma {:induction false} SplitJoinParts(parts: seq<string>, d: string)
    requires |parts| >= 1 && Separable(parts, d)
    ensures Split(Join(parts, d), d) == parts
    decreases |parts|
  {
    if |parts| == 1 {
      ScanPart(parts[0], [], d, "");
      assert parts[0] + [] == parts[0] && "" + parts[0] == parts[0];
      assert parts == [parts[0]];
    } else {
      var rest := Join(parts[1..], d);
      assert Separable(parts[1..], d) by {
        forall k | 0 <= k < |parts[1..]| ensures d[|d| - 1] !in parts[1..][k] {
          assert parts[1..][k] == parts[k + 1];
        }
      }
      SplitJoinParts(parts[1..], d);
      assert Join(parts, d) == parts[0] + (d + rest);
      ScanPart(parts[0], d + rest, d, "");
      assert "" + parts[0] == parts[0];
      assert d <= d + rest;
      assert (d + rest)[|d|..] == rest;
      assert SplitFrom(d + rest, d, parts[0]) == [parts[0]] + SplitFrom(rest, d, "");
      assert parts == [parts[0]] + parts[1..];
    }
  }

  /** The first part of a split on one character is the text before its
      first occurrence. */
  lemma SplitHead(a: string, c: char, b: string)
    requires c !in a
    ensures Split(a + [c] + b, [c])[0] == a
  {
    ScanPart(a, [c] + b, [c], "");
    assert a + [c] + b == a + ([c] + b);
    assert "" + a == a;
  }

  /** No part of a split on one character holds that character. */
  lemma {:induction false} SplitPiecesExclude(rest: string, c: char, piece: string)
    requires c !in piece
    ensures forall k :: 0 <= k < |SplitFrom(rest, [c], piece)| ==> c !in SplitFrom(rest, [c], piece)[k]
    decreases |rest|
  {
    if rest == [] {
    } else if [c] <= rest {
      SplitPiecesExclude(rest[1..], c, "");
    } else {
      assert rest[0] != c;
      SplitPiecesExclude(rest[1..], c, piece + [rest[0]]);
    }
  }

  // ---------------------------------------------------------------------------
  // Trimming

  /** The characters `String.prototype.trim` removes: white space and line
      terminators of ECMAScript. */
  predicate IsJsSpace(c: char) {
    || c == ' ' || c == '\t' || c == '\n' || c == '\r'
    || c == '\U{B}' || c == '\U{C}' || c == '\U{A0}' || c == '\U{1680}'
    || ('\U{2000}' <= c <= '\U{200A}')
    || c == '\U{2028}' || c == '\U{2029}' || c == '\U{202F}' || c == '\U{205F}'
    || c == '\U{3000}' || c == '\U{FEFF}'
  }

  predicate Blank(s: string) {
    forall i :: 0 <= i < |s| ==> IsJsSpace(s[i])
  }

  function TrimStart(s: string): (r: string)
    ensures |r| <= |s| && r == s[|s| - |r|..]
    ensures forall i :: 0 <= i < |s| - |r| ==> IsJsSpace(s[i])
    ensures r == [] || !IsJsSpace(r[0])
    decreases |s|
  {
    if s != [] && IsJsSpace(s[0]) then TrimStart(s[1..]) else s
  }

  function TrimEnd(s: string): (r: string)
    ensures |r| <= |s| && r == s[..|r|]
    ensures forall i :: |r| <= i < |s| ==> IsJsSpace(s[i])
    ensures r == [] || !IsJsSpace(r[|r| - 1])
    decreases |s|
  {
    if s != [] && IsJsSpace(s[|s| - 1]) then TrimEnd(s[..|s| - 1]) else s
  }

  /** `String.prototype.trim`. */
  function Trim(s: string): string {
    TrimEnd(TrimStart(s))
  }

  /** A trimmed text is empty exactly when the text is all white space: this
      is what the guards `!input.trim()` test. */
  lemma TrimEmptyIffBlank(s: string)
    ensures Trim(s) == "" <==> Blank(s)
  {
    var t := TrimStart(s);
    if Trim(s) == "" {
      assert t == [];
    } else {
      var r := Trim(s);
      assert !IsJsSpace(r[0]);
      assert r[0] == t[0] == s[|s| - |t|];
    }
  }

  /** A text that neither starts nor ends with white space is its own trim. */
  lemma TrimFixed(s: string)
    requires s == [] || (!IsJsSpace(s[0]) && !IsJsSpace(s[|s| - 1]))
    ensures Trim(s) == s
  {
    var t := TrimStart(s);
    if |t| < |s| {
      assert IsJsSpace(s[0]);
    }
    assert t == s;
  }

  // ---------------------------------------------------------------------------
  // Decimal numerals

  predicate IsDigit(c: char) {
    '0' <= c <= '9'
  }

  function Digit(d: nat): (c: char)
    requires d < 10
    ensures IsDigit(c)
  {
    (48 + d) as char
  }

  /** `Number.prototype.toString()` for a natural number. */
  function Decimal(n: nat): (r: string)
    ensures |r| >= 1
    ensures forall i :: 0 <= i < |r| ==> IsDigit(r[i])
    decreases n
  {
    if n < 10 then [Digit(n)] else Decimal(n / 10) + [Digit(n % 10)]
  }

  /** The number a string of decimal digits denotes. */
  function DigitsValue(s: string): nat
    requires forall i :: 0 <= i < |s| ==> IsDigit(s[i])
  {
    if s == [] then 0
    else
      var d := s[|s| - 1] as int - '0' as int;
      assert 0 <= d by { assert IsDigit(s[|s| - 1]); }
      10 * DigitsValue(s[..|s| - 1]) + d
  }

  /** Reading the numeral back gives the number. */
  lemma {:induction false} DecimalValue(n: nat)
    ensures DigitsValue(Decimal(n)) == n
    decreases n
  {
    if n >= 10 {
      var s := Decimal(n);
      DecimalValue(n / 10);
      assert s[..|s| - 1] == Decimal(n / 10);
    }
  }

  /** In a numeral followed by a non-digit `c`, the first `c` ends the numeral. */
  lemma NumeralEnd(a: string, c: char, x: string)
    requires forall i :: 0 <= i < |a| ==> IsDigit(a[i])
    requires !IsDigit(c)
    ensures IndexOf(a + [c] + x, [c]) == Some(|a|)
  {
    var s := a + [c] + x;
    assert OccursAt(s, [c], |a|);
    forall j | 0 <= j < |a| ensures !OccursAt(s, [c], j) {
      assert s[j] == a[j];
    }
  }

  /** A numeral, a non-digit separator and a tail can be read back apart. */
  lemma NumeralPrefixUnique(a: string, x: string, b: string, y: string, c: char)
    requires forall i :: 0 <= i < |a| ==> IsDigit(a[i])
    requires forall i :: 0 <= i < |b| ==> IsDigit(b[i])
    requires !IsDigit(c)
    requires a + [c] + x == b + [c] + y
    ensures a == b && x == y
  {
    var s := a + [c] + x;
    NumeralEnd(a, c, x);
    NumeralEnd(b, c, y);
    assert a == s[..|a|] == b;
    assert x == s[|a| + 1..] == y;
  }

  lemma DecimalInjective(a: nat, b: nat)
    requires Decimal(a) == Decimal(b)
    ensures a == b
  {
    DecimalValue(a);
    DecimalValue(b);
  }
}
