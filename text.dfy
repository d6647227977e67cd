/** String helpers shared by the client and the server model: splitting on a
    separator character (JavaScript's `String.prototype.split` and Python's
    `str.split` with a one-character separator agree), joining, prefixes,
    whitespace trimming, and decimal rendering of integers. */
module Text {

  /** `s` begins with `prefix` (`startsWith` in JavaScript, `startswith` in Python). */
  predicate StartsWith(s: string, prefix: string) {
    |prefix| <= |s| && s[..|prefix|] == prefix
  }

  /** Every part is free of the separator. */
  predicate AllFree(parts: seq<string>, sep: char) {
    forall i :: 0 <= i < |parts| ==> sep !in parts[i]
  }

  lemma AllFreeConcat(p: seq<string>, q: seq<string>, sep: char)
    requires AllFree(p, sep) && AllFree(q, sep)
    ensures AllFree(p + q, sep)
  {
    forall i | 0 <= i < |p + q| ensures sep !in (p + q)[i] {
      if i >= |p| { assert (p + q)[i] == q[i - |p|]; }
    }
  }

  /** `s.split(sep)`: the maximal separator-free pieces of `s`, in order.
      There is always at least one piece; the empty string gives `[""]`. */
  function Split(s: string, sep: char): (parts: seq<string>)
    ensures |parts| >= 1
    ensures AllFree(parts, sep)
    decreases |s|
  {
    if s == [] then [[]]
    else
      var rest := Split(s[1..], sep);
      if s[0] == sep then [[]] + rest
      else [[s[0]] + rest[0]] + rest[1..]
  }

  /** `sep.join(parts)`, the inverse of `Split`. */
  function Join(parts: seq<string>, sep: char): string
    requires |parts| >= 1
  {
    if |parts| == 1 then parts[0] else parts[0] + [sep] + Join(parts[1..], sep)
  }

  /** The pieces of `s` that were followed by a separator: everything of
      `Split(s, sep)` except the last, still unterminated, piece. */
  function Terminated(s: string, sep: char): seq<string> {
    var parts := Split(s, sep);
    parts[..|parts| - 1]
  }

  /** The last, unterminated piece of `s`. */
  function Unterminated(s: string, sep: char): string {
    var parts := Split(s, sep);
    parts[|parts| - 1]
  }

  lemma {:induction false} SplitFree(p: string, sep: char)
    requires sep !in p
    ensures Split(p, sep) == [p]
    decreases |p|
  {
    if p != [] {
      SplitFree(p[1..], sep);
      assert [p[0]] + p[1..] == p;
    }
  }

  lemma {:induction false} SplitCons(p: string, sep: char, x: string)
    requires sep !in p
    ensures Split(p + [sep] + x, sep) == [p] + Split(x, sep)
    decreases |p|
  {
    var s := p + [sep] + x;
    if p == [] {
      assert s[1..] == x;
    } else {
      assert s[1..] == p[1..] + [sep] + x;
      SplitCons(p[1..], sep, x);
      assert [p[0]] + p[1..] == p;
    }
  }

  /** Splitting a join of separator-free pieces gives the pieces back. */
  lemma {:induction false} SplitJoin(parts: seq<string>, sep: char)
    requires |parts| >= 1 && AllFree(parts, sep)
    ensures Split(Join(parts, sep), sep) == parts
    decreases |parts|
  {
    if |parts| == 1 {
      SplitFree(parts[0], sep);
    } else {
      SplitJoin(parts[1..], sep);
      SplitCons(parts[0], sep, Join(parts[1..], sep));
      assert [parts[0]] + parts[1..] == parts;
    }
  }

  /** Joining the pieces of a split gives the original string back. */
  lemma {:induction false} JoinSplit(s: string, sep: char)
    ensures Join(Split(s, sep), sep) == s
    decreases |s|
  {
    if s != [] {
      var rest := Split(s[1..], sep);
      JoinSplit(s[1..], sep);
      if s[0] == sep {
        assert ([[]] + rest)[1..] == rest;
      } else if |rest| == 1 {
        assert [s[0]] + s[1..] == s;
      } else {
        var parts := [[s[0]] + rest[0]] + rest[1..];
        assert parts[1..] == rest[1..];
        assert Join(rest, sep) == rest[0] + [sep] + Join(rest[1..], sep);
        assert [s[0]] + s[1..] == s;
      }
    }
  }

  /** Joining is associative: the tail `q` may be joined first. */
  lemma {:induction false} JoinPrefix(p: seq<string>, q: seq<string>, sep: char)
    requires |q| >= 1
    ensures Join(p + q, sep) == Join(p + [Join(q, sep)], sep)
    decreases |p|
  {
    if p != [] {
      JoinPrefix(p[1..], q, sep);
      assert (p + q)[1..] == p[1..] + q;
      assert (p + [Join(q, sep)])[1..] == p[1..] + [Join(q, sep)];
      assert Join(p + q, sep) == p[0] + [sep] + Join(p[1..] + q, sep);
      assert Join(p + [Join(q, sep)], sep) == p[0] + [sep] + Join(p[1..] + [Join(q, sep)], sep);
    } else {
      assert p + q == q && p + [Join(q, sep)] == [Join(q, sep)];
    }
  }

  /** Text appended after a join lands in the last piece. */
  lemma {:induction false} JoinAppendLast(p: seq<string>, b: string, x: string, sep: char)
    ensures Join(p + [b], sep) + x == Join(p + [b + x], sep)
    decreases |p|
  {
    if p != [] {
      JoinAppendLast(p[1..], b, x, sep);
      assert (p + [b])[1..] == p[1..] + [b];
      assert (p + [b + x])[1..] == p[1..] + [b + x];
    }
  }

  /** The central carry-over fact: splitting `Join(p + [b]) + x` keeps the
      pieces `p` and re-splits only the carried piece `b` followed by `x`. */
  lemma SplitExtend(p: seq<string>, b: string, x: string, sep: char)
    requires AllFree(p, sep) && sep !in b
    ensures Split(Join(p + [b], sep) + x, sep) == p + Split(b + x, sep)
  {
    var q := Split(b + x, sep);
    JoinAppendLast(p, b, x, sep);
    JoinSplit(b + x, sep);
    JoinPrefix(p, q, sep);
    AllFreeConcat(p, q, sep);
    SplitJoin(p + q, sep);
  }

  /** Appending text to `s` never changes the pieces that were already
      terminated; only the unterminated piece is re-split. */
  lemma SplitAppend(s: string, x: string, sep: char)
    ensures Terminated(s + x, sep) == Terminated(s, sep) + Terminated(Unterminated(s, sep) + x, sep)
    ensures Unterminated(s + x, sep) == Unterminated(Unterminated(s, sep) + x, sep)
  {
    var parts := Split(s, sep);
    var p, b := parts[..|parts| - 1], parts[|parts| - 1];
    assert parts == p + [b];
    JoinSplit(s, sep);
    SplitExtend(p, b, x, sep);
  }

  /** A string that ends in the separator has nothing unterminated. */
  lemma EndsWithSeparator(s: string, sep: char)
    requires |s| > 0 && s[|s| - 1] == sep
    ensures Unterminated(s, sep) == []
    ensures Terminated(s, sep) == Terminated(s[..|s| - 1], sep) + [Unterminated(s[..|s| - 1], sep)]
  {
    var t := s[..|s| - 1];
    assert s == t + [sep];
    SplitAppend(t, [sep], sep);
    var b := Unterminated(t, sep);
    SplitCons(b, sep, []);
    assert b + [sep] == b + [sep] + [];
  }

  /** Characters JavaScript's `String.prototype.trim` removes: WhiteSpace and
      LineTerminator of ECMA-262 (sections 12.2 and 12.3). */
  predicate IsJsSpace(c: char) {
    c == '\t' || c == '\n' || c == '\U{000B}' || c == '\U{000C}' || c == '\r' || c == ' '
    || c == '\U{00A0}' || c == '\U{1680}' || ('\U{2000}' <= c <= '\U{200A}')
    || c == '\U{2028}' || c == '\U{2029}' || c == '\U{202F}' || c == '\U{205F}'
    || c == '\U{3000}' || c == '\U{FEFF}'
  }

  /** Characters Python's `str.strip()` removes (`str.isspace`). */
  predicate IsPySpace(c: char) {
    ('\t' <= c <= '\r') || ('\U{001C}' <= c <= ' ')
    || c == '\U{0085}' || c == '\U{00A0}' || c == '\U{1680}' || ('\U{2000}' <= c <= '\U{200A}')
    || c == '\U{2028}' || c == '\U{2029}' || c == '\U{202F}' || c == '\U{205F}' || c == '\U{3000}'
  }

  /** `s` without its leading `isSpace` characters. */
  function TrimStart(s: string, isSpace: char -> bool): (r: string)
    ensures |r| <= |s|
  {
    if s != [] && isSpace(s[0]) then TrimStart(s[1..], isSpace) else s
  }

  /** `s` without its trailing `isSpace` characters. */
  function TrimEnd(s: string, isSpace: char -> bool): (r: string)
    ensures |r| <= |s|
  {
    if s != [] && isSpace(s[|s| - 1]) then TrimEnd(s[..|s| - 1], isSpace) else s
  }

  /** `s` without leading and trailing `isSpace` characters. */
  function Trim(s: string, isSpace: char -> bool): string {
    TrimEnd(TrimStart(s, isSpace), isSpace)
  }

  lemma {:induction false} TrimStartSpec(s: string, isSpace: char -> bool)
    ensures var r := TrimStart(s, isSpace);
            && |r| <= |s| && r == s[|s| - |r|..]
            && (r == [] || !isSpace(r[0]))
            && forall i :: 0 <= i < |s| - |r| ==> isSpace(s[i])
    decreases |s|
  {
    if s != [] && isSpace(s[0]) {
      TrimStartSpec(s[1..], isSpace);
    }
  }

  lemma {:induction false} TrimEndSpec(s: string, isSpace: char -> bool)
    ensures var r := TrimEnd(s, isSpace);
            && |r| <= |s| && r == s[..|r|]
            && (r == [] || !isSpace(r[|r| - 1]))
            && forall i :: |r| <= i < |s| ==> isSpace(s[i])
    decreases |s|
  {
    if s != [] && isSpace(s[|s| - 1]) {
      TrimEndSpec(s[..|s| - 1], isSpace);
    }
  }

  /** Trimming keeps a contiguous slice `s[i..i + |r|]` of `s` that neither
      starts nor ends with a space character, and drops only space characters
      around it. */
  lemma TrimSpec(s: string, isSpace: char -> bool)
    ensures var r := Trim(s, isSpace);
            var i := |s| - |TrimStart(s, isSpace)|;
            && i + |r| <= |s| && r == s[i..i + |r|]
            && (forall k :: 0 <= k < i ==> isSpace(s[k]))
            && (forall k :: i + |r| <= k < |s| ==> isSpace(s[k]))
            && (r == [] || (!isSpace(r[0]) && !isSpace(r[|r| - 1])))
  {
    var t := TrimStart(s, isSpace);
    TrimStartSpec(s, isSpace);
    TrimEndSpec(t, isSpace);
  }

  /** A string that neither starts nor ends with a space character is its
      own trim. */
  lemma Untrimmed(s: string, isSpace: char -> bool)
    requires s != [] && !isSpace(s[0]) && !isSpace(s[|s| - 1])
    ensures Trim(s, isSpace) == s
  {
  }

  /** JavaScript's `s.trim()`. */
  function JsTrim(s: string): string { Trim(s, IsJsSpace) }

  /** Python's `s.strip()`. */
  function PyStrip(s: string): string { Trim(s, IsPySpace) }

  function DigitChar(d: nat): (c: char)
    requires d < 10
    ensures '0' <= c <= '9'
  {
    ['0', '1', '2', '3', '4', '5', '6', '7', '8', '9'][d]
  }

  function NatToString(n: nat): (r: string)
    ensures |r| >= 1 && forall i :: 0 <= i < |r| ==> '0' <= r[i] <= '9'
  {
    if n < 10 then [DigitChar(n)] else NatToString(n / 10) + [DigitChar(n % 10)]
  }

  /** The decimal text of an integer, as JavaScript's template literals and
      Python's f-strings render it. */
  function IntToString(n: int): string {
    if n < 0 then "-" + NatToString(-n) else NatToString(n)
  }

  /** `sep.join(items)` for a possibly empty list, as JavaScript's
      `Array.prototype.join(sep)` with a multi-character separator. */
  function JoinWith(items: seq<string>, sep: string): string {
    if items == [] then []
    else if |items| == 1 then items[0]
    else items[0] + sep + JoinWith(items[1..], sep)
  }

  /** `t` occurs in `s` at offset `k`. */
  predicate OccursAt(s: string, t: string, k: nat) {
    k + |t| <= |s| && s[k..k + |t|] == t
  }

  /** `t` occurs in `s` as a contiguous piece. */
  ghost predicate Contains(s: string, t: string) {
    exists k: nat :: OccursAt(s, t, k)
  }

  /** Every item occurs in the list joined with any separator. */
  lemma {:induction false} JoinWithContains(items: seq<string>, sep: string, i: nat)
    requires i < |items|
    ensures Contains(JoinWith(items, sep), items[i])
    decreases |items|
  {
    var s := JoinWith(items, sep);
    if |items| == 1 || i == 0 {
      assert OccursAt(s, items[i], 0);
    } else {
      JoinWithContains(items[1..], sep, i - 1);
      var rest := JoinWith(items[1..], sep);
      var k: nat :| OccursAt(rest, items[i], k);
      var off := |items[0]| + |sep|;
      assert s == items[0] + sep + rest;
      assert OccursAt(s, items[i], off + k);
    }
  }

  /** A piece found inside a string is found in any extension of it. */
  lemma ContainsInContext(a: string, s: string, b: string, t: string)
    requires Contains(s, t)
    ensures Contains(a + s + b, t)
  {
    var k: nat :| OccursAt(s, t, k);
    assert OccursAt(a + s + b, t, |a| + k);
  }
}
