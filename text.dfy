/**
 * The string operations the two programs use: ASCII `lower()`, `replace` of one
 * character, `split` on one character, `join`, `strip()`, slicing prefixes,
 * decimal rendering of integers, and the string growth of formatting loops.
 */
module Text {

  /** Python's `str.isspace`, restricted to ASCII. */
  predicate IsSpace(c: char) {
    c == ' ' || c == '\t' || c == '\n' || c == '\r' || c == '\U{000B}' || c == '\U{000C}'
    || ('\U{001C}' <= c <= '\U{001F}')
  }

  predicate IsUpper(c: char) { 'A' <= c <= 'Z' }

  predicate IsDigit(c: char) { '0' <= c <= '9' }

  function LowerChar(c: char): char {
    if IsUpper(c) then (c as int + 32) as char else c
  }

  /** `s.lower()` on ASCII letters. */
  function Lower(s: string): (r: string)
    ensures |r| == |s|
    ensures forall i :: 0 <= i < |s| ==> r[i] == LowerChar(s[i])
  {
    if s == [] then [] else [LowerChar(s[0])] + Lower(s[1..])
  }

  /** `s.replace(a, b)` for single characters. */
  function Replace(s: string, a: char, b: char): (r: string)
    ensures |r| == |s|
    ensures forall i :: 0 <= i < |s| ==> r[i] == if s[i] == a then b else s[i]
  {
    if s == [] then [] else [if s[0] == a then b else s[0]] + Replace(s[1..], a, b)
  }

  /**
   * `s.split(sep)` for a one-character separator: the pieces between separators,
   * never an empty list (`"".split(sep) == [""]`).
   */
  function Split(s: string, sep: char): (r: seq<string>)
    ensures |r| >= 1
    ensures forall i :: 0 <= i < |r| ==> sep !in r[i]
  {
    if s == [] then [""]
    else
      var rest := Split(s[1..], sep);
      if s[0] == sep then [""] + rest
      else
        var head := [s[0]] + rest[0];
        assert sep !in head;
        [head] + rest[1..]
  }

  /**
   * The first piece of a split is the part of the string before the first
   * separator: a prefix followed by the separator or by the end of the string.
   */
  lemma {:induction false} FirstPieceSpec(s: string, sep: char)
    ensures |Split(s, sep)[0]| <= |s|
    ensures Split(s, sep)[0] == s[..|Split(s, sep)[0]|]
    ensures |Split(s, sep)[0]| < |s| ==> s[|Split(s, sep)[0]|] == sep
  {
    if s != [] && s[0] != sep {
      FirstPieceSpec(s[1..], sep);
    }
  }

  /**
   * The last piece of a split is the part of the string after the last
   * separator; the string is a single piece exactly when it has no separator.
   */
  lemma {:induction false} LastPieceSpec(s: string, sep: char)
    ensures |Split(s, sep)| == 1 <==> sep !in s
    ensures |Split(s, sep)[|Split(s, sep)| - 1]| <= |s|
    ensures Split(s, sep)[|Split(s, sep)| - 1] == s[|s| - |Split(s, sep)[|Split(s, sep)| - 1]|..]
    ensures sep in s ==> s[|s| - |Split(s, sep)[|Split(s, sep)| - 1]| - 1] == sep
    ensures sep !in s ==> Split(s, sep) == [s]
  {
    if s != [] {
      LastPieceSpec(s[1..], sep);
      if s[0] != sep {
        assert s == [s[0]] + s[1..];
      }
    }
  }

  /** `sep.join(parts)`. */
  function Join(parts: seq<string>, sep: string): string {
    if parts == [] then ""
    else if |parts| == 1 then parts[0]
    else parts[0] + sep + Join(parts[1..], sep)
  }

  lemma {:induction false} SplitPrefixed(p: string, sep: char, t: string)
    requires sep !in p
    ensures Split(p + [sep] + t, sep) == [p] + Split(t, sep)
  {
    if p == [] {
      assert p + [sep] + t == [sep] + t;
      assert ([sep] + t)[1..] == t;
    } else {
      SplitPrefixed(p[1..], sep, t);
      assert (p + [sep] + t)[1..] == p[1..] + [sep] + t;
      assert [p[0]] + p[1..] == p;
    }
  }

  /**
   * Splitting a join gives back the parts, provided that no part contains the
   * separator: joining loses nothing.
   */
  lemma {:induction false} JoinThenSplit(parts: seq<string>, sep: char)
    requires |parts| >= 1
    requires forall i :: 0 <= i < |parts| ==> sep !in parts[i]
    ensures Split(Join(parts, [sep]), sep) == parts
  {
    if |parts| == 1 {
      LastPieceSpec(parts[0], sep);
    } else {
      JoinThenSplit(parts[1..], sep);
      SplitPrefixed(parts[0], sep, Join(parts[1..], [sep]));
      assert [parts[0]] + parts[1..] == parts;
    }
  }

  /** The pieces a `", "`-joined list splits into at ',': every item after the first keeps the space. */
  function Spaced(items: seq<string>): (r: seq<string>)
    ensures |r| == |items|
  {
    seq(|items|, i requires 0 <= i < |items| => if i == 0 then items[i] else " " + items[i])
  }

  /** A prefix on a join lands on its first part. */
  lemma PrefixFirst(q: seq<string>, p: string, sep: string)
    requires |q| >= 1
    ensures p + Join(q, sep) == Join([p + q[0]] + q[1..], sep)
  {
    var q' := [p + q[0]] + q[1..];
    assert q'[1..] == q[1..];
  }

  /** A `", "` join is a ',' join of the spaced items. */
  lemma {:induction false} JoinCommaSpace(items: seq<string>)
    requires |items| >= 1
    ensures Join(items, ", ") == Join(Spaced(items), ",")
  {
    if |items| > 1 {
      var tail := items[1..];
      JoinCommaSpace(tail);
      var spacedTail := Spaced(tail);
      assert Spaced(items)[1..] == [" " + spacedTail[0]] + spacedTail[1..];
      PrefixFirst(spacedTail, " ", ",");
      assert Join(items, ", ") == items[0] + "," + (" " + Join(tail, ", "));
    }
  }

  /**
   * A `", "`-joined list of items without ',' splits at ',' back into the items, in
   * order, one piece per item.
   */
  lemma ListedItems(items: seq<string>)
    requires |items| >= 1
    requires forall i :: 0 <= i < |items| ==> ',' !in items[i]
    ensures Split(Join(items, ", "), ',') == Spaced(items)
  {
    JoinCommaSpace(items);
    var spaced := Spaced(items);
    forall i | 0 <= i < |spaced| ensures ',' !in spaced[i] {
      assert i > 0 ==> spaced[i] == " " + items[i];
    }
    JoinThenSplit(spaced, ',');
  }

  /** `s.split("\n")[0]`. */
  function FirstLine(s: string): string {
    Split(s, '\n')[0]
  }

  /** `s.split(sep)[-1]`. */
  function LastPiece(s: string, sep: char): string {
    var pieces := Split(s, sep);
    pieces[|pieces| - 1]
  }

  /** The concatenation that a loop of `result += part` builds. */
  function Concat(parts: seq<string>): string {
    if parts == [] then "" else Concat(parts[..|parts| - 1]) + parts[|parts| - 1]
  }

  lemma ConcatSnoc(parts: seq<string>, p: string)
    ensures Concat(parts + [p]) == Concat(parts) + p
  {
    assert (parts + [p])[..|parts|] == parts;
  }

  /** A list comprehension `[f(x) for x in s]`. */
  function Map<T, U>(s: seq<T>, f: T -> U): (r: seq<U>)
    ensures |r| == |s|
    ensures forall i :: 0 <= i < |s| ==> r[i] == f(s[i])
  {
    if s == [] then [] else Map(s[..|s| - 1], f) + [f(s[|s| - 1])]
  }

  lemma MapSnoc<T, U>(s: seq<T>, i: nat, f: T -> U)
    requires i < |s|
    ensures Map(s[..i + 1], f) == Map(s[..i], f) + [f(s[i])]
  {
    assert s[..i + 1][..i] == s[..i];
  }

  /** Python's `s[:n]`. */
  function Take<T>(s: seq<T>, n: nat): (r: seq<T>)
    ensures |r| == if |s| <= n then |s| else n
    ensures r == s[..|r|]
  {
    if |s| <= n then s else s[..n]
  }

  /** `s.lstrip()`. */
  function TrimStart(s: string): (r: string)
    ensures |r| <= |s| && r == s[|s| - |r|..]
    ensures forall i :: 0 <= i < |s| - |r| ==> IsSpace(s[i])
    ensures r == [] || !IsSpace(r[0])
  {
    if s != [] && IsSpace(s[0]) then TrimStart(s[1..]) else s
  }

  /** `s.rstrip()`. */
  function TrimEnd(s: string): (r: string)
    ensures |r| <= |s| && r == s[..|r|]
    ensures forall i :: |r| <= i < |s| ==> IsSpace(s[i])
    ensures r == [] || !IsSpace(r[|r| - 1])
  {
    if s != [] && IsSpace(s[|s| - 1]) then TrimEnd(s[..|s| - 1]) else s
  }

  /** `s.strip()`. */
  function Strip(s: string): string {
    TrimEnd(TrimStart(s))
  }

  /**
   * What `strip()` keeps: a contiguous piece of the input that starts and ends
   * with a non-space, with only spaces cut on either side; it is empty exactly
   * when the input is all spaces.
   */
  lemma StripSpec(s: string)
    ensures Strip(s) == [] <==> forall i :: 0 <= i < |s| ==> IsSpace(s[i])
    ensures Strip(s) != [] ==> !IsSpace(Strip(s)[0]) && !IsSpace(Strip(s)[|Strip(s)| - 1])
    ensures Strip(s) == TrimStart(s)[..|Strip(s)|]
  {
    var t := TrimStart(s);
    var r := TrimEnd(t);
    if r == [] {
      assert |t| == 0;
    } else {
      assert r[0] == t[0];
    }
  }

  /** `strip()` only removes characters. */
  lemma StripKeepsOut(s: string, c: char)
    requires c !in s
    ensures c !in Strip(s)
  {
    var t := TrimStart(s);
    var d := TrimEnd(t);
    assert forall i :: 0 <= i < |t| ==> t[i] == s[|s| - |t| + i];
    assert forall i :: 0 <= i < |d| ==> d[i] == t[i];
  }

  function DigitChar(d: nat): (c: char)
    requires d < 10
    ensures IsDigit(c)
  {
    ('0' as int + d) as char
  }

  function DigitValue(c: char): nat
    requires IsDigit(c)
  {
    c as int - '0' as int
  }

  /** The value of a string of decimal digits. */
  function DigitsValue(s: string): nat
    requires forall i :: 0 <= i < |s| ==> IsDigit(s[i])
  {
    if s == [] then 0 else DigitsValue(s[..|s| - 1]) * 10 + DigitValue(s[|s| - 1])
  }

  /** `str(n)` for a natural number: decimal digits that read back as `n`. */
  function NatToString(n: nat): (r: string)
    ensures |r| >= 1
    ensures forall i :: 0 <= i < |r| ==> IsDigit(r[i])
    ensures DigitsValue(r) == n
  {
    if n < 10 then [DigitChar(n)]
    else
      var prefix := NatToString(n / 10);
      var r := prefix + [DigitChar(n % 10)];
      assert r[..|r| - 1] == prefix;
      r
  }

  /** `str(i)` for an integer. */
  function IntToString(i: int): string {
    if i < 0 then "-" + NatToString(-i) else NatToString(i)
  }

  /** The run of decimal digits a string starts with. */
  function LeadingDigits(s: string): (r: string)
    ensures forall i :: 0 <= i < |r| ==> IsDigit(r[i])
  {
    if s != [] && IsDigit(s[0]) then [s[0]] + LeadingDigits(s[1..]) else []
  }

  /** The number a list entry starts with, as a reader of the listing sees it. */
  function ReadNumber(s: string): nat {
    DigitsValue(LeadingDigits(s))
  }

  lemma {:induction false} LeadingDigitsOf(d: string, rest: string)
    requires forall i :: 0 <= i < |d| ==> IsDigit(d[i])
    requires rest == [] || !IsDigit(rest[0])
    ensures LeadingDigits(d + rest) == d
  {
    if d != [] {
      LeadingDigitsOf(d[1..], rest);
      assert (d + rest)[1..] == d[1..] + rest;
      assert [d[0]] + d[1..] == d;
    } else {
      assert d + rest == rest;
    }
  }

  /** A number written in front of a non-digit reads back as itself. */
  lemma ReadNumberOf(n: nat, rest: string)
    requires rest == [] || !IsDigit(rest[0])
    ensures ReadNumber(NatToString(n) + rest) == n
  {
    LeadingDigitsOf(NatToString(n), rest);
  }

  /**
   * The entries `for i, x in enumerate(items, 1)` renders: one per item,
   * numbered from 1 in input order.
   */
  function Numbered<T>(items: seq<T>, entry: (nat, T) -> string): (r: seq<string>)
    ensures |r| == |items|
    ensures forall i :: 0 <= i < |items| ==> r[i] == entry(i + 1, items[i])
  {
    if items == [] then []
    else
      var prev := Numbered(items[..|items| - 1], entry);
      prev + [entry(|items|, items[|items| - 1])]
  }

  /**
   * The formatting loop `for i, x in enumerate(items, 1): result += entry(i, x)`,
   * starting from `header`.
   */
  method AppendNumbered<T>(header: string, items: seq<T>, entry: (nat, T) -> string) returns (text: string)
    ensures text == header + Concat(Numbered(items, entry))
  {
    text := header;
    var i := 0;
    while i < |items|
      invariant 0 <= i <= |items|
      invariant text == header + Concat(Numbered(items[..i], entry))
    {
      NumberedSnoc(items, i, entry);
      ConcatSnoc(Numbered(items[..i], entry), entry(i + 1, items[i]));
      text := text + entry(i + 1, items[i]);
      i := i + 1;
    }
    assert items[..i] == items;
  }

  /** One more loop iteration adds the next numbered entry at the end. */
  lemma NumberedSnoc<T>(items: seq<T>, i: nat, entry: (nat, T) -> string)
    requires i < |items|
    ensures Numbered(items[..i + 1], entry) == Numbered(items[..i], entry) + [entry(i + 1, items[i])]
  {
    assert items[..i + 1][..i] == items[..i];
  }
}
