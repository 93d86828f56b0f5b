/** The JavaScript string operations the recorder relies on, over `string` (= `seq<char>`). */
module Text {
  import opened Common

  /** JavaScript's `\s` class, which is also what `String.prototype.trim` strips: ASCII white space,
      the line terminators, NBSP, BOM and the Unicode space separators. */
  predicate IsSpace(c: char)
  {
    c == ' ' || c == '\t' || c == '\n' || c == '\r' || c == '\U{000B}' || c == '\U{000C}'
    || c == '\U{00A0}' || c == '\U{1680}' || ('\U{2000}' <= c <= '\U{200A}')
    || c == '\U{2028}' || c == '\U{2029}' || c == '\U{202F}' || c == '\U{205F}'
    || c == '\U{3000}' || c == '\U{FEFF}'
  }

  predicate IsDigit(c: char) { '0' <= c <= '9' }

  /** Every character of `s` is white space, i.e. `s.trim() === ''`. */
  predicate Blank(s: string) { forall i :: 0 <= i < |s| ==> IsSpace(s[i]) }

  /** No character of `s` is white space. */
  predicate SpaceFree(s: string) { forall i :: 0 <= i < |s| ==> !IsSpace(s[i]) }

  predicate StartsWith(s: string, prefix: string) { |prefix| <= |s| && s[..|prefix|] == prefix }

  predicate EndsWith(s: string, suffix: string) { |suffix| <= |s| && s[|s| - |suffix|..] == suffix }

  lemma StartsWithAppend(a: string, b: string)
    ensures StartsWith(a + b, a)
  {
    assert (a + b)[..|a|] == a;
  }

  lemma EndsWithAppend(a: string, b: string)
    ensures EndsWith(a + b, b)
  {
    assert (a + b)[|a|..] == b;
  }

  lemma StartsWithTrans(s: string, p: string, q: string)
    requires StartsWith(s, p) && StartsWith(p, q)
    ensures StartsWith(s, q)
  {
    assert s[..|q|] == s[..|p|][..|q|];
  }

  /** `pat` occurs in `s` starting at index `i`. */
  predicate OccursAt(s: string, pat: string, i: nat) { i + |pat| <= |s| && s[i..i + |pat|] == pat }

  lemma OccursShift(s: string, pat: string, j: nat)
    requires |s| > 0
    ensures OccursAt(s[1..], pat, j) <==> OccursAt(s, pat, j + 1)
  {
    if j + 1 + |pat| <= |s| {
      assert s[1..][j..j + |pat|] == s[j + 1..j + 1 + |pat|];
    }
  }

  /** `s.indexOf(pat)`: the first index at which `pat` occurs in `s`; None stands for -1. */
  function Find(s: string, pat: string): (r: Option<nat>)
    ensures r.Some? ==> OccursAt(s, pat, r.value)
    ensures r.Some? ==> forall j: nat :: j < r.value ==> !OccursAt(s, pat, j)
    ensures r.None? ==> forall j: nat :: !OccursAt(s, pat, j)
    decreases |s|
  {
    if |pat| > |s| then None
    else if s[..|pat|] == pat then Some(0)
    else
      var tail := Find(s[1..], pat);
      assert !OccursAt(s, pat, 0);
      assert forall j: nat :: OccursAt(s, pat, j + 1) ==> OccursAt(s[1..], pat, j) by {
        forall j: nat | OccursAt(s, pat, j + 1) ensures OccursAt(s[1..], pat, j) { OccursShift(s, pat, j); }
      }
      assert tail.Some? ==> OccursAt(s, pat, tail.value + 1) by {
        if tail.Some? { OccursShift(s, pat, tail.value); }
      }
      match tail
      case None =>
        assert forall j: nat :: !OccursAt(s, pat, j) by {
          forall j: nat ensures !OccursAt(s, pat, j) {
            if j > 0 { assert !OccursAt(s[1..], pat, j - 1); }
          }
        }
        None
      case Some(i) =>
        assert forall j: nat :: j < i + 1 ==> !OccursAt(s, pat, j) by {
          forall j: nat | j < i + 1 ensures !OccursAt(s, pat, j) {
            if j > 0 { assert !OccursAt(s[1..], pat, j - 1); }
          }
        }
        Some(i + 1)
  }

  /** `s.indexOf(pat) > -1` */
  predicate Contains(s: string, pat: string) { Find(s, pat).Some? }

  /** An occurrence with none before it is what `indexOf` reports. */
  lemma FindAt(s: string, pat: string, k: nat)
    requires OccursAt(s, pat, k)
    requires forall j: nat :: j < k ==> !OccursAt(s, pat, j)
    ensures Find(s, pat) == Some(k)
  {
  }

  lemma OccursAtChar(s: string, c: char, j: nat)
    ensures OccursAt(s, [c], j) <==> j < |s| && s[j] == c
  {
    if j < |s| && s[j] == c {
      assert s[j..j + 1] == [c];
    }
  }

  /** For a one-character pattern, `indexOf` finds the first position holding that character. */
  lemma FindChar(s: string, c: char, k: nat)
    requires k < |s| && s[k] == c
    requires forall j :: 0 <= j < k ==> s[j] != c
    ensures Find(s, [c]) == Some(k)
  {
    OccursAtChar(s, c, k);
    forall j: nat | j < k ensures !OccursAt(s, [c], j) { OccursAtChar(s, c, j); }
    FindAt(s, [c], k);
  }

  lemma FindCharNone(s: string, c: char)
    requires forall j :: 0 <= j < |s| ==> s[j] != c
    ensures Find(s, [c]) == None
  {
    if Find(s, [c]).Some? {
      OccursAtChar(s, c, Find(s, [c]).value);
    }
  }

  /** The part of `s` after leading white space (`trimStart`). */
  function TrimStart(s: string): (r: string)
    ensures |r| <= |s| && r == s[|s| - |r|..]
    ensures Blank(s[..|s| - |r|])
    ensures r == [] || !IsSpace(r[0])
  {
    if |s| > 0 && IsSpace(s[0]) then
      var r := TrimStart(s[1..]);
      var k := |s| - |r|;
      assert s[k..] == s[1..][k - 1..];
      assert Blank(s[..k]) by {
        forall i | 0 <= i < k ensures IsSpace(s[..k][i]) {
          if i > 0 { assert s[..k][i] == s[1..][..k - 1][i - 1]; }
        }
      }
      r
    else
      s
  }

  /** The part of `s` before trailing white space (`trimEnd`). */
  function TrimEnd(s: string): (r: string)
    ensures |r| <= |s| && r == s[..|r|]
    ensures Blank(s[|r|..])
    ensures r == [] || !IsSpace(r[|r| - 1])
  {
    if |s| > 0 && IsSpace(s[|s| - 1]) then
      var r := TrimEnd(s[..|s| - 1]);
      assert s[..|r|] == s[..|s| - 1][..|r|];
      assert s[|r|..] == s[..|s| - 1][|r|..] + [s[|s| - 1]];
      r
    else
      s
  }

  /** `s.trim()`: empty exactly for a blank string, and otherwise neither starts nor ends with white space. */
  function Trim(s: string): (r: string)
    ensures r == [] <==> Blank(s)
    ensures r != [] ==> !IsSpace(r[0]) && !IsSpace(r[|r| - 1])
  {
    TrimBothEnds(s);
    TrimEnd(TrimStart(s))
  }

  lemma TrimBothEnds(s: string)
    ensures TrimEnd(TrimStart(s)) == [] <==> Blank(s)
    ensures TrimEnd(TrimStart(s)) != [] ==> !IsSpace(TrimEnd(TrimStart(s))[0])
  {
    var t := TrimStart(s);
    var r := TrimEnd(t);
    if t == [] {
      assert s[..|s|] == s;
    } else {
      var k := |s| - |t|;
      assert s[k] == t[0];
      assert !Blank(s);
      assert r[0] == t[0];
    }
  }

  /** The non-white-space characters of `s`, in order. */
  function NonSpace(s: string): string
  {
    if s == [] then [] else (if IsSpace(s[0]) then [] else [s[0]]) + NonSpace(s[1..])
  }

  /** Concatenation of a list of strings, first to last (`parts.join('')`). */
  function ConcatAll(parts: seq<string>): string
  {
    if parts == [] then "" else parts[0] + ConcatAll(parts[1..])
  }

  lemma {:induction false} ConcatAllAppend(xs: seq<string>, ys: seq<string>)
    ensures ConcatAll(xs + ys) == ConcatAll(xs) + ConcatAll(ys)
  {
    if xs != [] {
      assert (xs + ys)[0] == xs[0];
      assert (xs + ys)[1..] == xs[1..] + ys;
      ConcatAllAppend(xs[1..], ys);
      assert xs[0] + (ConcatAll(xs[1..]) + ConcatAll(ys)) == (xs[0] + ConcatAll(xs[1..])) + ConcatAll(ys);
    } else {
      assert xs + ys == ys;
    }
  }

  lemma ConcatAllSnoc(xs: seq<string>, x: string)
    ensures ConcatAll(xs + [x]) == ConcatAll(xs) + x
  {
    ConcatAllAppend(xs, [x]);
    assert ConcatAll([x]) == x + ConcatAll([]);
  }

  /** `s.split(/\s+/)`: the pieces between maximal runs of white space; a leading (trailing) run
      yields an empty first (last) piece, and the empty string yields `[""]`. */
  function SplitSpaces(s: string): (r: seq<string>)
    ensures |r| >= 1
  {
    if s == [] then [""]
    else
      var rest := SplitSpaces(s[1..]);
      if !IsSpace(s[0]) then [[s[0]] + rest[0]] + rest[1..]
      else if |s| > 1 && IsSpace(s[1]) then rest
      else [""] + rest
  }

  /** No piece of `split(/\s+/)` contains white space. */
  lemma {:induction false} SplitSpacesSpaceFree(s: string)
    ensures forall k :: 0 <= k < |SplitSpaces(s)| ==> SpaceFree(SplitSpaces(s)[k])
  {
    if s != [] {
      SplitSpacesSpaceFree(s[1..]);
      var rest := SplitSpaces(s[1..]);
      var r := SplitSpaces(s);
      if !IsSpace(s[0]) {
        forall k | 0 <= k < |r| ensures SpaceFree(r[k]) {
          if k == 0 {
            assert SpaceFree(rest[0]);
            assert r[0] == [s[0]] + rest[0];
          } else {
            assert r[k] == rest[k];
          }
        }
      }
    }
  }

  /** The pieces of `split(/\s+/)` hold exactly the non-space characters, in their original order. */
  lemma {:induction false} SplitSpacesKeepsText(s: string)
    ensures ConcatAll(SplitSpaces(s)) == NonSpace(s)
  {
    if s != [] {
      SplitSpacesKeepsText(s[1..]);
      var rest := SplitSpaces(s[1..]);
      assert rest == [rest[0]] + rest[1..];
      ConcatAllAppend([rest[0]], rest[1..]);
      assert ConcatAll([rest[0]]) == rest[0];
      if !IsSpace(s[0]) {
        ConcatAllAppend([[s[0]] + rest[0]], rest[1..]);
        assert ConcatAll([[s[0]] + rest[0]]) == [s[0]] + rest[0];
      } else if !(|s| > 1 && IsSpace(s[1])) {
        ConcatAllAppend([""], rest);
        assert ConcatAll([""]) == "";
      }
    }
  }

  /** The first piece of `split(/\s+/)` is empty exactly when the string is empty or starts with white space. */
  lemma SplitSpacesFirst(s: string)
    ensures SplitSpaces(s)[0] == "" <==> s == [] || IsSpace(s[0])
  {
    if s != [] && |s| > 1 && IsSpace(s[0]) && IsSpace(s[1]) {
      SplitSpacesFirst(s[1..]);
    }
  }

  /** When the string does not end with white space, no piece after the first is empty. */
  lemma {:induction false} SplitSpacesLaterPieces(s: string)
    requires s == [] || !IsSpace(s[|s| - 1])
    ensures forall k :: 1 <= k < |SplitSpaces(s)| ==> SplitSpaces(s)[k] != ""
  {
    if s != [] && |s| > 1 {
      assert s[1..][|s[1..]| - 1] == s[|s| - 1];
      SplitSpacesLaterPieces(s[1..]);
      var rest := SplitSpaces(s[1..]);
      if IsSpace(s[0]) && !IsSpace(s[1]) {
        SplitSpacesFirst(s[1..]);
        assert rest[0] != "";
      }
    }
  }

  /** `parts.join(sep)` */
  function Join(parts: seq<string>, sep: string): string
  {
    if |parts| == 0 then ""
    else if |parts| == 1 then parts[0]
    else parts[0] + sep + Join(parts[1..], sep)
  }

  /** A joined string ends with the last part. */
  lemma {:induction false} JoinEndsWithLast(parts: seq<string>, sep: string)
    requires |parts| > 0
    ensures EndsWith(Join(parts, sep), parts[|parts| - 1])
  {
    if |parts| > 1 {
      JoinEndsWithLast(parts[1..], sep);
      var j := Join(parts[1..], sep);
      var last := parts[|parts| - 1];
      assert last == parts[1..][|parts[1..]| - 1];
      var whole := parts[0] + sep + j;
      assert whole[|whole| - |last|..] == j[|j| - |last|..];
    }
  }

  /** Adding a part at the end adds the separator and that part. */
  lemma {:induction false} JoinSnoc(parts: seq<string>, x: string, sep: string)
    requires |parts| > 0
    ensures Join(parts + [x], sep) == Join(parts, sep) + sep + x
  {
    if |parts| == 1 {
      assert parts + [x] == [parts[0], x];
      assert [parts[0], x][1..] == [x];
    } else {
      assert (parts + [x])[1..] == parts[1..] + [x];
      JoinSnoc(parts[1..], x, sep);
    }
  }

  /** `s.split(c)` for a one-character separator. */
  function Split(s: string, c: char): (r: seq<string>)
    ensures |r| >= 1
  {
    if s == [] then [""]
    else
      var rest := Split(s[1..], c);
      if s[0] == c then [""] + rest else [[s[0]] + rest[0]] + rest[1..]
  }

  lemma {:induction false} SplitPrepend(x: string, t: string, c: char)
    requires c !in x
    ensures Split(x + t, c) == [x + Split(t, c)[0]] + Split(t, c)[1..]
  {
    if x != [] {
      assert (x + t)[1..] == x[1..] + t;
      SplitPrepend(x[1..], t, c);
      assert [x[0]] + (x[1..] + Split(t, c)[0]) == x + Split(t, c)[0];
    } else {
      assert x + t == t;
      var sp := Split(t, c);
      assert sp == [sp[0]] + sp[1..];
      assert x + sp[0] == sp[0];
    }
  }

  /** Splitting a joined list on a separator that no part contains gives the parts back. */
  lemma {:induction false} SplitJoin(parts: seq<string>, c: char)
    requires |parts| >= 1
    requires forall k :: 0 <= k < |parts| ==> c !in parts[k]
    ensures Split(Join(parts, [c]), c) == parts
  {
    if |parts| == 1 {
      SplitPrepend(parts[0], "", c);
      assert Split("", c) == [""];
      assert parts[0] + "" == parts[0];
      assert parts == [parts[0]];
    } else {
      var rest := Join(parts[1..], [c]);
      SplitJoin(parts[1..], c);
      assert parts[0] + [c] + rest == parts[0] + ([c] + rest);
      SplitPrepend(parts[0], [c] + rest, c);
      assert ([c] + rest)[1..] == rest;
      assert ([c] + rest)[0] == c;
      assert Split([c] + rest, c) == [""] + Split(rest, c);
      assert parts[0] + "" == parts[0];
      assert parts == [parts[0]] + parts[1..];
    }
  }

  /** ASCII part of `toLowerCase`. */
  function LowerChar(c: char): char
  {
    if 'A' <= c <= 'Z' then (c as int + 32) as char else c
  }

  /** `s.toLowerCase()`, for the ASCII letters. */
  function Lower(s: string): string
  {
    seq(|s|, i requires 0 <= i < |s| => LowerChar(s[i]))
  }

  /** `s.replace(/<from>/g, to)` for single characters. */
  function ReplaceChar(s: string, from: char, to: char): string
  {
    seq(|s|, i requires 0 <= i < |s| => if s[i] == from then to else s[i])
  }

  function DigitChar(d: nat): char
    requires d < 10
  {
    ('0' as int + d) as char
  }

  /** The decimal form of a natural number, as a template literal prints it. */
  function NatToString(n: nat): (r: string)
    ensures |r| >= 1
    ensures forall i :: 0 <= i < |r| ==> IsDigit(r[i])
  {
    if n < 10 then [DigitChar(n)] else NatToString(n / 10) + [DigitChar(n % 10)]
  }

  /** The number a string of decimal digits denotes (`parseInt`, on digits only). */
  function ParseNat(s: string): nat
    requires forall i :: 0 <= i < |s| ==> IsDigit(s[i])
  {
    if s == [] then 0
    else
      assert IsDigit(s[|s| - 1]);
      ParseNat(s[..|s| - 1]) * 10 + (s[|s| - 1] as int - '0' as int)
  }

  /** Printing a number and reading it back gives the number. */
  lemma {:induction false} NatToStringRoundTrip(n: nat)
    ensures ParseNat(NatToString(n)) == n
  {
    if n >= 10 {
      var p := NatToString(n / 10);
      NatToStringRoundTrip(n / 10);
      assert (p + [DigitChar(n % 10)])[..|p|] == p;
    }
  }

  /** The list `[f(1, items[0]), f(2, items[1]), ...]`: one entry per item, numbered from 1 in order. */
  function Numbered<T>(items: seq<T>, f: (nat, T) -> string): (r: seq<string>)
  {
    seq(|items|, i requires 0 <= i < |items| => f(i + 1, items[i]))
  }

  /** Extending the items by one appends exactly that item's entry. */
  lemma NumberedSnoc<T>(items: seq<T>, i: nat, f: (nat, T) -> string)
    requires i < |items|
    ensures ConcatAll(Numbered(items[..i + 1], f)) == ConcatAll(Numbered(items[..i], f)) + f(i + 1, items[i])
  {
    assert Numbered(items[..i + 1], f) == Numbered(items[..i], f) + [f(i + 1, items[i])];
    ConcatAllSnoc(Numbered(items[..i], f), f(i + 1, items[i]));
  }
}
