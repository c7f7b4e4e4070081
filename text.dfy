/**
  ASCII models of the Python string operations the worker relies on: `strip`, `lower`,
  `find`, `split('\n')`, `split()`, `' '.join`, slicing, `ljust` padding, `int()` on text
  and `str()` on integers. Unicode-aware behaviour is outside the model: whitespace is the
  ASCII whitespace Python recognises, and only 'A'..'Z' have a lower-case form.
*/
module Text {
  import opened Wrappers

  /** Python's `str.isspace` restricted to ASCII: tab..carriage return, 0x1C..0x1F and space. */
  predicate IsSpace(c: char) {
    c == ' ' || ('\t' <= c <= '\r') || ('\U{1C}' <= c <= '\U{1F}')
  }

  predicate IsDigit(c: char) {
    '0' <= c <= '9'
  }

  predicate IsBlank(s: string) {
    forall i :: 0 <= i < |s| ==> IsSpace(s[i])
  }

  predicate NoSpace(s: string) {
    forall i :: 0 <= i < |s| ==> !IsSpace(s[i])
  }

  /** True when s has no leading or trailing whitespace. */
  predicate Trimmed(s: string) {
    s == [] || (!IsSpace(s[0]) && !IsSpace(s[|s| - 1]))
  }

  // ---------------------------------------------------------------------------
  // strip

  /** The number of whitespace characters at the front of s. */
  function LeadingSpaces(s: string): (n: nat)
    ensures n <= |s|
    ensures forall i :: 0 <= i < n ==> IsSpace(s[i])
    ensures n < |s| ==> !IsSpace(s[n])
  {
    if |s| == 0 || !IsSpace(s[0]) then 0 else 1 + LeadingSpaces(s[1..])
  }

  /** The number of whitespace characters at the end of s. */
  function TrailingSpaces(s: string): (n: nat)
    ensures n <= |s|
    ensures forall i :: |s| - n <= i < |s| ==> IsSpace(s[i])
    ensures n < |s| ==> !IsSpace(s[|s| - 1 - n])
  {
    if |s| == 0 || !IsSpace(s[|s| - 1]) then 0 else 1 + TrailingSpaces(s[..|s| - 1])
  }

  function LStrip(s: string): string {
    s[LeadingSpaces(s)..]
  }

  function RStrip(s: string): string {
    s[..|s| - TrailingSpaces(s)]
  }

  /** Python's `s.strip()`: s without its leading and trailing whitespace. */
  function Strip(s: string): (r: string)
    ensures Trimmed(r)
    ensures r == [] <==> IsBlank(s)
    ensures |r| <= |s|
  {
    var t := LStrip(s);
    if t == [] then [] else
      var r := RStrip(t);
      assert !IsSpace(t[0]);
      assert |r| > 0 && r[0] == t[0];
      r
  }

  /** Text that begins with a visible character keeps that character first when stripped. */
  lemma StripKeepsFirst(s: string)
    requires s != [] && !IsSpace(s[0])
    ensures Strip(s) != [] && Strip(s)[0] == s[0]
  {
    assert LeadingSpaces(s) == 0;
    assert LStrip(s) == s;
  }

  /** Stripping removes only a whitespace frame: s is r with blank text on both sides. */
  lemma StripFrame(s: string)
    ensures exists a, b :: 0 <= a <= b <= |s| && Strip(s) == s[a..b]
                           && IsBlank(s[..a]) && IsBlank(s[b..])
  {
    var a := LeadingSpaces(s);
    var t := s[a..];
    if t == [] {
      assert Strip(s) == s[a..a];
      assert s[a..] == [];
    } else {
      var n := TrailingSpaces(t);
      var b := |s| - n;
      assert Strip(s) == t[..|t| - n] == s[a..b];
      assert forall i :: 0 <= i < |s| - b ==> s[b..][i] == t[|t| - n + i];
    }
  }

  lemma StripOfTrimmed(s: string)
    requires Trimmed(s)
    ensures Strip(s) == s
  {
    assert LeadingSpaces(s) == 0;
    if s != [] {
      assert TrailingSpaces(s) == 0;
    }
  }

  // ---------------------------------------------------------------------------
  // lower

  function LowerChar(c: char): (d: char)
    ensures 'A' <= c <= 'Z' ==> d as int == c as int + 32
    ensures !('A' <= c <= 'Z') ==> d == c
  {
    if 'A' <= c <= 'Z' then (c as int + 32) as char else c
  }

  /** Python's `s.lower()` on ASCII letters. */
  function Lower(s: string): (r: string)
    ensures |r| == |s|
    ensures forall i :: 0 <= i < |s| ==> r[i] == LowerChar(s[i])
  {
    seq(|s|, i requires 0 <= i < |s| => LowerChar(s[i]))
  }

  // ---------------------------------------------------------------------------
  // find / in

  predicate MatchAt(s: string, pat: string, i: int) {
    0 <= i && i + |pat| <= |s| && s[i..i + |pat|] == pat
  }

  /** Python's `s.find(pat, from)`: the first index at or after `from` where pat occurs, or -1. */
  function FindFrom(s: string, pat: string, from: nat): (r: int)
    ensures r == -1 || (from <= r && MatchAt(s, pat, r))
    ensures r == -1 ==> forall i :: from <= i ==> !MatchAt(s, pat, i)
    ensures r != -1 ==> forall i :: from <= i < r ==> !MatchAt(s, pat, i)
    decreases |s| - from
  {
    if from + |pat| > |s| then -1
    else if s[from..from + |pat|] == pat then from
    else FindFrom(s, pat, from + 1)
  }

  function Find(s: string, pat: string): int {
    FindFrom(s, pat, 0)
  }

  /** Python's `pat in s`. */
  predicate Contains(s: string, pat: string) {
    Find(s, pat) != -1
  }

  lemma ContainsIff(s: string, pat: string)
    ensures Contains(s, pat) <==> exists i :: MatchAt(s, pat, i)
  {
  }

  // ---------------------------------------------------------------------------
  // split / join

  /** `sep.join(parts)`. */
  function Join(parts: seq<string>, sep: string): string {
    if |parts| == 0 then ""
    else if |parts| == 1 then parts[0]
    else parts[0] + sep + Join(parts[1..], sep)
  }

  lemma JoinAppend(parts: seq<string>, x: string, sep: string)
    requires |parts| > 0
    ensures Join(parts + [x], sep) == Join(parts, sep) + sep + x
  {
    if |parts| == 1 {
      assert parts + [x] == [parts[0], x];
    } else {
      assert (parts + [x])[1..] == parts[1..] + [x];
      JoinAppend(parts[1..], x, sep);
    }
  }

  predicate EndsWith(s: string, suffix: string) {
    |suffix| <= |s| && s[|s| - |suffix|..] == suffix
  }

  /** A join ends with its last part. */
  lemma JoinLast(parts: seq<string>, x: string, sep: string)
    ensures EndsWith(Join(parts + [x], sep), x)
  {
    if parts == [] {
      assert parts + [x] == [x];
    } else {
      JoinAppend(parts, x, sep);
    }
  }

  /** A join ends with its last two parts and the separator between them. */
  lemma JoinLastTwo(parts: seq<string>, a: string, b: string, sep: string)
    ensures EndsWith(Join(parts + [a, b], sep), a + sep + b)
  {
    assert parts + [a, b] == (parts + [a]) + [b];
    JoinAppend(parts + [a], b, sep);
    if parts == [] {
      assert parts + [a] == [a];
    } else {
      JoinAppend(parts, a, sep);
    }
  }

  /** A join of two or more parts ends with the separator and its last part. */
  lemma JoinLastSep(parts: seq<string>, x: string, sep: string)
    requires parts != []
    ensures EndsWith(Join(parts + [x], sep), sep + x)
  {
    JoinAppend(parts, x, sep);
    var j := Join(parts, sep);
    assert j + sep + x == j + (sep + x);
    assert (j + (sep + x))[|j|..] == sep + x;
  }

  /** A join starts with its first part. */
  lemma {:induction false} JoinStarts(parts: seq<string>, sep: string)
    requires parts != []
    ensures StartsWith(Join(parts, sep), parts[0])
  {
  }

  /** Every part of a join occurs in it, after the parts and separators before it. */
  lemma {:induction false} JoinHasPart(parts: seq<string>, sep: string, k: nat)
    requires k < |parts|
    ensures Contains(Join(parts, sep), parts[k])
    decreases k
  {
    var j := Join(parts, sep);
    if k == 0 {
      JoinStarts(parts, sep);
      assert MatchAt(j, parts[0], 0);
    } else {
      var rest := Join(parts[1..], sep);
      assert j == (parts[0] + sep) + rest;
      JoinHasPart(parts[1..], sep, k - 1);
      ContainsIff(rest, parts[k]);
      var i :| MatchAt(rest, parts[k], i);
      var shift := |parts[0] + sep|;
      assert j[shift + i..shift + i + |parts[k]|] == rest[i..i + |parts[k]|];
      assert MatchAt(j, parts[k], shift + i);
    }
    ContainsIff(j, parts[k]);
  }

  /** A join starts with its first two parts and the separator between them. */
  lemma JoinStartsTwo(a: string, b: string, rest: seq<string>, sep: string)
    ensures StartsWith(Join([a, b] + rest, sep), a + sep + b)
  {
    assert ([a, b] + rest)[1..] == [b] + rest;
    JoinStarts([b] + rest, sep);
  }

  /** The index of the first c in s, or |s| when there is none. */
  function IndexOfChar(s: string, c: char): (i: nat)
    ensures i <= |s|
    ensures i < |s| ==> s[i] == c
    ensures forall k :: 0 <= k < i ==> s[k] != c
  {
    if |s| == 0 then 0 else if s[0] == c then 0 else 1 + IndexOfChar(s[1..], c)
  }

  /** Python's `s.split(sep)` for a one-character separator. */
  function Split(s: string, sep: char): (r: seq<string>)
    ensures |r| >= 1
    ensures forall k :: 0 <= k < |r| ==> sep !in r[k]
    decreases |s|
  {
    var i := IndexOfChar(s, sep);
    if i == |s| then [s] else [s[..i]] + Split(s[i + 1..], sep)
  }

  /** Splitting and joining back with the same separator gives the text back. */
  lemma {:induction false} JoinSplit(s: string, sep: char)
    ensures Join(Split(s, sep), [sep]) == s
    decreases |s|
  {
    var i := IndexOfChar(s, sep);
    if i < |s| {
      var rest := Split(s[i + 1..], sep);
      JoinSplit(s[i + 1..], sep);
      assert Split(s, sep) == [s[..i]] + rest;
      assert Join(Split(s, sep), [sep]) == s[..i] + [sep] + Join(rest, [sep]);
      assert s == s[..i] + [sep] + s[i + 1..];
    }
  }

  /** The length of the run of non-whitespace characters at the front of s. */
  function WordLen(s: string): (n: nat)
    ensures n <= |s|
    ensures forall i :: 0 <= i < n ==> !IsSpace(s[i])
    ensures n < |s| ==> IsSpace(s[n])
  {
    if |s| == 0 || IsSpace(s[0]) then 0 else 1 + WordLen(s[1..])
  }

  /** Python's `s.split()`: the maximal runs of non-whitespace characters. */
  function Words(s: string): (r: seq<string>)
    ensures forall k :: 0 <= k < |r| ==> r[k] != [] && NoSpace(r[k])
    decreases |s|
  {
    var t := LStrip(s);
    if t == [] then []
    else
      var n := WordLen(t);
      assert n > 0 by { assert !IsSpace(t[0]); }
      [t[..n]] + Words(t[n..])
  }

  /** The character at i, if whitespace, is a ' ' followed by a non-whitespace character. */
  predicate SingleSpaceAt(s: string, i: nat)
    requires i < |s|
  {
    IsSpace(s[i]) ==> s[i] == ' ' && i + 1 < |s| && !IsSpace(s[i + 1])
  }

  /** Whitespace normal form: trimmed, and every whitespace character is a single ' '. */
  predicate Normalized(s: string) {
    Trimmed(s) && forall i :: 0 <= i < |s| ==> SingleSpaceAt(s, i)
  }

  lemma {:induction false} JoinWordsNormalized(ws: seq<string>)
    requires forall k :: 0 <= k < |ws| ==> ws[k] != [] && NoSpace(ws[k])
    ensures Normalized(Join(ws, " "))
  {
    if |ws| == 1 {
      forall i | 0 <= i < |ws[0]|
        ensures SingleSpaceAt(ws[0], i)
      {
        assert !IsSpace(ws[0][i]);
      }
    } else if |ws| > 1 {
      var rest := Join(ws[1..], " ");
      JoinWordsNormalized(ws[1..]);
      var j := ws[0] + " " + rest;
      assert Join(ws, " ") == j;
      assert rest != [] by { assert |ws[1..]| > 0; JoinFirst(ws[1..], " "); }
      forall i | 0 <= i < |j|
        ensures SingleSpaceAt(j, i)
      {
        if i < |ws[0]| {
          assert j[i] == ws[0][i] && !IsSpace(ws[0][i]);
        } else if i == |ws[0]| {
          assert j[i + 1] == rest[0];
        } else {
          var k := i - |ws[0]| - 1;
          assert SingleSpaceAt(rest, k);
          assert j[i] == rest[k];
          assert k + 1 < |rest| ==> j[i + 1] == rest[k + 1];
        }
      }
    }
  }

  lemma {:induction false} JoinFirst(ws: seq<string>, sep: string)
    requires |ws| > 0 && ws[0] != []
    ensures Join(ws, sep) != [] && Join(ws, sep)[0] == ws[0][0]
  {
  }

  /** `' '.join(s.split())`: whitespace runs collapsed to one space, ends trimmed. */
  function Collapse(s: string): (r: string)
    ensures Normalized(r)
  {
    JoinWordsNormalized(Words(s));
    Join(Words(s), " ")
  }

  // ---------------------------------------------------------------------------
  // slicing, padding and repetition

  /** Python's `s[:n]` for n >= 0. */
  function Take(s: string, n: nat): (r: string)
    ensures |r| == if n <= |s| then n else |s|
    ensures r == s[..|r|]
  {
    if n <= |s| then s[..n] else s
  }

  /** Python's `s[i:j]` for i, j >= 0: empty when j <= i. */
  function Slice(s: string, i: nat, j: nat): (r: string)
    ensures i <= j <= |s| ==> r == s[i..j]
    ensures j <= i ==> r == []
  {
    var a := if i <= |s| then i else |s|;
    var b := if j <= |s| then j else |s|;
    if a < b then s[a..b] else []
  }

  function Repeat(c: char, n: nat): (r: string)
    ensures |r| == n
    ensures forall i :: 0 <= i < n ==> r[i] == c
  {
    seq(n, _ => c)
  }

  /** Python's `f"{s:<{w}}"`: s padded on the right with spaces to width w. */
  function LJust(s: string, w: nat): (r: string)
    ensures |r| == if |s| < w then w else |s|
    ensures r[..|s|] == s
  {
    if |s| < w then s + Repeat(' ', w - |s|) else s
  }

  predicate StartsWith(s: string, prefix: string) {
    |prefix| <= |s| && s[..|prefix|] == prefix
  }

  /** The text with every space replaced by `%20`, as `name.replace(" ", "%20")` does. */
  function EncodeSpaces(s: string): (r: string)
    ensures ' ' !in r
    ensures ' ' !in s ==> r == s
    ensures |r| >= |s|
  {
    if s == [] then []
    else (if s[0] == ' ' then "%20" else [s[0]]) + EncodeSpaces(s[1..])
  }

  /** Encoding changes the name exactly when the name has a space. */
  lemma EncodeSpacesChanges(s: string)
    ensures EncodeSpaces(s) == s <==> ' ' !in s
  {
    if ' ' in s {
      assert ' ' in s && ' ' !in EncodeSpaces(s);
    }
  }

  /** s with every character of `drop` removed (chained `str.replace(c, '')`). */
  function RemoveChars(s: string, drop: set<char>): (r: string)
    ensures forall i :: 0 <= i < |r| ==> r[i] !in drop
    ensures |r| <= |s|
  {
    if s == [] then []
    else (if s[0] in drop then [] else [s[0]]) + RemoveChars(s[1..], drop)
  }

  /** Python's `s.isdigit()` on ASCII: non-empty and all digits. */
  predicate IsDigits(s: string) {
    |s| > 0 && forall i :: 0 <= i < |s| ==> IsDigit(s[i])
  }

  // ---------------------------------------------------------------------------
  // integers and text

  function DigitChar(d: nat): (c: char)
    requires d < 10
    ensures IsDigit(c) && c as int - '0' as int == d
  {
    ('0' as int + d) as char
  }

  function NatToString(n: nat): (r: string)
    ensures |r| > 0 && IsDigits(r)
    decreases n
  {
    if n < 10 then [DigitChar(n)] else NatToString(n / 10) + [DigitChar(n % 10)]
  }

  /** Python's `str(n)` for an integer. */
  function IntToString(n: int): string {
    if n < 0 then "-" + NatToString(-n) else NatToString(n)
  }

  /** The digits Python's `int()` accepts after the sign: decimal digits, with single
      underscores between them (`1_000`). */
  predicate IsDigitGroups(s: string) {
    && |s| > 0 && IsDigit(s[0]) && IsDigit(s[|s| - 1])
    && (forall i :: 0 <= i < |s| ==> IsDigit(s[i]) || s[i] == '_')
    && (forall i :: 0 <= i < |s| - 1 ==> s[i] == '_' ==> s[i + 1] != '_')
  }

  /** The value of decimal digits, underscores skipped. */
  function DigitsValue(s: string): nat
    requires forall i :: 0 <= i < |s| ==> IsDigit(s[i]) || s[i] == '_'
  {
    if s == [] then 0
    else
      var c := s[|s| - 1];
      if c == '_' then DigitsValue(s[..|s| - 1])
      else
        assert IsDigit(c);
        DigitsValue(s[..|s| - 1]) * 10 + (c as int - '0' as int)
  }

  /** Python's `int(s)` on text: an optional sign and decimal digits with single underscores
      between them; surrounding whitespace is allowed. */
  function ParseInt(s: string): (r: Option<int>)
    ensures IsBlank(s) ==> r == None
  {
    var t := Strip(s);
    if t == [] then None
    else if t[0] == '-' || t[0] == '+' then
      var ds := t[1..];
      if IsDigitGroups(ds) then
        var v: int := DigitsValue(ds);
        Some(if t[0] == '-' then -v else v)
      else None
    else if IsDigitGroups(t) then Some(DigitsValue(t))
    else None
  }

  /** The digits of n read back as n. */
  lemma {:induction false} DigitsOfNat(n: nat)
    ensures DigitsValue(NatToString(n)) == n
    decreases n
  {
    if n >= 10 {
      DigitsOfNat(n / 10);
      var s := NatToString(n);
      assert s[..|s| - 1] == NatToString(n / 10);
    }
  }

  /** Digits in Python's integer form parse to their value. */
  lemma ParseIntDigits(t: string)
    requires IsDigitGroups(t)
    ensures ParseInt(t) == Some(DigitsValue(t))
  {
    assert Trimmed(t);
    StripOfTrimmed(t);
  }

  /** A minus sign in front negates the value. */
  lemma ParseIntNegative(d: string)
    requires IsDigitGroups(d)
    ensures ParseInt("-" + d) == Some(-(DigitsValue(d) as int))
  {
    var t := "-" + d;
    assert t[0] == '-' && t[1..] == d;
    assert t[|t| - 1] == d[|d| - 1];
    assert !IsSpace(t[0]) && !IsSpace(t[|t| - 1]);
    StripOfTrimmed(t);
    ParseIntMinus(t);
  }

  /** Trimmed text with a minus sign before digit groups parses to their negated value. */
  lemma ParseIntMinus(t: string)
    requires Strip(t) == t && t != [] && t[0] == '-' && IsDigitGroups(t[1..])
    ensures ParseInt(t) == Some(-(DigitsValue(t[1..]) as int))
  {
  }

  /** Trimmed text whose second character is neither a digit nor "_" does not convert, as with
      "None", "True" and "False". */
  lemma ParseIntWord(w: string)
    requires |w| > 1 && !IsSpace(w[0]) && !IsSpace(w[|w| - 1]) && !IsDigit(w[1]) && w[1] != '_'
    ensures ParseInt(w) == None
  {
    StripOfTrimmed(w);
    ParseIntRejects(w, 1);
  }

  /** The digits of a natural number are in Python's integer form. */
  lemma NatDigitGroups(m: nat)
    ensures IsDigitGroups(NatToString(m))
  {
  }

  /** `int(str(n)) == n`. */
  lemma ParseIntRoundTrip(n: int)
    ensures ParseInt(IntToString(n)) == Some(n)
  {
    var m: nat := if n < 0 then -n else n;
    DigitsOfNat(m);
    NatDigitGroups(m);
    if n < 0 {
      ParseIntNegative(NatToString(m));
    } else {
      ParseIntDigits(NatToString(m));
    }
  }

  /** Skipping an underscore between two runs of digits leaves the value. */
  lemma {:induction false} DigitsValueSkip(a: string, b: string)
    requires forall i :: 0 <= i < |a| ==> IsDigit(a[i])
    requires forall i :: 0 <= i < |b| ==> IsDigit(b[i])
    ensures DigitsValue(a + "_" + b) == DigitsValue(a + b)
    decreases |b|
  {
    if b == [] {
      assert (a + "_" + b)[..|a| + 1 - 1] == a;
      assert a + b == a;
    } else {
      var b' := b[..|b| - 1];
      DigitsValueSkip(a, b');
      assert (a + "_" + b)[..|a + "_" + b| - 1] == a + "_" + b';
      assert (a + b)[..|a + b| - 1] == a + b';
    }
  }

  /** An underscore between digits changes nothing: `int("1_000") == int("1000")`. */
  lemma ParseIntUnderscore(a: string, b: string)
    requires IsDigits(a) && IsDigits(b)
    ensures ParseInt(a + "_" + b) == ParseInt(a + b) == Some(DigitsValue(a + b))
  {
    var u := a + "_" + b;
    var v := a + b;
    assert u[0] == a[0] && u[|u| - 1] == b[|b| - 1];
    assert v[0] == a[0] && v[|v| - 1] == b[|b| - 1];
    assert forall i :: 0 <= i < |u| && i != |a| ==> IsDigit(u[i]) by {
      forall i | 0 <= i < |u| && i != |a| ensures IsDigit(u[i]) {
        if i < |a| { assert u[i] == a[i]; } else { assert u[i] == b[i - |a| - 1]; }
      }
    }
    assert u[|a|] == '_';
    assert forall i :: 0 <= i < |v| ==> IsDigit(v[i]) by {
      forall i | 0 <= i < |v| ensures IsDigit(v[i]) {
        if i < |a| { assert v[i] == a[i]; } else { assert v[i] == b[i - |a|]; }
      }
    }
    DigitsValueSkip(a, b);
    assert IsDigitGroups(u);
    assert IsDigitGroups(v);
    ParseIntDigits(u);
    ParseIntDigits(v);
  }

  /** A character other than a digit or an underscore after the first makes `int()` raise. */
  lemma ParseIntRejects(s: string, i: nat)
    requires 0 < i < |Strip(s)| && !IsDigit(Strip(s)[i]) && Strip(s)[i] != '_'
    ensures ParseInt(s) == None
  {
    var t := Strip(s);
    assert t[1..][i - 1] == t[i];
  }

  // ---------------------------------------------------------------------------
  // ordering

  /** Python's `<` on strings: lexicographic by code point. */
  predicate StrLt(a: string, b: string) {
    if a == [] then b != []
    else if b == [] then false
    else if a[0] != b[0] then a[0] < b[0]
    else StrLt(a[1..], b[1..])
  }

  predicate StrLe(a: string, b: string) {
    a == b || StrLt(a, b)
  }

  lemma {:induction false} StrLtTotal(a: string, b: string)
    ensures a == b || StrLt(a, b) || StrLt(b, a)
  {
    if a != [] && b != [] && a[0] == b[0] {
      StrLtTotal(a[1..], b[1..]);
      if a[1..] == b[1..] {
        assert a == [a[0]] + a[1..] && b == [b[0]] + b[1..];
      }
    }
  }

  lemma {:induction false} StrLtIrreflexive(a: string)
    ensures !StrLt(a, a)
  {
    if a != [] {
      StrLtIrreflexive(a[1..]);
    }
  }

  lemma {:induction false} StrLtTransitive(a: string, b: string, c: string)
    requires StrLt(a, b) && StrLt(b, c)
    ensures StrLt(a, c)
  {
    if a != [] && b != [] && c != [] && a[0] == b[0] && b[0] == c[0] {
      StrLtTransitive(a[1..], b[1..], c[1..]);
    }
  }
}
