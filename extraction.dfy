/**
  The response-extraction engine: cleaning and segmenting free-text recommendations,
  the text between two case-insensitive line markers, the named sections of a decoded
  JSON payload, and the split of an answer into prose and an embedded JSON payload.
  `json.loads` is the oracle `parse`; a section that Python would serialise with
  `json.dumps` is carried as the decoded value itself, and `None` stands for the "" sentinel.
*/
module Extraction {
  import opened Wrappers
  import opened Text
  import opened Json
  import opened Seqs

  // ---------------------------------------------------------------------------
  // Constants shared by all extraction functions

  const StartMarker: string := "dashboard summary"
  const EndMarker: string := "detailed analysis"
  const RecommendationMarker: string := "recommendation"
  const MaxRecommendations: int := 2

  // ---------------------------------------------------------------------------
  // clean_recommendation_text

  /** The length of the run of ASCII digits at the front of s. */
  function DigitRun(s: string): (n: nat)
    ensures n <= |s|
    ensures forall i :: 0 <= i < n ==> IsDigit(s[i])
    ensures n < |s| ==> !IsDigit(s[n])
  {
    if |s| == 0 || !IsDigit(s[0]) then 0 else 1 + DigitRun(s[1..])
  }

  /** `re.sub(r'^\d+\.?\s*', '', t)`: drop a leading number, an optional period and the spaces after it. */
  function DropNumberPrefix(t: string): string {
    var n := DigitRun(t);
    if n == 0 then t
    else
      var u := t[n..];
      var v := if |u| > 0 && u[0] == '.' then u[1..] else u;
      v[LeadingSpaces(v)..]
  }

  predicate IsBullet(c: char) {
    c == '*' || c == '-' || c == '•' || c == '◦'
  }

  /** `s.lstrip('*-•◦')`. */
  function DropBullets(s: string): (r: string)
    ensures r == [] || !IsBullet(r[0])
    ensures |r| <= |s|
  {
    if |s| > 0 && IsBullet(s[0]) then DropBullets(s[1..]) else s
  }

  /**
    clean_recommendation_text: strip, drop one leading number or bullet run, strip again,
    and collapse every whitespace run to one space.
  */
  function CleanRecommendationText(text: string): (r: string)
    ensures Normalized(r)
  {
    Collapse(Strip(DropBullets(DropNumberPrefix(Strip(text)))))
  }

  /** Collapsing text already in whitespace normal form changes nothing. */
  lemma {:induction false} CollapseNormalized(s: string)
    requires Normalized(s)
    ensures Collapse(s) == s
    decreases |s|
  {
    WordsNormalized(s);
  }

  lemma {:induction false} WordsNormalized(s: string)
    requires Normalized(s)
    ensures Join(Words(s), " ") == s
    ensures s != [] ==> Words(s) != []
    decreases |s|
  {
    if s != [] {
      var n := WordLen(s);
      WordsStep(s);
      if n < |s| {
        var rest := s[n + 1..];
        WordsNormalized(rest);
        JoinCons(s[..n], Words(rest), " ");
      }
    }
  }

  /** Text in normal form is its first word, then (if any) one space and normal text. */
  lemma WordsStep(s: string)
    requires Normalized(s) && s != []
    ensures WordLen(s) == |s| ==> Words(s) == [s]
    ensures WordLen(s) < |s| ==> var n := WordLen(s);
      && Normalized(s[n + 1..]) && s[n + 1..] != []
      && Words(s) == [s[..n]] + Words(s[n + 1..])
      && s == s[..n] + " " + s[n + 1..]
  {
    var n := WordLen(s);
    WordsOfUnpadded(s);
    if n < |s| {
      NormalizedAfterWord(s);
      WordsAfterSpace(s, n);
    } else {
      assert s[..n] == s;
      WordsOfEmpty(s[n..]);
    }
  }

  lemma WordsOfEmpty(s: string)
    requires s == []
    ensures Words(s) == []
  {
    assert LStrip(s) == [];
  }

  lemma JoinCons(w: string, ws: seq<string>, sep: string)
    ensures Join([w] + ws, sep) == if ws == [] then w else w + sep + Join(ws, sep)
  {
    if ws != [] {
      assert ([w] + ws)[1..] == ws;
    }
  }

  /** Words of text with no leading whitespace: the first word, then the words of what follows. */
  lemma WordsOfUnpadded(s: string)
    requires s != [] && !IsSpace(s[0])
    ensures Words(s) == [s[..WordLen(s)]] + Words(s[WordLen(s)..])
  {
    assert LeadingSpaces(s) == 0;
    assert LStrip(s) == s;
  }

  /** In normal form, the character after the first word is one space and normal text follows. */
  lemma NormalizedAfterWord(s: string)
    requires Normalized(s) && s != [] && WordLen(s) < |s|
    ensures var n := WordLen(s);
      && s[n] == ' ' && n + 1 < |s| && !IsSpace(s[n + 1])
      && s == s[..n] + " " + s[n + 1..]
      && Normalized(s[n + 1..])
  {
    var n := WordLen(s);
    assert SingleSpaceAt(s, n);
    NormalizedSuffix(s, n + 1);
    SplitAround(s, n);
  }

  lemma SplitAround(s: string, n: nat)
    requires n < |s|
    ensures s == s[..n] + [s[n]] + s[n + 1..]
  {
  }

  /** A suffix of normal text that starts at a non-space is normal text. */
  lemma NormalizedSuffix(s: string, m: nat)
    requires Normalized(s) && m < |s| && !IsSpace(s[m])
    ensures Normalized(s[m..])
  {
    var rest := s[m..];
    assert rest[0] == s[m];
    assert rest[|rest| - 1] == s[|s| - 1];
    forall i | 0 <= i < |rest|
      ensures SingleSpaceAt(rest, i)
    {
      assert SingleSpaceAt(s, m + i);
      assert rest[i] == s[m + i];
    }
  }

  /** A space at n followed by a non-space: the words from n are the words from n + 1. */
  lemma WordsAfterSpace(s: string, n: nat)
    requires n + 1 < |s| && s[n] == ' ' && !IsSpace(s[n + 1])
    ensures Words(s[n..]) == Words(s[n + 1..])
  {
    var t := s[n..];
    assert t[1..] == s[n + 1..];
    assert LeadingSpaces(t[1..]) == 0;
    assert LeadingSpaces(t) == 1;
    assert LStrip(t) == t[1..] == LStrip(t[1..]);
  }

  /** A numbered item "12. text" is cleaned to its text. */
  lemma CleanNumberedItem(number: string, rest: string)
    requires IsDigits(number)
    requires Normalized(rest) && rest != []
    requires !IsDigit(rest[0]) && !IsBullet(rest[0]) && rest[0] != '.'
    ensures CleanRecommendationText(number + ". " + rest) == rest
  {
    var t := number + ". " + rest;
    assert Strip(t) == t by {
      assert t[0] == number[0] && t[|t| - 1] == rest[|rest| - 1];
      StripOfTrimmed(t);
    }
    assert DropNumberPrefix(t) == rest by {
      DropNumberOfItem(number, rest);
    }
    CleanOfNormalized(t, rest);
  }

  lemma DropNumberOfItem(number: string, rest: string)
    requires IsDigits(number)
    requires rest != [] && !IsSpace(rest[0])
    ensures DropNumberPrefix(number + ". " + rest) == rest
  {
    var t := number + ". " + rest;
    assert t == number + (". " + rest);
    assert DigitRun(t) == |number| by { DigitRunPrefix(number, ". " + rest); }
    var u := t[|number|..];
    assert u == ". " + rest;
    var v := u[1..];
    assert v == " " + rest;
    assert LeadingSpaces(v) == 1 by {
      assert v[1..] == rest;
    }
  }

  /** Once the prefix handling leaves normal text that starts with no bullet, cleaning yields it. */
  lemma CleanOfNormalized(t: string, rest: string)
    requires Strip(t) == t
    requires DropNumberPrefix(t) == rest
    requires Normalized(rest) && rest != [] && !IsBullet(rest[0])
    ensures CleanRecommendationText(t) == rest
  {
    assert DropBullets(rest) == rest;
    assert Strip(rest) == rest by { StripOfTrimmed(rest); }
    assert Collapse(rest) == rest by { CollapseNormalized(rest); }
  }

  /** A bulleted item "- text" is cleaned to its text. */
  lemma CleanBulletItem(bullet: char, rest: string)
    requires IsBullet(bullet)
    requires Normalized(rest) && rest != []
    requires !IsDigit(rest[0]) && !IsBullet(rest[0])
    ensures CleanRecommendationText([bullet] + " " + rest) == rest
  {
    var t := [bullet] + " " + rest;
    var w := " " + rest;
    BulletItemUnchanged(bullet, rest);
    DropBulletOfItem(bullet, rest);
    StripOneSpace(rest);
    CollapseNormalized(rest);
    CleanStages(t, t, w, rest);
  }

  /** A bulleted item is already stripped and has no number prefix. */
  lemma BulletItemUnchanged(bullet: char, rest: string)
    requires IsBullet(bullet) && Trimmed(rest) && rest != []
    ensures Strip([bullet] + " " + rest) == [bullet] + " " + rest
    ensures DropNumberPrefix([bullet] + " " + rest) == [bullet] + " " + rest
  {
    var t := [bullet] + " " + rest;
    assert t[0] == bullet && t[|t| - 1] == rest[|rest| - 1];
    StripOfTrimmed(t);
    assert DigitRun(t) == 0;
  }

  /** Dropping bullets removes the bullet and stops at the space after it. */
  lemma DropBulletOfItem(bullet: char, rest: string)
    requires IsBullet(bullet)
    ensures DropBullets([bullet] + " " + rest) == " " + rest
  {
    var t := [bullet] + " " + rest;
    var w := " " + rest;
    assert t[1..] == w;
    assert w[0] == ' ';
    assert DropBullets(w) == w;
  }

  /** Cleaning is the composition of its stages. */
  lemma CleanStages(t: string, afterNumber: string, afterBullets: string, stripped: string)
    requires DropNumberPrefix(Strip(t)) == afterNumber
    requires DropBullets(afterNumber) == afterBullets
    requires Strip(afterBullets) == stripped
    ensures CleanRecommendationText(t) == Collapse(stripped)
  {
  }

  lemma StripOneSpace(rest: string)
    requires rest != [] && Trimmed(rest)
    ensures Strip(" " + rest) == rest
  {
    var w := " " + rest;
    assert w[1..] == rest;
    assert LeadingSpaces(rest) == 0;
    assert LeadingSpaces(w) == 1;
    assert LStrip(w) == rest;
    assert TrailingSpaces(rest) == 0;
  }

  lemma {:induction false} DigitRunPrefix(ds: string, tail: string)
    requires forall i :: 0 <= i < |ds| ==> IsDigit(ds[i])
    requires tail != [] && !IsDigit(tail[0])
    ensures DigitRun(ds + tail) == |ds|
    decreases |ds|
  {
    if ds != [] {
      assert (ds + tail)[1..] == ds[1..] + tail;
      DigitRunPrefix(ds[1..], tail);
    } else {
      assert ds + tail == tail;
    }
  }

  // ---------------------------------------------------------------------------
  // extract_recommendations: segmentation of the answer into items

  /** `[ln.strip() for ln in lines if ln.strip()]`. */
  function NonBlankLines(ls: seq<string>): (r: seq<string>)
    ensures forall k :: 0 <= k < |r| ==> r[k] != [] && Trimmed(r[k])
    ensures |r| <= |ls|
  {
    if ls == [] then []
    else
      var t := Strip(ls[0]);
      (if t != [] then [t] else []) + NonBlankLines(ls[1..])
  }

  /** A line opens a new item when it starts with "1." .. "9." or with a bullet character. */
  predicate IsItemStart(ln: string) {
    (|ln| >= 2 && '1' <= ln[0] <= '9' && ln[1] == '.') || (|ln| >= 1 && IsBullet(ln[0]))
  }

  /** What the segmentation loop holds between lines: finished items and the item being built. */
  datatype SegState = SegState(items: seq<string>, current: string)

  /** One iteration of the segmentation loop. */
  function SegStep(st: SegState, ln: string): SegState {
    if IsItemStart(ln) then
      SegState(if Strip(st.current) != [] then st.items + [Strip(st.current)] else st.items, ln)
    else
      SegState(st.items, if st.current != [] then st.current + " " + ln else ln)
  }

  /** The loop state after the given lines. */
  function SegFold(lines: seq<string>): SegState
  {
    if lines == [] then SegState([], "")
    else SegStep(SegFold(lines[..|lines| - 1]), lines[|lines| - 1])
  }

  /** The items found in the lines: the loop state with the open item closed. */
  function Segments(lines: seq<string>): seq<string> {
    var st := SegFold(lines);
    if Strip(st.current) != [] then st.items + [Strip(st.current)] else st.items
  }

  /** The item list of a whole answer. */
  function AnswerItems(text: string): seq<string> {
    Segments(NonBlankLines(Split(text, '\n')))
  }

  predicate AllItemLines(lines: seq<string>) {
    forall k :: 0 <= k < |lines| ==> lines[k] != [] && Trimmed(lines[k])
  }

  /** The open item and the finished items joined back with spaces. */
  function Flat(st: SegState): string {
    Join(if st.current == [] then st.items else st.items + [st.current], " ")
  }

  /** The invariant of the segmentation loop over item lines. */
  ghost predicate SegInvariant(lines: seq<string>, st: SegState) {
    && (st.current == [] <==> lines == [])
    && (st.current == [] ==> st.items == [])
    && (st.current != [] ==> Trimmed(st.current))
    && (st.items != [] ==> IsItemStart(st.current))
    && (forall k :: 0 <= k < |st.items| ==> st.items[k] != [] && Trimmed(st.items[k]))
    && (forall k :: 1 <= k < |st.items| ==> IsItemStart(st.items[k]))
    && Flat(st) == Join(lines, " ")
  }

  lemma TrimmedConcat(a: string, b: string)
    requires a != [] && b != [] && Trimmed(a) && Trimmed(b)
    ensures Trimmed(a + " " + b) && a + " " + b != []
  {
    var c := a + " " + b;
    assert c[0] == a[0] && c[|c| - 1] == b[|b| - 1];
  }

  lemma ItemStartExtend(a: string, b: string)
    requires a != []
    ensures IsItemStart(a + " " + b) == IsItemStart(a)
  {
    var c := a + " " + b;
    assert c[0] == a[0];
    if |a| == 1 {
      assert c[1] == ' ';
    } else {
      assert c[1] == a[1];
    }
  }

  lemma {:induction false} SegFoldInvariant(lines: seq<string>)
    requires AllItemLines(lines)
    ensures SegInvariant(lines, SegFold(lines))
    decreases |lines|
  {
    if lines != [] {
      var init := lines[..|lines| - 1];
      var ln := lines[|lines| - 1];
      assert AllItemLines(init) by {
        forall k | 0 <= k < |init| ensures init[k] != [] && Trimmed(init[k]) {
          assert init[k] == lines[k];
        }
      }
      SegFoldInvariant(init);
      assert lines == init + [ln];
      SegStepPreserves(init, SegFold(init), ln);
    }
  }

  lemma SegStepPreserves(lines: seq<string>, st: SegState, ln: string)
    requires SegInvariant(lines, st)
    requires ln != [] && Trimmed(ln)
    ensures SegInvariant(lines + [ln], SegStep(st, ln))
  {
    SegStepKeepsShape(lines, st, ln);
    SegStepKeepsText(lines, st, ln);
  }

  /** The shape part of the invariant survives one more item line. */
  lemma SegStepKeepsShape(lines: seq<string>, st: SegState, ln: string)
    requires SegInvariant(lines, st)
    requires ln != [] && Trimmed(ln)
    ensures var st' := SegStep(st, ln);
      && st'.current != [] && Trimmed(st'.current)
      && (st'.items != [] ==> IsItemStart(st'.current))
      && (forall k :: 0 <= k < |st'.items| ==> st'.items[k] != [] && Trimmed(st'.items[k]))
      && (forall k :: 1 <= k < |st'.items| ==> IsItemStart(st'.items[k]))
  {
    if IsItemStart(ln) {
      if st.current != [] {
        StripOfTrimmed(st.current);
      }
    } else if st.current != [] {
      TrimmedConcat(st.current, ln);
      ItemStartExtend(st.current, ln);
    }
  }

  /** The text part of the invariant survives one more item line. */
  lemma SegStepKeepsText(lines: seq<string>, st: SegState, ln: string)
    requires SegInvariant(lines, st)
    requires ln != [] && Trimmed(ln)
    ensures Flat(SegStep(st, ln)) == Join(lines + [ln], " ")
  {
    if lines == [] {
      assert lines + [ln] == [ln];
    } else {
      JoinAppend(lines, ln, " ");
      if IsItemStart(ln) {
        StripOfTrimmed(st.current);
        JoinAppend(st.items + [st.current], ln, " ");
      } else {
        FlatContinue(st.items, st.current, ln);
      }
    }
  }

  /** Appending a line to the open item appends it to the joined text. */
  lemma FlatContinue(items: seq<string>, current: string, ln: string)
    requires current != []
    ensures Join(items + [current + " " + ln], " ") == Join(items + [current], " ") + " " + ln
  {
    if items == [] {
      assert items + [current + " " + ln] == [current + " " + ln];
      assert items + [current] == [current];
    } else {
      JoinAppend(items, current + " " + ln, " ");
      JoinAppend(items, current, " ");
    }
  }

  /** The number of lines after the first that open a new item. */
  function LaterItemStarts(lines: seq<string>): nat {
    if |lines| <= 1 then 0
    else LaterItemStarts(lines[..|lines| - 1]) + (if IsItemStart(lines[|lines| - 1]) then 1 else 0)
  }

  /** Every item-start line after the first closes the open item, and no other line does. */
  lemma {:induction false} SegFoldCount(lines: seq<string>)
    requires AllItemLines(lines)
    requires lines != []
    ensures |SegFold(lines).items| == LaterItemStarts(lines)
    ensures SegFold(lines).current != [] && Trimmed(SegFold(lines).current)
    decreases |lines|
  {
    var init := lines[..|lines| - 1];
    var ln := lines[|lines| - 1];
    if init != [] {
      assert AllItemLines(init) by {
        forall k | 0 <= k < |init| ensures init[k] != [] && Trimmed(init[k]) {
          assert init[k] == lines[k];
        }
      }
      SegFoldCount(init);
      var st := SegFold(init);
      StripOfTrimmed(st.current);
      if !IsItemStart(ln) {
        TrimmedConcat(st.current, ln);
      }
    }
  }

  /**
    Segmentation loses and reorders nothing: joined with spaces, the items are exactly the
    answer's non-blank lines joined with spaces; every item is non-empty and trimmed, every
    item after the first opens with "1."-"9." or a bullet, and there is one item for the first
    line and one more for every later line that opens an item.
  */
  lemma SegmentsProperties(lines: seq<string>)
    requires AllItemLines(lines)
    ensures var items := Segments(lines);
      && Join(items, " ") == Join(lines, " ")
      && (forall k :: 0 <= k < |items| ==> items[k] != [] && Trimmed(items[k]))
      && (forall k :: 1 <= k < |items| ==> IsItemStart(items[k]))
      && (lines == [] ==> items == [])
      && (lines != [] ==> |items| == 1 + LaterItemStarts(lines))
  {
    SegFoldInvariant(lines);
    var st := SegFold(lines);
    if st.current != [] {
      StripOfTrimmed(st.current);
    }
    if lines != [] {
      SegFoldCount(lines);
    }
  }

  // ---------------------------------------------------------------------------
  // extract_recommendations: cleaning and de-duplication

  /** The cleaned form of every item, in order. */
  function CleanAll(items: seq<string>): (r: seq<string>)
    ensures |r| == |items|
  {
    Map(CleanRecommendationText, items)
  }

  lemma CleanAllNormalized(items: seq<string>)
    ensures forall c :: c in CleanAll(items) ==> Normalized(c)
  {
    MapElements(CleanRecommendationText, items);
  }

  /** Reference definition: the non-empty strings of xs, each at its first occurrence. */
  function FirstOccurrences(xs: seq<string>): seq<string>
  {
    if xs == [] then []
    else
      var d := FirstOccurrences(xs[..|xs| - 1]);
      var x := xs[|xs| - 1];
      if x != [] && x !in d then d + [x] else d
  }

  predicate Distinct(xs: seq<string>) {
    forall i, j :: 0 <= i < j < |xs| ==> xs[i] != xs[j]
  }

  /** FirstOccurrences keeps exactly the non-empty strings of its input, once each. */
  lemma {:induction false} FirstOccurrencesProperties(xs: seq<string>)
    ensures Distinct(FirstOccurrences(xs))
    ensures forall x :: x in FirstOccurrences(xs) <==> x in xs && x != []
    decreases |xs|
  {
    if xs != [] {
      var init := xs[..|xs| - 1];
      FirstOccurrencesProperties(init);
      assert xs == init + [xs[|xs| - 1]];
    }
  }

  /** The first occurrences of a prefix are a prefix of the first occurrences of the whole. */
  lemma {:induction false} FirstOccurrencesPrefix(xs: seq<string>, ys: seq<string>)
    ensures FirstOccurrences(xs) <= FirstOccurrences(xs + ys)
    decreases |ys|
  {
    if ys != [] {
      var init := ys[..|ys| - 1];
      FirstOccurrencesPrefix(xs, init);
      assert (xs + ys)[..|xs + ys| - 1] == xs + init;
    } else {
      assert xs + ys == xs;
    }
  }

  lemma FirstOccurrencesStep(xs: seq<string>, x: string)
    ensures FirstOccurrences(xs + [x]) ==
      if x != [] && x !in FirstOccurrences(xs) then FirstOccurrences(xs) + [x] else FirstOccurrences(xs)
  {
    assert (xs + [x])[..|xs + [x]| - 1] == xs;
  }

  lemma FirstOccurrencesNext(xs: seq<string>, k: nat)
    requires k < |xs|
    ensures FirstOccurrences(xs[..k + 1]) ==
      if xs[k] != [] && xs[k] !in FirstOccurrences(xs[..k])
      then FirstOccurrences(xs[..k]) + [xs[k]] else FirstOccurrences(xs[..k])
  {
    assert xs[..k + 1][..k] == xs[..k];
  }

  /** The items of an answer after cleaning, de-duplicated, in first-seen order. */
  function CandidateRecommendations(text: string): seq<string> {
    FirstOccurrences(CleanAll(AnswerItems(text)))
  }

  /** The segmentation loop of extract_recommendations. */
  method SegmentLines(lines: seq<string>) returns (items: seq<string>)
    ensures items == Segments(lines)
  {
    items := [];
    var current := "";
    var i := 0;
    while i < |lines|
      invariant 0 <= i <= |lines|
      invariant SegState(items, current) == SegFold(lines[..i])
    {
      var ln := lines[i];
      assert lines[..i + 1][..i] == lines[..i];
      if IsItemStart(ln) {
        if Strip(current) != [] {
          items := items + [Strip(current)];
        }
        current := ln;
      } else {
        if current != [] {
          current := current + " " + ln;
        } else {
          current := ln;
        }
      }
      i := i + 1;
    }
    assert lines[..|lines|] == lines;
    if Strip(current) != [] {
      items := items + [Strip(current)];
    }
  }

  /**
    The cleaning loop of extract_recommendations: a prefix of the distinct cleaned items,
    of length max_count when there are enough, and at most one when max_count <= 0.
  */
  method PickRecommendations(items: seq<string>, maxCount: int) returns (r: seq<string>)
    ensures r <= FirstOccurrences(CleanAll(items))
    ensures maxCount >= 1 ==> |r| == if |FirstOccurrences(CleanAll(items))| < maxCount
                                      then |FirstOccurrences(CleanAll(items))| else maxCount
    ensures maxCount < 1 ==> |r| <= 1
  {
    var cleaned: seq<string> := [];
    var seen: set<string> := {};
    var k := 0;
    while k < |items|
      invariant 0 <= k <= |items|
      invariant cleaned == FirstOccurrences(CleanAll(items[..k]))
      invariant forall c :: c in seen <==> c in cleaned
      invariant k > 0 ==> |cleaned| < maxCount
      invariant maxCount >= 1 ==> |cleaned| <= maxCount
    {
      var c := CleanRecommendationText(items[k]);
      PickStep(items, k, cleaned);
      if c != [] && c !in seen {
        cleaned := cleaned + [c];
        seen := seen + {c};
      }
      k := k + 1;
      if |cleaned| >= maxCount {
        break;
      }
    }
    assert k == |items| || |cleaned| >= maxCount;
    TakeDrop(items, k);
    MapAppend(CleanRecommendationText, items[..k], items[k..]);
    FirstOccurrencesPrefix(CleanAll(items[..k]), CleanAll(items[k..]));
    r := cleaned;
  }

  /** One iteration of the cleaning loop extends the first occurrences by the next cleaned item. */
  lemma PickStep(items: seq<string>, k: nat, cleaned: seq<string>)
    requires k < |items| && cleaned == FirstOccurrences(CleanAll(items[..k]))
    ensures var c := CleanRecommendationText(items[k]);
      FirstOccurrences(CleanAll(items[..k + 1])) == if c != [] && c !in cleaned then cleaned + [c] else cleaned
  {
    MapNext(CleanRecommendationText, items, k);
    FirstOccurrencesStep(CleanAll(items[..k]), CleanRecommendationText(items[k]));
  }

  /** Every candidate is distinct from the others and in whitespace normal form. */
  lemma CandidatesClean(text: string)
    ensures Distinct(CandidateRecommendations(text))
    ensures forall c :: c in CandidateRecommendations(text) ==> c != [] && Normalized(c)
  {
    var all := CleanAll(AnswerItems(text));
    FirstOccurrencesProperties(all);
    CleanAllNormalized(AnswerItems(text));
  }

  lemma PrefixKeeps(r: seq<string>, xs: seq<string>)
    requires r <= xs && Distinct(xs)
    requires forall c :: c in xs ==> c != [] && Normalized(c)
    ensures Distinct(r) && forall k :: 0 <= k < |r| ==> r[k] != [] && Normalized(r[k])
  {
    forall k | 0 <= k < |r| ensures r[k] != [] && Normalized(r[k]) {
      assert r[k] == xs[k] && xs[k] in xs;
    }
  }

  /**
    extract_recommendations(llm_text, max_count). The result is always a prefix of the
    answer's distinct cleaned items; for max_count >= 1 it is the first max_count of them,
    and for max_count <= 0 the loop still stops after the first item, so at most one is kept.
  */
  method ExtractRecommendations(llmText: string, maxCount: int) returns (r: seq<string>)
    ensures llmText == [] ==> r == []
    ensures r <= CandidateRecommendations(llmText)
    ensures maxCount >= 1 ==> |r| == if |CandidateRecommendations(llmText)| < maxCount
                                      then |CandidateRecommendations(llmText)| else maxCount
    ensures maxCount < 1 ==> |r| <= 1
    ensures Distinct(r)
    ensures forall k :: 0 <= k < |r| ==> r[k] != [] && Normalized(r[k])
  {
    if llmText == [] {
      return [];
    }
    var lines := NonBlankLines(Split(llmText, '\n'));
    var items := SegmentLines(lines);
    r := PickRecommendations(items, maxCount);
    CandidatesClean(llmText);
    PrefixKeeps(r, CandidateRecommendations(llmText));
  }

  // ---------------------------------------------------------------------------
  // extract_content_between_markers

  predicate LineHas(line: string, marker: string) {
    Contains(Lower(line), Lower(marker))
  }

  /** The index of the first line at or after `from` containing the marker, ignoring case; -1 if none. */
  function FirstLineWith(lines: seq<string>, marker: string, from: nat): (k: int)
    ensures k == -1 || (from <= k < |lines| && LineHas(lines[k], marker))
    ensures k == -1 ==> forall j :: from <= j < |lines| ==> !LineHas(lines[j], marker)
    ensures k != -1 ==> forall j :: from <= j < k ==> !LineHas(lines[j], marker)
    decreases |lines| - from
  {
    if from >= |lines| then -1
    else if LineHas(lines[from], marker) then from
    else FirstLineWith(lines, marker, from + 1)
  }

  /** The first index at or after `from` whose line is not blank, or |lines|. */
  function SkipBlankLines(lines: seq<string>, from: nat): (k: nat)
    ensures from <= k || k == |lines|
    ensures k <= if from <= |lines| then |lines| else from
    ensures forall j :: from <= j < k ==> IsBlank(lines[j])
    ensures k < |lines| ==> !IsBlank(lines[k])
    decreases |lines| - from
  {
    if from >= |lines| then from
    else if Strip(lines[from]) != [] then from
    else SkipBlankLines(lines, from + 1)
  }

  /** What extract_content_between_markers returns, as a function of its inputs. */
  function BetweenMarkers(response: string, startMarker: string, endMarker: string): Option<string> {
    var lines := Split(response, '\n');
    var s := FirstLineWith(lines, startMarker, 0);
    if s == -1 then None
    else
      var e := FirstLineWith(lines, endMarker, 0);
      if e == -1 then Some("")
      else
        var c := SkipBlankLines(lines, s + 1);
        if c >= |lines| then Some("")
        else Some(Strip(Join(if c <= e then lines[c..e] else [], "\n")))
  }

  /** The scan for the first line containing a marker, ignoring case. */
  method FindMarkerLine(lines: seq<string>, marker: string) returns (k: int)
    ensures k == FirstLineWith(lines, marker, 0)
  {
    k := -1;
    var i := 0;
    while i < |lines|
      invariant 0 <= i <= |lines|
      invariant FirstLineWith(lines, marker, i) == FirstLineWith(lines, marker, 0)
    {
      if Contains(Lower(lines[i]), Lower(marker)) {
        return i;
      }
      i := i + 1;
    }
  }

  /** extract_content_between_markers: both markers from the first line, then a skip of blank lines. */
  method ExtractContentBetweenMarkers(response: string, startMarker: string, endMarker: string)
    returns (r: Option<string>)
    ensures r == BetweenMarkers(response, startMarker, endMarker)
  {
    var lines := Split(response, '\n');
    var startLine := FindMarkerLine(lines, startMarker);
    if startLine == -1 {
      return None;
    }
    var endLine := FindMarkerLine(lines, endMarker);
    if endLine == -1 {
      return Some("");
    }
    var contentStart := startLine + 1;
    while contentStart < |lines| && Strip(lines[contentStart]) == []
      invariant startLine + 1 <= contentStart <= |lines|
      invariant SkipBlankLines(lines, startLine + 1) == SkipBlankLines(lines, contentStart)
    {
      contentStart := contentStart + 1;
    }
    if contentStart >= |lines| {
      return Some("");
    }
    var contentLines := if contentStart <= endLine then lines[contentStart..endLine] else [];
    var contentText := Strip(Join(contentLines, "\n"));
    if contentText == [] {
      return Some("");
    }
    return Some(contentText);
  }

  /** None exactly when no line of the response contains the start marker, ignoring case. */
  lemma BetweenMarkersMissingStart(response: string, startMarker: string, endMarker: string)
    ensures BetweenMarkers(response, startMarker, endMarker).None? ==>
      forall j :: 0 <= j < |Split(response, '\n')| ==> !LineHas(Split(response, '\n')[j], startMarker)
    ensures (forall j :: 0 <= j < |Split(response, '\n')| ==> !LineHas(Split(response, '\n')[j], startMarker))
      ==> BetweenMarkers(response, startMarker, endMarker).None?
  {
    var lines := Split(response, '\n');
    var s := FirstLineWith(lines, startMarker, 0);
    if s != -1 {
      assert LineHas(lines[s], startMarker);
    }
  }

  /** Start marker present but no end marker anywhere: the empty string. */
  lemma BetweenMarkersMissingEnd(response: string, startMarker: string, endMarker: string, j: nat)
    requires var lines := Split(response, '\n');
      && j < |lines| && LineHas(lines[j], startMarker)
      && forall i :: 0 <= i < |lines| ==> !LineHas(lines[i], endMarker)
    ensures BetweenMarkers(response, startMarker, endMarker) == Some("")
  {
    var lines := Split(response, '\n');
    assert FirstLineWith(lines, startMarker, 0) != -1;
  }

  /**
    The end marker is searched from the first line, not after the start line: when its first
    line is at or before the start line, the slice is empty and the result is "".
  */
  lemma BetweenMarkersEndFirst(response: string, startMarker: string, endMarker: string)
    requires var lines := Split(response, '\n');
      var s := FirstLineWith(lines, startMarker, 0);
      var e := FirstLineWith(lines, endMarker, 0);
      s != -1 && e != -1 && e <= s
    ensures BetweenMarkers(response, startMarker, endMarker) == Some("")
  {
    var lines := Split(response, '\n');
    var s := FirstLineWith(lines, startMarker, 0);
    var c := SkipBlankLines(lines, s + 1);
    if c < |lines| {
      assert Join([], "\n") == [];
    }
  }

  /**
    A non-empty result is trimmed text from strictly between the two marker lines: it starts at
    the first non-blank line after the start line and stops just before the end line.
  */
  lemma BetweenMarkersContent(response: string, startMarker: string, endMarker: string)
    requires var r := BetweenMarkers(response, startMarker, endMarker); r.Some? && r.value != []
    ensures var lines := Split(response, '\n');
      var s := FirstLineWith(lines, startMarker, 0);
      var e := FirstLineWith(lines, endMarker, 0);
      var c := SkipBlankLines(lines, s + 1);
      && 0 <= s < c < e < |lines|
      && !IsBlank(lines[c])
      && (forall j :: s < j < c ==> IsBlank(lines[j]))
      && BetweenMarkers(response, startMarker, endMarker).value == Strip(Join(lines[c..e], "\n"))
  {
    var lines := Split(response, '\n');
    var s := FirstLineWith(lines, startMarker, 0);
    var e := FirstLineWith(lines, endMarker, 0);
    var c := SkipBlankLines(lines, s + 1);
    if c >= e {
      assert Join([], "\n") == [];
    }
  }

  /** extract_review_section: the text between "dashboard summary" and "detailed analysis". */
  method ExtractReviewSection(response: string) returns (r: Option<string>)
    ensures r == BetweenMarkers(response, StartMarker, EndMarker)
  {
    r := ExtractContentBetweenMarkers(response, StartMarker, EndMarker);
  }

  // ---------------------------------------------------------------------------
  // extract_json_sections

  predicate IsDashboardKey(k: string) {
    k == "Dashboard_Summary" || k == "Dashboard Summary" || k == "DashboardSummary"
  }

  predicate HasDashboardKey(r: Record) {
    HasKey(r, "Dashboard_Summary") || HasKey(r, "Dashboard Summary") || HasKey(r, "DashboardSummary")
  }

  /** In a list payload: the dict elements that carry one of the dashboard keys, in order. */
  function DashboardItems(items: seq<Value>): (r: seq<Value>)
    ensures |r| <= |items|
    ensures forall x :: x in r <==> x in items && x.Obj? && HasDashboardKey(x.fields)
  {
    if items == [] then []
    else
      var rest := DashboardItems(items[1..]);
      assert items == [items[0]] + items[1..];
      if items[0].Obj? && HasDashboardKey(items[0].fields) then [items[0]] + rest else rest
  }

  predicate HasRecommendations(x: Value) {
    x.Obj? && HasKey(x.fields, "Recommendations")
  }

  /** The index of the first dict element with a `Recommendations` key, or |items|. */
  function FirstWithRecommendations(items: seq<Value>): (k: nat)
    ensures k <= |items|
    ensures k < |items| ==> HasRecommendations(items[k])
    ensures forall j :: 0 <= j < k ==> !HasRecommendations(items[j])
  {
    if items == [] then 0
    else if HasRecommendations(items[0]) then 0
    else 1 + FirstWithRecommendations(items[1..])
  }

  /** In a list payload: the `Recommendations` value of the first dict element that has one. */
  function FirstRecommendations(items: seq<Value>): (r: Option<Value>)
    ensures r.None? <==> forall x :: x in items ==> !HasRecommendations(x)
  {
    var k := FirstWithRecommendations(items);
    if k < |items| then Get(items[k].fields, "Recommendations") else None
  }

  /** The dashboard value of a dict payload: the first present key variant wins, with no merging. */
  function DashboardValue(r: Record): Option<Value> {
    if HasKey(r, "Dashboard_Summary") then Get(r, "Dashboard_Summary")
    else if HasKey(r, "Dashboard Summary") then Get(r, "Dashboard Summary")
    else if HasKey(r, "DashboardSummary") then Get(r, "DashboardSummary")
    else None
  }

  /** Keep a section only when Python would serialise it (a truthy value); otherwise the "" sentinel. */
  function Nonempty(v: Option<Value>): (r: Option<Value>)
    ensures r.Some? ==> v == r && Truthy(r.value)
    ensures v.Some? && Truthy(v.value) ==> r == v
  {
    if v.Some? && Truthy(v.value) then v else None
  }

  datatype Sections = Sections(dashboard: Option<Value>, recommendations: Option<Value>)

  /** extract_json_sections: the dashboard summary and the recommendations of a decoded payload. */
  function ExtractJsonSections(parsed: Value): Sections {
    match parsed
    case Arr(items) =>
      var d := DashboardItems(items);
      Sections(if d != [] then Some(Arr(d)) else None, FirstRecommendations(items))
    case Obj(fields) =>
      Sections(Nonempty(DashboardValue(fields)), Nonempty(Get(fields, "Recommendations")))
    case _ => Sections(None, None)
  }

  /** A dict payload: the first key variant present decides the dashboard, even when its value is empty. */
  lemma DashboardFirstVariantWins(fields: Record, key: string)
    requires IsDashboardKey(key) && HasKey(fields, key)
    requires key == "Dashboard Summary" ==> !HasKey(fields, "Dashboard_Summary")
    requires key == "DashboardSummary" ==> !HasKey(fields, "Dashboard_Summary") && !HasKey(fields, "Dashboard Summary")
    ensures ExtractJsonSections(Obj(fields)).dashboard == Nonempty(Get(fields, key))
  {
  }

  /** A dict payload's sections are always present-and-truthy values or the "" sentinel. */
  lemma DictSectionsTruthy(fields: Record)
    ensures var s := ExtractJsonSections(Obj(fields));
      && (s.dashboard.Some? ==> Truthy(s.dashboard.value) && s.dashboard == DashboardValue(fields))
      && (s.recommendations.Some? <==> HasKey(fields, "Recommendations") && Truthy(GetOrNull(fields, "Recommendations")))
  {
  }

  /**
    In a list payload the recommendations section is the first element's `Recommendations`
    value even when it is empty, unlike a dict payload, where an empty value is dropped.
  */
  lemma ListRecommendationsKeepEmpty(items: seq<Value>)
    requires items != [] && items[0].Obj? && HasKey(items[0].fields, "Recommendations")
    ensures ExtractJsonSections(Arr(items)).recommendations == Get(items[0].fields, "Recommendations")
  {
  }

  /** Neither a dict nor a list: both sections are the "" sentinel. */
  lemma ScalarPayloadHasNoSections(parsed: Value)
    requires !parsed.Arr? && !parsed.Obj?
    ensures ExtractJsonSections(parsed) == Sections(None, None)
  {
  }

  // ---------------------------------------------------------------------------
  // extract_text_and_json

  /** (text_part, dashboard_summary_json, recommendations_json, raw_json_string). */
  datatype TextAndJson = TextAndJson(prose: string, dashboard: Option<Value>,
                                     recommendations: Option<Value>, raw: string)

  /** A payload that parsed: the prose ends at `at`, `content` is the raw text, `parsed` its value. */
  datatype Found = Found(at: nat, content: string, parsed: Value)

  /** How the payload was found. */
  datatype Strategy = Markers | Fence(marker: string) | Bracket | NoJson

  predicate IsOpen(c: char) { c == '{' || c == '[' }
  predicate IsClose(c: char) { c == '}' || c == ']' }

  /** One `json.loads` attempt on a candidate. */
  function Attempt(at: nat, content: string, parse: string -> Option<Value>): (r: Option<Found>)
    ensures r.Some? <==> parse(content).Some?
    ensures r.Some? ==> r.value == Found(at, content, parse(content).value)
  {
    var parsed := parse(content);
    if parsed.None? then None else Some(Found(at, content, parsed.value))
  }

  /** Strategy 1: BEGIN_JSON ... END_JSON, the end marker searched from the start of the text. */
  function TryMarkers(trimmed: string, parse: string -> Option<Value>): (r: Option<Found>)
    ensures r.Some? ==> r.value.at <= |trimmed|
  {
    var b := Find(trimmed, "BEGIN_JSON");
    if b == -1 then None
    else
      var e := Find(trimmed, "END_JSON");
      if e == -1 then None
      else Attempt(b, Strip(Slice(trimmed, b + 10, e)), parse)
  }

  /** Strategy 2: a fence opened by `marker` and closed by the next "```". */
  function TryFence(trimmed: string, marker: string, parse: string -> Option<Value>): (r: Option<Found>)
    ensures r.Some? ==> r.value.at <= |trimmed|
  {
    var s := Find(trimmed, marker);
    if s == -1 then None
    else
      var e := FindFrom(trimmed, "```", s + |marker|);
      if e == -1 then None
      else Attempt(s, Strip(Slice(trimmed, s + |marker|, e)), parse)
  }

  /** The index of the first '{' or '[' in s, or |s|. */
  function FirstOpen(s: string): (i: nat)
    ensures i <= |s|
    ensures i < |s| ==> IsOpen(s[i])
    ensures forall k :: 0 <= k < i ==> !IsOpen(s[k])
  {
    if s == [] then 0 else if IsOpen(s[0]) then 0 else 1 + FirstOpen(s[1..])
  }

  /**
    The depth-counting scan from index j with the given depth: the first index where one
    shared counter over both bracket kinds returns to 0, or -1 when the text ends first.
  */
  function CloseFrom(s: string, j: nat, depth: int): (r: int)
    ensures r == -1 || j <= r < |s|
    decreases |s| - j
  {
    if j >= |s| then -1
    else
      var d := if IsOpen(s[j]) then depth + 1 else if IsClose(s[j]) then depth - 1 else depth;
      if IsClose(s[j]) && d == 0 then j else CloseFrom(s, j + 1, d)
  }

  /** The shared bracket depth after scanning s from depth 0: each '{' or '[' opens, each '}' or ']' closes. */
  function Depth(s: string): int
  {
    if s == [] then 0
    else
      var c := s[|s| - 1];
      var before := Depth(s[..|s| - 1]);
      if IsOpen(c) then before + 1 else if IsClose(c) then before - 1 else before
  }

  /** Strategy 3: only the first '{' or '['; one parse attempt at the first depth-0 close. */
  function TryBracket(trimmed: string, parse: string -> Option<Value>): (r: Option<Found>)
    ensures r.Some? ==> r.value.at <= |trimmed|
  {
    var i := FirstOpen(trimmed);
    if i == |trimmed| then None
    else
      var j := CloseFrom(trimmed, i + 1, 1);
      if j == -1 then None
      else Attempt(i, trimmed[i..j + 1], parse)
  }

  /** Strategy 1 step by step, for the positions of the two markers. */
  lemma MarkersAttempt(trimmed: string, parse: string -> Option<Value>, b: int, e: int)
    requires b == Find(trimmed, "BEGIN_JSON") && e == Find(trimmed, "END_JSON")
    ensures b == -1 || e == -1 ==> TryMarkers(trimmed, parse) == None
    ensures b != -1 && e != -1 ==> TryMarkers(trimmed, parse) == Attempt(b, Strip(Slice(trimmed, b + 10, e)), parse)
  {
    if b != -1 && e != -1 {
      var region := Slice(trimmed, b + 10, e);
      assert region == Slice(trimmed, Find(trimmed, "BEGIN_JSON") + 10, Find(trimmed, "END_JSON"));
      assert Strip(region) == Strip(Slice(trimmed, Find(trimmed, "BEGIN_JSON") + 10, Find(trimmed, "END_JSON")));
    }
  }

  /** Strategy 2 step by step, for the position of the opener and of the closing fence. */
  lemma FenceAttempt(trimmed: string, marker: string, parse: string -> Option<Value>, s: int, e: int)
    requires s == Find(trimmed, marker)
    requires s != -1 ==> e == FindFrom(trimmed, "```", s + |marker|)
    ensures s == -1 || e == -1 ==> TryFence(trimmed, marker, parse) == None
    ensures s != -1 && e != -1 ==> TryFence(trimmed, marker, parse) == Attempt(s, Strip(Slice(trimmed, s + |marker|, e)), parse)
  {
    if s != -1 {
      var from := Find(trimmed, marker) + |marker|;
      assert s + |marker| == from;
      assert e == FindFrom(trimmed, "```", from);
      if e != -1 {
        var region := Slice(trimmed, s + |marker|, e);
        assert region == Slice(trimmed, from, FindFrom(trimmed, "```", from));
        assert Strip(region) == Strip(Slice(trimmed, from, FindFrom(trimmed, "```", from)));
      }
    }
  }

  /** The fence openers tried in order after the markers. */
  const FenceMarkers: seq<string> := ["```json", "```"]

  /** The first payload found by the markers and the first m fences. */
  function EarlyPayload(trimmed: string, parse: string -> Option<Value>, m: nat): Option<Found>
    requires m <= |FenceMarkers|
  {
    if m == 0 then TryMarkers(trimmed, parse)
    else
      var before := EarlyPayload(trimmed, parse, m - 1);
      if before.Some? then before else TryFence(trimmed, FenceMarkers[m - 1], parse)
  }

  /** Once a strategy finds the payload, the later fences are not tried. */
  lemma EarlyPayloadKeeps(trimmed: string, parse: string -> Option<Value>, m: nat)
    requires m <= |FenceMarkers| && EarlyPayload(trimmed, parse, m).Some?
    ensures EarlyPayload(trimmed, parse, |FenceMarkers|) == EarlyPayload(trimmed, parse, m)
  {
  }

  /** The payload is the first found by markers and fences, else the bracket scan's. */
  lemma PayloadOrder(trimmed: string, parse: string -> Option<Value>)
    ensures FindPayload(trimmed, parse)
            == if EarlyPayload(trimmed, parse, 2).Some? then EarlyPayload(trimmed, parse, 2)
               else TryBracket(trimmed, parse)
  {
    assert EarlyPayload(trimmed, parse, 1) == if TryMarkers(trimmed, parse).Some? then TryMarkers(trimmed, parse)
                                               else TryFence(trimmed, "```json", parse);
  }

  /** The strategy that finds the payload: the first of the four whose content parses. */
  function StrategyUsed(trimmed: string, parse: string -> Option<Value>): Strategy {
    if TryMarkers(trimmed, parse).Some? then Markers
    else if TryFence(trimmed, "```json", parse).Some? then Fence("```json")
    else if TryFence(trimmed, "```", parse).Some? then Fence("```")
    else if TryBracket(trimmed, parse).Some? then Bracket
    else NoJson
  }

  /** The payload the chosen strategy found, if any. */
  function FindPayload(trimmed: string, parse: string -> Option<Value>): (r: Option<Found>)
    ensures r.Some? ==> r.value.at <= |trimmed|
    ensures r.None? <==> StrategyUsed(trimmed, parse) == NoJson
  {
    match StrategyUsed(trimmed, parse)
    case Markers => TryMarkers(trimmed, parse)
    case Fence(marker) => TryFence(trimmed, marker, parse)
    case Bracket => TryBracket(trimmed, parse)
    case NoJson => None
  }

  /** The split made from a found payload: prose before it, its sections and its raw text. */
  function SplitAt(trimmed: string, f: Found): TextAndJson
    requires f.at <= |trimmed|
  {
    var sections := ExtractJsonSections(f.parsed);
    TextAndJson(Strip(trimmed[..f.at]), sections.dashboard, sections.recommendations, f.content)
  }

  /** What extract_text_and_json returns: the split at the found payload, else all prose. */
  function SplitTextAndJson(response: string, parse: string -> Option<Value>): TextAndJson {
    var trimmed := Strip(response);
    var f := FindPayload(trimmed, parse);
    if f.Some? then SplitAt(trimmed, f.value) else TextAndJson(trimmed, None, None, "")
  }

  /** A found payload parses and its text is stripped text taken from at or after its `at`. */
  ghost predicate Located(trimmed: string, parse: string -> Option<Value>, f: Found) {
    && parse(f.content) == Some(f.parsed)
    && exists a, b :: TakenFrom(trimmed, f, a, b)
  }

  /** The payload's text is trimmed[a..b] stripped, and that region starts at or after `at`. */
  ghost predicate TakenFrom(trimmed: string, f: Found, a: int, b: int) {
    f.at <= a <= b <= |trimmed| && f.content == Strip(trimmed[a..b])
  }

  lemma MarkersLocated(trimmed: string, parse: string -> Option<Value>)
    requires TryMarkers(trimmed, parse).Some?
    ensures Located(trimmed, parse, TryMarkers(trimmed, parse).value)
  {
    var b := Find(trimmed, "BEGIN_JSON");
    var e := Find(trimmed, "END_JSON");
    MarkersAttempt(trimmed, parse, b, e);
    var f := TryMarkers(trimmed, parse).value;
    assert MatchAt(trimmed, "END_JSON", e);
    if b + 10 <= e {
      assert TakenFrom(trimmed, f, b + 10, e);
    } else {
      assert TakenFrom(trimmed, f, b, b);
    }
  }

  lemma FenceLocated(trimmed: string, marker: string, parse: string -> Option<Value>)
    requires TryFence(trimmed, marker, parse).Some?
    ensures Located(trimmed, parse, TryFence(trimmed, marker, parse).value)
  {
    var s := Find(trimmed, marker);
    var e := FindFrom(trimmed, "```", s + |marker|);
    FenceAttempt(trimmed, marker, parse, s, e);
    assert MatchAt(trimmed, "```", e);
    assert TakenFrom(trimmed, TryFence(trimmed, marker, parse).value, s + |marker|, e);
  }

  lemma BracketLocated(trimmed: string, parse: string -> Option<Value>)
    requires TryBracket(trimmed, parse).Some?
    ensures Located(trimmed, parse, TryBracket(trimmed, parse).value)
  {
    var i := FirstOpen(trimmed);
    var j := CloseFrom(trimmed, i + 1, 1);
    BracketAttempt(trimmed, parse, i, j);
    var raw := trimmed[i..j + 1];
    assert Strip(raw) == raw by {
      assert raw[0] == trimmed[i];
      CloseFromIsClose(trimmed, i + 1, 1);
      assert raw[|raw| - 1] == trimmed[j];
      StripOfTrimmed(raw);
    }
    assert TakenFrom(trimmed, TryBracket(trimmed, parse).value, i, j + 1);
  }

  lemma PayloadLocated(trimmed: string, parse: string -> Option<Value>)
    requires FindPayload(trimmed, parse).Some?
    ensures Located(trimmed, parse, FindPayload(trimmed, parse).value)
  {
    match StrategyUsed(trimmed, parse)
    case Markers => MarkersLocated(trimmed, parse);
    case Fence(marker) => FenceLocated(trimmed, marker, parse);
    case Bracket => BracketLocated(trimmed, parse);
    case NoJson =>
  }

  /**
    The properties every split has: the prose is trimmed; either there is no payload and the
    prose is the whole trimmed answer, or the payload parses, the sections are taken from its
    decoded value, and the prose is the text before some position and the payload stripped text
    from at or after it.
  */
  ghost predicate WellFormedSplit(response: string, parse: string -> Option<Value>, r: TextAndJson) {
    var trimmed := Strip(response);
    Trimmed(r.prose) &&
    (r == TextAndJson(trimmed, None, None, "")
     || (&& parse(r.raw).Some?
         && Sections(r.dashboard, r.recommendations) == ExtractJsonSections(parse(r.raw).value)
         && exists at, a, b :: 0 <= at <= a <= b <= |trimmed|
              && r.prose == Strip(trimmed[..at]) && r.raw == Strip(trimmed[a..b])))
  }

  lemma SplitWellFormed(response: string, parse: string -> Option<Value>)
    ensures WellFormedSplit(response, parse, SplitTextAndJson(response, parse))
  {
    var trimmed := Strip(response);
    var f := FindPayload(trimmed, parse);
    if f.Some? {
      PayloadLocated(trimmed, parse);
      var a, b :| TakenFrom(trimmed, f.value, a, b);
      var r := SplitAt(trimmed, f.value);
      assert r.prose == Strip(trimmed[..f.value.at]) && r.raw == Strip(trimmed[a..b]);
    }
  }

  /** The scan's inner loop finds the same close as CloseFrom, and the span is balanced. */
  lemma {:induction false} CloseFromBalanced(s: string, i: nat, j: nat, depth: int)
    requires i < j <= |s| && IsOpen(s[i])
    requires depth == Depth(s[i..j]) && depth > 0
    requires forall k :: i < k <= j ==> Depth(s[i..k]) > 0
    ensures var r := CloseFrom(s, j, depth);
      r != -1 ==> Depth(s[i..r + 1]) == 0 && forall k :: i < k <= r ==> Depth(s[i..k]) > 0
    decreases |s| - j
  {
    if j < |s| {
      var d := if IsOpen(s[j]) then depth + 1 else if IsClose(s[j]) then depth - 1 else depth;
      assert s[i..j + 1][..j - i] == s[i..j];
      assert Depth(s[i..j + 1]) == d;
      if !(IsClose(s[j]) && d == 0) {
        assert d > 0 by {
          if IsClose(s[j]) {
            assert d == depth - 1;
          }
        }
        CloseFromBalanced(s, i, j + 1, d);
      }
    }
  }

  lemma {:induction false} CloseFromIsClose(s: string, j: nat, depth: int)
    requires CloseFrom(s, j, depth) != -1
    ensures IsClose(s[CloseFrom(s, j, depth)])
    decreases |s| - j
  {
    var d := if IsOpen(s[j]) then depth + 1 else if IsClose(s[j]) then depth - 1 else depth;
    if !(IsClose(s[j]) && d == 0) {
      CloseFromIsClose(s, j + 1, d);
    }
  }

  /** The depth scan started just after an opening bracket stops at a balanced span. */
  lemma ScanBalanced(s: string, i: nat)
    requires i < |s| && IsOpen(s[i])
    ensures var j := CloseFrom(s, i + 1, 1);
      j != -1 ==> Depth(s[i..j + 1]) == 0 && forall k :: i < k <= j ==> Depth(s[i..k]) > 0
  {
    assert Depth(s[i..i + 1]) == 1 by {
      assert s[i..i + 1][..0] == [];
    }
    forall k | i < k <= i + 1
      ensures Depth(s[i..k]) > 0
    {
      assert k == i + 1;
    }
    CloseFromBalanced(s, i, i + 1, 1);
  }

  /**
    A payload found by the bracket scan starts at the first '{' or '[' of the text and is
    balanced under the shared depth counter: the depth returns to 0 exactly at its last character.
  */
  lemma BracketSpanBalanced(trimmed: string, parse: string -> Option<Value>)
    requires TryBracket(trimmed, parse).Some?
    ensures var f := TryBracket(trimmed, parse).value;
      && f.at < |trimmed| && IsOpen(trimmed[f.at])
      && (forall k :: 0 <= k < f.at ==> !IsOpen(trimmed[k]))
      && f.at + |f.content| <= |trimmed| && f.content == trimmed[f.at..f.at + |f.content|]
      && Depth(f.content) == 0
      && forall k :: 0 < k < |f.content| ==> Depth(f.content[..k]) > 0
  {
    var i := FirstOpen(trimmed);
    var j := CloseFrom(trimmed, i + 1, 1);
    BracketAttempt(trimmed, parse, i, j);
    BalancedSpan(trimmed, i);
  }

  /** Strategy 3 step by step, for the first opening bracket and the index where the scan closes. */
  lemma BracketAttempt(trimmed: string, parse: string -> Option<Value>, i: nat, j: int)
    requires i == FirstOpen(trimmed) && i < |trimmed| && j == CloseFrom(trimmed, i + 1, 1)
    ensures j == -1 ==> TryBracket(trimmed, parse) == None
    ensures j != -1 ==> j < |trimmed| && TryBracket(trimmed, parse) == Attempt(i, trimmed[i..j + 1], parse)
  {
    var from := FirstOpen(trimmed) + 1;
    assert i + 1 == from;
    assert j == CloseFrom(trimmed, from, 1);
    if j != -1 {
      var stop := CloseFrom(trimmed, from, 1) + 1;
      assert j + 1 == stop;
      assert trimmed[i..j + 1] == trimmed[FirstOpen(trimmed)..stop];
    }
  }

  /** The span the depth scan closes is balanced, and every proper non-empty prefix of it is open. */
  lemma BalancedSpan(s: string, i: nat)
    requires i < |s| && IsOpen(s[i]) && CloseFrom(s, i + 1, 1) != -1
    ensures var span := s[i..CloseFrom(s, i + 1, 1) + 1];
      && Depth(span) == 0 && forall k :: 0 < k < |span| ==> Depth(span[..k]) > 0
  {
    var j := CloseFrom(s, i + 1, 1);
    ScanBalanced(s, i);
    var span := s[i..j + 1];
    forall k | 0 < k < |span|
      ensures Depth(span[..k]) > 0
    {
      assert span[..k] == s[i..i + k];
    }
  }

  /** A fenced block that parses is preferred to any bracket span, wherever the brackets are. */
  lemma FencePreferredToBracket(response: string, parse: string -> Option<Value>)
    requires TryMarkers(Strip(response), parse).None?
    requires TryFence(Strip(response), "```json", parse).Some?
    ensures StrategyUsed(Strip(response), parse) == Fence("```json")
    ensures SplitTextAndJson(response, parse).raw == TryFence(Strip(response), "```json", parse).value.content
  {
  }

  /** When nothing parses, the whole trimmed answer is prose and there is no payload. */
  lemma NothingParses(response: string, parse: string -> Option<Value>)
    requires forall t :: parse(t).None?
    ensures SplitTextAndJson(response, parse) == TextAndJson(Strip(response), None, None, "")
  {
    var trimmed := Strip(response);
    assert TryMarkers(trimmed, parse).None?;
    assert TryFence(trimmed, "```json", parse).None?;
    assert TryFence(trimmed, "```", parse).None?;
    assert TryBracket(trimmed, parse).None?;
  }

  /** The bracket scan of extract_text_and_json: the first opening bracket only, one parse attempt. */
  method ScanBracket(trimmed: string, parse: string -> Option<Value>) returns (r: Option<Found>)
    ensures r == TryBracket(trimmed, parse)
  {
    var i := 0;
    while i < |trimmed|
      invariant 0 <= i <= |trimmed|
      invariant forall k :: 0 <= k < i ==> !IsOpen(trimmed[k])
    {
      if IsOpen(trimmed[i]) {
        assert i == FirstOpen(trimmed);
        var depth := 1;
        var j := i + 1;
        while j < |trimmed|
          invariant i + 1 <= j <= |trimmed|
          invariant CloseFrom(trimmed, j, depth) == CloseFrom(trimmed, i + 1, 1)
        {
          if IsOpen(trimmed[j]) {
            depth := depth + 1;
          } else if IsClose(trimmed[j]) {
            depth := depth - 1;
            if depth == 0 {
              BracketAttempt(trimmed, parse, i, j);
              return Attempt(i, trimmed[i..j + 1], parse);
            }
          }
          j := j + 1;
        }
        BracketAttempt(trimmed, parse, i, -1);
        return None;
      }
      i := i + 1;
    }
    return None;
  }

  /** extract_text_and_json: strip the answer, search for the payload, split around it. */
  method ExtractTextAndJson(response: string, parse: string -> Option<Value>) returns (r: TextAndJson)
    ensures r == SplitTextAndJson(response, parse)
    ensures WellFormedSplit(response, parse, r)
  {
    SplitWellFormed(response, parse);
    var trimmed := Strip(response);
    var found := SearchPayload(trimmed, parse);
    if found.Some? {
      var sections := ExtractJsonSections(found.value.parsed);
      r := TextAndJson(Strip(trimmed[..found.value.at]), sections.dashboard, sections.recommendations,
                       found.value.content);
      return;
    }
    return TextAndJson(trimmed, None, None, "");
  }

  /** The search of extract_text_and_json: markers, then the two fences in order, then the bracket scan. */
  method SearchPayload(trimmed: string, parse: string -> Option<Value>) returns (found: Option<Found>)
    ensures found == FindPayload(trimmed, parse)
  {
    found := ScanMarkers(trimmed, parse);
    var markers := FenceMarkers;
    var m := 0;
    while m < |markers| && found.None?
      invariant 0 <= m <= |markers|
      invariant found == EarlyPayload(trimmed, parse, m)
    {
      found := ScanFence(trimmed, markers[m], parse);
      m := m + 1;
    }
    if m < |markers| {
      EarlyPayloadKeeps(trimmed, parse, m);
    }
    if found.None? {
      found := ScanBracket(trimmed, parse);
    }
    PayloadOrder(trimmed, parse);
  }

  /** Strategy 1 of extract_text_and_json. */
  method ScanMarkers(trimmed: string, parse: string -> Option<Value>) returns (found: Option<Found>)
    ensures found == TryMarkers(trimmed, parse)
  {
    var beginPos := Find(trimmed, "BEGIN_JSON");
    var endPos := Find(trimmed, "END_JSON");
    MarkersAttempt(trimmed, parse, beginPos, endPos);
    if beginPos == -1 || endPos == -1 {
      return None;
    }
    found := Attempt(beginPos, Strip(Slice(trimmed, beginPos + 10, endPos)), parse);
  }

  /** Strategy 2 of extract_text_and_json, for one fence opener. */
  method ScanFence(trimmed: string, marker: string, parse: string -> Option<Value>) returns (found: Option<Found>)
    ensures found == TryFence(trimmed, marker, parse)
  {
    var startPos := Find(trimmed, marker);
    if startPos == -1 {
      FenceAttempt(trimmed, marker, parse, startPos, -1);
      return None;
    }
    var endPos := FindFrom(trimmed, "```", startPos + |marker|);
    FenceAttempt(trimmed, marker, parse, startPos, endPos);
    if endPos == -1 {
      return None;
    }
    found := Attempt(startPos, Strip(Slice(trimmed, startPos + |marker|, endPos)), parse);
  }
}
