/**
 * The free-text front end (parse_training_data): a line scanner with one line
 * of lookahead that turns a pasted COROS plan into workout records.
 *
 * The methods ScanLines (the outer while loop), ScanLine (one turn of it)
 * and ReadDetails (the inner while loop) follow the source and are proved
 * against ParseFrom, the outer loop as a recursive function. ParseLines
 * describes the same result from the other side: the records are taken at
 * the title lines TitleStarts finds, and each one is RecordAt its title line.
 */
module TextParser {
  import opened Wrappers
  import opened Text
  import opened Workouts

  // ------------------------------------------------------------ line tests

  /** The input lines: split on '\n', each line stripped, blank lines dropped. */
  function Lines(text: string): seq<string> {
    NonBlank(Split(Strip(text), '\n'))
  }

  /** `[line.strip() for line in raw if line.strip()]` */
  function NonBlank(raw: seq<string>): (lines: seq<string>)
    ensures |lines| <= |raw|
    ensures forall line :: line in lines ==> line != "" && Stripped(line)
  {
    DropEmpty(StripEach(raw))
  }

  function StripEach(raw: seq<string>): (stripped: seq<string>)
    ensures |stripped| == |raw|
    ensures forall k :: 0 <= k < |raw| ==> stripped[k] == Strip(raw[k])
  {
    seq(|raw|, k requires 0 <= k < |raw| => Strip(raw[k]))
  }

  /** The non-empty strings of xs. */
  function DropEmpty(xs: seq<string>): (r: seq<string>)
    ensures |r| <= |xs|
    ensures forall x :: x in r ==> x in xs && x != ""
    decreases |xs|
  {
    if xs == [] then [] else (if xs[0] != "" then [xs[0]] else []) + DropEmpty(xs[1..])
  }

  /** Every piece that is not blank once stripped is kept, stripped. */
  lemma NonBlankKeepsPieces(raw: seq<string>)
    ensures forall k :: 0 <= k < |raw| && Strip(raw[k]) != "" ==> Strip(raw[k]) in NonBlank(raw)
  {
    var xs := StripEach(raw);
    DropEmptyKeeps(xs);
    assert forall k :: 0 <= k < |raw| ==> xs[k] == Strip(raw[k]);
  }

  /**
   * The n-th line kept is the stripped piece k, which is not blank, and
   * exactly n lines are kept from the pieces before it: the lines keep the
   * order of their pieces.
   */
  lemma NonBlankSource(raw: seq<string>, n: nat) returns (k: nat)
    requires n < |NonBlank(raw)|
    ensures k < |raw| && NonBlank(raw)[n] == Strip(raw[k]) != ""
    ensures |NonBlank(raw[..k])| == n
  {
    var xs := StripEach(raw);
    k := DropEmptySource(xs, n);
    assert StripEach(raw[..k]) == xs[..k];
  }

  lemma {:induction false} DropEmptyKeeps(xs: seq<string>)
    ensures forall k :: 0 <= k < |xs| && xs[k] != "" ==> xs[k] in DropEmpty(xs)
    decreases |xs|
  {
    if xs != [] {
      DropEmptyKeeps(xs[1..]);
      forall k | 0 < k < |xs| && xs[k] != ""
        ensures xs[k] in DropEmpty(xs)
      {
        assert xs[k] == xs[1..][k - 1];
      }
    }
  }

  lemma {:induction false} DropEmptySource(xs: seq<string>, n: nat) returns (k: nat)
    requires n < |DropEmpty(xs)|
    ensures k < |xs| && DropEmpty(xs)[n] == xs[k] != ""
    ensures |DropEmpty(xs[..k])| == n
    decreases |xs|
  {
    var head := if xs[0] != "" then [xs[0]] else [];
    var rest := xs[1..];
    if head != [] && n == 0 {
      k := 0;
      assert xs[..0] == [];
    } else {
      var m := n - |head|;
      assert DropEmpty(xs)[n] == DropEmpty(rest)[m];
      var j := DropEmptySource(rest, m);
      k := j + 1;
      assert xs[..k][0] == xs[0] && xs[..k][1..] == rest[..j];
    }
  }

  /** `'Week(s)' in line or line.startswith('Week ')` */
  predicate IsWeekMarker(line: string) {
    Contains(line, "Week(s)") || StartsWith(line, "Week ")
  }

  predicate IsSummaryLabel(line: string) {
    line in ["Activity Time:", "Distance:", "Training Load:"]
  }

  const Placeholders: seq<string> := ["/", "0.00 km", "00:00:00", "0 TL"]

  /** `re.match(r'\d{2}:\d{2}:\d{2}', s)` */
  predicate IsTime(s: string) {
    |s| >= 8 && IsDigit(s[0]) && IsDigit(s[1]) && s[2] == ':' && IsDigit(s[3]) && IsDigit(s[4])
    && s[5] == ':' && IsDigit(s[6]) && IsDigit(s[7])
  }

  /** `re.match(r'\d+\.\d+ km', s)`, computed: the leading run of digits, '.', a run of digits, " km". */
  predicate IsDistance(s: string) {
    var a := LeadingDigits(s);
    1 <= a < |s| && s[a] == '.'
    && var b := LeadingDigits(s[a + 1..]);
       b >= 1 && StartsWith(s[a + 1 + b..], " km")
  }

  /** `s` starts with i digits, '.', the digits up to j, and " km". */
  ghost predicate DistanceCut(s: string, i: int, j: int) {
    1 <= i && i + 1 < j && j + 3 <= |s| && AllDigits(s[..i]) && s[i] == '.'
    && AllDigits(s[i + 1..j]) && s[j..j + 3] == " km"
  }

  /** The same regular expression read literally: some way to cut `s` into its parts exists. */
  ghost predicate DistanceRegex(s: string) {
    exists i, j :: DistanceCut(s, i, j)
  }

  /** The computed test accepts exactly the strings the regular expression matches at their start. */
  lemma DistanceMatchesRegex(s: string)
    ensures IsDistance(s) <==> DistanceRegex(s)
  {
    if IsDistance(s) {
      DistanceHasCut(s);
    }
    if DistanceRegex(s) {
      var i, j :| DistanceCut(s, i, j);
      CutIsDistance(s, i, j);
    }
  }

  lemma DistanceHasCut(s: string)
    requires IsDistance(s)
    ensures DistanceCut(s, LeadingDigits(s), LeadingDigits(s) + 1 + LeadingDigits(s[LeadingDigits(s) + 1..]))
  {
    var a := LeadingDigits(s);
    var rest := s[a + 1..];
    var b := LeadingDigits(rest);
    assert rest[..b] == s[a + 1..a + 1 + b];
    assert rest[b..] == s[a + 1 + b..];
    assert s[a + 1 + b..][..3] == s[a + 1 + b..a + 1 + b + 3];
  }

  lemma CutIsDistance(s: string, i: int, j: int)
    requires DistanceCut(s, i, j)
    ensures IsDistance(s)
  {
    LeadingDigitsExact(s, i);
    FractionDigits(s, i, j);
    assert s[i + 1 + (j - i - 1)..] == s[j..];
    assert s[j..][..3] == s[j..j + 3];
  }

  /** After the '.', the run of digits of a cut ends where " km" begins. */
  lemma FractionDigits(s: string, i: int, j: int)
    requires DistanceCut(s, i, j)
    ensures LeadingDigits(s[i + 1..]) == j - i - 1
  {
    var rest := s[i + 1..];
    assert rest[..j - i - 1] == s[i + 1..j];
    assert rest[j - i - 1] == s[j] == s[j..j + 3][0] == ' ';
    LeadingDigitsExact(rest, j - i - 1);
  }

  /** A time line is never a distance line: the first non-digit is ':' in one and '.' in the other. */
  lemma TimeIsNotDistance(s: string)
    requires IsTime(s)
    ensures !IsDistance(s)
  {
    LeadingDigitsExact(s, 2);
  }

  /** `re.match(r'\d+', s)` */
  predicate StartsWithDigit(s: string) {
    s != [] && IsDigit(s[0])
  }

  // ------------------------------------------------------------ detail lines

  /** What a detail line contributes, in the order of the source's if/elif chain. */
  datatype DetailKind = DurationLine | DistanceLine | LoadLine | TextLine | Skipped

  function Classify(line: string): DetailKind {
    if IsTime(line) then DurationLine
    else if IsDistance(line) then DistanceLine
    else if Contains(line, "TL") && StartsWithDigit(line) then LoadLine
    else if line != "" && line !in Placeholders then TextLine
    else Skipped
  }

  /**
   * Three of the four placeholders are taken by an earlier branch of the chain
   * ("0.00 km" becomes the distance, "00:00:00" the duration, "0 TL" the
   * training load); only "/" reaches the placeholder test.
   */
  lemma PlaceholdersTakenEarlier()
    ensures Classify("0.00 km") == DistanceLine
    ensures Classify("00:00:00") == DurationLine
    ensures Classify("0 TL") == LoadLine
    ensures Classify("/") == Skipped
  {
    ZeroDistanceIsDistance();
    ZeroTimeIsTime();
    ZeroLoadIsLoad();
    SlashIsSkipped();
  }

  lemma ZeroDistanceIsDistance()
    ensures Classify("0.00 km") == DistanceLine
  {
    var d := "0.00 km";
    assert !IsTime(d) by { assert !IsDigit(d[1]); }
    assert DistanceCut(d, 1, 4) by {
      assert d[..1] == "0" && d[2..4] == "00" && d[4..7] == " km";
    }
    CutIsDistance(d, 1, 4);
  }

  lemma ZeroTimeIsTime()
    ensures Classify("00:00:00") == DurationLine
  {
    var t := "00:00:00";
    assert IsDigit(t[0]) && IsDigit(t[1]) && IsDigit(t[3]) && IsDigit(t[4]) && IsDigit(t[6]) && IsDigit(t[7]);
  }

  lemma ZeroLoadIsLoad()
    ensures Classify("0 TL") == LoadLine
  {
    var l := "0 TL";
    assert !IsTime(l) by { assert |l| < 8; }
    assert !IsDistance(l) by { LeadingDigitsExact(l, 1); }
    assert StartsWith(l[2..], "TL") by { assert l[2..] == "TL"; }
    assert Contains(l[1..], "TL") by { assert l[1..][1..] == l[2..]; }
    assert StartsWithDigit(l);
  }

  lemma SlashIsSkipped()
    ensures Classify("/") == Skipped
  {
    var s := "/";
    assert !IsTime(s) by { assert |s| < 8; }
    assert !IsDistance(s) by { LeadingDigitsExact(s, 0); }
    assert !StartsWithDigit(s);
    assert s in Placeholders;
  }

  /** The most recent line in lines[s..e) of the given kind (the last assignment wins). */
  function LastOfKind(lines: seq<string>, s: nat, e: nat, kind: DetailKind): Option<string>
    requires s <= e <= |lines|
    decreases e
  {
    if e == s then None
    else if Classify(lines[e - 1]) == kind then Some(lines[e - 1])
    else LastOfKind(lines, s, e - 1, kind)
  }

  /** No line of lines[a..e) has the given kind. */
  ghost predicate NoneOfKind(lines: seq<string>, a: nat, e: nat, kind: DetailKind)
    requires a <= e <= |lines|
  {
    forall j :: a <= j < e ==> Classify(lines[j]) != kind
  }

  lemma NoneOfKindExtend(lines: seq<string>, a: nat, e: nat, kind: DetailKind)
    requires a < e <= |lines|
    ensures NoneOfKind(lines, a, e, kind) <==> NoneOfKind(lines, a, e - 1, kind) && Classify(lines[e - 1]) != kind
  {
  }

  /**
   * LastOfKind is absent exactly when no line of the block has that kind, and
   * otherwise it is such a line with none of that kind after it.
   */
  lemma {:induction false} LastOfKindIsLast(lines: seq<string>, s: nat, e: nat, kind: DetailKind)
    requires s <= e <= |lines|
    ensures var r := LastOfKind(lines, s, e, kind);
      && (r.None? <==> NoneOfKind(lines, s, e, kind))
      && (r.Some? ==> exists j :: s <= j < e && lines[j] == r.value && Classify(lines[j]) == kind
                                  && NoneOfKind(lines, j + 1, e, kind))
    decreases e
  {
    if LastOfKind(lines, s, e, kind).Some? {
      var j := LastOfKindIndex(lines, s, e, kind);
    } else {
      forall j | s <= j < e
        ensures Classify(lines[j]) != kind
      {
        LastOfKindAbsentAt(lines, s, e, kind, j);
      }
    }
  }

  /** When LastOfKind finds nothing, no line of the block has that kind. */
  lemma {:induction false} LastOfKindAbsentAt(lines: seq<string>, s: nat, e: nat, kind: DetailKind, j: nat)
    requires s <= j < e <= |lines| && LastOfKind(lines, s, e, kind).None?
    ensures Classify(lines[j]) != kind
    decreases e
  {
    if j < e - 1 {
      assert LastOfKind(lines, s, e, kind) == LastOfKind(lines, s, e - 1, kind);
      LastOfKindAbsentAt(lines, s, e - 1, kind, j);
    }
  }

  /** Where the line LastOfKind returns sits. */
  lemma {:induction false} LastOfKindIndex(lines: seq<string>, s: nat, e: nat, kind: DetailKind) returns (j: nat)
    requires s <= e <= |lines|
    requires LastOfKind(lines, s, e, kind).Some?
    ensures s <= j < e && lines[j] == LastOfKind(lines, s, e, kind).value && Classify(lines[j]) == kind
    ensures NoneOfKind(lines, j + 1, e, kind)
    decreases e
  {
    if Classify(lines[e - 1]) == kind {
      j := e - 1;
    } else {
      assert LastOfKind(lines, s, e, kind) == LastOfKind(lines, s, e - 1, kind);
      j := LastOfKindIndex(lines, s, e - 1, kind);
      NoneOfKindExtend(lines, j + 1, e, kind);
    }
  }

  /** The lines of lines[s..e) that go into the description, in order. */
  function TextLines(lines: seq<string>, s: nat, e: nat): seq<string>
    requires s <= e <= |lines|
    decreases e
  {
    if e == s then []
    else TextLines(lines, s, e - 1) + (if Classify(lines[e - 1]) == TextLine then [lines[e - 1]] else [])
  }

  /** A line that is not empty, not a placeholder, and not a time, distance or training-load line. */
  predicate PlainText(line: string) {
    && line != "" && line !in Placeholders && !IsTime(line) && !IsDistance(line)
    && !(Contains(line, "TL") && StartsWithDigit(line))
  }

  /** The lines classified as description text are exactly the plain ones. */
  lemma TextLineIsPlain(line: string)
    ensures Classify(line) == TextLine <==> PlainText(line)
  {
  }

  /** The last line of a block is either a plain line added to the description or left out of it. */
  lemma TextLinesGrow(lines: seq<string>, s: nat, e: nat)
    requires s < e <= |lines|
    ensures || (TextLines(lines, s, e) == TextLines(lines, s, e - 1) + [lines[e - 1]] && PlainText(lines[e - 1]))
            || TextLines(lines, s, e) == TextLines(lines, s, e - 1)
  {
    TextLinesStep(lines, s, e - 1);
    TextLineIsPlain(lines[e - 1]);
  }

  /**
   * The description lines are lines of the block, at most one per line, and
   * none is a placeholder, a time, a distance or a training-load line.
   */
  lemma {:induction false} TextLinesArePlain(lines: seq<string>, s: nat, e: nat)
    requires s <= e <= |lines|
    ensures PlainLinesOf(lines, s, e, TextLines(lines, s, e))
    decreases e
  {
    if e > s {
      TextLinesArePlain(lines, s, e - 1);
      TextLinesPlainStep(lines, s, e);
    }
  }

  /** At most one line per line of lines[s..e), each of them one of those lines and plain. */
  predicate PlainLinesOf(lines: seq<string>, s: nat, e: nat, r: seq<string>)
    requires s <= e <= |lines|
  {
    && |r| <= e - s
    && forall k :: 0 <= k < |r| ==> r[k] in lines[s..e] && PlainText(r[k])
  }

  lemma TextLinesPlainStep(lines: seq<string>, s: nat, e: nat)
    requires s < e <= |lines|
    requires PlainLinesOf(lines, s, e - 1, TextLines(lines, s, e - 1))
    ensures PlainLinesOf(lines, s, e, TextLines(lines, s, e))
  {
    TextLinesGrow(lines, s, e);
    var prev := TextLines(lines, s, e - 1);
    var r := TextLines(lines, s, e);
    forall k | 0 <= k < |r|
      ensures r[k] in lines[s..e] && PlainText(r[k])
    {
      if k < |prev| {
        assert r[k] == prev[k];
        SliceGrows(lines, s, e, prev[k]);
      } else {
        assert r[k] == lines[e - 1] == lines[s..e][e - 1 - s];
      }
    }
  }

  /** Every plain line of the block is among the description lines. */
  lemma TextLinesKeepPlain(lines: seq<string>, s: nat, e: nat)
    requires s <= e <= |lines|
    ensures forall j :: s <= j < e && PlainText(lines[j]) ==> lines[j] in TextLines(lines, s, e)
  {
    forall j | s <= j < e && PlainText(lines[j])
      ensures lines[j] in TextLines(lines, s, e)
    {
      TextLineKept(lines, s, e, j);
    }
  }

  lemma {:induction false} TextLineKept(lines: seq<string>, s: nat, e: nat, j: nat)
    requires s <= j < e <= |lines| && PlainText(lines[j])
    ensures lines[j] in TextLines(lines, s, e)
    decreases e
  {
    TextLinesExtend(lines, s, e);
    if j < e - 1 {
      TextLineKept(lines, s, e - 1, j);
    }
  }

  /** One more line keeps the earlier description lines and adds itself when it is plain. */
  lemma TextLinesExtend(lines: seq<string>, s: nat, e: nat)
    requires s < e <= |lines|
    ensures forall x :: x in TextLines(lines, s, e - 1) ==> x in TextLines(lines, s, e)
    ensures PlainText(lines[e - 1]) ==> lines[e - 1] in TextLines(lines, s, e)
  {
    TextLinesStep(lines, s, e - 1);
    TextLineIsPlain(lines[e - 1]);
  }

  /**
   * The n-th description line is the plain line j of the block, and exactly n
   * description lines come from the lines before j: the description lines are
   * the plain lines of the block in their order.
   */
  lemma {:induction false} TextLinesSource(lines: seq<string>, s: nat, e: nat, n: nat) returns (j: nat)
    requires s <= e <= |lines|
    requires n < |TextLines(lines, s, e)|
    ensures s <= j < e && TextLines(lines, s, e)[n] == lines[j] && PlainText(lines[j])
    ensures |TextLines(lines, s, j)| == n
    decreases e
  {
    TextLinesPrefix(lines, s, e);
    var prev := TextLines(lines, s, e - 1);
    if n < |prev| {
      j := TextLinesSource(lines, s, e - 1, n);
      calc {
        TextLines(lines, s, e)[n];
        prev[n];
        lines[j];
      }
    } else {
      j := e - 1;
    }
  }

  /** One more line keeps the earlier description lines as a prefix and adds at most itself, when it is plain. */
  lemma TextLinesPrefix(lines: seq<string>, s: nat, e: nat)
    requires s < e <= |lines|
    ensures var prev := TextLines(lines, s, e - 1);
      var r := TextLines(lines, s, e);
      && |prev| <= |r| <= |prev| + 1
      && (forall k :: 0 <= k < |prev| ==> r[k] == prev[k])
      && (|r| > |prev| ==> r[|prev|] == lines[e - 1] && PlainText(lines[e - 1]))
  {
    TextLinesStep(lines, s, e - 1);
    TextLineIsPlain(lines[e - 1]);
  }

  lemma SliceGrows<T>(a: seq<T>, s: nat, e: nat, x: T)
    requires s < e <= |a| && x in a[s..e - 1]
    ensures x in a[s..e]
  {
    assert a[s..e] == a[s..e - 1] + [a[e - 1]];
  }

  // ------------------------------------------------------------ loop control

  /** The inner loop stops at line i: a week marker, a summary label, or a line followed by a time or distance. */
  predicate EndsDetails(lines: seq<string>, i: nat)
    requires i < |lines|
  {
    || IsWeekMarker(lines[i])
    || IsSummaryLabel(lines[i])
    || (i + 1 < |lines| && (IsTime(lines[i + 1]) || IsDistance(lines[i + 1])))
  }

  /** Where the detail block that starts at line i ends. */
  function DetailEnd(lines: seq<string>, i: nat): (e: nat)
    requires i <= |lines|
    ensures i <= e <= |lines|
    decreases |lines| - i
  {
    if i == |lines| || EndsDetails(lines, i) then i else DetailEnd(lines, i + 1)
  }

  /** The block runs up to the first line where the inner loop stops, or to the end. */
  lemma {:induction false} DetailEndIsFirstStop(lines: seq<string>, i: nat)
    requires i <= |lines|
    ensures forall j :: i <= j < DetailEnd(lines, i) ==> !EndsDetails(lines, j)
    ensures DetailEnd(lines, i) < |lines| ==> EndsDetails(lines, DetailEnd(lines, i))
    decreases |lines| - i
  {
    if i < |lines| && !EndsDetails(lines, i) {
      DetailEndIsFirstStop(lines, i + 1);
    }
  }

  /** The outer loop takes line i as a workout title. */
  predicate IsTitleAt(lines: seq<string>, i: nat)
    requires i < |lines|
  {
    && !IsWeekMarker(lines[i])
    && !IsSummaryLabel(lines[i])
    && !Contains(lines[i], "/")
    && i + 1 < |lines|
    && (IsTime(lines[i + 1]) || IsDistance(lines[i + 1]) || Contains(lines[i], "Target race day"))
  }

  /**
   * The title lines the outer loop meets from line i on: every other line is
   * stepped over one at a time, and a title's detail block is skipped whole.
   */
  function TitleStarts(lines: seq<string>, i: nat): (ts: seq<nat>)
    requires i <= |lines|
    ensures forall k :: 0 <= k < |ts| ==> i <= ts[k] < |lines|
    ensures |ts| <= |lines| - i
    decreases |lines| - i
  {
    if i == |lines| then []
    else if IsTitleAt(lines, i) then [i] + TitleStarts(lines, DetailEnd(lines, i + 1))
    else TitleStarts(lines, i + 1)
  }

  /** Every position in ts is a title line of lines. */
  ghost predicate AllTitles(lines: seq<string>, ts: seq<nat>) {
    forall k :: 0 <= k < |ts| ==> ts[k] < |lines| && IsTitleAt(lines, ts[k])
  }

  ghost predicate Increasing(ts: seq<nat>) {
    forall k, l :: 0 <= k < l < |ts| ==> ts[k] < ts[l]
  }

  /** The title lines found are titles, in increasing order. */
  lemma {:induction false} TitleStartsAreTitles(lines: seq<string>, i: nat)
    requires i <= |lines|
    ensures AllTitles(lines, TitleStarts(lines, i)) && Increasing(TitleStarts(lines, i))
    decreases |lines| - i
  {
    if i < |lines| {
      if IsTitleAt(lines, i) {
        var e := DetailEnd(lines, i + 1);
        TitleStartsAreTitles(lines, e);
        TitlesCons(lines, i, TitleStarts(lines, e));
      } else {
        TitleStartsAreTitles(lines, i + 1);
      }
    }
  }

  /** A title line put in front of later title lines keeps them titles in increasing order. */
  lemma TitlesCons(lines: seq<string>, i: nat, rest: seq<nat>)
    requires i < |lines| && IsTitleAt(lines, i)
    requires forall k :: 0 <= k < |rest| ==> i < rest[k]
    requires AllTitles(lines, rest) && Increasing(rest)
    ensures AllTitles(lines, [i] + rest) && Increasing([i] + rest)
  {
    var ts := [i] + rest;
    assert forall k :: 1 <= k < |ts| ==> ts[k] == rest[k - 1];
  }

  /** Line t lies in the detail block of the title at line s. */
  predicate InBlockOf(lines: seq<string>, s: nat, t: nat)
    requires s < |lines|
  {
    s < t < DetailEnd(lines, s + 1)
  }

  /** Line t lies inside the detail block of one of the title lines ts. */
  ghost predicate InsideBlock(lines: seq<string>, ts: seq<nat>, t: nat)
    requires forall k :: 0 <= k < |ts| ==> ts[k] < |lines|
  {
    exists k :: 0 <= k < |ts| && InBlockOf(lines, ts[k], t)
  }

  /**
   * The scan from line i takes line t as a title exactly when t is a title
   * line that does not lie inside the detail block of a title taken before it.
   */
  lemma {:induction false} TitleStartsExactly(lines: seq<string>, i: nat, t: nat)
    requires i <= t < |lines|
    ensures t in TitleStarts(lines, i) <==> IsTitleAt(lines, t) && !InsideBlock(lines, TitleStarts(lines, i), t)
    decreases |lines| - i
  {
    var ts := TitleStarts(lines, i);
    if IsTitleAt(lines, i) {
      var e := DetailEnd(lines, i + 1);
      var rest := TitleStarts(lines, e);
      assert ts == [i] + rest;
      if t < e {
        NoStartBelow(lines, e, t);
        if t > i {
          assert InBlockOf(lines, ts[0], t);
        } else {
          NotInsideFromStart(lines, ts, t);
        }
      } else {
        TitleStartsExactly(lines, e, t);
        InsideBlockCons(lines, i, rest, t);
      }
    } else if t == i {
      NoStartBelow(lines, i + 1, t);
    } else {
      TitleStartsExactly(lines, i + 1, t);
    }
  }

  /** The scan from line e takes no line before e. */
  lemma NoStartBelow(lines: seq<string>, e: nat, t: nat)
    requires e <= |lines| && t < e
    ensures t !in TitleStarts(lines, e)
  {
  }

  /** No title at or after line t has t inside its block. */
  lemma NotInsideFromStart(lines: seq<string>, ts: seq<nat>, t: nat)
    requires forall k :: 0 <= k < |ts| ==> t <= ts[k] < |lines|
    ensures !InsideBlock(lines, ts, t)
  {
  }

  /** A title whose block ends at or before line t adds no block holding t. */
  lemma InsideBlockCons(lines: seq<string>, i: nat, rest: seq<nat>, t: nat)
    requires i < |lines| && DetailEnd(lines, i + 1) <= t
    requires forall k :: 0 <= k < |rest| ==> rest[k] < |lines|
    ensures InsideBlock(lines, [i] + rest, t) <==> InsideBlock(lines, rest, t)
  {
    if InsideBlock(lines, [i] + rest, t) {
      InsideBlockDropHead(lines, i, rest, t);
    }
    if InsideBlock(lines, rest, t) {
      InsideBlockAddHead(lines, i, rest, t);
    }
  }

  lemma InsideBlockDropHead(lines: seq<string>, i: nat, rest: seq<nat>, t: nat)
    requires i < |lines| && !InBlockOf(lines, i, t)
    requires forall k :: 0 <= k < |rest| ==> rest[k] < |lines|
    requires InsideBlock(lines, [i] + rest, t)
    ensures InsideBlock(lines, rest, t)
  {
    var ts := [i] + rest;
    var k :| 0 <= k < |ts| && InBlockOf(lines, ts[k], t);
    assert k > 0 && ts[k] == rest[k - 1];
  }

  lemma InsideBlockAddHead(lines: seq<string>, i: nat, rest: seq<nat>, t: nat)
    requires i < |lines|
    requires forall k :: 0 <= k < |rest| ==> rest[k] < |lines|
    requires InsideBlock(lines, rest, t)
    ensures InsideBlock(lines, [i] + rest, t)
  {
    var ts := [i] + rest;
    var k :| 0 <= k < |rest| && InBlockOf(lines, rest[k], t);
    assert ts[k + 1] == rest[k];
  }

  /** The week in force at line t: the number of the most recent week marker that has one, 0 before any. */
  function WeekAt(lines: seq<string>, t: nat): int
    requires t <= |lines|
    decreases t
  {
    if t == 0 then 0
    else if IsWeekMarker(lines[t - 1]) && FirstNumber(lines[t - 1]).Some? then FirstNumber(lines[t - 1]).value
    else WeekAt(lines, t - 1)
  }

  /** Lines that are not week markers leave the current week alone. */
  lemma {:induction false} WeekAtStable(lines: seq<string>, a: nat, b: nat)
    requires a <= b <= |lines|
    requires forall j :: a <= j < b ==> !IsWeekMarker(lines[j])
    ensures WeekAt(lines, b) == WeekAt(lines, a)
    decreases b
  {
    if a < b {
      WeekAtStable(lines, a, b - 1);
    }
  }

  // ------------------------------------------------------------ records

  /** The record whose title is line t, in the given week. */
  function RecordWith(lines: seq<string>, t: nat, week: int): Workout
    requires t < |lines|
  {
    var e := DetailEnd(lines, t + 1);
    Workout(
      week,
      None,
      lines[t],
      Join(" ", TextLines(lines, t + 1, e)),
      LastOfKind(lines, t + 1, e, DurationLine),
      LastOfKind(lines, t + 1, e, DistanceLine),
      LastOfKind(lines, t + 1, e, LoadLine))
  }

  /** The record whose title is line t, in the week in force there. */
  function RecordAt(lines: seq<string>, t: nat): Workout
    requires t < |lines|
  {
    RecordWith(lines, t, WeekAt(lines, t))
  }

  /** The records titled by the lines at the given positions, in that order. */
  function RecordsOf(lines: seq<string>, ts: seq<nat>): (ws: seq<Workout>)
    requires forall k :: 0 <= k < |ts| ==> ts[k] < |lines|
    ensures |ws| == |ts|
    decreases |ts|
  {
    if ts == [] then [] else [RecordAt(lines, ts[0])] + RecordsOf(lines, ts[1..])
  }

  lemma {:induction false} RecordsOfAt(lines: seq<string>, ts: seq<nat>, k: nat)
    requires forall j :: 0 <= j < |ts| ==> ts[j] < |lines|
    requires k < |ts|
    ensures RecordsOf(lines, ts)[k] == RecordAt(lines, ts[k])
    decreases k
  {
    if k > 0 {
      RecordsOfAt(lines, ts[1..], k - 1);
    }
  }

  lemma RecordsOfPair(lines: seq<string>, a: nat, b: nat)
    requires a < |lines| && b < |lines|
    ensures RecordsOf(lines, [a, b]) == [RecordAt(lines, a), RecordAt(lines, b)]
  {
    assert [a, b][1..] == [b] && [b][1..] == [];
  }

  /** What parse_training_data returns for the given lines: one record per title line the scan takes (TitleStartsExactly), in order. */
  function ParseLines(lines: seq<string>): (ws: seq<Workout>)
    ensures |ws| == |TitleStarts(lines, 0)|
  {
    RecordsOf(lines, TitleStarts(lines, 0))
  }

  // ------------------------------------------------------------ the scanner

  /** A line that is not a title is stepped over. */
  lemma SkipLine(lines: seq<string>, i: nat)
    requires i < |lines| && !IsTitleAt(lines, i)
    ensures TitleStarts(lines, i) == TitleStarts(lines, i + 1)
  {
  }

  /** A week marker is stepped over and sets the week when it holds a number. */
  lemma SkipMarker(lines: seq<string>, i: nat)
    requires i < |lines| && IsWeekMarker(lines[i])
    ensures TitleStarts(lines, i) == TitleStarts(lines, i + 1)
    ensures WeekAt(lines, i + 1) == if FirstNumber(lines[i]).Some? then FirstNumber(lines[i]).value else WeekAt(lines, i)
  {
    SkipLine(lines, i);
  }

  /** A summary label or a line holding '/' is stepped over. */
  lemma SkipSummary(lines: seq<string>, i: nat)
    requires i < |lines| && !IsWeekMarker(lines[i])
    requires IsSummaryLabel(lines[i]) || Contains(lines[i], "/")
    ensures TitleStarts(lines, i) == TitleStarts(lines, i + 1)
    ensures WeekAt(lines, i + 1) == WeekAt(lines, i)
  {
    SkipLine(lines, i);
  }

  /** Any other line that is not followed by a time or distance (and is not a race day) is stepped over. */
  lemma SkipOther(lines: seq<string>, i: nat)
    requires i < |lines| && !IsWeekMarker(lines[i])
    requires !(i + 1 < |lines| && (IsTime(lines[i + 1]) || IsDistance(lines[i + 1]) || Contains(lines[i], "Target race day")))
    ensures TitleStarts(lines, i) == TitleStarts(lines, i + 1)
    ensures WeekAt(lines, i + 1) == WeekAt(lines, i)
  {
    SkipLine(lines, i);
  }

  /** A title line yields its record, and the scan resumes after its detail block in the same week. */
  lemma TakeTitle(lines: seq<string>, i: nat)
    requires i < |lines| && IsTitleAt(lines, i)
    ensures var e := DetailEnd(lines, i + 1);
      && TitleStarts(lines, i) == [i] + TitleStarts(lines, e)
      && WeekAt(lines, e) == WeekAt(lines, i)
  {
    var e := DetailEnd(lines, i + 1);
    DetailEndIsFirstStop(lines, i + 1);
    forall j | i <= j < e
      ensures !IsWeekMarker(lines[j])
    {
      if j > i {
        assert !EndsDetails(lines, j);
      }
    }
    WeekAtStable(lines, i, e);
  }

  /** The week after line `line`: its number when it is a week marker holding one, else unchanged. */
  function NextWeek(line: string, week: int): int {
    if FirstNumber(line).Some? then FirstNumber(line).value else week
  }

  /**
   * The records the outer loop produces from line i on, in the given week:
   * the loop written as a recursive function, one branch per branch of the
   * loop, in the same order.
   */
  function ParseFrom(lines: seq<string>, i: nat, week: int): seq<Workout>
    decreases |lines| - i
  {
    if i >= |lines| then []
    else if IsWeekMarker(lines[i]) then ParseFrom(lines, i + 1, NextWeek(lines[i], week))
    else if IsSummaryLabel(lines[i]) || Contains(lines[i], "/") then ParseFrom(lines, i + 1, week)
    else if i + 1 < |lines| && (IsTime(lines[i + 1]) || IsDistance(lines[i + 1]) || Contains(lines[i], "Target race day")) then
      [RecordWith(lines, i, week)] + ParseFrom(lines, DetailEnd(lines, i + 1), week)
    else ParseFrom(lines, i + 1, week)
  }

  /** Scanning from line i in the week in force there yields the records at the title lines from i on. */
  lemma {:induction false} ParseFromTitleStarts(lines: seq<string>, i: nat)
    requires i <= |lines|
    ensures ParseFrom(lines, i, WeekAt(lines, i)) == RecordsOf(lines, TitleStarts(lines, i))
    decreases |lines| - i
  {
    if i < |lines| {
      var line := lines[i];
      if IsWeekMarker(line) {
        SkipMarker(lines, i);
        ParseFromTitleStarts(lines, i + 1);
      } else if IsSummaryLabel(line) || Contains(line, "/") {
        SkipSummary(lines, i);
        ParseFromTitleStarts(lines, i + 1);
      } else if i + 1 < |lines| && (IsTime(lines[i + 1]) || IsDistance(lines[i + 1]) || Contains(line, "Target race day")) {
        var e := DetailEnd(lines, i + 1);
        TakeTitle(lines, i);
        ParseFromTitleStarts(lines, e);
        var ts := TitleStarts(lines, i);
        assert ts[0] == i && ts[1..] == TitleStarts(lines, e);
      } else {
        SkipOther(lines, i);
        ParseFromTitleStarts(lines, i + 1);
      }
    }
  }

  function AsList(record: Option<Workout>): seq<Workout> {
    if record.Some? then [record.value] else []
  }

  lemma AppendAssoc(a: seq<Workout>, b: seq<Workout>, c: seq<Workout>)
    ensures a + (b + c) == (a + b) + c
  {
  }

  /** The title branch of the outer loop: the record titled by line i and where its detail block ends. */
  method ReadWorkout(lines: seq<string>, i: nat, currentWeek: int) returns (workout: Workout, end: nat)
    requires i < |lines|
    ensures workout == RecordWith(lines, i, currentWeek)
    ensures end == DetailEnd(lines, i + 1)
  {
    var title := lines[i];
    var duration, distance, tl, descriptionLines;
    end, duration, distance, tl, descriptionLines := ReadDetails(lines, i + 1);
    var description := if descriptionLines != [] then Join(" ", descriptionLines) else "";
    workout := Workout(currentWeek, None, title, description, duration, distance, tl);
  }

  /**
   * One turn of the outer while loop at line i: a week marker updates the
   * current week, a summary label or a line holding '/' is stepped over, a
   * title yields its record and the scan resumes after its details, and any
   * other line is stepped over.
   */
  method ScanLine(lines: seq<string>, i: nat, currentWeek: int)
      returns (record: Option<Workout>, next: nat, week: int)
    requires i < |lines|
    ensures i < next <= |lines|
    ensures ParseFrom(lines, i, currentWeek) == AsList(record) + ParseFrom(lines, next, week)
  {
    var line := lines[i];
    record, week := None, currentWeek;
    assert AsList(record) == [];
    if IsWeekMarker(line) {
      var number := FirstNumber(line);
      if number.Some? {
        week := number.value;
      }
      assert ParseFrom(lines, i, currentWeek) == ParseFrom(lines, i + 1, week);
      return record, i + 1, week;
    }
    if IsSummaryLabel(line) || Contains(line, "/") {
      assert ParseFrom(lines, i, currentWeek) == ParseFrom(lines, i + 1, week);
      return record, i + 1, week;
    }
    if i + 1 < |lines| {
      var nextLine := lines[i + 1];
      if IsTime(nextLine) || IsDistance(nextLine) || Contains(line, "Target race day") {
        var workout, end := ReadWorkout(lines, i, currentWeek);
        assert ParseFrom(lines, i, currentWeek) == [workout] + ParseFrom(lines, end, week);
        return Some(workout), end, week;
      }
    }
    assert ParseFrom(lines, i, currentWeek) == ParseFrom(lines, i + 1, week);
    return record, i + 1, week;
  }

  /** The outer while loop of parse_training_data over the prepared lines. */
  method ScanLines(lines: seq<string>) returns (workouts: seq<Workout>)
    ensures workouts == ParseFrom(lines, 0, 0)
  {
    workouts := [];
    var currentWeek := 0;
    var i := 0;
    while i < |lines|
      invariant 0 <= i <= |lines|
      invariant workouts + ParseFrom(lines, i, currentWeek) == ParseFrom(lines, 0, 0)
      decreases |lines| - i
    {
      var record, next, week := ScanLine(lines, i, currentWeek);
      AppendAssoc(workouts, AsList(record), ParseFrom(lines, next, week));
      workouts := workouts + AsList(record);
      i, currentWeek := next, week;
    }
    assert workouts + [] == workouts;
  }

  /** parse_training_data: the prepared lines of the text, scanned. */
  method ParseTrainingData(text: string) returns (workouts: seq<Workout>)
    ensures workouts == ParseLines(Lines(text))
    ensures |workouts| <= |Lines(text)|
  {
    var lines := Lines(text);
    workouts := ScanLines(lines);
    ParseFromTitleStarts(lines, 0);
  }

  /** One more line of a block replaces the last line of its kind. */
  lemma LastOfKindStep(lines: seq<string>, start: nat, i: nat, kind: DetailKind)
    requires start <= i < |lines|
    ensures LastOfKind(lines, start, i + 1, kind)
         == if Classify(lines[i]) == kind then Some(lines[i]) else LastOfKind(lines, start, i, kind)
  {
  }

  /** One more line of a block adds to the description when it is a plain text line. */
  lemma TextLinesStep(lines: seq<string>, start: nat, i: nat)
    requires start <= i < |lines|
    ensures TextLines(lines, start, i + 1)
      == if Classify(lines[i]) == TextLine then TextLines(lines, start, i) + [lines[i]] else TextLines(lines, start, i)
  {
    var t := TextLines(lines, start, i);
    if Classify(lines[i]) != TextLine {
      assert t + [] == t;
    }
  }

  /**
   * The inner while loop: reads the detail block of a workout from line
   * `start` up to the next week marker, summary label or line followed by a
   * time or distance. The last time line is the duration, the last distance
   * line the distance, the last training-load line the load; the remaining
   * lines other than the placeholders make up the description.
   */
  method ReadDetails(lines: seq<string>, start: nat)
      returns (end: nat, duration: Option<string>, distance: Option<string>, tl: Option<string>,
               descriptionLines: seq<string>)
    requires start <= |lines|
    ensures end == DetailEnd(lines, start)
    ensures duration == LastOfKind(lines, start, end, DurationLine)
    ensures distance == LastOfKind(lines, start, end, DistanceLine)
    ensures tl == LastOfKind(lines, start, end, LoadLine)
    ensures descriptionLines == TextLines(lines, start, end)
  {
    duration, distance, tl, descriptionLines := None, None, None, [];
    var i := start;
    while i < |lines|
      invariant start <= i <= |lines|
      invariant DetailEnd(lines, i) == DetailEnd(lines, start)
      invariant duration == LastOfKind(lines, start, i, DurationLine)
      invariant distance == LastOfKind(lines, start, i, DistanceLine)
      invariant tl == LastOfKind(lines, start, i, LoadLine)
      invariant descriptionLines == TextLines(lines, start, i)
      decreases |lines| - i
    {
      var detailLine := lines[i];
      if IsWeekMarker(detailLine) || IsSummaryLabel(detailLine) {
        break;
      }
      if i + 1 < |lines| {
        var nextDetail := lines[i + 1];
        if IsTime(nextDetail) || IsDistance(nextDetail) {
          break;
        }
      }
      LastOfKindStep(lines, start, i, DurationLine);
      LastOfKindStep(lines, start, i, DistanceLine);
      LastOfKindStep(lines, start, i, LoadLine);
      TextLinesStep(lines, start, i);
      if IsTime(detailLine) {
        duration := Some(detailLine);
      } else if IsDistance(detailLine) {
        distance := Some(detailLine);
      } else if Contains(detailLine, "TL") && StartsWithDigit(detailLine) {
        tl := Some(detailLine);
      } else if detailLine != "" && detailLine !in Placeholders {
        descriptionLines := descriptionLines + [detailLine];
      }
      i := i + 1;
    }
    end := i;
  }

  // ------------------------------------------------------------ properties

  /**
   * Every record is titled by a title line of the input, carries the week of
   * the most recent numbered week marker before it (0 before any) and no
   * weekday.
   */
  lemma RecordsAreTitled(lines: seq<string>)
    ensures var ws := ParseLines(lines);
      var ts := TitleStarts(lines, 0);
      forall k :: 0 <= k < |ws| ==>
        && ts[k] < |lines| && IsTitleAt(lines, ts[k])
        && ws[k].title == lines[ts[k]]
        && ws[k].week == WeekAt(lines, ts[k])
        && ws[k].dayOfWeek.None?
  {
    var ts := TitleStarts(lines, 0);
    TitleStartsAreTitles(lines, 0);
    forall k | 0 <= k < |ts|
      ensures ParseLines(lines)[k] == RecordAt(lines, ts[k])
    {
      RecordsOfAt(lines, ts, k);
    }
  }

  /** The records come in the order of their title lines. */
  lemma RecordsInLineOrder(lines: seq<string>)
    ensures var ts := TitleStarts(lines, 0);
      forall k, l :: 0 <= k < l < |ts| ==> ts[k] < ts[l]
  {
    TitleStartsAreTitles(lines, 0);
  }

  /**
   * A record's duration is the last time line of its detail block, and absent
   * exactly when the block has none; the distance and training load follow
   * the same rule for their kinds (LastOfKindIsLast).
   */
  lemma RecordDuration(lines: seq<string>, t: nat)
    requires t < |lines|
    ensures var w := RecordAt(lines, t);
      var e := DetailEnd(lines, t + 1);
      && (w.duration.None? <==> forall j :: t < j < e ==> !IsTime(lines[j]))
      && (w.duration.Some? ==> exists j :: t < j < e && lines[j] == w.duration.value && IsTime(lines[j])
                                  && forall j' :: j < j' < e ==> !IsTime(lines[j']))
  {
    var e := DetailEnd(lines, t + 1);
    LastOfKindIsLast(lines, t + 1, e, DurationLine);
    assert forall j :: t < j < e ==> (Classify(lines[j]) == DurationLine <==> IsTime(lines[j]));
  }

  /**
   * A record's description is its detail block's description lines joined
   * by single spaces (TextLinesKeepPlain and TextLinesSource say which lines
   * those are), and it is empty exactly when no line of the block is
   * description text.
   */
  lemma RecordDescription(lines: seq<string>, t: nat)
    requires t < |lines|
    ensures var e := DetailEnd(lines, t + 1);
      RecordAt(lines, t).description == Join(" ", TextLines(lines, t + 1, e))
    ensures var e := DetailEnd(lines, t + 1);
      RecordAt(lines, t).description == "" <==> forall j :: t < j < e ==> Classify(lines[j]) != TextLine
  {
    var e := DetailEnd(lines, t + 1);
    var d := TextLines(lines, t + 1, e);
    TextLinesArePlain(lines, t + 1, e);
    JoinEmpty(" ", d);
    TextLinesEmpty(lines, t + 1, e);
  }

  /** A block has no description lines exactly when none of its lines is description text. */
  lemma TextLinesEmpty(lines: seq<string>, s: nat, e: nat)
    requires s <= e <= |lines|
    ensures |TextLines(lines, s, e)| == 0 <==> NoneOfKind(lines, s, e, TextLine)
  {
    if |TextLines(lines, s, e)| > 0 {
      var j := TextLinesSource(lines, s, e, 0);
      TextLineIsPlain(lines[j]);
    } else {
      forall j | s <= j < e
        ensures Classify(lines[j]) != TextLine
      {
        TextLineIsPlain(lines[j]);
        if Classify(lines[j]) == TextLine {
          TextLineKept(lines, s, e, j);
        }
      }
    }
  }

  /** A line the outer loop neither treats as a week marker nor skips as a summary. */
  predicate Ordinary(line: string) {
    !IsWeekMarker(line) && !IsSummaryLabel(line) && !Contains(line, "/")
  }

  /** A line without '/' and without the first letters of the markers and labels is ordinary. */
  lemma OrdinaryLine(line: string)
    requires '/' !in line && 'W' !in line && 'A' !in line && 'D' !in line && 'T' !in line
    ensures Ordinary(line)
  {
    NotContainsFirst(line, "/");
    NotContainsFirst(line, "Week(s)");
    if line != [] {
      assert line[0] in line;
    }
  }

  /**
   * A title followed by a time line and then a distance line gives two
   * records: the detail loop stops at the time line because the distance
   * line follows it, and the time line becomes the next title, with the
   * distance line as its distance.
   */
  lemma TimeThenDistance(marker: string, title: string, time: string, distance: string)
    requires IsWeekMarker(marker) && FirstNumber(marker).Some?
    requires Ordinary(title) && Ordinary(time) && Ordinary(distance)
    requires IsTime(time) && IsDistance(distance)
    ensures var week := FirstNumber(marker).value;
      ParseLines([marker, title, time, distance])
      == [Workout(week, None, title, "", None, None, None),
          Workout(week, None, time, "", None, Some(distance), None)]
  {
    var lines := [marker, title, time, distance];
    var week := FirstNumber(marker).value;
    TimeThenDistanceTitles(lines);
    RecordsOfPair(lines, 1, 2);
    assert WeekAt(lines, 2) == WeekAt(lines, 1) == week;
    assert RecordAt(lines, 1) == Workout(week, None, title, "", None, None, None);
    TimeIsNotDistance(lines[2]);
    DistanceIsNotTime(lines[3]);
    assert TextLines(lines, 3, 4) == [];
    assert RecordAt(lines, 2) == Workout(week, None, time, "", None, Some(distance), None);
  }

  lemma TimeThenDistanceTitles(lines: seq<string>)
    requires |lines| == 4 && IsWeekMarker(lines[0])
    requires Ordinary(lines[1]) && Ordinary(lines[2]) && Ordinary(lines[3])
    requires IsTime(lines[2]) && IsDistance(lines[3])
    ensures DetailEnd(lines, 2) == 2 && DetailEnd(lines, 3) == 4
    ensures TitleStarts(lines, 0) == [1, 2]
  {
    assert DetailEnd(lines, 3) == 4 by {
      assert !EndsDetails(lines, 3);
      assert DetailEnd(lines, 4) == 4;
    }
    assert TitleStarts(lines, 3) == TitleStarts(lines, 4) == [];
    assert TitleStarts(lines, 2) == [2] + TitleStarts(lines, 4);
    assert TitleStarts(lines, 1) == [1] + TitleStarts(lines, 2);
  }

  /** A distance line is never a time line. */
  lemma DistanceIsNotTime(s: string)
    requires IsDistance(s)
    ensures !IsTime(s)
  {
    if IsTime(s) {
      TimeIsNotDistance(s);
    }
  }

  /** The concrete case: "Easy Run", "00:30:00", "3.00 km" in week 1 are two records. */
  lemma EasyRunExample()
    ensures ParseLines(["Week 1", "Easy Run", "00:30:00", "3.00 km"])
         == [Workout(1, None, "Easy Run", "", None, None, None),
             Workout(1, None, "00:30:00", "", None, Some("3.00 km"), None)]
  {
    EasyRunLines();
    TimeThenDistance("Week 1", "Easy Run", "00:30:00", "3.00 km");
  }

  /** The four lines of the example meet the requirements of TimeThenDistance. */
  lemma EasyRunLines()
    ensures IsWeekMarker("Week 1") && FirstNumber("Week 1") == Some(1)
    ensures Ordinary("Easy Run") && Ordinary("00:30:00") && Ordinary("3.00 km")
    ensures IsTime("00:30:00") && IsDistance("3.00 km")
  {
    OrdinaryLine("Easy Run");
    WeekOneMarker();
    HalfHour();
    ThreeKilometres();
  }

  lemma HalfHour()
    ensures Ordinary("00:30:00") && IsTime("00:30:00")
  {
    var t := "00:30:00";
    OrdinaryLine(t);
    assert IsTime(t) by {
      assert IsDigit(t[0]) && IsDigit(t[1]) && IsDigit(t[3]) && IsDigit(t[4]) && IsDigit(t[6]) && IsDigit(t[7]);
    }
  }

  lemma WeekOneMarker()
    ensures IsWeekMarker("Week 1") && FirstNumber("Week 1") == Some(1)
  {
    var m := "Week 1";
    assert StartsWith(m, "Week ") by { assert m[..5] == "Week "; }
    assert m[5..] == "1";
    LeadingDigitsExact(m[5..], 1);
  }

  lemma ThreeKilometres()
    ensures Ordinary("3.00 km") && IsDistance("3.00 km")
  {
    OrdinaryLine("3.00 km");
    ThreeKilometresIsDistance();
  }

  lemma ThreeKilometresIsDistance()
    ensures IsDistance("3.00 km")
  {
    var d := "3.00 km";
    assert DistanceCut(d, 1, 4) by {
      assert d[..1] == "3" && d[2..4] == "00" && d[4..7] == " km";
    }
    CutIsDistance(d, 1, 4);
  }
}
