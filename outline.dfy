/** The outline ("plan") text: recognising section-header lines, parsing one section
    line into an entry, grouping a growing buffer into sections, and the one-line-per-
    section text the planner writes back out (core_stream.py:43-81 and :259,
    core_nonstream.py:44-46).

    Each regular expression the source uses is replaced by a scanner over the string.
    All of them are built from the disjoint classes "whitespace", "digit" and a few
    fixed CJK characters, so the backtracking matcher has at most one way to succeed
    and the scanner follows it. */
module Outline {
  import opened Text

  /** One outline entry, the dictionary {'段落': …, '要点描述': …, '字数要求': …}.
      The section number is kept as the digit string the regex captured. */
  datatype Entry = Entry(section: String, description: String, wordTarget: String)

  /** The placeholder description and word target of a section still being generated. */
  const Generating: String := "生成中..."
  const Computing: String := "计算中..."

  /** What every entry `ParseLine` produces satisfies: a non-empty digit string as section
      number and no line break in any field. */
  predicate WellFormed(e: Entry) {
    |e.section| > 0 && AllDigits(e.section) && '\n' !in e.section
    && '\n' !in e.description && '\n' !in e.wordTarget
  }

  function SkipDigits(s: String, i: nat): (r: nat)
    requires i <= |s|
    ensures i <= r <= |s|
    ensures forall k :: i <= k < r ==> IsDigit(s[k])
    ensures r < |s| ==> !IsDigit(s[r])
    decreases |s| - i
  {
    if i == |s| || !IsDigit(s[i]) then i else SkipDigits(s, i + 1)
  }

  // ---------------------------------------------------------------- section headers

  /** `re.match(r"^第\s?\d+\s?段", line)`, the test `split_plan` and `parse_text`
      apply to each line. */
  predicate IsHeader(s: String) {
    |s| > 0 && s[0] == '第' &&
    var a := if 1 < |s| && IsSpace(s[1]) then 2 else 1;
    var b := SkipDigits(s, a);
    a < b &&
    var c := if b < |s| && IsSpace(s[b]) then b + 1 else b;
    c < |s| && s[c] == '段'
  }

  /** The way the regex reads a header: 第, at most one whitespace character, the
      digits `s[a..b]`, at most one whitespace character, and 段 at `c`. */
  predicate HeaderSplit(s: String, a: nat, b: nat, c: nat) {
    c < |s| && 1 <= a <= 2 && a < b <= c <= b + 1 && s[0] == '第'
    && (a == 2 ==> IsSpace(s[1]))
    && (forall k :: a <= k < b ==> IsDigit(s[k]))
    && (c == b + 1 ==> IsSpace(s[b]))
    && s[c] == '段'
  }

  /** The header scanner accepts exactly the strings the regex matches at their start. */
  lemma HeaderLanguage(s: String)
    ensures IsHeader(s) <==> exists a: nat, b: nat, c: nat :: HeaderSplit(s, a, b, c)
  {
    if IsHeader(s) {
      var a := if 1 < |s| && IsSpace(s[1]) then 2 else 1;
      var b := SkipDigits(s, a);
      var c := if b < |s| && IsSpace(s[b]) then b + 1 else b;
      assert HeaderSplit(s, a, b, c);
    }
    if exists a: nat, b: nat, c: nat :: HeaderSplit(s, a, b, c) {
      var a: nat, b: nat, c: nat :| HeaderSplit(s, a, b, c);
      assert !IsSpace(s[a]);
      var a' := if 1 < |s| && IsSpace(s[1]) then 2 else 1;
      assert a' == a;
      assert !IsDigit(s[b]);
      assert SkipDigits(s, a) == b;
    }
  }

  /** How many of `lines` are headers. */
  function CountHeaders(lines: seq<String>): nat {
    if lines == [] then 0 else (if IsHeader(lines[0]) then 1 else 0) + CountHeaders(lines[1..])
  }

  lemma {:induction false} CountHeadersAppend(a: seq<String>, b: seq<String>)
    ensures CountHeaders(a + b) == CountHeaders(a) + CountHeaders(b)
    decreases |a|
  {
    if a != [] {
      assert (a + b)[0] == a[0] && (a + b)[1..] == a[1..] + b;
      CountHeadersAppend(a[1..], b);
    } else {
      assert a + b == b;
    }
  }

  /** `xs` is `ys` with some elements left out. */
  predicate IsSubsequence(xs: seq<String>, ys: seq<String>)
    decreases |ys|
  {
    if xs == [] then true
    else if ys == [] then false
    else (xs[0] == ys[0] && IsSubsequence(xs[1..], ys[1..])) || IsSubsequence(xs, ys[1..])
  }

  /** The comprehension in `split_plan`: the non-empty header lines, in their order.
      Its result is a subsequence of `lines` made of headers only and as long as the
      number of headers in `lines`, which leaves exactly one possible result. */
  function HeaderLines(lines: seq<String>): (r: seq<String>)
    ensures IsSubsequence(r, lines)
    ensures forall i :: 0 <= i < |r| ==> IsHeader(r[i])
    ensures |r| == CountHeaders(lines)
    ensures forall i :: 0 <= i < |r| ==> r[i] in lines
  {
    if lines == [] then []
    else if |lines[0]| > 0 && IsHeader(lines[0]) then
      var rest := HeaderLines(lines[1..]);
      assert ([lines[0]] + rest)[1..] == rest;
      [lines[0]] + rest
    else HeaderLines(lines[1..])
  }

  /** `split_plan(text)` (core_stream.py:43-45, core_nonstream.py:44-46). */
  function SplitPlan(text: String): (r: seq<String>)
    ensures IsSubsequence(r, Split(text, '\n')) && |r| == CountHeaders(Split(text, '\n'))
    ensures forall i :: 0 <= i < |r| ==> IsHeader(r[i]) && '\n' !in r[i]
  {
    HeaderLines(Split(text, '\n'))
  }

  // ---------------------------------------------------------------- writing the plan out

  /** The plan line built for one entry at core_stream.py:259. */
  function PlanLine(e: Entry): String {
    "第 " + e.section + " 段 - 要点：" + e.description + " - 字数：" + e.wordTarget
  }

  function PlanLines(entries: seq<Entry>): (r: seq<String>)
    ensures |r| == |entries|
    ensures forall i :: 0 <= i < |r| ==> r[i] == PlanLine(entries[i])
  {
    if entries == [] then [] else [PlanLine(entries[0])] + PlanLines(entries[1..])
  }

  /** `'\n'.join(...)` of the plan lines: the text stored as `plan_text` and in plan.txt. */
  function PlanText(entries: seq<Entry>): String {
    Join(PlanLines(entries), "\n")
  }

  /** A well-formed entry's plan line is a single header line. */
  lemma PlanLineIsHeader(e: Entry)
    requires WellFormed(e)
    ensures IsHeader(PlanLine(e)) && '\n' !in PlanLine(e)
  {
    var s := PlanLine(e);
    var n := |e.section|;
    assert s == "第 " + e.section + (" 段 - 要点：" + e.description + " - 字数：" + e.wordTarget);
    assert s[0] == '第' && s[1] == ' ';
    assert forall k :: 2 <= k < 2 + n ==> s[k] == e.section[k - 2];
    assert s[2 + n] == ' ' && s[3 + n] == '段';
    assert !IsDigit(s[2 + n]);
    assert SkipDigits(s, 2) == 2 + n;
    assert HeaderSplit(s, 2, 2 + n, 3 + n);
  }

  lemma {:induction false} HeaderLinesKeepsHeaders(lines: seq<String>)
    requires forall i :: 0 <= i < |lines| ==> IsHeader(lines[i])
    ensures HeaderLines(lines) == lines
    decreases |lines|
  {
    if lines != [] {
      HeaderLinesKeepsHeaders(lines[1..]);
      assert [lines[0]] + lines[1..] == lines;
    }
  }

  /** Round trip of the planner's output: `split_plan` of the written plan text gives back
      exactly one line per entry, so `N_chapters == len(processor.chapters)`. */
  lemma SplitPlanText(entries: seq<Entry>)
    requires forall i :: 0 <= i < |entries| ==> WellFormed(entries[i])
    ensures SplitPlan(PlanText(entries)) == PlanLines(entries)
    ensures |SplitPlan(PlanText(entries))| == |entries|
  {
    var lines := PlanLines(entries);
    forall i | 0 <= i < |lines|
      ensures IsHeader(lines[i]) && '\n' !in lines[i]
    {
      PlanLineIsHeader(entries[i]);
    }
    if entries == [] {
      assert PlanText(entries) == "";
      assert Split("", '\n') == [""];
    } else {
      SplitJoin(lines, '\n');
      HeaderLinesKeepsHeaders(lines);
    }
  }

  // ---------------------------------------------------------------- one section line

  /** Where `第\s*(\d+)\s*段` matched: 第 at `start`, the digits `s[digitsStart..digitsEnd]`,
      段 at `close`. */
  datatype Marker = Marker(start: nat, digitsStart: nat, digitsEnd: nat, close: nat)

  /** The section marker `第\s*(\d+)\s*段` tried at position `p`. */
  function MarkerAt(s: String, p: nat): (r: Option<Marker>)
    requires p <= |s|
    ensures r.Some? ==> r.value.start == p < r.value.digitsStart < r.value.digitsEnd <= r.value.close < |s|
    ensures r.Some? ==> s[p] == '第' && s[r.value.close] == '段'
    ensures r.Some? ==> AllDigits(s[r.value.digitsStart..r.value.digitsEnd])
  {
    if p < |s| && s[p] == '第' then
      var i := SkipSpaces(s, p + 1);
      var j := SkipDigits(s, i);
      var k := SkipSpaces(s, j);
      if i < j && k < |s| && s[k] == '段' then Some(Marker(p, i, j, k)) else None
    else None
  }

  /** Every reading of `s` at `p` that the regex accepts is the one the scanner finds. */
  lemma MarkerComplete(s: String, p: nat, i: nat, j: nat, k: nat)
    requires p < i < j <= k < |s| && s[p] == '第' && s[k] == '段'
    requires forall x :: p < x < i ==> IsSpace(s[x])
    requires forall x :: i <= x < j ==> IsDigit(s[x])
    requires forall x :: j <= x < k ==> IsSpace(s[x])
    ensures MarkerAt(s, p) == Some(Marker(p, i, j, k))
  {
    assert !IsSpace(s[i]);
    assert SkipSpaces(s, p + 1) == i;
    assert !IsDigit(s[j]);
    assert SkipDigits(s, i) == j;
    assert !IsSpace(s[k]);
    assert SkipSpaces(s, j) == k;
  }

  /** `re.search(r"第\s*(\d+)\s*段", s)`: the leftmost marker at or after `from`. */
  function FindMarker(s: String, from: nat): (r: Option<Marker>)
    requires from <= |s|
    ensures r.Some? ==> from <= r.value.start <= |s| && MarkerAt(s, r.value.start) == r
    ensures r.Some? ==> forall q :: from <= q < r.value.start ==> MarkerAt(s, q).None?
    ensures r.None? ==> forall q :: from <= q <= |s| ==> MarkerAt(s, q).None?
    decreases |s| - from
  {
    if from == |s| then None
    else if MarkerAt(s, from).Some? then MarkerAt(s, from)
    else FindMarker(s, from + 1)
  }

  /** `要点[:：]` at `q`. */
  predicate KeyPointAt(s: String, q: nat) {
    q + 3 <= |s| && s[q] == '要' && s[q + 1] == '点' && (s[q + 2] == ':' || s[q + 2] == '：')
  }

  /** Position of the first `要点:` or `要点：` at or after `from`. A match of
      `\s*-?\s*要点[:：](.*)` can only put whitespace and one dash before 要, so the
      capture group always starts right after the first such key-point label. */
  function FindKeyPoint(s: String, from: nat): (r: Option<nat>)
    requires from <= |s|
    ensures r.Some? ==> from <= r.value && KeyPointAt(s, r.value)
    ensures r.Some? ==> forall q :: from <= q < r.value ==> !KeyPointAt(s, q)
    ensures r.None? ==> forall q :: from <= q <= |s| ==> !KeyPointAt(s, q)
    decreases |s| - from
  {
    if KeyPointAt(s, from) then Some(from)
    else if from == |s| then None
    else FindKeyPoint(s, from + 1)
  }

  function SkipDigitsBack(s: String, j: nat): (r: nat)
    requires j <= |s|
    ensures r <= j
    ensures forall k :: r <= k < j ==> IsDigit(s[k])
    ensures r > 0 ==> !IsDigit(s[r - 1])
  {
    if j == 0 || !IsDigit(s[j - 1]) then j else SkipDigitsBack(s, j - 1)
  }

  /** The optional label `\s?-?\s?(字数)?[:：]?\s*` matching all of `t`. Each optional
      part is tried present and absent, as the backtracking matcher does. */
  predicate LabelAll(t: String) {
    LabelFromDash(t) || (|t| > 0 && IsSpace(t[0]) && LabelFromDash(t[1..]))
  }

  predicate LabelFromDash(t: String) {
    LabelFromSpace(t) || (|t| > 0 && t[0] == '-' && LabelFromSpace(t[1..]))
  }

  predicate LabelFromSpace(t: String) {
    LabelFromWord(t) || (|t| > 0 && IsSpace(t[0]) && LabelFromWord(t[1..]))
  }

  predicate LabelFromWord(t: String) {
    LabelFromColon(t) || (|t| >= 2 && t[0] == '字' && t[1] == '数' && LabelFromColon(t[2..]))
  }

  predicate LabelFromColon(t: String) {
    AllSpace(t) || (|t| > 0 && (t[0] == ':' || t[0] == '：') && AllSpace(t[1..]))
  }

  /** The label matches `s[q..r0]`. */
  predicate LabelFrom(s: String, q: nat, r0: nat)
    requires q <= r0 <= |s|
  {
    LabelAll(s[q..r0])
  }

  /** The leftmost start in `[p, r0]` from which the label reaches exactly `r0`. */
  function LabelStart(s: String, p: nat, r0: nat): (r: nat)
    requires p <= r0 <= |s|
    ensures p <= r <= r0 && LabelFrom(s, r, r0)
    ensures forall q :: p <= q < r ==> !LabelFrom(s, q, r0)
    decreases r0 - p
  {
    if LabelFrom(s, p, r0) then p
    else LabelStart(s, p + 1, r0)
  }

  /** Where `\s?-?\s?(字数)?[:：]?\s*(\d+)\s*字$` matched: the whole match is `s[start..]`,
      group 2 is `s[digitsStart..digitsEnd]`. */
  datatype WordCountMatch = WordCountMatch(start: nat, digitsStart: nat, digitsEnd: nat)

  /** `re.search` of the word-count pattern. The line must end in 字, with only whitespace
      between it and a run of digits; group 2 is that whole run (a digit cannot end the
      label part), and the match starts as far left as the label allows. `$` is the end
      of the string here because the line has been stripped, so it does not end in a
      line break. */
  function WordCount(line: String): (r: Option<WordCountMatch>)
    requires line == [] || line[|line| - 1] != '\n'
    ensures r.Some? ==>
      && |line| > 0 && line[|line| - 1] == '字'
      && r.value.start <= r.value.digitsStart < r.value.digitsEnd <= |line| - 1
      && AllDigits(line[r.value.digitsStart..r.value.digitsEnd])
      && (r.value.digitsStart == 0 || !IsDigit(line[r.value.digitsStart - 1]))
      && (forall k :: r.value.digitsEnd <= k < |line| - 1 ==> IsSpace(line[k]))
      && LabelFrom(line, r.value.start, r.value.digitsStart)
    ensures r.Some? ==> forall k :: 0 <= k < r.value.start ==> !LabelFrom(line, k, r.value.digitsStart)
  {
    if line == [] || line[|line| - 1] != '字' then None
    else
      var r1 := SkipSpacesBack(line, |line| - 1);
      var r0 := SkipDigitsBack(line, r1);
      if r0 == r1 then
        assert r1 > 0 ==> !IsDigit(line[r1 - 1]);
        None
      else
        assert AllDigits(line[r0..r1]) by {
          forall i | 0 <= i < r1 - r0 ensures IsDigit(line[r0..r1][i]) {
            assert line[r0..r1][i] == line[r0 + i];
          }
        }
        Some(WordCountMatch(LabelStart(line, 0, r0), r0, r1))
  }

  /** When `WordCount` finds nothing, no digit of the line is followed by only
      whitespace and a final 字: the search misses no match. */
  lemma WordCountNone(line: String)
    requires line == [] || line[|line| - 1] != '\n'
    requires WordCount(line).None?
    ensures forall j :: 0 <= j < |line| - 1 && IsDigit(line[j])
              ==> line[|line| - 1] != '字' || exists k :: j < k < |line| - 1 && !IsSpace(line[k])
  {
    if line != [] && line[|line| - 1] == '字' {
      var r1 := SkipSpacesBack(line, |line| - 1);
      forall j | 0 <= j < |line| - 1 && IsDigit(line[j])
        ensures exists k :: j < k < |line| - 1 && !IsSpace(line[k])
      {
        assert j < r1 - 1;
        assert !IsSpace(line[r1 - 1]);
      }
    }
  }

  /** The entry of a line whose key-point label starts at `q`: the description is the
      rest of that physical line, with the matched word-count text cut from its end when
      the line carries a word count; the word target is that count's digits and 字. */
  function KeyPointEntry(line: String, section: String, q: nat): (e: Entry)
    requires KeyPointAt(line, q) && line[|line| - 1] != '\n'
    requires |section| > 0 && AllDigits(section)
    ensures WellFormed(e) && e.section == section
    ensures WordCount(line).None? ==> e.description == RestOfLine(line, q + 3)
    ensures WordCount(line).Some? ==>
              var passage, matched := RestOfLine(line, q + 3), line[WordCount(line).value.start..];
              if |matched| <= |passage| && passage[|passage| - |matched|..] == matched
              then e.description + matched == passage
              else e.description == passage
    ensures WordCount(line).None? <==> e.wordTarget == Computing
  {
    var passage := RestOfLine(line, q + 3);
    match WordCount(line)
    case None => Entry(section, passage, Computing)
    case Some(w) =>
      var digits := line[w.digitsStart..w.digitsEnd];
      assert (digits + "字")[0] != Computing[0];
      var description := RemoveSuffix(passage, line[w.start..]);
      assert '\n' !in description by {
        if description != passage { assert passage == description + line[w.start..]; }
      }
      Entry(section, description, digits + "字")
  }

  /** What follows a found section marker: the placeholder entry when the line has no
      `要点`, nothing when it has `要点` but never followed by a colon, and otherwise the
      key-point entry. */
  function SectionEntry(line: String, section: String): (r: Option<Entry>)
    requires line == [] || line[|line| - 1] != '\n'
    requires |section| > 0 && AllDigits(section)
    ensures r.None? <==> Contains(line, "要点") && forall q :: 0 <= q <= |line| ==> !KeyPointAt(line, q)
    ensures r.Some? ==> WellFormed(r.value) && r.value.section == section
  {
    if !Contains(line, "要点") then Some(Entry(section, Generating, Computing))
    else
      match FindKeyPoint(line, 0)
      case None => None
      case Some(q) => Some(KeyPointEntry(line, section, q))
  }

  /** `parse_line` (core_stream.py:47-66) on one logical line, which may hold several
      physical lines joined by '\n'. `None` means the source returned `None`. Every entry
      it returns is well-formed and numbered by the first section marker of the line. */
  function ParseLine(raw: String): (r: Option<Entry>)
    ensures r.Some? ==> WellFormed(r.value)
    ensures r.Some? ==> var line := Strip(raw); var m := FindMarker(line, 0);
      m.Some? && r.value.section == line[m.value.digitsStart..m.value.digitsEnd]
  {
    ParseStripped(Strip(raw))
  }

  /** `parse_line` after its first statement, on a line that does not end in whitespace. */
  function ParseStripped(line: String): (r: Option<Entry>)
    requires line == [] || !IsSpace(line[|line| - 1])
    ensures r.Some? ==> WellFormed(r.value)
    ensures r.Some? ==> var m := FindMarker(line, 0);
      m.Some? && r.value.section == line[m.value.digitsStart..m.value.digitsEnd]
  {
    match FindMarker(line, 0)
    case None => None
    case Some(m) => SectionEntry(line, line[m.digitsStart..m.digitsEnd])
  }

  /** `parse_line` gives `None` exactly when the stripped line has no section marker, or
      has `要点` but no `要点:`/`要点：` anywhere. */
  lemma ParseLineNone(raw: String)
    ensures var line := Strip(raw);
      ParseLine(raw).None? <==>
        ((forall p :: 0 <= p <= |line| ==> MarkerAt(line, p).None?)
         || (Contains(line, "要点") && forall q :: 0 <= q <= |line| ==> !KeyPointAt(line, q)))
  {
    var line := Strip(raw);
    match FindMarker(line, 0)
    case None =>
    case Some(m) =>
      assert MarkerAt(line, m.start).Some?;
  }

  /** A line with a section marker but no 要点 parses to the placeholder entry. */
  lemma ParseLinePlaceholder(raw: String)
    requires var line := Strip(raw); FindMarker(line, 0).Some? && !Contains(line, "要点")
    ensures var line := Strip(raw); var m := FindMarker(line, 0).value;
      ParseLine(raw) == Some(Entry(line[m.digitsStart..m.digitsEnd], Generating, Computing))
  {
  }

  /** With a section marker and a key-point label, the entry is the key-point entry of
      the first label. */
  lemma ParseLineKeyPoint(line: String)
    requires line == [] || !IsSpace(line[|line| - 1])
    requires FindMarker(line, 0).Some? && FindKeyPoint(line, 0).Some?
    ensures var m := FindMarker(line, 0).value; var q := FindKeyPoint(line, 0).value;
      ParseStripped(line) == Some(KeyPointEntry(line, line[m.digitsStart..m.digitsEnd], q))
  {
    var m := FindMarker(line, 0).value;
    KeyPointContains(line, FindKeyPoint(line, 0).value);
  }

  lemma KeyPointContains(line: String, q: nat)
    requires KeyPointAt(line, q)
    ensures Contains(line, "要点")
  {
    assert line[q..q + 2] == "要点";
    assert OccursAt(line, "要点", q);
  }

  // ---------------------------------------------------------------- a whole buffer

  /** `[line.strip() for line in lines if len(line) > 0]`; the test is on the unstripped
      line, so a line of blanks is kept as an empty string. */
  function StrippedLines(lines: seq<String>): (r: seq<String>)
    ensures |r| <= |lines|
  {
    if lines == [] then []
    else (if |lines[0]| > 0 then [Strip(lines[0])] else []) + StrippedLines(lines[1..])
  }

  /** The comprehension distributes over concatenation, so the kept lines stay in order. */
  lemma {:induction false} StrippedLinesAppend(a: seq<String>, b: seq<String>)
    ensures StrippedLines(a + b) == StrippedLines(a) + StrippedLines(b)
    decreases |a|
  {
    if a != [] {
      assert (a + b)[0] == a[0] && (a + b)[1..] == a[1..] + b;
      StrippedLinesAppend(a[1..], b);
    } else {
      assert a + b == b;
    }
  }

  /** One line is kept, stripped, exactly when it is non-empty before stripping. */
  lemma StrippedLinesOne(l: String)
    ensures StrippedLines([l]) == if |l| > 0 then [Strip(l)] else []
  {
    assert [l][1..] == [];
  }

  /** The lines from the first header on; the lines dropped hold no header. */
  function DropToHeader(lines: seq<String>): (r: seq<String>)
    ensures |r| <= |lines| && r == lines[|lines| - |r|..]
    ensures r == [] || IsHeader(r[0])
    ensures forall i :: 0 <= i < |lines| - |r| ==> !IsHeader(lines[i])
    ensures CountHeaders(r) == CountHeaders(lines)
  {
    if lines == [] || IsHeader(lines[0]) then lines else DropToHeader(lines[1..])
  }

  /** Index of the first header at or after `from`, or `|lines|`. */
  function NextHeader(lines: seq<String>, from: nat): (r: nat)
    requires from <= |lines|
    ensures from <= r <= |lines|
    ensures r < |lines| ==> IsHeader(lines[r])
    ensures forall k :: from <= k < r ==> !IsHeader(lines[k])
    decreases |lines| - from
  {
    if from == |lines| || IsHeader(lines[from]) then from else NextHeader(lines, from + 1)
  }

  function Flatten(chunks: seq<seq<String>>): seq<String> {
    if chunks == [] then [] else chunks[0] + Flatten(chunks[1..])
  }

  /** The slices `all_lines[line_nums[i]:line_nums[i+1]]` plus the last one to the end:
      one chunk per header, each starting at its header and holding the non-header
      lines up to the next one; laid end to end they give the lines back. */
  function Chunks(lines: seq<String>): (r: seq<seq<String>>)
    requires lines == [] || IsHeader(lines[0])
    ensures |r| == CountHeaders(lines)
    ensures Flatten(r) == lines
    ensures forall i :: 0 <= i < |r| ==> |r[i]| >= 1 && IsHeader(r[i][0])
    ensures forall i, j :: 0 <= i < |r| && 1 <= j < |r[i]| ==> !IsHeader(r[i][j])
    decreases |lines|
  {
    if lines == [] then []
    else
      var n := NextHeader(lines, 1);
      var rest := Chunks(lines[n..]);
      FirstChunk(lines, n);
      assert ([lines[..n]] + rest)[1..] == rest;
      [lines[..n]] + rest
  }

  /** Cutting the lines at the second header leaves one header in front. */
  lemma FirstChunk(lines: seq<String>, n: nat)
    requires lines != [] && IsHeader(lines[0]) && n == NextHeader(lines, 1)
    ensures CountHeaders(lines[n..]) + 1 == CountHeaders(lines)
    ensures lines[..n] + lines[n..] == lines
  {
    assert CountHeaders(lines[..n]) == 1 by {
      assert lines[..n] == [lines[0]] + lines[1..n];
      assert lines[..n][1..] == lines[1..n];
      NoHeaders(lines[1..n]);
    }
    CountHeadersAppend(lines[..n], lines[n..]);
    assert lines[..n] + lines[n..] == lines;
  }

  lemma {:induction false} NoHeaders(lines: seq<String>)
    requires forall k :: 0 <= k < |lines| ==> !IsHeader(lines[k])
    ensures CountHeaders(lines) == 0
    decreases |lines|
  {
    if lines != [] {
      NoHeaders(lines[1..]);
    }
  }

  /** The loop at core_stream.py:77-80: parse each chunk's lines joined by '\n' and keep
      the entries that parsed, in chunk order. */
  function ParseChunks(chunks: seq<seq<String>>): (r: seq<Entry>)
    ensures |r| <= |chunks|
    ensures forall i :: 0 <= i < |r| ==> WellFormed(r[i])
  {
    if chunks == [] then []
    else
      var rest := ParseChunks(chunks[1..]);
      var e := ParseLine(Join(chunks[0], "\n"));
      if e.None? then rest else [e.value] + rest
  }

  /** The chunks' entries come out in chunk order: parsing a list of chunks is parsing
      each part and concatenating. */
  lemma {:induction false} ParseChunksAppend(a: seq<seq<String>>, b: seq<seq<String>>)
    ensures ParseChunks(a + b) == ParseChunks(a) + ParseChunks(b)
    decreases |a|
  {
    if a == [] {
      assert a + b == b;
    } else {
      assert (a + b)[0] == a[0] && (a + b)[1..] == a[1..] + b;
      ParseChunksAppend(a[1..], b);
    }
  }

  /** A single chunk gives its entry, or nothing when `parse_line` returns None. */
  lemma ParseChunksOne(c: seq<String>)
    ensures ParseChunks([c]) == (match ParseLine(Join(c, "\n")) case None => [] case Some(e) => [e])
  {
    assert [c][1..] == [];
  }

  /** What `parse_line` gives for each chunk, one for one. */
  function ChunkParses(chunks: seq<seq<String>>): (r: seq<Option<Entry>>)
    ensures |r| == |chunks|
    ensures forall i :: 0 <= i < |r| ==> r[i] == ParseLine(Join(chunks[i], "\n"))
  {
    seq(|chunks|, i requires 0 <= i < |chunks| => ParseLine(Join(chunks[i], "\n")))
  }

  /** The values of the options that are present, in order. */
  function Present(xs: seq<Option<Entry>>): (r: seq<Entry>)
    ensures |r| <= |xs|
    ensures (forall i :: 0 <= i < |xs| ==> xs[i].Some?) ==>
              |r| == |xs| && forall i :: 0 <= i < |r| ==> Some(r[i]) == xs[i]
  {
    if xs == [] then []
    else
      var rest := Present(xs[1..]);
      if xs[0].None? then rest
      else
        assert forall i :: 1 <= i < 1 + |rest| ==> ([xs[0].value] + rest)[i] == rest[i - 1];
        [xs[0].value] + rest
  }

  /** The loop of `parse_text` maps `parse_line` over the chunks and keeps what is not
      None. */
  lemma {:induction false} ParseChunksPresent(chunks: seq<seq<String>>)
    ensures ParseChunks(chunks) == Present(ChunkParses(chunks))
    decreases |chunks|
  {
    if chunks != [] {
      ParseChunksPresent(chunks[1..]);
      assert ChunkParses(chunks)[1..] == ChunkParses(chunks[1..]);
    }
  }

  /** When every chunk parses, the result is the chunks' parses one for one. */
  lemma ParseChunksAllParse(chunks: seq<seq<String>>)
    requires forall i :: 0 <= i < |chunks| ==> ParseLine(Join(chunks[i], "\n")).Some?
    ensures |ParseChunks(chunks)| == |chunks|
    ensures forall i :: 0 <= i < |chunks| ==> Some(ParseChunks(chunks)[i]) == ParseLine(Join(chunks[i], "\n"))
  {
    ParseChunksPresent(chunks);
  }

  /** The lines `parse_text` works on. */
  function OutlineLines(text: String): seq<String> {
    StrippedLines(Split(text, '\n'))
  }

  /** `parse_text(text)` (core_stream.py:68-81): at most one entry per header line,
      nothing when there is no header, and every entry well-formed. */
  function ParseText(text: String): (r: seq<Entry>)
    ensures |r| <= CountHeaders(OutlineLines(text))
    ensures CountHeaders(OutlineLines(text)) == 0 ==> r == []
    ensures forall i :: 0 <= i < |r| ==> WellFormed(r[i])
  {
    ParseChunks(Chunks(DropToHeader(OutlineLines(text))))
  }

  /** Planner output always survives the round trip through the plan text: the number of
      sections `split_plan` finds in it is the number of parsed chapters. */
  lemma PlanTextKeepsCount(text: String)
    ensures |SplitPlan(PlanText(ParseText(text)))| == |ParseText(text)|
  {
    SplitPlanText(ParseText(text));
  }

  /** The plan line of a reparsable entry starts with 第 and ends with 字, so
      stripping leaves it alone. */
  lemma PlanLineStrip(e: Entry)
    requires Reparsable(e)
    ensures Strip(PlanLine(e)) == PlanLine(e)
  {
    var s := PlanLine(e);
    assert s == "第 " + e.section + " 段 - 要点：" + e.description + " - 字数：" + e.wordTarget;
    assert s[|s| - 1] == e.wordTarget[|e.wordTarget| - 1];
    StripPlanLine(s);
  }

  /** Lines that are all headers are chunks of one line each. */
  lemma {:induction false} ChunksOfHeaders(lines: seq<String>)
    requires forall i :: 0 <= i < |lines| ==> IsHeader(lines[i])
    ensures |Chunks(lines)| == |lines|
    ensures forall i :: 0 <= i < |lines| ==> Chunks(lines)[i] == [lines[i]]
    decreases |lines|
  {
    if lines != [] {
      assert NextHeader(lines, 1) == 1;
      assert lines[..1] == [lines[0]];
      ChunksOfHeaders(lines[1..]);
      assert Chunks(lines) == [[lines[0]]] + Chunks(lines[1..]);
    }
  }

  /** Every entry, present. */
  function Somes(es: seq<Entry>): (r: seq<Option<Entry>>)
    ensures |r| == |es| && forall i :: 0 <= i < |es| ==> r[i] == Some(es[i])
  {
    seq(|es|, i requires 0 <= i < |es| => Some(es[i]))
  }

  lemma PresentSomes(es: seq<Entry>)
    ensures Present(Somes(es)) == es
  {
    var r := Present(Somes(es));
    assert forall i :: 0 <= i < |es| ==> Some(r[i]) == Some(es[i]);
  }

  /** One-line chunks holding the plan lines of reparsable entries parse to them. */
  lemma PlanChunksParse(es: seq<Entry>, chunks: seq<seq<String>>)
    requires forall i :: 0 <= i < |es| ==> Reparsable(es[i])
    requires |chunks| == |es| && forall i :: 0 <= i < |es| ==> chunks[i] == [PlanLine(es[i])]
    ensures ChunkParses(chunks) == Somes(es)
  {
    var ps := ChunkParses(chunks);
    forall i | 0 <= i < |chunks| ensures ps[i] == Some(es[i]) {
      ParsePlanLine(es[i]);
    }
  }

  /** The plan lines of reparsable entries, one chunk each, parse back to the entries. */
  lemma PlanLinesChunks(es: seq<Entry>)
    requires forall i :: 0 <= i < |es| ==> Reparsable(es[i])
    ensures PlanLines(es) == [] || IsHeader(PlanLines(es)[0])
    ensures ParseChunks(Chunks(PlanLines(es))) == es
  {
    var lines := PlanLines(es);
    forall i | 0 <= i < |lines| ensures IsHeader(lines[i]) {
      PlanLineIsHeader(es[i]);
    }
    ChunksOfHeaders(lines);
    var chunks := Chunks(lines);
    PlanChunksParse(es, chunks);
    ParseChunksPresent(chunks);
    PresentSomes(es);
  }

  /** `parse_text` inverts the planner's plan text: the text written out for reparsable
      entries parses back to exactly those entries, in order. */
  lemma ParseTextPlanText(es: seq<Entry>)
    requires forall i :: 0 <= i < |es| ==> Reparsable(es[i])
    ensures ParseText(PlanText(es)) == es
  {
    if es == [] {
      assert PlanText(es) == "";
      assert Split("", '\n') == [""];
      assert StrippedLines([""]) == [];
    } else {
      PlanTextLines(es);
      PlanLinesChunks(es);
    }
  }

  /** The lines `parse_text` reads from a plan text are its plan lines. */
  lemma PlanTextLines(es: seq<Entry>)
    requires es != [] && forall i :: 0 <= i < |es| ==> Reparsable(es[i])
    ensures OutlineLines(PlanText(es)) == PlanLines(es)
  {
    var lines := PlanLines(es);
    forall i | 0 <= i < |lines|
      ensures |lines[i]| > 0 && '\n' !in lines[i] && Strip(lines[i]) == lines[i]
    {
      PlanLineIsHeader(es[i]);
      PlanLineStrip(es[i]);
    }
    SplitJoin(lines, '\n');
    StrippedKeeps(lines);
  }

  /** Non-empty lines that stripping leaves alone pass through unchanged. */
  lemma {:induction false} StrippedKeeps(lines: seq<String>)
    requires forall i :: 0 <= i < |lines| ==> |lines[i]| > 0 && Strip(lines[i]) == lines[i]
    ensures StrippedLines(lines) == lines
    decreases |lines|
  {
    if lines != [] {
      StrippedKeeps(lines[1..]);
      assert [lines[0]] + lines[1..] == lines;
    }
  }

  // ---------------------------------------------------------------- worked examples

  /** The characters the optional word-count label can consist of. */
  predicate LabelChar(c: char) {
    IsSpace(c) || c == '-' || c == '字' || c == '数' || c == ':' || c == '：'
  }

  predicate AllLabelChars(t: String) {
    forall i :: 0 <= i < |t| ==> LabelChar(t[i])
  }

  lemma LabelCons(t: String, n: nat)
    requires n <= |t| && (forall i :: 0 <= i < n ==> LabelChar(t[i])) && AllLabelChars(t[n..])
    ensures AllLabelChars(t)
  {
    forall i | n <= i < |t| ensures LabelChar(t[i]) {
      assert t[i] == t[n..][i - n];
    }
  }

  lemma ColonChars(t: String)
    requires LabelFromColon(t)
    ensures AllLabelChars(t)
  {
    if !AllSpace(t) { LabelCons(t, 1); }
  }

  lemma WordChars(t: String)
    requires LabelFromWord(t)
    ensures AllLabelChars(t)
  {
    if LabelFromColon(t) { ColonChars(t); } else { ColonChars(t[2..]); LabelCons(t, 2); }
  }

  lemma SpaceChars(t: String)
    requires LabelFromSpace(t)
    ensures AllLabelChars(t)
  {
    if LabelFromWord(t) { WordChars(t); } else { WordChars(t[1..]); LabelCons(t, 1); }
  }

  lemma DashChars(t: String)
    requires LabelFromDash(t)
    ensures AllLabelChars(t)
  {
    if LabelFromSpace(t) { SpaceChars(t); } else { SpaceChars(t[1..]); LabelCons(t, 1); }
  }

  /** The word-count label never spans a character outside its alphabet, so it cannot
      reach back into the key-point text. */
  lemma LabelAlphabet(t: String)
    requires LabelAll(t)
    ensures AllLabelChars(t)
  {
    if LabelFromDash(t) { DashChars(t); } else { DashChars(t[1..]); LabelCons(t, 1); }
  }

  lemma NotLabel(t: String, i: nat)
    requires i < |t| && !LabelChar(t[i])
    ensures !LabelAll(t)
  {
    if LabelAll(t) {
      LabelAlphabet(t);
    }
  }

  lemma {:induction false} SkipDigitsBackExact(s: String, i: nat, j: nat)
    requires i <= j <= |s|
    requires forall k :: i <= k < j ==> IsDigit(s[k])
    requires i == 0 || !IsDigit(s[i - 1])
    ensures SkipDigitsBack(s, j) == i
    decreases j - i
  {
    if i < j {
      SkipDigitsBackExact(s, i, j - 1);
    }
  }

  lemma {:induction false} LabelStartExact(s: String, p: nat, r0: nat, k: nat)
    requires p <= k <= r0 <= |s| && LabelFrom(s, k, r0)
    requires forall q :: p <= q < k ==> !LabelFrom(s, q, r0)
    ensures LabelStart(s, p, r0) == k
    decreases k - p
  {
    if p < k {
      LabelStartExact(s, p + 1, r0, k);
    }
  }

  lemma {:induction false} FindKeyPointExact(s: String, from: nat, k: nat)
    requires from <= k && KeyPointAt(s, k)
    requires forall q :: from <= q < k ==> !KeyPointAt(s, q)
    ensures FindKeyPoint(s, from) == Some(k)
    decreases k - from
  {
    if from < k {
      FindKeyPointExact(s, from + 1, k);
    }
  }

  /** The entries whose plan line `parse_line` reads back unchanged: a word target of
      digits followed by 字, and a non-empty description whose last character cannot be
      taken for part of the word-count label. */
  predicate Reparsable(e: Entry) {
    WellFormed(e) && |e.description| > 0 && !LabelChar(e.description[|e.description| - 1])
    && |e.wordTarget| >= 2 && e.wordTarget[|e.wordTarget| - 1] == '字'
    && AllDigits(e.wordTarget[..|e.wordTarget| - 1])
  }
  const Intro: String := "第 "
  const KeyPointLabel: String := " 段 - 要点："
  const WordLabel: String := " - 字数："

  /** `s` is laid out as the plan line of `e`: the fixed labels and the entry's fields at
      their offsets. */
  predicate Laid(s: String, e: Entry) {
    var n := |e.section|; var D := 10 + n + |e.description|;
    && |s| == D + 6 + |e.wordTarget|
    && s[..2] == Intro
    && s[2..2 + n] == e.section
    && s[2 + n..10 + n] == KeyPointLabel
    && s[10 + n..D] == e.description
    && s[D..D + 6] == WordLabel
    && s[D + 6..] == e.wordTarget
  }

  lemma PlanLineLayout(e: Entry)
    ensures Laid(PlanLine(e), e)
  {
    var s := PlanLine(e);
    var n := |e.section|;
    var D := 10 + n + |e.description|;
    assert s == Intro + e.section + KeyPointLabel + e.description + WordLabel + e.wordTarget;
    assert s[..2] == Intro;
    assert s[2..2 + n] == e.section;
    assert s[2 + n..10 + n] == KeyPointLabel;
    assert s[10 + n..D] == e.description;
    assert s[D..D + 6] == WordLabel;
    assert s[D + 6..] == e.wordTarget;
  }

  /** The section marker of a line that starts like a plan line. */
  lemma HeadMarker(s: String, e: Entry)
    requires Reparsable(e) && Laid(s, e)
    ensures var n := |e.section|; FindMarker(s, 0) == Some(Marker(0, 2, 2 + n, 3 + n))
  {
    var sec := e.section;
    var n := |sec|;
    assert s[..2][0] == s[0] && s[..2][1] == s[1];
    forall k | 2 <= k < 2 + n ensures IsDigit(s[k]) {
      assert s[k] == s[2..2 + n][k - 2];
    }
    assert s[2 + n..10 + n][0] == s[2 + n] && s[2 + n..10 + n][1] == s[3 + n];
    MarkerComplete(s, 0, 2, 2 + n, 3 + n);
  }

  /** The key-point label of a line that starts like a plan line. */
  lemma HeadKeyPoint(s: String, e: Entry)
    requires Reparsable(e) && Laid(s, e)
    ensures FindKeyPoint(s, 0) == Some(7 + |e.section|) && Contains(s, "要点")
  {
    var n := |e.section|;
    var t := s[2 + n..10 + n];
    assert forall k :: 0 <= k < 8 ==> t[k] == s[2 + n + k];
    assert KeyPointAt(s, 7 + n);
    forall q | 0 <= q < 7 + n ensures s[q] != '要' {
      if q < 2 {
        assert s[q] == s[..2][q];
      } else if q < 2 + n {
        assert s[q] == s[2..2 + n][q - 2];
      } else {
        assert s[q] == t[q - 2 - n];
      }
    }
    FindKeyPointExact(s, 0, 7 + n);
    KeyPointContains(s, 7 + n);
  }

  /** The end of a line that ends like a plan line: the word target's digits are the last
      digit run before the final 字. */
  lemma TailDigits(s: String, D: nat, w: String)
    requires D + 6 + |w| == |s| && s[D..D + 6] == WordLabel && s[D + 6..] == w
    requires |w| >= 2 && w[|w| - 1] == '字' && AllDigits(w[..|w| - 1])
    ensures s[|s| - 1] == '字' && s[D + 6..|s| - 1] + "字" == w
    ensures SkipSpacesBack(s, |s| - 1) == |s| - 1 && SkipDigitsBack(s, |s| - 1) == D + 6
  {
    forall k | D + 6 <= k < |s| - 1 ensures IsDigit(s[k]) {
      assert s[k] == w[k - D - 6] == w[..|w| - 1][k - D - 6];
    }
    assert s[|s| - 1] == w[|w| - 1];
    assert !IsDigit(s[D + 5]) by {
      assert s[D + 5] == s[D..D + 6][5];
    }
    SkipDigitsBackExact(s, D + 6, |s| - 1);
    assert s[D + 6..] == s[D + 6..|s| - 1] + [s[|s| - 1]];
    assert w == w[..|w| - 1] + [w[|w| - 1]];
  }

  /** The word-count label of a line that ends like a plan line starts at its " - 字数：",
      provided the character before cannot belong to a label. */
  lemma TailLabel(s: String, D: nat)
    requires 0 < D && D + 6 <= |s| && s[D..D + 6] == WordLabel && !LabelChar(s[D - 1])
    ensures LabelStart(s, 0, D + 6) == D
  {
    var r0 := D + 6;
    var lab := s[D..r0];
    assert LabelFromColon(lab[5..]);
    assert LabelFromWord(lab[3..]);
    assert LabelFromSpace(lab[2..]);
    assert LabelFromDash(lab[1..]);
    assert LabelAll(lab);
    forall q | 0 <= q < D ensures !LabelFrom(s, q, r0) {
      assert s[q..r0][D - 1 - q] == s[D - 1];
      NotLabel(s[q..r0], D - 1 - q);
    }
    LabelStartExact(s, 0, r0, D);
  }

  /** The key-point text of a plan line is its description and the word-count text. */
  lemma TailRest(s: String, i: nat, D: nat, desc: String, w: String)
    requires i <= D && D + 6 + |w| == |s|
    requires s[i..D] == desc && s[D..D + 6] == WordLabel && s[D + 6..] == w
    requires '\n' !in desc && '\n' !in w
    ensures RestOfLine(s, i) == s[i..]
    ensures RemoveSuffix(RestOfLine(s, i), s[D..]) == desc
  {
    forall k | i <= k < |s| ensures s[k] != '\n' {
      if k < D {
        assert s[k] == desc[k - i];
      } else if k < D + 6 {
        assert s[k] == s[D..D + 6][k - D];
      } else {
        assert s[k] == w[k - D - 6];
      }
    }
    assert s[i..] == s[i..D] + s[D..];
    RemoveSuffixOf(s[i..], s[i..D], s[D..]);
  }

  lemma WordCountExact(s: String, start: nat, r0: nat)
    requires |s| > 0 && s[|s| - 1] == '字' && r0 < |s| - 1
    requires SkipSpacesBack(s, |s| - 1) == |s| - 1 && SkipDigitsBack(s, |s| - 1) == r0
    requires start <= r0 && LabelStart(s, 0, r0) == start
    ensures WordCount(s) == Some(WordCountMatch(start, r0, |s| - 1))
  {
  }

  lemma KeyPointEntryCounted(line: String, section: String, q: nat, w: WordCountMatch)
    requires KeyPointAt(line, q) && line[|line| - 1] != '\n'
    requires |section| > 0 && AllDigits(section)
    requires WordCount(line) == Some(w)
    ensures KeyPointEntry(line, section, q)
         == Entry(section, RemoveSuffix(RestOfLine(line, q + 3), line[w.start..]),
                  line[w.digitsStart..w.digitsEnd] + "字")
  {
  }

  /** The key-point label laid at `2 + n` puts `要点：` at `7 + n`. */
  lemma KeyPointLabelAt(s: String, n: nat)
    requires 10 + n <= |s| && s[2 + n..10 + n] == KeyPointLabel
    ensures KeyPointAt(s, 7 + n)
  {
    var tag := s[2 + n..10 + n];
    assert tag[5] == s[7 + n] && tag[6] == s[8 + n] && tag[7] == s[9 + n];
  }

  /** `Laid` with the start `D` of the word-count label named. */
  predicate LaidAt(s: String, e: Entry, D: nat) {
    && 10 + |e.section| <= D && |s| == D + 6 + |e.wordTarget|
    && s[2 + |e.section|..10 + |e.section|] == KeyPointLabel
    && s[10 + |e.section|..D] == e.description
    && s[D..D + 6] == WordLabel
    && s[D + 6..] == e.wordTarget
  }

  lemma LaidOffsets(s: String, e: Entry, D: nat)
    requires Laid(s, e) && D == 10 + |e.section| + |e.description|
    ensures LaidAt(s, e, D)
  {
  }

  /** The word-count suffix of a laid-out line is found where it was laid. */
  lemma LaidWordCount(s: String, e: Entry, D: nat)
    requires Reparsable(e) && LaidAt(s, e, D)
    ensures D + 6 < |s| && s[|s| - 1] == '字'
    ensures WordCount(s) == Some(WordCountMatch(D, D + 6, |s| - 1))
    ensures s[D + 6..|s| - 1] + "字" == e.wordTarget
  {
    var n := |e.section|;
    assert s[10 + n..D][|e.description| - 1] == s[D - 1];
    TailDigits(s, D, e.wordTarget);
    TailLabel(s, D);
    WordCountExact(s, D, D + 6);
  }

  /** The key-point label and the description of a laid-out line, where `KeyPointEntry`
      looks for them. */
  lemma LaidFields(s: String, e: Entry, D: nat)
    requires Reparsable(e) && LaidAt(s, e, D)
    ensures KeyPointAt(s, 7 + |e.section|)
    ensures RemoveSuffix(RestOfLine(s, 10 + |e.section|), s[D..]) == e.description
  {
    TailRest(s, 10 + |e.section|, D, e.description, e.wordTarget);
    KeyPointLabelAt(s, |e.section|);
  }

  /** `KeyPointEntry` on a line whose fields lie at the offsets of the plan line format. */
  lemma FieldsEntry(s: String, e: Entry, D: nat)
    requires Reparsable(e)
    requires D + 6 < |s| && s[|s| - 1] == '字'
    requires WordCount(s) == Some(WordCountMatch(D, D + 6, |s| - 1))
    requires s[D + 6..|s| - 1] + "字" == e.wordTarget
    requires KeyPointAt(s, 7 + |e.section|)
    requires RemoveSuffix(RestOfLine(s, 10 + |e.section|), s[D..]) == e.description
    ensures KeyPointEntry(s, e.section, 7 + |e.section|) == e
  {
    KeyPointEntryCounted(s, e.section, 7 + |e.section|, WordCountMatch(D, D + 6, |s| - 1));
  }

  lemma LaidEntry(s: String, e: Entry)
    requires Reparsable(e) && Laid(s, e)
    ensures |s| > 0 && s[|s| - 1] == '字' && KeyPointAt(s, 7 + |e.section|)
    ensures KeyPointEntry(s, e.section, 7 + |e.section|) == e
  {
    var D := 10 + |e.section| + |e.description|;
    LaidOffsets(s, e, D);
    LaidWordCount(s, e, D);
    LaidFields(s, e, D);
    FieldsEntry(s, e, D);
  }

  lemma LaidParse(s: String, e: Entry)
    requires |s| > 0 && s[|s| - 1] == '字' && |e.section| > 0
    requires 2 + |e.section| <= |s| && s[2..2 + |e.section|] == e.section
    requires FindMarker(s, 0) == Some(Marker(0, 2, 2 + |e.section|, 3 + |e.section|))
    requires FindKeyPoint(s, 0) == Some(7 + |e.section|)
    requires KeyPointEntry(s, e.section, 7 + |e.section|) == e
    ensures ParseStripped(s) == Some(e)
  {
    ParseLineKeyPoint(s);
  }

  lemma StripPlanLine(s: String)
    requires |s| > 0 && s[0] == '第' && s[|s| - 1] == '字'
    ensures Strip(s) == s
  {
  }

  /** `parse_line` inverts the planner's line format: the plan line of a reparsable entry
      parses back to that entry. */
  lemma ParsePlanLine(e: Entry)
    requires Reparsable(e)
    ensures ParseLine(PlanLine(e)) == Some(e)
  {
    PlanLineLayout(e);
    LaidParsesBack(PlanLine(e), e);
  }

  /** A line laid out as the plan line of a reparsable entry parses back to it. */
  lemma LaidParsesBack(s: String, e: Entry)
    requires Reparsable(e) && Laid(s, e)
    ensures ParseLine(s) == Some(e)
  {
    LaidEntry(s, e);
    HeadMarker(s, e);
    HeadKeyPoint(s, e);
    assert s[0] == '第' by { assert s[..2][0] == s[0]; }
    StripPlanLine(s);
    LaidParse(s, e);
  }

  /** The example of a complete section line. */
  lemma ExampleFullLine()
    ensures ParseLine("第 3 段 - 要点：主角抵达古堡 - 字数：800字") == Some(Entry("3", "主角抵达古堡", "800字"))
  {
    var e := Entry("3", "主角抵达古堡", "800字");
    assert PlanLine(e) == "第 3 段 - 要点：主角抵达古堡 - 字数：800字";
    assert e.wordTarget[..3] == "800";
    ParsePlanLine(e);
  }

  const BareHeader: String := "第 3 段"

  lemma BareHeaderMarker()
    ensures Strip(BareHeader) == BareHeader
    ensures FindMarker(BareHeader, 0) == Some(Marker(0, 2, 3, 4))
  {
    var s := BareHeader;
    assert !IsSpace(s[0]) && !IsSpace(s[4]);
    MarkerComplete(s, 0, 2, 3, 4);
  }

  lemma BareHeaderNoKeyPoint()
    ensures !Contains(BareHeader, "要点")
  {
    var s := BareHeader;
    forall k: nat | OccursAt(s, "要点", k) ensures s[k] == '要' {
      assert "要点"[0] == '要';
    }
  }

  /** The example of a bare header: the placeholder entry. */
  lemma ExampleBareHeader()
    ensures ParseLine(BareHeader) == Some(Entry("3", Generating, Computing))
  {
    BareHeaderMarker();
    BareHeaderNoKeyPoint();
    assert BareHeader[2..3] == "3";
  }
}
