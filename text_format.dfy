/** The markdown clean-up shared by the energy-suggestion and daily-reflection
    panels: `**` and `*` removed, `#` heading markers removed at line starts,
    the text trimmed, split on '\n', and every line classified as a spacer, a
    heading (it starts with one of the panel's emoji), a bullet (its list
    marker stripped) or a paragraph. */
module TextFormat {
  import opened Wrappers
  import opened JsValue

  /** `.replace(/\*\*\/g, '')`: non-overlapping "**" pairs removed, scanning
      from the left. */
  function DropStarPairs(s: string): (r: string)
    ensures |r| <= |s|
    ensures forall c :: c in r ==> c in s
  {
    if |s| >= 2 && s[0] == '*' && s[1] == '*' then DropStarPairs(s[2..])
    else if s == [] then []
    else [s[0]] + DropStarPairs(s[1..])
  }

  /** `.replace(/c/g, '')` for one literal character `c`. */
  function DropChar(s: string, c: char): (r: string)
    ensures forall x :: x in r <==> x in s && x != c
  {
    if s == [] then []
    else (if s[0] == c then [] else [s[0]]) + DropChar(s[1..], c)
  }

  /** The two star passes, in the order the components apply them. */
  function DropStars(s: string): (r: string)
    ensures '*' !in r
    ensures forall c :: c in r ==> c in s
  {
    DropChar(DropStarPairs(s), '*')
  }

  /** Removing the pairs first changes nothing: the two passes together
      remove every '*' and keep everything else in order. */
  lemma {:induction false} DropStarsRemovesEvery(s: string)
    ensures DropStars(s) == DropChar(s, '*')
    decreases |s|
  {
    if |s| >= 2 && s[0] == '*' && s[1] == '*' {
      DropStarsRemovesEvery(s[2..]);
      assert DropChar(s, '*') == DropChar(s[1..], '*');
      assert s[1..][1..] == s[2..];
      assert DropChar(s[1..], '*') == DropChar(s[2..], '*');
    } else if s != [] {
      DropStarsRemovesEvery(s[1..]);
      var t := [s[0]] + DropStarPairs(s[1..]);
      assert DropStarPairs(s) == t;
      assert t[0] == s[0] && t[1..] == DropStarPairs(s[1..]);
    }
  }

  /** Length of the run of '#' that starts `s`. */
  function HashCount(s: string): (n: nat)
    ensures n <= |s|
    ensures forall i :: 0 <= i < n ==> s[i] == '#'
    ensures n == |s| || s[n] != '#'
  {
    if s != [] && s[0] == '#' then 1 + HashCount(s[1..]) else 0
  }

  /** `.replace(/^#+\s*\/gm, '')` on the rest `s` of the text; `lineStart`
      says whether `^` holds before `s[0]` (the text start, or just after a
      line terminator). Each match removes a run of '#' and the white space
      after it, line terminators included; the scan resumes after the match,
      where `^` holds only if the match ended with a line terminator. */
  function StripHeadings(s: string, lineStart: bool): (r: string)
    ensures |r| <= |s|
    ensures forall c :: c in r ==> c in s
    ensures '#' !in s ==> r == s
    decreases |s|
  {
    if s == [] then []
    else if lineStart && s[0] == '#' then
      var h := HashCount(s);
      var m := h + LeadingSpaces(s[h..]);
      StripHeadings(s[m..], IsLineTerminator(s[m - 1]))
    else [s[0]] + StripHeadings(s[1..], IsLineTerminator(s[0]))
  }

  function Hashes(n: nat): (r: string)
    ensures |r| == n && forall i :: 0 <= i < n ==> r[i] == '#'
  {
    seq(n, _ => '#')
  }

  /** A heading marker — a run of '#' and the white space after it — is
      removed at a line start, and the scan goes on with the text after it. */
  lemma {:induction false} HeadingMarkerRemoved(n: nat, gap: string, t: string)
    requires n >= 1 && gap != []
    requires forall i :: 0 <= i < |gap| ==> IsSpace(gap[i])
    requires t == [] || !IsSpace(t[0])
    ensures StripHeadings(Hashes(n) + gap + t, true)
         == StripHeadings(t, IsLineTerminator(gap[|gap| - 1]))
  {
    var s := Hashes(n) + gap + t;
    assert s == Hashes(n) + (gap + t);
    HashCountOf(n, gap + t);
    assert s[n..] == gap + t;
    LeadingSpacesOf(gap, t);
    assert s[n + |gap|..] == t;
    assert s[n + |gap| - 1] == gap[|gap| - 1];
  }

  lemma {:induction false} HashCountOf(n: nat, rest: string)
    requires rest == [] || rest[0] != '#'
    ensures HashCount(Hashes(n) + rest) == n
    decreases n
  {
    if n > 0 {
      HashCountOf(n - 1, rest);
      assert (Hashes(n) + rest)[1..] == Hashes(n - 1) + rest;
    } else {
      assert Hashes(n) + rest == rest;
    }
  }

  /** Only one marker run is removed per line start: after "## " a second
      '#' is kept, with the rest of the line ("## #x" keeps "#x"). */
  lemma {:induction false} OneMarkerPerLine(n: nat, rest: string)
    requires n >= 1 && '#' !in rest
    ensures StripHeadings(Hashes(n) + " " + (['#'] + rest), true) == ['#'] + rest
  {
    HeadingMarkerRemoved(n, " ", ['#'] + rest);
    KeptOffLineStart('#', rest);
  }

  /** Away from a line start a character is kept. */
  lemma {:induction false} KeptOffLineStart(c: char, rest: string)
    ensures StripHeadings([c] + rest, false) == [c] + StripHeadings(rest, IsLineTerminator(c))
  {
    assert ([c] + rest)[1..] == rest;
  }

  /** `s.split('\n')`. */
  function SplitLines(s: string): (r: seq<string>)
    ensures |r| >= 1
    ensures forall i :: 0 <= i < |r| ==> '\n' !in r[i]
    ensures forall i, c :: 0 <= i < |r| && c in r[i] ==> c in s
    ensures JoinLines(r) == s
  {
    if s == [] then [[]]
    else
      var rest := SplitLines(s[1..]);
      if s[0] == '\n' then
        var r := [[]] + rest;
        assert r[0] == [] && r[1..] == rest;
        assert forall i :: 1 <= i < |r| ==> r[i] == rest[i - 1];
        assert forall c :: c in s[1..] ==> c in s;
        r
      else
        JoinLinesCons(s[0], rest);
        var r := [[s[0]] + rest[0]] + rest[1..];
        assert forall i :: 1 <= i < |r| ==> r[i] == rest[i];
        assert forall c :: c in s[1..] ==> c in s;
        r
  }

  /** `lines.join('\n')`. */
  function JoinLines(lines: seq<string>): string
    requires |lines| >= 1
  {
    if |lines| == 1 then lines[0] else lines[0] + "\n" + JoinLines(lines[1..])
  }

  lemma {:induction false} JoinLinesCons(c: char, lines: seq<string>)
    requires |lines| >= 1
    ensures JoinLines([[c] + lines[0]] + lines[1..]) == [c] + JoinLines(lines)
  {
    var ls := [[c] + lines[0]] + lines[1..];
    assert ls[1..] == lines[1..];
  }

  /** Splitting undoes joining lines that hold no '\n'. */
  lemma {:induction false} SplitJoin(lines: seq<string>)
    requires |lines| >= 1
    requires forall i :: 0 <= i < |lines| ==> '\n' !in lines[i]
    ensures SplitLines(JoinLines(lines)) == lines
    decreases |lines|, |lines[0]|
  {
    if lines[0] == [] {
      if |lines| > 1 {
        SplitJoin(lines[1..]);
        var s := JoinLines(lines);
        assert s == "\n" + JoinLines(lines[1..]);
        assert s[1..] == JoinLines(lines[1..]);
      }
    } else {
      var c := lines[0][0];
      var tail := [lines[0][1..]] + lines[1..];
      assert tail[1..] == lines[1..];
      assert JoinLines(tail) == lines[0][1..] + (if |lines| == 1 then "" else "\n" + JoinLines(lines[1..]));
      SplitJoin(tail);
      JoinLinesCons(c, tail);
      assert [c] + tail[0] == lines[0];
      assert [[c] + tail[0]] + tail[1..] == lines;
      var s := JoinLines(lines);
      assert s[0] == c && s[1..] == JoinLines(tail);
    }
  }

  lemma {:induction false} SplitWithoutBreak(s: string)
    requires '\n' !in s
    ensures SplitLines(s) == [s]
  {
    SplitJoin([s]);
  }

  /** One rendered line of a formatted text. */
  datatype Block =
    | Spacer
    | Heading(text: string)
    | Bullet(text: string)
    | Paragraph(text: string)

  function TextOf(b: Block): string {
    if b.Spacer? then [] else b.text
  }

  /** Which character classes a component's two line tests use. */
  datatype Marks =
    | SuggestionMarks          // the energy-suggestion panel
    | ReflectionMarks          // the daily-reflection panel, as written
    | IntendedReflectionMarks  // the daily-reflection panel, as evidently intended

  /** The heading test `/^[…]/` without the `u` flag compares the first UTF-16
      code unit with the class's code units, so an emoji outside the Basic
      Multilingual Plane matches through its high surrogate: every character
      whose high surrogate is one the class holds matches. */
  predicate HeadingMark(m: Marks, c: char) {
    match m
    case SuggestionMarks =>
      // high surrogates D83C, D83D, D83E; then the BMP members of the class
      || ('\U{1F000}' <= c <= '\U{1FBFF}')
      || c == '\U{200D}' || c == '\U{2615}' || c == '\U{2642}' || c == '\U{26A0}'
      || c == '\U{2705}' || c == '\U{2B50}' || c == '\U{FE0F}'
    case ReflectionMarks =>
      // the emoji list's UTF-8 bytes read as PTCP154 text
      || c == '\U{00A0}' || c == '\U{040E}' || c == '\U{0432}' || c == '\U{043F}'
      || c == '\U{0440}' || c == '\U{0451}' || c == '\U{0458}' || c == '\U{0496}'
      || c == '\U{0497}' || c == '\U{0498}' || c == '\U{049B}' || c == '\U{049C}'
      || c == '\U{04A0}' || c == '\U{04A1}' || c == '\U{04A2}' || c == '\U{04A3}'
      || c == '\U{04AF}' || c == '\U{04B1}' || c == '\U{04B6}' || c == '\U{04B7}'
      || c == '\U{04B8}' || c == '\U{04B9}' || c == '\U{04BA}' || c == '\U{04D8}'
      || c == '\U{04EF}' || c == '\U{2019}' || c == '\U{201C}' || c == '\U{201D}'
      || c == '\U{2026}'
    case IntendedReflectionMarks =>
      // high surrogates D83C, D83D; then ⚠, U+FE0F, ✅, ⭐
      || ('\U{1F000}' <= c <= '\U{1F7FF}')
      || c == '\U{26A0}' || c == '\U{FE0F}' || c == '\U{2705}' || c == '\U{2B50}'
  }

  /** The bullet class `[-•]`. */
  predicate BulletMark(m: Marks, c: char) {
    match m
    case ReflectionMarks =>
      c == '-' || c == '\U{0432}' || c == '\U{0496}' || c == '\U{045E}'
    case _ => c == '-' || c == '\U{2022}'
  }

  /** Length of the run of decimal digits that starts `s`. */
  function DigitCount(s: string): (n: nat)
    ensures n <= |s|
    ensures forall i :: 0 <= i < n ==> IsDigit(s[i])
    ensures n == |s| || !IsDigit(s[n])
  {
    if s != [] && IsDigit(s[0]) then 1 + DigitCount(s[1..]) else 0
  }

  /** `/^[…]\s/`: a bullet mark followed by white space. */
  predicate MarkedItem(m: Marks, t: string) {
    |t| >= 2 && BulletMark(m, t[0]) && IsSpace(t[1])
  }

  /** `/^\d+[.)]\s/`: digits, then '.' or ')', then white space. */
  predicate NumberedItem(t: string) {
    var d := DigitCount(t);
    d >= 1 && d + 2 <= |t| && (t[d] == '.' || t[d] == ')') && IsSpace(t[d + 1])
  }

  /** Length of the match of `/^[…]\s*\/`: a bullet mark and the white
      space after it, or nothing. */
  function MarkLength(m: Marks, t: string): (k: nat)
    ensures k <= |t|
    ensures k > 0 <==> t != [] && BulletMark(m, t[0])
    ensures k > 0 ==> k == |t| || !IsSpace(t[k])
  {
    if t != [] && BulletMark(m, t[0]) then 1 + LeadingSpaces(t[1..]) else 0
  }

  /** `.replace(/^[…]\s*\/, '')`. */
  function StripMark(m: Marks, t: string): string {
    t[MarkLength(m, t)..]
  }

  /** Length of the match of `/^\d+[.)]\s*\/`: digits, '.' or ')', and the
      white space after them, or nothing. */
  function NumberLength(t: string): (k: nat)
    ensures k <= |t|
    ensures NumberedItem(t) ==> k > 0
    ensures k > 0 ==> 1 <= DigitCount(t) < |t| && (t[DigitCount(t)] == '.' || t[DigitCount(t)] == ')')
    ensures k > 0 ==> k == |t| || !IsSpace(t[k])
  {
    var d := DigitCount(t);
    if d >= 1 && d < |t| && (t[d] == '.' || t[d] == ')') then d + 1 + LeadingSpaces(t[d + 1..]) else 0
  }

  /** `.replace(/^\d+[.)]\s*\/, '')`. */
  function StripNumber(t: string): string {
    t[NumberLength(t)..]
  }

  /** How one trimmed line is rendered: a spacer when empty, a heading when
      its first character is a heading mark, a bullet with its marker
      stripped when it opens with a list marker and white space, otherwise a
      paragraph. */
  function Classify(m: Marks, t: string): (r: Block)
    ensures r == Spacer <==> t == []
    ensures r.Heading? ==> r.text == t && HeadingMark(m, t[0])
    ensures r.Paragraph? ==> r.text == t
    ensures r.Bullet? <==> t != [] && !HeadingMark(m, t[0]) && (MarkedItem(m, t) || NumberedItem(t))
    ensures r.Bullet? ==> r.text == t[ItemStart(m, t)..]
  {
    if t == [] then Spacer
    else if HeadingMark(m, t[0]) then Heading(t)
    else ClassifyItem(m, t)
  }

  /** A non-empty line that is not a heading: a bullet with its marker
      stripped, or a paragraph. */
  function ClassifyItem(m: Marks, t: string): (r: Block)
    ensures r.Bullet? || r == Paragraph(t)
    ensures r.Bullet? <==> MarkedItem(m, t) || NumberedItem(t)
    ensures r.Bullet? ==> r.text == t[ItemStart(m, t)..]
  {
    if MarkedItem(m, t) || NumberedItem(t) then
      var u := StripMark(m, t);
      assert StripNumber(u) == t[ItemStart(m, t)..];
      Bullet(StripNumber(u))
    else Paragraph(t)
  }

  /** Where a list item's text starts: after its bullet mark, then after a
      number; never at the line's start. */
  function ItemStart(m: Marks, t: string): (k: nat)
    requires MarkedItem(m, t) || NumberedItem(t)
    ensures 0 < k <= |t|
  {
    var a := MarkLength(m, t);
    if a == 0 then
      assert t[a..] == t;
      NumberLength(t)
    else a + NumberLength(t[a..])
  }

  /** `line.trim()`, then classified. */
  function ClassifyLine(m: Marks, line: string): Block {
    Classify(m, Trim(line))
  }

  /** A line renders as a spacer exactly when it is blank, and its block
      shows only characters of the line. */
  lemma {:induction false} ClassifyLineMeaning(m: Marks, line: string)
    ensures ClassifyLine(m, line) == Spacer <==> Blank(line)
    ensures !ClassifyLine(m, line).Spacer? ==> forall c :: c in ClassifyLine(m, line).text ==> c in line
  {
    var t := Trim(line);
    var r := Classify(m, t);
    if r.Bullet? {
      forall c | c in r.text
        ensures c in line
      {
        var k :| 0 <= k < |r.text| && r.text[k] == c;
        assert t[|t| - |r.text| + k] == c;
      }
    }
  }

  /** Trimming a text with no white space at either end changes nothing. */
  lemma {:induction false} TrimNoop(t: string)
    requires t == [] || (!IsSpace(t[0]) && !IsSpace(t[|t| - 1]))
    ensures Trim(t) == t
  {
    assert TrimStart(t) == t;
  }

  /** The text the lines are taken from. */
  function Cleaned(text: string): (r: string)
    ensures '*' !in r
    ensures r == [] || (!IsSpace(r[0]) && !IsSpace(r[|r| - 1]))
  {
    var h := StripHeadings(DropStars(text), true);
    assert '*' !in h;
    Trim(h)
  }

  /** `formatSuggestion(text)` / `formatReflection(text)` on a string: nothing
      for the empty string, otherwise one block per line of the cleaned text. */
  function Format(m: Marks, text: string): (r: Option<seq<Block>>)
    ensures r.None? <==> text == []
  {
    if text == [] then None
    else Some(ClassifyLines(m, SplitLines(Cleaned(text))))
  }

  /** `lines.map(...)`: one block per line, in order. */
  function ClassifyLines(m: Marks, lines: seq<string>): (r: seq<Block>)
    ensures |r| == |lines|
    ensures forall i :: 0 <= i < |lines| ==> r[i] == ClassifyLine(m, lines[i])
  {
    if lines == [] then [] else [ClassifyLine(m, lines[0])] + ClassifyLines(m, lines[1..])
  }

  /** No rendered block shows a '*'. */
  lemma {:induction false} FormatHasNoStars(m: Marks, text: string)
    ensures Format(m, text).Some? ==>
      forall i :: 0 <= i < |Format(m, text).value| ==> '*' !in TextOf(Format(m, text).value[i])
  {
    if text != [] {
      var lines := SplitLines(Cleaned(text));
      var blocks := ClassifyLines(m, lines);
      forall i | 0 <= i < |blocks|
        ensures '*' !in TextOf(blocks[i])
      {
        assert blocks[i] == ClassifyLine(m, lines[i]);
        ClassifyLineMeaning(m, lines[i]);
      }
    }
  }

  /** A single line of plain prose — no '*', no '#', no line break, and not
      opening with a heading or list marker — is rendered as one paragraph
      holding the trimmed text. */
  lemma {:induction false} PlainLineIsParagraph(m: Marks, text: string)
    requires '*' !in text && '#' !in text && '\n' !in text
    requires !Blank(text)
    requires !HeadingMark(m, Trim(text)[0])
    requires !MarkedItem(m, Trim(text)) && !NumberedItem(Trim(text))
    ensures Format(m, text) == Some([Paragraph(Trim(text))])
  {
    CleanedWithoutMarkup(text);
    OneLineOneBlock(m, text);
    PlainTrimmedLine(m, text);
  }

  /** A text whose cleaned form holds no line break renders as one block. */
  lemma {:induction false} OneLineOneBlock(m: Marks, text: string)
    requires text != [] && '\n' !in Cleaned(text)
    ensures Format(m, text) == Some([ClassifyLine(m, Cleaned(text))])
  {
    var c := Cleaned(text);
    SplitWithoutBreak(c);
    var r := ClassifyLines(m, [c]);
    assert |r| == 1 && r[0] == ClassifyLine(m, c);
    assert r == [ClassifyLine(m, c)];
  }

  /** Text with no '*' and no '#' is only trimmed. */
  lemma {:induction false} CleanedWithoutMarkup(text: string)
    requires '*' !in text && '#' !in text
    ensures Cleaned(text) == Trim(text)
  {
    NoPairsWithoutStars(text);
    DropCharAbsent(text, '*');
    assert DropStars(text) == text;
  }

  lemma {:induction false} PlainTrimmedLine(m: Marks, text: string)
    requires !Blank(text)
    requires !HeadingMark(m, Trim(text)[0])
    requires !MarkedItem(m, Trim(text)) && !NumberedItem(Trim(text))
    ensures ClassifyLine(m, Trim(text)) == Paragraph(Trim(text))
  {
    TrimIdempotent(text);
  }

  lemma {:induction false} NoPairsWithoutStars(s: string)
    requires '*' !in s
    ensures DropStarPairs(s) == s
    decreases |s|
  {
    if s != [] {
      NoPairsWithoutStars(s[1..]);
    }
  }

  lemma {:induction false} DropCharAbsent(s: string, c: char)
    requires c !in s
    ensures DropChar(s, c) == s
    decreases |s|
  {
    if s != [] {
      DropCharAbsent(s[1..], c);
    }
  }

  lemma {:induction false} SkipOneSpace(w: string)
    requires w != [] && !IsSpace(w[0])
    ensures TrimStart(" " + w) == w
  {
    assert IsSpace(' ');
    assert (" " + w)[1..] == w;
  }

  /** The daily-reflection heading class as written misreads its own list:
      a line opening with an emoji of the list renders as a paragraph, while
      a Cyrillic line opening with "р" renders as a heading. */
  lemma {:induction false} ReflectionHeadingsMisread()
    ensures Classify(ReflectionMarks, "\U{1F3AF} Focus") == Paragraph("\U{1F3AF} Focus")
    ensures Classify(ReflectionMarks, "\U{0440}") == Heading("\U{0440}")
  {
    assert DigitCount("\U{1F3AF} Focus") == 0;
  }

  /** The daily-reflection bullet class as written does not hold '•': a '•'
      item renders as a paragraph, marker included. */
  lemma {:induction false} ReflectionDotNotBullet()
    ensures Classify(ReflectionMarks, "\U{2022} Walk") == Paragraph("\U{2022} Walk")
  {
    var t := "\U{2022} Walk";
    assert t[0] == '\U{2022}';
    assert !HeadingMark(ReflectionMarks, t[0]) && !MarkedItem(ReflectionMarks, t);
    assert DigitCount(t) == 0;
  }

  /** The daily-reflection bullet class as written holds Cyrillic letters: a
      line opening with "ў " renders as a bullet and loses that word. */
  lemma {:induction false} ReflectionCyrillicBullet()
    ensures Classify(ReflectionMarks, "\U{045E} \U{043F}") == Bullet("\U{043F}")
  {
    var t := "\U{045E} \U{043F}";
    CyrillicMarkedItem(t);
    CyrillicMarkStripped(t);
  }

  lemma {:induction false} CyrillicMarkedItem(t: string)
    requires t == "\U{045E} \U{043F}"
    ensures !HeadingMark(ReflectionMarks, t[0]) && MarkedItem(ReflectionMarks, t)
  {
    assert t[0] == '\U{045E}' && IsSpace(t[1]);
  }

  lemma {:induction false} CyrillicMarkStripped(t: string)
    requires t == "\U{045E} \U{043F}"
    ensures StripNumber(StripMark(ReflectionMarks, t)) == "\U{043F}"
  {
    assert t[1..] == " " + "\U{043F}";
    SkipOneSpace("\U{043F}");
    assert StripMark(ReflectionMarks, t) == "\U{043F}";
    assert DigitCount("\U{043F}") == 0;
  }

  /** The intended marks recognise the same list items as the suggestion
      panel, read no Cyrillic letter as a marker, and take every emoji of the
      reflection list as a heading. */
  lemma {:induction false} IntendedReflectionMarksSound()
    ensures forall c :: BulletMark(IntendedReflectionMarks, c) <==> BulletMark(SuggestionMarks, c)
    ensures forall c :: '\U{0400}' <= c <= '\U{04FF}' ==>
      !HeadingMark(IntendedReflectionMarks, c) && !BulletMark(IntendedReflectionMarks, c)
    ensures forall c :: HeadingMark(IntendedReflectionMarks, c) ==> HeadingMark(SuggestionMarks, c)
    ensures Classify(IntendedReflectionMarks, "\U{1F3AF} Focus") == Heading("\U{1F3AF} Focus")
    ensures Classify(IntendedReflectionMarks, "\U{2022} Walk") == Bullet("Walk")
  {
    var t := "\U{2022} Walk";
    assert t[1..] == " " + "Walk";
    SkipOneSpace("Walk");
    assert StripMark(IntendedReflectionMarks, t) == "Walk";
    assert DigitCount("Walk") == 0;
    assert MarkedItem(IntendedReflectionMarks, t);
  }

  /** What a component renders for the value it formats: nothing for a falsy
      value, a TypeError for a truthy non-string (`text.replace` is not a
      function), otherwise the formatted blocks. */
  datatype Rendered = NotRendered | TypeError | Blocks(blocks: seq<Block>)

  function FormatValue(m: Marks, v: Option<Json>): (r: Rendered)
    ensures r.NotRendered? <==> !TruthyOpt(v)
    ensures r.TypeError? <==> TruthyOpt(v) && !v.value.JStr?
    ensures r.Blocks? ==> v.Some? && v.value.JStr? && Format(m, v.value.s) == Some(r.blocks)
  {
    if !TruthyOpt(v) then NotRendered
    else if !v.value.JStr? then TypeError
    else Blocks(Format(m, v.value.s).value)
  }
}
