/**
 * `DocumentProcessor`'s chunking of extracted PDF text: a window of
 * `chunk_size` characters slides over the text, preferring to end at a
 * paragraph break well into the window, then just after a full stop
 * past its middle; each window is stripped, its page marker read, its
 * text cleaned, and it is kept when the cleaned text is long enough. The
 * next window starts `chunk_overlap` characters before the previous end,
 * and always at least one character further on.
 */
module DocumentProcessing {
  import opened Wrappers
  import opened Text

  const DefaultChunkSize := 1000
  const DefaultChunkOverlap := 200

  /** A chunk is kept only when its cleaned text is longer than this. */
  const MinContent := 50
  /** A cleaned line is kept only when it is longer than this. */
  const MinLine := 3

  const ParagraphMark := "\n\n"
  const FullStop := "."
  /** The head of the page marker the PDF extraction writes before each page: `[Página N]`. */
  const PageMarkHead := "[Página "

  /** The processor's two settings. */
  datatype Processor = Processor(chunkSize: int, chunkOverlap: int)

  /** `DocumentProcessor(chunk_size=1000, chunk_overlap=200)` */
  function NewProcessor(chunkSize: int := DefaultChunkSize, chunkOverlap: int := DefaultChunkOverlap): Processor {
    Processor(chunkSize, chunkOverlap)
  }

  /** The record `_chunk_text` emits for one window. */
  datatype Chunk = Chunk(
    documentId: string,
    content: string,
    chunkIndex: nat,
    pageNumber: Option<nat>,
    startChar: nat,
    endChar: int,
    characterCount: nat
  )

  function Max(a: int, b: int): int {
    if a >= b then a else b
  }

  function Min(a: int, b: int): int {
    if a <= b then a else b
  }

  // ---------------------------------------------------------------------
  // Page markers

  predicate IsDigit(c: char) {
    '0' <= c <= '9'
  }

  /** The number of decimal digits at the front of `s`. */
  function DigitRun(s: string): (n: nat)
    ensures n <= |s|
    ensures forall i :: 0 <= i < n ==> IsDigit(s[i])
    ensures n < |s| ==> !IsDigit(s[n])
    decreases |s|
  {
    if |s| > 0 && IsDigit(s[0]) then 1 + DigitRun(s[1..]) else 0
  }

  /** The pattern `\[Página (\d+)\]` matches at `s[i]`. */
  predicate MarkAt(s: string, i: nat) {
    && OccursAt(s, PageMarkHead, i)
    && var n := DigitRun(s[i + |PageMarkHead|..]);
    && n >= 1 && i + |PageMarkHead| + n < |s| && s[i + |PageMarkHead| + n] == ']'
  }

  /** The number of characters the marker at `s[i]` spans. */
  function MarkLength(s: string, i: nat): (n: nat)
    requires MarkAt(s, i)
    ensures |PageMarkHead| + 2 <= n && i + n <= |s|
  {
    |PageMarkHead| + DigitRun(s[i + |PageMarkHead|..]) + 1
  }

  /** The page number the marker at `s[i]` carries (`int(group(1))`). */
  function MarkNumber(s: string, i: nat): nat
    requires MarkAt(s, i)
  {
    var digits := s[i + |PageMarkHead|..];
    DigitsValue(digits[..DigitRun(digits)])
  }

  /** The first marker at or after `from`. */
  function FirstMark(s: string, from: nat): (r: Option<nat>)
    ensures r.Some? ==> from <= r.value && MarkAt(s, r.value)
    ensures r.Some? ==> forall j :: from <= j < r.value ==> !MarkAt(s, j)
    ensures r.None? ==> forall j :: from <= j ==> !MarkAt(s, j)
    decreases |s| - from
  {
    if from >= |s| then None
    else if MarkAt(s, from) then Some(from)
    else FirstMark(s, from + 1)
  }

  /**
   * `_extract_page_number`: the number in the first `[Página N]` of the
   * text, or nothing when there is none.
   */
  function ExtractPageNumber(text: string): (r: Option<nat>)
    ensures r.None? <==> forall i :: !MarkAt(text, i)
    ensures r.Some? ==> exists i: nat ::
      && MarkAt(text, i) && r.value == MarkNumber(text, i)
      && forall j :: 0 <= j < i ==> !MarkAt(text, j)
  {
    match FirstMark(text, 0)
    case None => None
    case Some(i) => Some(MarkNumber(text, i))
  }

  /** The line the PDF extraction puts before the text of page `n`. */
  function PageHeader(n: nat): string {
    "\n" + PageMarkHead + NatToString(n) + "]\n"
  }

  /** The page number of a page's text is read back from the header the extraction wrote. */
  lemma PageNumberRoundTrip(n: nat, page: string)
    ensures ExtractPageNumber(PageHeader(n) + page) == Some(n)
  {
    var s := PageHeader(n) + page;
    var d := NatToString(n);
    var tail := "]\n" + page;
    NatToStringDigits(n);
    assert s == "\n" + PageMarkHead + (d + tail);
    assert s[1 + |PageMarkHead|..] == d + tail;
    DigitRunPrefix(d, tail);
    assert s[1..1 + |PageMarkHead|] == PageMarkHead;
    assert MarkAt(s, 1);
    assert !MarkAt(s, 0) by {
      assert s[0] == '\n';
    }
    assert (d + tail)[..|d|] == d;
    assert FirstMark(s, 0) == Some(1);
  }

  /** `str(n)` is all digits, and `int(str(n)) == n`. */
  lemma {:induction false} NatToStringDigits(n: nat)
    ensures forall i :: 0 <= i < |NatToString(n)| ==> '0' <= NatToString(n)[i] <= '9'
    ensures DigitsValue(NatToString(n)) == n
    decreases n
  {
    var s := NatToString(n);
    DigitCharValue(n % 10);
    if n >= 10 {
      NatToStringDigits(n / 10);
      assert s[..|s| - 1] == NatToString(n / 10);
    }
  }

  lemma DigitCharValue(d: nat)
    requires d < 10
    ensures IsDigit(DigitChar(d)) && DigitChar(d) as int - '0' as int == d
  {
    if d == 0 {} else if d == 1 {} else if d == 2 {} else if d == 3 {} else if d == 4 {}
    else if d == 5 {} else if d == 6 {} else if d == 7 {} else if d == 8 {} else {}
  }

  /** A run of digits followed by a non-digit is read as exactly that run. */
  lemma {:induction false} DigitRunPrefix(d: string, t: string)
    requires forall i :: 0 <= i < |d| ==> IsDigit(d[i])
    requires |t| > 0 && !IsDigit(t[0])
    ensures DigitRun(d + t) == |d|
    decreases |d|
  {
    if |d| > 0 {
      assert (d + t)[1..] == d[1..] + t;
      DigitRunPrefix(d[1..], t);
    } else {
      assert d + t == t;
    }
  }

  // ---------------------------------------------------------------------
  // Cleaning

  /** `re.sub(r'\[Página \d+\]', '', text)`: every marker, scanning left to right, removed. */
  function RemoveMarks(s: string): (r: string)
    ensures |r| <= |s|
    decreases |s|
  {
    if s == "" then ""
    else if MarkAt(s, 0) then RemoveMarks(s[MarkLength(s, 0)..])
    else [s[0]] + RemoveMarks(s[1..])
  }

  /** Whether a marker starts at `s[i + 1]` depends only on `s[1..]`. */
  lemma MarkAtShift(s: string, i: nat)
    requires |s| > 0
    ensures MarkAt(s[1..], i) <==> MarkAt(s, i + 1)
  {
    if i + 1 + |PageMarkHead| <= |s| {
      assert s[1..][i..i + |PageMarkHead|] == s[i + 1..i + 1 + |PageMarkHead|];
      assert s[1..][i + |PageMarkHead|..] == s[i + 1 + |PageMarkHead|..];
    }
  }

  /** A text with no page marker anywhere is left as it is. */
  lemma {:induction false} RemoveMarksWithoutMarks(s: string)
    requires forall i: nat :: !MarkAt(s, i)
    ensures RemoveMarks(s) == s
    decreases |s|
  {
    if s != "" {
      assert !MarkAt(s, 0);
      forall i: nat
        ensures !MarkAt(s[1..], i)
      {
        MarkAtShift(s, i);
      }
      RemoveMarksWithoutMarks(s[1..]);
      assert s == [s[0]] + s[1..];
    }
  }

  /**
   * The header the extraction writes before a page loses its marker and
   * keeps the two line breaks around it; the page's text is cleaned on
   * its own.
   */
  lemma RemoveMarksOfPageHeader(n: nat, page: string)
    ensures RemoveMarks(PageHeader(n) + page) == "\n\n" + RemoveMarks(page)
  {
    var marked := PageMarkHead + NatToString(n) + "]\n" + page;
    assert PageHeader(n) + page == "\n" + marked;
    RemoveMarksAfterBreak(marked);
    RemoveMarksOfMarker(n, page);
    RemoveMarksAfterBreak(page);
  }

  /** A leading line break is never part of a marker. */
  lemma RemoveMarksAfterBreak(t: string)
    ensures RemoveMarks("\n" + t) == "\n" + RemoveMarks(t)
  {
    var s := "\n" + t;
    assert !MarkAt(s, 0) by {
      assert s[0] == '\n';
    }
    assert s[1..] == t;
  }

  /** A marker at the front is dropped whole. */
  lemma RemoveMarksOfMarker(n: nat, page: string)
    ensures RemoveMarks(PageMarkHead + NatToString(n) + "]\n" + page) == RemoveMarks("\n" + page)
  {
    NatToStringDigits(n);
    var s := PageMarkHead + NatToString(n) + "]\n" + page;
    assert s == PageMarkHead + (NatToString(n) + ("]" + ("\n" + page)));
    RemoveMarkRun(s, NatToString(n), "\n" + page);
  }

  /** A marker made of a run of digits is dropped whole, and the text after it is cleaned on. */
  lemma RemoveMarkRun(s: string, d: string, after: string)
    requires |d| >= 1 && forall i :: 0 <= i < |d| ==> IsDigit(d[i])
    requires s == PageMarkHead + (d + ("]" + after))
    ensures RemoveMarks(s) == RemoveMarks(after)
  {
    var k := |PageMarkHead| + |d| + 1;
    assert MarkAt(s, 0) && MarkLength(s, 0) == k by {
      MarkAtFront(d, "]" + after);
    }
    assert s[k..] == after by {
      assert s == (PageMarkHead + d + "]") + after;
    }
    RemoveMarksAtMark(s, k, after);
  }

  /** At a marker, cleaning skips the whole marker. */
  lemma RemoveMarksAtMark(s: string, k: nat, after: string)
    requires MarkAt(s, 0) && MarkLength(s, 0) == k && s[k..] == after
    ensures RemoveMarks(s) == RemoveMarks(after)
  {
  }

  /** `[Página ` followed by a run of digits and `]` is a marker spanning exactly those characters. */
  lemma MarkAtFront(d: string, tail: string)
    requires |d| >= 1 && forall i :: 0 <= i < |d| ==> IsDigit(d[i])
    requires |tail| > 0 && tail[0] == ']'
    ensures MarkAt(PageMarkHead + (d + tail), 0)
    ensures MarkLength(PageMarkHead + (d + tail), 0) == |PageMarkHead| + |d| + 1
  {
    var s := PageMarkHead + (d + tail);
    assert s[|PageMarkHead|..] == d + tail;
    DigitRunPrefix(d, tail);
    assert s[..|PageMarkHead|] == PageMarkHead;
    assert s[|PageMarkHead| + |d|] == (d + tail)[|d|] == ']';
  }

  /** `re.sub(r'\s+', ' ', text)`: every run of white space becomes one blank. */
  function Collapse(s: string): (r: string)
    ensures SingleSpacedText(r)
    ensures |s| > 0 ==> |r| > 0 && (IsSpace(r[0]) <==> IsSpace(s[0]))
    decreases |s|
  {
    if s == "" then ""
    else if IsSpace(s[0]) then " " + Collapse(s[SkipSpaces(s, 0, |s|)..])
    else [s[0]] + Collapse(s[1..])
  }

  /** Collapsing white space keeps every other character, in order. */
  lemma {:induction false} CollapseKeepsText(s: string)
    ensures NonSpace(Collapse(s)) == NonSpace(s)
    decreases |s|
  {
    if s != "" {
      if IsSpace(s[0]) {
        var k := SkipSpaces(s, 0, |s|);
        CollapseKeepsText(s[k..]);
        assert s == s[..k] + s[k..];
        NonSpaceAppend(s[..k], s[k..]);
        assert IsBlank(s[..k]);
        NonSpaceOfBlank(s[..k]);
        NonSpaceAppend(" ", Collapse(s[k..]));
        NonSpaceOfBlank(" ");
      } else {
        CollapseKeepsText(s[1..]);
        NonSpaceAppend([s[0]], Collapse(s[1..]));
        NonSpaceAppend([s[0]], s[1..]);
        assert s == [s[0]] + s[1..];
      }
    }
  }

  /**
   * `[line.strip() for line in lines if len(line.strip()) > 3]`: every
   * kept line is stripped and longer than three characters, every such
   * line is kept, and nothing else is.
   */
  function KeepLines(lines: seq<string>): (r: seq<string>)
    ensures |r| <= |lines|
    ensures forall j :: 0 <= j < |r| ==> IsTrimmed(r[j]) && |r[j]| > MinLine
    decreases |lines|
  {
    if lines == [] then []
    else (if |Strip(lines[0])| > MinLine then [Strip(lines[0])] else []) + KeepLines(lines[1..])
  }

  /** The lines, each stripped. */
  function StrippedLines(lines: seq<string>): (r: seq<string>)
    ensures |r| == |lines| && forall i :: 0 <= i < |lines| ==> r[i] == Strip(lines[i])
  {
    seq(|lines|, i requires 0 <= i < |lines| => Strip(lines[i]))
  }

  /** Every line longer than three characters once stripped is kept. */
  lemma {:induction false} KeepLinesComplete(lines: seq<string>)
    ensures forall i :: 0 <= i < |lines| && |Strip(lines[i])| > MinLine ==> Strip(lines[i]) in KeepLines(lines)
    decreases |lines|
  {
    if lines != [] {
      KeepLinesComplete(lines[1..]);
      forall i | 0 < i < |lines| && |Strip(lines[i])| > MinLine
        ensures Strip(lines[i]) in KeepLines(lines)
      {
        assert lines[1..][i - 1] == lines[i];
      }
    }
  }

  /** Nothing but a stripped line is kept. */
  lemma {:induction false} KeepLinesSound(lines: seq<string>)
    ensures forall x :: x in KeepLines(lines) ==> x in StrippedLines(lines)
    decreases |lines|
  {
    if lines != [] {
      var head := if |Strip(lines[0])| > MinLine then [Strip(lines[0])] else [];
      var rest := KeepLines(lines[1..]);
      KeepLinesSound(lines[1..]);
      assert KeepLines(lines) == head + rest;
      StrippedLinesCons(lines);
    }
  }

  /** Stripping the lines one by one, from the front. */
  lemma StrippedLinesCons(lines: seq<string>)
    requires lines != []
    ensures StrippedLines(lines) == [Strip(lines[0])] + StrippedLines(lines[1..])
  {
    var a, b := StrippedLines(lines), [Strip(lines[0])] + StrippedLines(lines[1..]);
    assert |a| == |b|;
    forall i | 0 <= i < |a|
      ensures a[i] == b[i]
    {
      if i > 0 {
        assert lines[1..][i - 1] == lines[i];
      }
    }
  }

  /** Filtering keeps the order of the lines: it distributes over concatenation. */
  lemma {:induction false} KeepLinesAppend(a: seq<string>, b: seq<string>)
    ensures KeepLines(a + b) == KeepLines(a) + KeepLines(b)
    decreases |a|
  {
    if a != [] {
      assert (a + b)[0] == a[0];
      assert (a + b)[1..] == a[1..] + b;
      KeepLinesAppend(a[1..], b);
    } else {
      assert a + b == b;
    }
  }

  /**
   * `_clean_chunk_text`: markers removed, white space collapsed, lines of
   * three characters or fewer dropped, the rest stripped and joined. Once
   * white space is collapsed there is no newline left, so the text is one
   * line, kept stripped when it is longer than three characters.
   */
  function CleanChunkText(text: string): (r: string)
    ensures var line := Strip(Collapse(RemoveMarks(text)));
      r == if |line| > MinLine then line else ""
  {
    var collapsed := Collapse(RemoveMarks(text));
    OneLine(collapsed);
    Strip(Join(KeepLines(Split(collapsed, "\n")), "\n"))
  }

  /** A text without a newline is one line. */
  lemma OneLine(s: string)
    requires forall i :: 0 <= i < |s| ==> s[i] != '\n'
    ensures Strip(Join(KeepLines(Split(s, "\n")), "\n")) == if |Strip(s)| > MinLine then Strip(s) else ""
  {
    forall i | 0 <= i && i + 1 <= |s|
      ensures !OccursAt(s, "\n", i)
    {
      assert s[i..i + 1][0] == s[i];
    }
    assert Split(s, "\n") == [s];
    StripTrimmed(Strip(s));
    assert Strip("") == "";
  }

  /**
   * The cleaned text is empty or longer than three characters, stripped,
   * has no newline and no two white-space characters in a row, and keeps,
   * when not empty, every non-space character of the text outside the
   * markers.
   */
  lemma CleanShape(text: string)
    ensures var r := CleanChunkText(text);
      && (r == "" || |r| > MinLine)
      && IsTrimmed(r)
      && (forall i :: 0 <= i < |r| ==> r[i] != '\n')
      && (forall i :: 0 <= i < |r| - 1 ==> !IsSpace(r[i]) || !IsSpace(r[i + 1]))
  {
    var c := Collapse(RemoveMarks(text));
    var r := CleanChunkText(text);
    if r != "" {
      assert r == Strip(c);
      StrippedSingleSpaced(c);
    }
  }

  /** Stripping single-spaced text leaves single-spaced text without a newline. */
  lemma StrippedSingleSpaced(c: string)
    requires SingleSpacedText(c)
    ensures SingleSpacedText(Strip(c))
    ensures forall i :: 0 <= i < |Strip(c)| ==> Strip(c)[i] != '\n'
  {
    SingleSpaced(c, StripStart(c), StripEnd(c));
    assert IsSpace('\n');
  }

  /** Cleaning drops the page markers and white space and nothing else, unless it drops everything. */
  lemma CleanKeepsText(text: string)
    ensures var r := CleanChunkText(text);
      r == "" || NonSpace(r) == NonSpace(RemoveMarks(text))
  {
    var c := Collapse(RemoveMarks(text));
    if CleanChunkText(text) != "" {
      NonSpaceStrip(c);
      CollapseKeepsText(RemoveMarks(text));
    }
  }

  /** Every white-space character is a blank, and no two are adjacent. */
  predicate SingleSpacedText(s: string) {
    && (forall i :: 0 <= i < |s| ==> s[i] == ' ' || !IsSpace(s[i]))
    && (forall i :: 0 <= i < |s| - 1 ==> !IsSpace(s[i]) || !IsSpace(s[i + 1]))
  }

  /** A slice of single-spaced text is single-spaced. */
  lemma SingleSpaced(s: string, a: nat, b: nat)
    requires a <= b <= |s| && SingleSpacedText(s)
    ensures SingleSpacedText(s[a..b])
  {
    var r := s[a..b];
    forall i | 0 <= i < |r| - 1
      ensures !IsSpace(r[i]) || !IsSpace(r[i + 1])
    {
      assert r[i] == s[a + i] && r[i + 1] == s[a + i + 1];
    }
  }

  // ---------------------------------------------------------------------
  // Windows

  /**
   * A paragraph break `chunk_size * 0.3` or more characters into the
   * window `[start, start + size)`, lying wholly inside it. The fractional
   * threshold is compared exactly, scaled to integers.
   */
  predicate ParagraphCut(text: string, start: nat, size: int, i: int) {
    && start <= i && i + |ParagraphMark| <= start + size
    && OccursAt(text, ParagraphMark, i)
    && 10 * (i - start) > 3 * size
  }

  /** A full stop past the middle of the window `[start, start + size)`. */
  predicate SentenceCut(text: string, start: nat, size: int, j: int) {
    && start <= j && j + |FullStop| <= start + size
    && OccursAt(text, FullStop, j)
    && 10 * (j - start) > 5 * size
  }

  /**
   * Where the window starting at `start` ends: after `start`, within
   * `size` characters, and at its full size, which may run past the text,
   * when it reaches the end of the text.
   */
  function WindowEnd(text: string, start: nat, size: int): (end: int)
    requires start < |text| && size > 0
    ensures start < end <= start + size
    ensures start + size >= |text| ==> end == start + size
  {
    var limit := start + size;
    if limit < |text| then
      var paragraph := RFind(text, ParagraphMark, start, limit);
      if 10 * (paragraph - start) > 3 * size then paragraph
      else
        var sentence := RFind(text, FullStop, start, limit);
        if 10 * (sentence - start) > 5 * size then sentence + 1 else limit
    else limit
  }

  /**
   * A window that does not reach the end of the text ends at its last
   * paragraph break when that is more than 30% in.
   */
  lemma ParagraphBreakFirst(text: string, start: nat, size: int, i: int)
    requires start < |text| && size > 0 && start + size < |text|
    requires ParagraphCut(text, start, size, i)
    ensures var end := WindowEnd(text, start, size);
      ParagraphCut(text, start, size, end) && forall i' :: ParagraphCut(text, start, size, i') ==> i' <= end
  {
    var paragraph := RFind(text, ParagraphMark, start, start + size);
    assert paragraph >= i;
    assert WindowEnd(text, start, size) == paragraph;
  }

  /** A window with no paragraph break more than 30% in has no paragraph break past its 30% mark. */
  lemma NoParagraphBreak(text: string, start: nat, size: int)
    requires start < |text| && size > 0 && start + size < |text|
    requires forall i :: !ParagraphCut(text, start, size, i)
    ensures 10 * (RFind(text, ParagraphMark, start, start + size) - start) <= 3 * size
  {
    var paragraph := RFind(text, ParagraphMark, start, start + size);
    if paragraph != -1 {
      assert !ParagraphCut(text, start, size, paragraph);
    }
  }

  /**
   * Failing that, it ends just after its last full stop when that is more
   * than 50% in.
   */
  lemma SentenceBreakNext(text: string, start: nat, size: int, j: int)
    requires start < |text| && size > 0 && start + size < |text|
    requires forall i :: !ParagraphCut(text, start, size, i)
    requires SentenceCut(text, start, size, j)
    ensures var end := WindowEnd(text, start, size);
      SentenceCut(text, start, size, end - 1) && forall j' :: SentenceCut(text, start, size, j') ==> j' < end
  {
    NoParagraphBreak(text, start, size);
    var sentence := RFind(text, FullStop, start, start + size);
    assert sentence >= j;
    assert WindowEnd(text, start, size) == sentence + 1;
  }

  /** Failing both, it keeps its full size. */
  lemma FullSizeLast(text: string, start: nat, size: int)
    requires start < |text| && size > 0
    requires forall i :: !ParagraphCut(text, start, size, i)
    requires forall j :: !SentenceCut(text, start, size, j)
    ensures WindowEnd(text, start, size) == start + size
  {
    if start + size < |text| {
      NoParagraphBreak(text, start, size);
      var sentence := RFind(text, FullStop, start, start + size);
      if sentence != -1 {
        assert !SentenceCut(text, start, size, sentence);
      }
    }
  }

  /** `text[start:end].strip()`, the slice cut short at the end of the text. */
  function Raw(p: Processor, text: string, start: nat): string
    requires start < |text| && p.chunkSize > 0
  {
    Strip(text[start..Min(WindowEnd(text, start, p.chunkSize), |text|)])
  }

  /** The window at `start` yields a chunk: its cleaned text is long enough. */
  predicate Kept(p: Processor, text: string, start: nat)
    requires start < |text| && p.chunkSize > 0
  {
    |CleanChunkText(Raw(p, text, start))| > MinContent
  }

  /** `c` is the chunk of document `documentId` that the window at `c.startChar` yields. */
  predicate FromWindow(p: Processor, text: string, documentId: string, c: Chunk)
    requires p.chunkSize > 0
  {
    && c.startChar < |text|
    && c.endChar == WindowEnd(text, c.startChar, p.chunkSize)
    && c.documentId == documentId
    && c.content == CleanChunkText(Raw(p, text, c.startChar))
    && c.pageNumber == ExtractPageNumber(Raw(p, text, c.startChar))
    && c.characterCount == |c.content|
    && |c.content| > MinContent
  }

  /** One window of `_chunk_text`: the chunk it yields, numbered `index`, if any. */
  function Cut(p: Processor, text: string, documentId: string, start: nat, index: nat): (r: Option<Chunk>)
    requires start < |text| && p.chunkSize > 0
    ensures r.Some? <==> Kept(p, text, start)
    ensures r.Some? ==> FromWindow(p, text, documentId, r.value)
    ensures r.Some? ==> r.value.startChar == start && r.value.chunkIndex == index
  {
    var end := WindowEnd(text, start, p.chunkSize);
    var chunkText := text[start..Min(end, |text|)];
    var stripped := Strip(chunkText);
    if stripped != "" then
      var pageNumber := ExtractPageNumber(stripped);
      var clean := CleanChunkText(stripped);
      if clean != "" && |clean| > MinContent then
        Some(Chunk(documentId, clean, index, pageNumber, start, end, |clean|))
      else None
    else
      assert CleanChunkText(stripped) == "" by {
        assert RemoveMarks(stripped) == "";
      }
      None
  }

  /**
   * `max(end - chunk_overlap, start + 1)`: the next window starts at least
   * one character further on, and no more than `chunk_overlap` characters
   * before the end of this one; with a non-negative overlap it leaves no
   * gap.
   */
  function NextStart(p: Processor, text: string, start: nat): (r: nat)
    requires start < |text| && p.chunkSize > 0
    ensures r > start
    ensures r >= WindowEnd(text, start, p.chunkSize) - p.chunkOverlap
    ensures r == start + 1 || r == WindowEnd(text, start, p.chunkSize) - p.chunkOverlap
    ensures p.chunkOverlap >= 0 ==> r <= WindowEnd(text, start, p.chunkSize)
  {
    Max(WindowEnd(text, start, p.chunkSize) - p.chunkOverlap, start + 1)
  }

  /** `starts` are the windows `_chunk_text` visits, from the start of the text until the next start is past its end. */
  ghost predicate Visits(p: Processor, text: string, starts: seq<nat>)
    requires p.chunkSize > 0
  {
    && |starts| > 0 && starts[0] == 0
    && (forall k :: 0 <= k < |starts| ==> starts[k] < |text|)
    && (forall k :: 0 <= k < |starts| - 1 ==> starts[k + 1] == NextStart(p, text, starts[k]))
    && NextStart(p, text, starts[|starts| - 1]) >= |text|
  }

  /** The windows visited before the one at `start`. */
  ghost predicate Walked(p: Processor, text: string, start: nat, starts: seq<nat>)
    requires p.chunkSize > 0
  {
    && (forall k :: 0 <= k < |starts| ==> starts[k] < start && starts[k] < |text|)
    && (starts == [] ==> start == 0)
    && (starts != [] ==> starts[0] == 0 && start == NextStart(p, text, starts[|starts| - 1]))
    && (forall k :: 0 <= k < |starts| - 1 ==> starts[k + 1] == NextStart(p, text, starts[k]))
  }

  /** The chunks emitted before the window at `start`: numbered, in order, overlapping by at most `chunk_overlap`. */
  ghost predicate Emitted(p: Processor, text: string, documentId: string, start: nat, chunks: seq<Chunk>)
    requires p.chunkSize > 0
  {
    && (forall i :: 0 <= i < |chunks| ==> chunks[i].chunkIndex == i)
    && (forall i :: 0 <= i < |chunks| ==> chunks[i].startChar < start)
    && (forall i :: 0 <= i < |chunks| ==> chunks[i].endChar - p.chunkOverlap <= start)
    && (forall i, j :: 0 <= i < j < |chunks| ==> chunks[i].startChar < chunks[j].startChar)
    && (forall i, j :: 0 <= i < j < |chunks| ==> chunks[j].startChar >= chunks[i].endChar - p.chunkOverlap)
  }

  /** Every chunk is what its window yields. */
  ghost predicate Sourced(p: Processor, text: string, documentId: string, chunks: seq<Chunk>)
    requires p.chunkSize > 0
  {
    forall i :: 0 <= i < |chunks| ==> FromWindow(p, text, documentId, chunks[i])
  }

  /** Every chunk starts at one of `starts`. */
  predicate Listed(chunks: seq<Chunk>, starts: seq<nat>) {
    forall i :: 0 <= i < |chunks| ==> chunks[i].startChar in starts
  }

  /** The starts inside the text whose window yields a chunk. */
  function KeepOf(p: Processor, text: string): nat -> bool
    requires p.chunkSize > 0
  {
    (x: nat) => x < |text| && Kept(p, text, x)
  }

  /** Every start among `starts` that `keep` accepts has its chunk. */
  predicate MatchedBy(keep: nat -> bool, chunks: seq<Chunk>, starts: seq<nat>) {
    forall k :: 0 <= k < |starts| && keep(starts[k]) ==> Covered(chunks, starts[k])
  }

  /** Every kept window among `starts` has its chunk. */
  predicate Matched(p: Processor, text: string, chunks: seq<Chunk>, starts: seq<nat>)
    requires p.chunkSize > 0
  {
    MatchedBy(KeepOf(p, text), chunks, starts)
  }

  /** Some chunk starts at `start`. */
  predicate Covered(chunks: seq<Chunk>, start: nat) {
    exists i :: 0 <= i < |chunks| && chunks[i].startChar == start
  }

  /** What the loop of `_chunk_text` has done once it is about to look at the window at `start`. */
  ghost predicate Scanned(
    p: Processor, text: string, documentId: string, start: nat, chunks: seq<Chunk>, starts: seq<nat>
  )
    requires p.chunkSize > 0
  {
    && Walked(p, text, start, starts)
    && Emitted(p, text, documentId, start, chunks)
    && Sourced(p, text, documentId, chunks)
    && Listed(chunks, starts)
    && Matched(p, text, chunks, starts)
  }

  /**
   * `_chunk_text`. Blank text gives no chunks. Otherwise the windows are
   * visited in order (`starts`, a ghost record of them); every window whose
   * cleaned text is long enough yields a chunk, and only those do; chunks
   * are numbered 0, 1, 2, … and start strictly later one after another,
   * each no earlier than `chunk_overlap` characters before the end of any
   * chunk before it.
   */
  method ChunkText(p: Processor, text: string, documentId: string) returns (chunks: seq<Chunk>, ghost starts: seq<nat>)
    requires p.chunkSize > 0
    ensures IsBlank(text) ==> chunks == []
    ensures !IsBlank(text) ==> Visits(p, text, starts)
    ensures forall i :: 0 <= i < |chunks| ==> chunks[i].chunkIndex == i && FromWindow(p, text, documentId, chunks[i])
    ensures forall i, j :: 0 <= i < j < |chunks| ==> chunks[i].startChar < chunks[j].startChar
    ensures forall i, j :: 0 <= i < j < |chunks| ==> chunks[j].startChar >= chunks[i].endChar - p.chunkOverlap
    ensures forall i :: 0 <= i < |chunks| ==> chunks[i].startChar in starts
    ensures forall k :: 0 <= k < |starts| ==> starts[k] < |text|
    ensures forall k :: 0 <= k < |starts| && Kept(p, text, starts[k]) ==>
      exists i :: 0 <= i < |chunks| && chunks[i].startChar == starts[k]
  {
    if Strip(text) == "" {
      return [], [];
    }
    chunks, starts := [], [];
    var start: nat := 0;
    while start < |text|
      invariant Scanned(p, text, documentId, start, chunks, starts)
      decreases |text| - start
    {
      chunks, starts, start := Scan(p, text, documentId, start, chunks, starts);
    }
  }

  /** One round of the loop: the window at `start` is cut, and the next start computed. */
  method Scan(
    p: Processor, text: string, documentId: string, start: nat, chunks: seq<Chunk>, ghost starts: seq<nat>
  ) returns (chunks': seq<Chunk>, ghost starts': seq<nat>, start': nat)
    requires p.chunkSize > 0 && start < |text|
    requires Scanned(p, text, documentId, start, chunks, starts)
    ensures start' > start
    ensures Scanned(p, text, documentId, start', chunks', starts')
  {
    var cut := Cut(p, text, documentId, start, |chunks|);
    chunks' := if cut.Some? then chunks + [cut.value] else chunks;
    starts' := starts + [start];
    start' := NextStart(p, text, start);
    WalkStep(p, text, start, starts);
    EmitStep(p, text, documentId, start, chunks, cut);
    if cut.Some? {
      SourceStep(p, text, documentId, chunks, cut.value);
    }
    ListStep(chunks, starts, start, cut);
    MatchStep(p, text, start, chunks, starts, cut);
  }

  lemma WalkStep(p: Processor, text: string, start: nat, starts: seq<nat>)
    requires p.chunkSize > 0 && start < |text|
    requires Walked(p, text, start, starts)
    ensures Walked(p, text, NextStart(p, text, start), starts + [start])
  {
    assert (starts + [start])[|starts|] == start;
  }

  lemma EmitStep(p: Processor, text: string, documentId: string, start: nat, chunks: seq<Chunk>, cut: Option<Chunk>)
    requires p.chunkSize > 0 && start < |text|
    requires Emitted(p, text, documentId, start, chunks)
    requires cut.Some? ==> cut.value.startChar == start && cut.value.endChar == WindowEnd(text, start, p.chunkSize)
    requires cut.Some? ==> cut.value.startChar == start && cut.value.chunkIndex == |chunks|
    ensures Emitted(p, text, documentId, NextStart(p, text, start), if cut.Some? then chunks + [cut.value] else chunks)
  {
  }

  lemma SourceStep(p: Processor, text: string, documentId: string, chunks: seq<Chunk>, c: Chunk)
    requires p.chunkSize > 0
    requires Sourced(p, text, documentId, chunks) && FromWindow(p, text, documentId, c)
    ensures Sourced(p, text, documentId, chunks + [c])
  {
    forall i | 0 <= i < |chunks| + 1
      ensures FromWindow(p, text, documentId, (chunks + [c])[i])
    {
      if i < |chunks| {
        assert (chunks + [c])[i] == chunks[i];
      }
    }
  }

  /** Appending a chunk keeps every start covered, and covers the new chunk's. */
  lemma CoveredStep(chunks: seq<Chunk>, cut: Option<Chunk>)
    ensures forall x :: Covered(chunks, x) ==> Covered(if cut.Some? then chunks + [cut.value] else chunks, x)
    ensures cut.Some? ==> Covered(chunks + [cut.value], cut.value.startChar)
  {
    var chunks' := if cut.Some? then chunks + [cut.value] else chunks;
    forall x | Covered(chunks, x)
      ensures Covered(chunks', x)
    {
      var i :| 0 <= i < |chunks| && chunks[i].startChar == x;
      assert chunks'[i] == chunks[i];
    }
    if cut.Some? {
      assert chunks'[|chunks|] == cut.value;
    }
  }

  lemma ListStep(chunks: seq<Chunk>, starts: seq<nat>, start: nat, cut: Option<Chunk>)
    requires Listed(chunks, starts)
    requires cut.Some? ==> cut.value.startChar == start
    ensures Listed(if cut.Some? then chunks + [cut.value] else chunks, starts + [start])
  {
    var chunks' := if cut.Some? then chunks + [cut.value] else chunks;
    forall i | 0 <= i < |chunks'|
      ensures chunks'[i].startChar in starts + [start]
    {
      if i < |chunks| {
        assert chunks'[i] == chunks[i];
      }
    }
  }

  lemma MatchStep(p: Processor, text: string, start: nat, chunks: seq<Chunk>, starts: seq<nat>, cut: Option<Chunk>)
    requires p.chunkSize > 0 && start < |text|
    requires Matched(p, text, chunks, starts)
    requires cut.Some? <==> Kept(p, text, start)
    requires cut.Some? ==> cut.value.startChar == start
    ensures Matched(p, text, if cut.Some? then chunks + [cut.value] else chunks, starts + [start])
  {
    assert cut.Some? <==> KeepOf(p, text)(start);
    MatchedStep(KeepOf(p, text), start, chunks, starts, cut);
  }

  /** Looking at one more start keeps every accepted start covered, whatever decides acceptance. */
  lemma MatchedStep(keep: nat -> bool, start: nat, chunks: seq<Chunk>, starts: seq<nat>, cut: Option<Chunk>)
    requires MatchedBy(keep, chunks, starts)
    requires cut.Some? <==> keep(start)
    requires cut.Some? ==> cut.value.startChar == start
    ensures MatchedBy(keep, if cut.Some? then chunks + [cut.value] else chunks, starts + [start])
  {
    var chunks' := if cut.Some? then chunks + [cut.value] else chunks;
    var starts' := starts + [start];
    CoveredStep(chunks, cut);
    forall k | 0 <= k < |starts'| && keep(starts'[k])
      ensures Covered(chunks', starts'[k])
    {
      if k < |starts| {
        assert starts'[k] == starts[k];
      }
    }
  }

  /**
   * With a non-negative overlap the windows leave no character of the text
   * out: every position lies inside some visited window.
   */
  lemma WindowsCover(p: Processor, text: string, starts: seq<nat>, pos: nat)
    requires p.chunkSize > 0 && p.chunkOverlap >= 0
    requires Visits(p, text, starts)
    requires pos < |text|
    ensures exists k :: 0 <= k < |starts| && starts[k] <= pos < WindowEnd(text, starts[k], p.chunkSize)
  {
    var k := 0;
    while k + 1 < |starts| && starts[k + 1] <= pos
      invariant 0 <= k < |starts| && starts[k] <= pos
      decreases |starts| - k
    {
      k := k + 1;
    }
    assert pos < NextStart(p, text, starts[k]);
  }
}
