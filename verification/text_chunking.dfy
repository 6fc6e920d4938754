/**
 * `TextChunker`: the two greedy chunkers. The text is cut into pieces
 * (sentences, or paragraphs), and consecutive pieces are packed into one
 * chunk while the chunk stays within the size limit; a piece is never cut.
 */
module TextChunking {
  import opened Text

  const DefaultMaxChunkSize := 1000
  const SentenceGlue := " "
  const ParagraphBreak := "\n\n"

  /** A character that ends a sentence. */
  predicate SentenceEnd(c: char) {
    c == '.' || c == '!' || c == '?'
  }

  /** `s` breaks between sentences at `i`: a sentence end followed by white space. */
  predicate BreaksAt(s: string, i: nat)
    requires 1 <= i < |s|
  {
    SentenceEnd(s[i - 1]) && IsSpace(s[i])
  }

  /** The first sentence break of `s` at or after `i`, or `|s|` when there is none. */
  function NextBreak(s: string, i: nat): (b: nat)
    requires 1 <= i <= |s|
    ensures i <= b <= |s|
    ensures b < |s| ==> BreaksAt(s, b)
    ensures forall k :: i <= k < b && k < |s| ==> !BreaksAt(s, k)
    decreases |s| - i
  {
    if i == |s| then i else if BreaksAt(s, i) then i else NextBreak(s, i + 1)
  }

  /**
   * `re.split(r'(?<=[.!?])\s+', text)`: the text is cut at every run of
   * white space that follows a sentence end, and the runs are dropped.
   */
  function Sentences(s: string): (parts: seq<string>)
    ensures |parts| >= 1
    decreases |s|
  {
    if |s| == 0 then [s]
    else
      var b := NextBreak(s, 1);
      if b == |s| then [s] else [s[..b]] + Sentences(s[SkipSpaces(s, b, |s|)..])
  }

  /** Every sentence but the last ends with a sentence end and none is cut inside. */
  lemma {:induction false} SentencesEndAtBreaks(s: string)
    ensures forall k :: 0 <= k < |Sentences(s)| - 1 ==>
      |Sentences(s)[k]| > 0 && SentenceEnd(Sentences(s)[k][|Sentences(s)[k]| - 1])
    decreases |s|
  {
    if |s| > 0 {
      var b := NextBreak(s, 1);
      if b < |s| {
        var rest := s[SkipSpaces(s, b, |s|)..];
        SentencesEndAtBreaks(rest);
        assert Sentences(s) == [s[..b]] + Sentences(rest);
      }
    }
  }

  /** Splitting into sentences only drops white space. */
  lemma {:induction false} SentencesKeepText(s: string)
    ensures NonSpace(Concat(Sentences(s))) == NonSpace(s)
    decreases |s|
  {
    if |s| > 0 {
      var b := NextBreak(s, 1);
      if b < |s| {
        var j := SkipSpaces(s, b, |s|);
        var rest := s[j..];
        SentencesKeepText(rest);
        assert Sentences(s) == [s[..b]] + Sentences(rest);
        assert Concat(Sentences(s)) == s[..b] + Concat(Sentences(rest));
        SentenceGlueKeepsText(s, b, j, Concat(Sentences(rest)));
      } else {
        ConcatSingle(s);
      }
    }
  }

  /** A head, then the white space after it dropped, then text as rich as the remainder: the text's characters. */
  lemma SentenceGlueKeepsText(s: string, b: nat, j: nat, tail: string)
    requires b <= j <= |s|
    requires forall i :: b <= i < j ==> IsSpace(s[i])
    requires NonSpace(tail) == NonSpace(s[j..])
    ensures NonSpace(s[..b] + tail) == NonSpace(s)
  {
    NonSpaceAppend(s[..b], tail);
    RunIsBlank(s, b, j);
    assert s == s[..b] + s[b..j] + s[j..];
    DropRun(s[..b], s[b..j], s[j..]);
  }

  /** A slice of white-space characters is blank. */
  lemma RunIsBlank(s: string, b: nat, j: nat)
    requires b <= j <= |s|
    requires forall i :: b <= i < j ==> IsSpace(s[i])
    ensures IsBlank(s[b..j])
  {
    forall i | 0 <= i < j - b
      ensures IsSpace(s[b..j][i])
    {
      assert s[b..j][i] == s[b + i];
    }
  }

  /** Cutting a blank run out of a text keeps its non-space characters. */
  lemma DropRun(head: string, run: string, tail: string)
    requires IsBlank(run)
    ensures NonSpace(head + run + tail) == NonSpace(head) + NonSpace(tail)
  {
    NonSpaceOfBlank(run);
    NonSpaceAppend(head + run, tail);
    NonSpaceAppend(head, run);
  }

  lemma ConcatSingle(p: string)
    ensures Concat([p]) == p
  {
    assert [p][1..] == [];
  }

  /** Joining with a blank separator only adds white space. */
  lemma {:induction false} JoinKeepsText(parts: seq<string>, sep: string)
    requires IsBlank(sep)
    ensures NonSpace(Join(parts, sep)) == NonSpace(Concat(parts))
    decreases |parts|
  {
    if |parts| == 1 {
      ConcatSingle(parts[0]);
      assert parts == [parts[0]];
    } else if |parts| > 1 {
      JoinKeepsText(parts[1..], sep);
      NonSpaceAppend(parts[0] + sep, Join(parts[1..], sep));
      NonSpaceAppend(parts[0], sep);
      NonSpaceOfBlank(sep);
      NonSpaceAppend(parts[0], Concat(parts[1..]));
    }
  }

  /** `text.split('\n\n')` only drops white space. */
  lemma ParagraphsKeepText(s: string)
    ensures NonSpace(Concat(Split(s, ParagraphBreak))) == NonSpace(s)
  {
    JoinSplit(s, ParagraphBreak);
    JoinKeepsText(Split(s, ParagraphBreak), ParagraphBreak);
  }

  /** The pieces as a chunk accumulates them: each followed by the separator. */
  function Glue(pieces: seq<string>, sep: string): string
    decreases |pieces|
  {
    if |pieces| == 0 then "" else Glue(pieces[..|pieces| - 1], sep) + pieces[|pieces| - 1] + sep
  }

  lemma {:induction false} GlueKeepsText(pieces: seq<string>, sep: string)
    requires IsBlank(sep)
    ensures NonSpace(Glue(pieces, sep)) == NonSpace(Concat(pieces))
    decreases |pieces|
  {
    if |pieces| > 0 {
      var init, last := pieces[..|pieces| - 1], pieces[|pieces| - 1];
      GlueKeepsText(init, sep);
      assert pieces == init + [last];
      ConcatAppend(init, [last]);
      ConcatSingle(last);
      NonSpaceAppend(Glue(init, sep) + last, sep);
      NonSpaceAppend(Glue(init, sep), last);
      NonSpaceAppend(Concat(init), last);
      NonSpaceOfBlank(sep);
    }
  }

  /** A trailing blank separator is gone once the text is stripped. */
  lemma StripDropsSeparator(x: string, sep: string)
    requires IsBlank(sep)
    ensures |Strip(x + sep)| <= |x|
  {
    var s := x + sep;
    forall i | |x| <= i < |s|
      ensures IsSpace(s[i])
    {
      assert s[i] == sep[i - |x|];
    }
  }

  /** A trimmed non-empty string has a non-space character. */
  lemma TrimmedNotBlank(c: string)
    requires c != "" && IsTrimmed(c)
    ensures NonSpace(c) != ""
  {
    NonSpaceOfBlank(c);
  }

  /** Only white space, spread over strings none of which is empty and trimmed. */
  lemma {:induction false} NoTrimmedChunkInBlank(chunks: seq<string>)
    requires forall i :: 0 <= i < |chunks| ==> chunks[i] != "" && IsTrimmed(chunks[i])
    requires NonSpace(Concat(chunks)) == ""
    ensures chunks == []
  {
    if chunks != [] {
      assert Concat(chunks) == chunks[0] + Concat(chunks[1..]);
      NonSpaceAppend(chunks[0], Concat(chunks[1..]));
      TrimmedNotBlank(chunks[0]);
    }
  }

  /**
   * What holds of the chunks emitted so far: each is non-empty and trimmed,
   * and is the stripped glue of its own range of pieces; the ranges lie
   * before `bound`, in order and without overlap; a chunk of two or more
   * pieces is within `maxSize`.
   */
  ghost predicate Emitted(
    pieces: seq<string>, sep: string, maxSize: int, bound: nat,
    chunks: seq<string>, groups: seq<(nat, nat)>
  )
    requires bound <= |pieces|
  {
    && |groups| == |chunks|
    && (forall i :: 0 <= i < |chunks| ==> chunks[i] != "" && IsTrimmed(chunks[i]))
    && (forall i :: 0 <= i < |groups| ==> groups[i].0 < groups[i].1 <= bound)
    && (forall i, j :: 0 <= i < j < |groups| ==> groups[i].1 <= groups[j].0)
    && (forall i :: 0 <= i < |chunks| ==> chunks[i] == Strip(Glue(pieces[groups[i].0..groups[i].1], sep)))
    && (forall i :: 0 <= i < |chunks| && groups[i].1 - groups[i].0 >= 2 ==> |chunks[i]| <= maxSize)
  }

  /**
   * `if current_chunk.strip(): chunks.append(current_chunk.strip())`: the
   * current chunk, made of `pieces[lo..k]`, is emitted unless it is blank.
   */
  method Flush(
    pieces: seq<string>, sep: string, maxSize: int, chunks: seq<string>, ghost groups: seq<(nat, nat)>,
    current: string, ghost lo: nat, ghost k: nat
  ) returns (chunks': seq<string>, ghost groups': seq<(nat, nat)>)
    requires IsBlank(sep) && lo <= k <= |pieces|
    requires Emitted(pieces, sep, maxSize, lo, chunks, groups)
    requires current == Glue(pieces[lo..k], sep)
    requires k - lo >= 2 ==> |current| <= maxSize + |sep|
    ensures Emitted(pieces, sep, maxSize, k, chunks', groups')
    ensures NonSpace(Concat(chunks')) == NonSpace(Concat(chunks)) + NonSpace(current)
    ensures chunks' == chunks || chunks' == chunks + [Strip(current)]
  {
    if Strip(current) != "" {
      Emit(pieces, sep, chunks, groups, current, lo, k, maxSize);
      EmittedAppend(pieces, sep, maxSize, chunks, groups, lo, k);
      chunks', groups' := chunks + [Strip(current)], groups + [(lo, k)];
    } else {
      NonSpaceStrip(current);
      EmittedWiden(pieces, sep, maxSize, chunks, groups, lo, k);
      chunks', groups' := chunks, groups;
    }
  }

  /** A chunk emitted for `pieces[lo..k]` joins the chunks emitted before `lo`. */
  lemma EmittedAppend(
    pieces: seq<string>, sep: string, maxSize: int, chunks: seq<string>, groups: seq<(nat, nat)>, lo: nat, k: nat
  )
    requires lo < k <= |pieces|
    requires Emitted(pieces, sep, maxSize, lo, chunks, groups)
    requires var c := Strip(Glue(pieces[lo..k], sep)); c != "" && (k - lo >= 2 ==> |c| <= maxSize)
    ensures Emitted(pieces, sep, maxSize, k, chunks + [Strip(Glue(pieces[lo..k], sep))], groups + [(lo, k)])
  {
    var chunks', groups' := chunks + [Strip(Glue(pieces[lo..k], sep))], groups + [(lo, k)];
    assert forall i :: 0 <= i < |chunks| ==> chunks'[i] == chunks[i] && groups'[i] == groups[i];
  }

  /** Nothing emitted: the chunks emitted before `lo` are the chunks emitted before `k`. */
  lemma EmittedWiden(
    pieces: seq<string>, sep: string, maxSize: int, chunks: seq<string>, groups: seq<(nat, nat)>, lo: nat, k: nat
  )
    requires lo <= k <= |pieces|
    requires Emitted(pieces, sep, maxSize, lo, chunks, groups)
    ensures Emitted(pieces, sep, maxSize, k, chunks, groups)
  {
  }

  /** The state of the packing loop after `k` pieces, the current chunk holding `pieces[lo..k]`. */
  ghost predicate Packing(
    pieces: seq<string>, sep: string, maxSize: int, k: nat, lo: nat,
    current: string, chunks: seq<string>, groups: seq<(nat, nat)>
  )
    requires lo <= k <= |pieces|
  {
    && current == Glue(pieces[lo..k], sep)
    && Emitted(pieces, sep, maxSize, lo, chunks, groups)
    && (k - lo >= 2 ==> |current| <= maxSize + |sep|)
    && NonSpace(Concat(chunks)) + NonSpace(current) == NonSpace(Concat(pieces[..k]))
  }

  /** One round of the packing loop: piece `k` joins the current chunk or starts the next one. */
  method Feed(
    pieces: seq<string>, sep: string, maxSize: int, k: nat, ghost lo: nat,
    current: string, chunks: seq<string>, ghost groups: seq<(nat, nat)>
  ) returns (current': string, chunks': seq<string>, ghost lo': nat, ghost groups': seq<(nat, nat)>)
    requires IsBlank(sep) && lo <= k < |pieces|
    requires Packing(pieces, sep, maxSize, k, lo, current, chunks, groups)
    ensures lo' <= k + 1
    ensures Packing(pieces, sep, maxSize, k + 1, lo', current', chunks', groups')
  {
    var piece := pieces[k];
    if |current| + |piece| <= maxSize {
      Extend(pieces, sep, maxSize, k, lo, current, NonSpace(Concat(chunks)));
      current', chunks', lo', groups' := current + piece + sep, chunks, lo, groups;
    } else {
      chunks', groups' := Flush(pieces, sep, maxSize, chunks, groups, current, lo, k);
      Restart(pieces, sep, maxSize, k, chunks', groups', NonSpace(Concat(chunks)) + NonSpace(current));
      current', lo' := piece + sep, k;
    }
  }

  /** The piece fits: it joins the current chunk, `done` being what the chunks emitted so far hold. */
  lemma Extend(pieces: seq<string>, sep: string, maxSize: int, k: nat, lo: nat, current: string, done: string)
    requires IsBlank(sep) && lo <= k < |pieces|
    requires current == Glue(pieces[lo..k], sep)
    requires done + NonSpace(current) == NonSpace(Concat(pieces[..k]))
    requires |current| + |pieces[k]| <= maxSize
    ensures current + pieces[k] + sep == Glue(pieces[lo..k + 1], sep)
    ensures |current + pieces[k] + sep| <= maxSize + |sep|
    ensures done + NonSpace(current + pieces[k] + sep) == NonSpace(Concat(pieces[..k + 1]))
  {
    var piece := pieces[k];
    ghost var read := NonSpace(Concat(pieces[..k]));
    PiecesStep(pieces, k);
    GlueStep(pieces, lo, k, sep);
    AppendPiece(current, piece, sep);
    assert done + (NonSpace(current) + NonSpace(piece)) == read + NonSpace(piece);
  }

  /**
   * The greedy packing both chunkers share. A piece joins the current
   * chunk while the chunk's length plus the piece's stays within
   * `maxSize`; otherwise the current chunk is emitted, stripped, unless it
   * is blank, and the piece starts the next one. `groups[i]` is the range
   * of pieces chunk `i` was made of.
   */
  method Pack(pieces: seq<string>, maxSize: int, sep: string) returns (chunks: seq<string>, ghost groups: seq<(nat, nat)>)
    requires IsBlank(sep)
    ensures |groups| == |chunks|
    ensures forall i :: 0 <= i < |chunks| ==> chunks[i] != "" && IsTrimmed(chunks[i])
    ensures forall i :: 0 <= i < |groups| ==> groups[i].0 < groups[i].1 <= |pieces|
    ensures forall i, j :: 0 <= i < j < |groups| ==> groups[i].1 <= groups[j].0
    ensures forall i :: 0 <= i < |chunks| ==> chunks[i] == Strip(Glue(pieces[groups[i].0..groups[i].1], sep))
    ensures forall i :: 0 <= i < |chunks| && groups[i].1 - groups[i].0 >= 2 ==> |chunks[i]| <= maxSize
    ensures NonSpace(Concat(chunks)) == NonSpace(Concat(pieces))
  {
    chunks, groups := [], [];
    var current := "";
    var k := 0;
    ghost var lo := 0;
    while k < |pieces|
      invariant 0 <= lo <= k <= |pieces|
      invariant Packing(pieces, sep, maxSize, k, lo, current, chunks, groups)
    {
      current, chunks, lo, groups := Feed(pieces, sep, maxSize, k, lo, current, chunks, groups);
      k := k + 1;
    }
    assert pieces[..k] == pieces;
    chunks, groups := Flush(pieces, sep, maxSize, chunks, groups, current, lo, k);
  }

  /** Taking one more piece into the current chunk. */
  lemma GlueStep(pieces: seq<string>, lo: nat, k: nat, sep: string)
    requires lo <= k < |pieces|
    ensures Glue(pieces[lo..k + 1], sep) == Glue(pieces[lo..k], sep) + pieces[k] + sep
  {
    assert pieces[lo..k + 1][..k - lo] == pieces[lo..k];
  }

  /** The piece does not fit: once the current chunk is flushed, the piece starts the next one. */
  lemma Restart(
    pieces: seq<string>, sep: string, maxSize: int, k: nat,
    chunks: seq<string>, groups: seq<(nat, nat)>, read: string
  )
    requires IsBlank(sep) && k < |pieces|
    requires Emitted(pieces, sep, maxSize, k, chunks, groups)
    requires NonSpace(Concat(chunks)) == read == NonSpace(Concat(pieces[..k]))
    ensures Packing(pieces, sep, maxSize, k + 1, k, pieces[k] + sep, chunks, groups)
  {
    PiecesStep(pieces, k);
    GlueStep(pieces, k, k, sep);
    assert pieces[k..k] == [];
    assert "" + pieces[k] == pieces[k];
    NonSpaceAppend(pieces[k], sep);
    NonSpaceOfBlank(sep);
  }

  /** Reading one more piece. */
  lemma PiecesStep(pieces: seq<string>, k: nat)
    requires k < |pieces|
    ensures NonSpace(Concat(pieces[..k + 1])) == NonSpace(Concat(pieces[..k])) + NonSpace(pieces[k])
  {
    assert pieces[..k + 1] == pieces[..k] + [pieces[k]];
    ConcatAppend(pieces[..k], [pieces[k]]);
    ConcatSingle(pieces[k]);
    NonSpaceAppend(Concat(pieces[..k]), pieces[k]);
  }

  /** A piece and a blank separator add just the piece's non-space characters. */
  lemma AppendPiece(current: string, piece: string, sep: string)
    requires IsBlank(sep)
    ensures NonSpace(current + piece + sep) == NonSpace(current) + NonSpace(piece)
  {
    NonSpaceAppend(current + piece, sep);
    NonSpaceAppend(current, piece);
    NonSpaceOfBlank(sep);
  }

  /** Emitting the current chunk keeps every property of the chunks emitted so far. */
  lemma Emit(
    pieces: seq<string>, sep: string, chunks: seq<string>, groups: seq<(nat, nat)>,
    current: string, lo: nat, k: nat, maxSize: int
  )
    requires IsBlank(sep) && lo <= k <= |pieces|
    requires current == Glue(pieces[lo..k], sep) && Strip(current) != ""
    requires k - lo >= 2 ==> |current| <= maxSize + |sep|
    ensures lo < k
    ensures NonSpace(Concat(chunks + [Strip(current)])) == NonSpace(Concat(chunks)) + NonSpace(current)
    ensures k - lo >= 2 ==> |Strip(current)| <= maxSize
  {
    assert current != "";
    ConcatAppend(chunks, [Strip(current)]);
    ConcatSingle(Strip(current));
    NonSpaceAppend(Concat(chunks), Strip(current));
    NonSpaceStrip(current);
    var ps := pieces[lo..k];
    assert current == (Glue(ps[..|ps| - 1], sep) + ps[|ps| - 1]) + sep;
    StripDropsSeparator(Glue(ps[..|ps| - 1], sep) + ps[|ps| - 1], sep);
  }

  /** `chunk_by_sentences` */
  method ChunkBySentences(text: string, maxChunkSize: int := DefaultMaxChunkSize)
    returns (chunks: seq<string>, ghost groups: seq<(nat, nat)>)
    ensures IsBlank(text) ==> chunks == []
    ensures |groups| == |chunks|
    ensures forall i :: 0 <= i < |chunks| ==> chunks[i] != "" && IsTrimmed(chunks[i])
    ensures forall i :: 0 <= i < |groups| ==> groups[i].0 < groups[i].1 <= |Sentences(text)|
    ensures forall i, j :: 0 <= i < j < |groups| ==> groups[i].1 <= groups[j].0
    ensures forall i :: 0 <= i < |chunks| ==>
      chunks[i] == Strip(Glue(Sentences(text)[groups[i].0..groups[i].1], SentenceGlue))
    ensures forall i :: 0 <= i < |chunks| && |chunks[i]| > maxChunkSize ==> groups[i].1 == groups[i].0 + 1
    ensures NonSpace(Concat(chunks)) == NonSpace(text)
  {
    chunks, groups := Pack(Sentences(text), maxChunkSize, SentenceGlue);
    SentencesKeepText(text);
    if IsBlank(text) {
      NonSpaceOfBlank(text);
      NoTrimmedChunkInBlank(chunks);
    }
  }

  /** `chunk_by_paragraphs` */
  method ChunkByParagraphs(text: string, maxChunkSize: int := DefaultMaxChunkSize)
    returns (chunks: seq<string>, ghost groups: seq<(nat, nat)>)
    ensures IsBlank(text) ==> chunks == []
    ensures |groups| == |chunks|
    ensures forall i :: 0 <= i < |chunks| ==> chunks[i] != "" && IsTrimmed(chunks[i])
    ensures forall i :: 0 <= i < |groups| ==> groups[i].0 < groups[i].1 <= |Split(text, ParagraphBreak)|
    ensures forall i, j :: 0 <= i < j < |groups| ==> groups[i].1 <= groups[j].0
    ensures forall i :: 0 <= i < |chunks| ==>
      chunks[i] == Strip(Glue(Split(text, ParagraphBreak)[groups[i].0..groups[i].1], ParagraphBreak))
    ensures forall i :: 0 <= i < |chunks| && |chunks[i]| > maxChunkSize ==> groups[i].1 == groups[i].0 + 1
    ensures NonSpace(Concat(chunks)) == NonSpace(text)
  {
    chunks, groups := Pack(Split(text, ParagraphBreak), maxChunkSize, ParagraphBreak);
    ParagraphsKeepText(text);
    if IsBlank(text) {
      NonSpaceOfBlank(text);
      NoTrimmedChunkInBlank(chunks);
    }
  }
}
