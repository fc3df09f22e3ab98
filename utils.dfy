/**
 * Helpers of app/utils.py: the sliding-window chunker, the header lookup and
 * the chunk metadata record.
 *
 * The chunker first normalises the text (a run of whitespace ending in a line
 * break is folded into the break, then the text is stripped).
 * Window j covers [j * (size - overlap), min(j * (size - overlap) + size, n)),
 * and windows are taken until one reaches the end of the text; windows holding
 * only whitespace are dropped.
 */
module Utils {
  import opened Common
  import opened Strings

  function Min(a: int, b: int): int { if a <= b then a else b }

  /** The stride between window starts. */
  function Step(size: int, overlap: int): int { size - overlap }

  /** The number of windows taken over a text of length `n`: none for empty text, one when
      the first window reaches the end, and otherwise one more than over the text that
      follows the first stride. */
  function WindowCount(n: nat, size: int, overlap: int): nat
    requires 0 <= overlap < size
    decreases n
  {
    if n == 0 then 0
    else if n <= size then 1
    else 1 + WindowCount(n - Step(size, overlap), size, overlap)
  }

  /** Where window `j` starts: `j` strides from the beginning. */
  function WindowStart(j: nat, size: int, overlap: int): (s: int)
    requires 0 <= overlap < size
    ensures s >= 0
  {
    if j == 0 then 0 else WindowStart(j - 1, size, overlap) + Step(size, overlap)
  }

  /** Window `j` starts at `j * (size - overlap)`. */
  lemma {:induction false} WindowStartIsProduct(j: nat, size: int, overlap: int)
    requires 0 <= overlap < size
    ensures WindowStart(j, size, overlap) == j * Step(size, overlap)
  {
    if j > 0 {
      WindowStartIsProduct(j - 1, size, overlap);
    }
  }

  function WindowEnd(j: nat, n: nat, size: int, overlap: int): int
    requires 0 <= overlap < size
  {
    Min(WindowStart(j, size, overlap) + size, n)
  }

  lemma WindowStartNext(j: nat, size: int, overlap: int)
    requires 0 <= overlap < size
    ensures WindowStart(j + 1, size, overlap) == WindowStart(j, size, overlap) + Step(size, overlap)
  {
  }

  /** Every window starts inside the text, and exactly the last one reaches its end. */
  lemma {:induction false} WindowArith(n: nat, size: int, overlap: int, j: nat)
    requires 0 <= overlap < size && n > 0 && j < WindowCount(n, size, overlap)
    ensures 0 <= WindowStart(j, size, overlap) < n
    ensures WindowStart(j, size, overlap) + size >= n <==> j == WindowCount(n, size, overlap) - 1
  {
    if n > size {
      var step := Step(size, overlap);
      if j > 0 {
        WindowArith(n - step, size, overlap, j - 1);
      } else {
        assert WindowCount(n - step, size, overlap) >= 1;
      }
    }
  }

  /** Every position of the text lies in some window. */
  lemma {:induction false} WindowCovers(n: nat, size: int, overlap: int, p: nat)
    requires 0 <= overlap < size && p < n
    ensures exists j :: (0 <= j < WindowCount(n, size, overlap)
      && WindowStart(j, size, overlap) <= p < WindowEnd(j, n, size, overlap))
  {
    if p < size {
      assert WindowStart(0, size, overlap) <= p < WindowEnd(0, n, size, overlap);
    } else {
      var step := Step(size, overlap);
      WindowCovers(n - step, size, overlap, p - step);
      var j :| 0 <= j < WindowCount(n - step, size, overlap)
        && WindowStart(j, size, overlap) <= p - step < WindowEnd(j, n - step, size, overlap);
      WindowStartNext(j, size, overlap);
      assert WindowStart(j + 1, size, overlap) <= p < WindowEnd(j + 1, n, size, overlap);
    }
  }

  /** The text of window `j`. */
  function Window(text: string, size: int, overlap: int, j: nat): (w: string)
    requires 0 <= overlap < size
    ensures |w| <= size
  {
    var n := |text|;
    text[Min(WindowStart(j, size, overlap), n)..WindowEnd(j, n, size, overlap)]
  }

  /** All windows, in order, blank ones included. */
  function Windows(text: string, size: int, overlap: int): (ws: seq<string>)
    requires 0 <= overlap < size
    ensures |ws| == WindowCount(|text|, size, overlap)
  {
    seq(WindowCount(|text|, size, overlap), j requires 0 <= j => Window(text, size, overlap, j))
  }

  /** The windows that hold some non-whitespace character, in order. */
  function DropBlank(ws: seq<string>): (r: seq<string>)
    ensures |r| <= |ws|
    ensures forall i :: 0 <= i < |r| ==> !IsBlank(r[i])
  {
    if ws == [] then []
    else if IsBlank(ws[|ws| - 1]) then DropBlank(ws[..|ws| - 1])
    else DropBlank(ws[..|ws| - 1]) + [ws[|ws| - 1]]
  }

  /** Dropping blank windows keeps exactly the non-blank ones. */
  lemma {:induction false} DropBlankMembers(ws: seq<string>)
    ensures forall w :: w in DropBlank(ws) <==> w in ws && !IsBlank(w)
  {
    if ws != [] {
      DropBlankMembers(ws[..|ws| - 1]);
      assert ws == ws[..|ws| - 1] + [ws[|ws| - 1]];
    }
  }

  /** What one round of the chunking loop needs: window `j` is the slice from its start to
      its end, it is the last exactly when it reaches the end of the text, and otherwise the
      next window starts `overlap` characters before its end. */
  lemma WindowStep(text: string, size: int, overlap: int, j: nat)
    requires 0 <= overlap < size && j < WindowCount(|text|, size, overlap)
    ensures var s, n := WindowStart(j, size, overlap), |text|;
      && 0 <= s < Min(s + size, n) <= n
      && Windows(text, size, overlap)[j] == text[s..Min(s + size, n)]
      && (Min(s + size, n) == n <==> j + 1 == WindowCount(n, size, overlap))
      && (Min(s + size, n) < n ==> WindowStart(j + 1, size, overlap) == Min(s + size, n) - overlap)
  {
    WindowArith(|text|, size, overlap, j);
    WindowStartNext(j, size, overlap);
  }

  /** One more window: kept when it is not blank. */
  lemma DropBlankStep(ws: seq<string>, j: nat)
    requires j < |ws|
    ensures DropBlank(ws[..j + 1]) == DropBlank(ws[..j]) + (if IsBlank(ws[j]) then [] else [ws[j]])
  {
    assert ws[..j + 1][..j] == ws[..j];
  }

  /** One round of the chunking loop: the slice it takes is window `j`, which is kept when
      not blank; it is the last round exactly when the slice reaches the end of the text,
      and otherwise the next window starts `overlap` characters before the slice's end. */
  lemma ChunkRound(text: string, size: int, overlap: int, ws: seq<string>, j: nat, start: int, end: int)
    requires 0 <= overlap < size && ws == Windows(text, size, overlap) && j < |ws|
    requires start == WindowStart(j, size, overlap) && end == Min(start + size, |text|)
    ensures 0 <= start < end <= |text|
    ensures DropBlank(ws[..j + 1]) == DropBlank(ws[..j]) + (if IsBlank(text[start..end]) then [] else [text[start..end]])
    ensures end == |text| ==> ws[..j + 1] == ws
    ensures end < |text| ==> j + 1 < |ws| && WindowStart(j + 1, size, overlap) == end - overlap
  {
    WindowStep(text, size, overlap, j);
    DropBlankStep(ws, j);
  }

  // ---------------------------------------------------------------------------
  // Normalisation before chunking

  /** The length of the whitespace run at the start of `s`. */
  function SpaceRun(s: string): (n: nat)
    ensures n <= |s|
    ensures forall i :: 0 <= i < n ==> IsSpace(s[i])
    ensures n < |s| ==> !IsSpace(s[n])
  {
    if s != [] && IsSpace(s[0]) then 1 + SpaceRun(s[1..]) else 0
  }

  /** The index of the last line break among the first `n` characters of `s`, or -1. */
  function LastBreak(s: string, n: nat): (k: int)
    requires n <= |s|
    ensures -1 <= k < n
    ensures k >= 0 ==> s[k] == '\n'
    ensures forall i :: k < i < n ==> s[i] != '\n'
  {
    if n == 0 then -1 else if s[n - 1] == '\n' then n - 1 else LastBreak(s, n - 1)
  }

  /** `re.sub(r"\s+\n", "\n", s)`. The scan goes left to right. A match at a position is
      the whitespace run there, cut back to its last line break, provided at least one
      character comes before that break (the greedy `\s+` gives characters back until a
      `\n` follows). A match becomes a single line break and the scan resumes after it;
      where no match starts, the character is kept. */
  function FoldBreaks(s: string): string
    decreases |s|
  {
    if s == [] then []
    else
      var k := LastBreak(s, SpaceRun(s));
      if k >= 1 then "\n" + FoldBreaks(s[k + 1..])
      else [s[0]] + FoldBreaks(s[1..])
  }

  /** What `chunk_text` cuts: `re.sub(r"\s+\n", "\n", text).strip()`. */
  function Normalise(text: string): string
  {
    Strip(FoldBreaks(text))
  }

  /** No whitespace character stands right before a line break. */
  ghost predicate NoSpaceBeforeBreak(r: string)
  {
    forall i :: 1 <= i < |r| && r[i] == '\n' ==> !IsSpace(r[i - 1])
  }

  /** When the leading whitespace run of `s` holds no line break from `j` on, the text from
      `j` starts with no whitespace run holding a line break. */
  lemma RestHasNoLeadingBreak(s: string, j: nat)
    requires j <= SpaceRun(s)
    requires forall i :: j <= i < SpaceRun(s) ==> s[i] != '\n'
    ensures LastBreak(s[j..], SpaceRun(s[j..])) == -1
  {
    var rest := s[j..];
    var m := SpaceRun(rest);
    forall i | 0 <= i < m ensures rest[i] != '\n' {
      assert rest[i] == s[j + i];
    }
  }

  /** Folding a text whose leading whitespace run holds no line break keeps its first
      character, which is not a line break. */
  lemma HeadNotBreak(t: string)
    requires LastBreak(t, SpaceRun(t)) == -1
    ensures FoldBreaks(t) == [] || (FoldBreaks(t)[0] == t[0] && t[0] != '\n')
  {
    if t != [] && IsSpace(t[0]) {
      assert 0 < SpaceRun(t);
    }
  }

  /** Putting `c` in front keeps a text clean unless `c` is whitespace and a line break follows. */
  lemma ConsClean(c: char, t: string)
    requires NoSpaceBeforeBreak(t)
    requires t == [] || t[0] != '\n' || !IsSpace(c)
    ensures NoSpaceBeforeBreak([c] + t)
  {
    var r := [c] + t;
    forall i | 1 <= i < |r| && r[i] == '\n' ensures !IsSpace(r[i - 1]) {
      assert r[i] == t[i - 1];
    }
  }

  /** After folding, no whitespace character stands right before a line break. */
  lemma {:induction false} FoldBreaksClean(s: string)
    ensures NoSpaceBeforeBreak(FoldBreaks(s))
  {
    if s != [] {
      var k := LastBreak(s, SpaceRun(s));
      if k >= 1 {
        var rest := s[k + 1..];
        FoldBreaksClean(rest);
        RestHasNoLeadingBreak(s, k + 1);
        HeadNotBreak(rest);
        ConsClean('\n', FoldBreaks(rest));
      } else {
        var rest := s[1..];
        FoldBreaksClean(rest);
        if IsSpace(s[0]) {
          RestHasNoLeadingBreak(s, 1);
          HeadNotBreak(rest);
        }
        ConsClean(s[0], FoldBreaks(rest));
      }
    }
  }

  /** A prefix made of whitespace contributes no character to `NonSpace`. */
  lemma {:induction false} NonSpaceSkipBlank(s: string, j: nat)
    requires j <= |s| && IsBlank(s[..j])
    ensures NonSpace(s) == NonSpace(s[j..])
  {
    if j > 0 {
      assert s[1..][..j - 1] == s[1..j];
      assert IsSpace(s[..j][0]);
      NonSpaceSkipBlank(s[1..], j - 1);
      assert s[1..][j - 1..] == s[j..];
    }
  }

  /** Folding keeps every character that is not whitespace, in order. */
  lemma {:induction false} FoldBreaksKeepsNonSpace(s: string)
    ensures NonSpace(FoldBreaks(s)) == NonSpace(s)
  {
    if s != [] {
      var k := LastBreak(s, SpaceRun(s));
      if k >= 1 {
        var rest := s[k + 1..];
        FoldBreaksKeepsNonSpace(rest);
        assert ("\n" + FoldBreaks(rest))[1..] == FoldBreaks(rest);
        NonSpaceSkipBlank(s, k + 1);
      } else {
        FoldBreaksKeepsNonSpace(s[1..]);
        assert ([s[0]] + FoldBreaks(s[1..]))[1..] == FoldBreaks(s[1..]);
      }
    }
  }

  /** What normalising promises: every character that is not whitespace is kept, in order;
      so the text is blank exactly when the original is; no whitespace stands right before a
      line break; and the text neither starts nor ends with whitespace. */
  lemma NormaliseProperties(text: string)
    ensures NonSpace(Normalise(text)) == NonSpace(text)
    ensures IsBlank(Normalise(text)) <==> IsBlank(text)
    ensures NoSpaceBeforeBreak(Normalise(text))
    ensures Normalise(text) != [] ==> !IsSpace(Normalise(text)[0]) && !IsSpace(Normalise(text)[|Normalise(text)| - 1])
  {
    NormaliseKeepsNonSpace(text);
    NormaliseClean(text);
  }

  /** Normalising keeps the non-whitespace characters, so blankness too. */
  lemma NormaliseKeepsNonSpace(text: string)
    ensures NonSpace(Normalise(text)) == NonSpace(text)
    ensures IsBlank(Normalise(text)) <==> IsBlank(text)
  {
    var f := FoldBreaks(text);
    FoldBreaksKeepsNonSpace(text);
    StripKeepsNonSpace(f);
    BlankIffNoNonSpace(text);
    BlankIffNoNonSpace(Strip(f));
  }

  /** Normalised text has no whitespace right before a line break. */
  lemma NormaliseClean(text: string)
    ensures NoSpaceBeforeBreak(Normalise(text))
  {
    FoldBreaksClean(text);
    StripClean(FoldBreaks(text));
  }

  /** `strip()` adds no whitespace before a line break. */
  lemma StripClean(f: string)
    requires NoSpaceBeforeBreak(f)
    ensures NoSpaceBeforeBreak(Strip(f))
  {
    var l := LStrip(f);
    CleanSlice(f, |f| - |l|, |f|);
    assert f[|f| - |l|..|f|] == l;
    CleanSlice(l, 0, |RStrip(l)|);
    assert l[0..|RStrip(l)|] == RStrip(l);
  }

  /** A slice of a text with no whitespace before a line break has none either. */
  lemma CleanSlice(f: string, i: int, j: int)
    requires 0 <= i <= j <= |f| && NoSpaceBeforeBreak(f)
    ensures NoSpaceBeforeBreak(f[i..j])
  {
    forall p | 1 <= p < j - i && f[i..j][p] == '\n' ensures !IsSpace(f[i..j][p - 1]) {
      assert f[i..j][p] == f[i + p] && f[i..j][p - 1] == f[i + p - 1];
    }
  }

  /** A space before a line break is folded into it. */
  lemma FoldBreaksExample()
    ensures FoldBreaks("x \ny") == "x\ny"
  {
    var s := "x \ny";
    assert SpaceRun(s) == 0;
    assert SpaceRun(s[1..]) == 2 by {
      assert s[1..] == " \ny";
      assert SpaceRun(s[1..][1..]) == 1 by {
        assert s[1..][1..] == "\ny";
        assert s[1..][1..][1..] == "y";
      }
    }
    assert LastBreak(s[1..], 2) == 1;
    assert s[1..][2..] == "y";
    assert FoldBreaks("y") == "y" by {
      assert SpaceRun("y") == 0;
      assert "y"[1..] == [];
    }
  }

  /** `chunk_text`: the normalised text is cut into windows and the blank ones dropped. */
  method ChunkText(raw: string, size: int, overlap: int) returns (chunks: seq<string>)
    requires 0 <= overlap < size
    ensures chunks == DropBlank(Windows(Normalise(raw), size, overlap))
  {
    var text := Normalise(raw);
    var n := |text|;
    chunks := [];
    var start := 0;
    ghost var j: nat := 0;
    ghost var ws := Windows(text, size, overlap);
    while start < n
      invariant j <= |ws|
      invariant start == WindowStart(j, size, overlap)
      invariant n > 0 ==> j < |ws|
      invariant j > 0 ==> start < n
      invariant chunks == DropBlank(ws[..j])
      decreases n - start
    {
      var end := Min(start + size, n);
      ChunkRound(text, size, overlap, ws, j, start, end);
      var chunk := text[start..end];
      StripEmptyIffBlank(chunk);
      if Strip(chunk) != [] {
        chunks := chunks + [chunk];
      }
      if end == n {
        return;
      }
      start := end - overlap;
      j := j + 1;
    }
    assert n == 0;
  }

  /** Window `j` occurs in the text where it starts. */
  lemma WindowOccurs(text: string, size: int, overlap: int, j: nat)
    requires 0 <= overlap < size && j < WindowCount(|text|, size, overlap)
    ensures var w := Windows(text, size, overlap)[j];
      0 <= WindowStart(j, size, overlap) <= |text| - |w| && OccursAt(text, w, WindowStart(j, size, overlap))
  {
    WindowStep(text, size, overlap, j);
  }

  /** Each chunk is a slice of the text of at most `size` characters that is not all
      whitespace, and empty text gives no chunks. */
  lemma ChunksAreSlices(text: string, size: int, overlap: int)
    requires 0 <= overlap < size
    ensures forall c :: c in DropBlank(Windows(text, size, overlap)) ==>
      |c| <= size && !IsBlank(c) && exists i :: 0 <= i <= |text| - |c| && OccursAt(text, c, i)
    ensures text == [] ==> DropBlank(Windows(text, size, overlap)) == []
  {
    var ws := Windows(text, size, overlap);
    DropBlankMembers(ws);
    forall c | c in DropBlank(ws)
      ensures |c| <= size && !IsBlank(c) && exists i :: 0 <= i <= |text| - |c| && OccursAt(text, c, i)
    {
      var j :| 0 <= j < |ws| && ws[j] == c;
      WindowOccurs(text, size, overlap, j);
    }
  }

  /** The first window starts at 0, window j + 1 starts one stride after window j, and the
      last window ends exactly at the end of the text. */
  lemma WindowsTile(text: string, size: int, overlap: int)
    requires 0 <= overlap < size
    ensures WindowStart(0, size, overlap) == 0
    ensures forall j: nat :: WindowStart(j + 1, size, overlap) == WindowStart(j, size, overlap) + size - overlap
    ensures text != [] ==> WindowEnd(WindowCount(|text|, size, overlap) - 1, |text|, size, overlap) == |text|
  {
    if text != [] {
      WindowArith(|text|, size, overlap, WindowCount(|text|, size, overlap) - 1);
    }
  }

  /** Every non-whitespace character of the text lies in a window that is returned. */
  lemma ChunksCoverText(text: string, size: int, overlap: int)
    requires 0 <= overlap < size
    ensures forall p :: 0 <= p < |text| && !IsSpace(text[p]) ==>
      exists j :: (0 <= j < WindowCount(|text|, size, overlap)
        && WindowStart(j, size, overlap) <= p < WindowEnd(j, |text|, size, overlap)
        && Window(text, size, overlap, j) in DropBlank(Windows(text, size, overlap)))
  {
    var ws := Windows(text, size, overlap);
    var n := |text|;
    DropBlankMembers(ws);
    forall p | 0 <= p < n && !IsSpace(text[p])
      ensures exists j :: (0 <= j < WindowCount(n, size, overlap)
        && WindowStart(j, size, overlap) <= p < WindowEnd(j, n, size, overlap)
        && Window(text, size, overlap, j) in DropBlank(ws))
    {
      WindowCovers(n, size, overlap, p);
      var j :| 0 <= j < WindowCount(n, size, overlap)
        && WindowStart(j, size, overlap) <= p < WindowEnd(j, n, size, overlap);
      var w := Window(text, size, overlap, j);
      WindowArith(n, size, overlap, j);
      assert w[p - WindowStart(j, size, overlap)] == text[p];
      assert ws[j] == w;
    }
  }

  /** Text that is not all whitespace gives at least one chunk, each of them a slice of
      the normalised text. */
  lemma NonBlankTextHasChunks(raw: string, size: int, overlap: int)
    requires 0 <= overlap < size && !IsBlank(raw)
    ensures DropBlank(Windows(Normalise(raw), size, overlap)) != []
  {
    var text := Normalise(raw);
    NormaliseProperties(raw);
    var p :| 0 <= p < |text| && !IsSpace(text[p]);
    ChunksCoverText(text, size, overlap);
  }

  /** With `overlap >= size` the next window would not start past the current one: the
      loop of `chunk_text` makes no progress on a text longer than one window. */
  lemma NoProgressWhenOverlapTooLarge(start: int, size: int, overlap: int, n: int)
    requires overlap >= size && start + size < n
    ensures Min(start + size, n) - overlap <= start
  {
  }

  /** A mail header as `{"name": ..., "value": ...}`, either entry possibly missing. */
  datatype Header = Header(name: Option<string>, value: Option<string>)

  /** The value of the first header in `hs` named exactly `name` (case-sensitive). */
  function FirstHeaderValue(hs: seq<Header>, name: string): (r: Option<string>)
    ensures (forall i :: 0 <= i < |hs| ==> hs[i].name != Some(name)) ==> r.None?
    ensures forall i :: (0 <= i < |hs| && hs[i].name == Some(name)
      && (forall k :: 0 <= k < i ==> hs[k].name != Some(name))) ==> r == hs[i].value
  {
    if hs == [] then None
    else if hs[0].name == Some(name) then hs[0].value
    else FirstHeaderValue(hs[1..], name)
  }

  /** `header_lookup`: no headers at all gives no value. */
  function HeaderLookup(headers: Option<seq<Header>>, name: string): (r: Option<string>)
    ensures headers.None? ==> r.None?
    ensures headers.Some? ==> r == FirstHeaderValue(headers.value, name)
  {
    match headers
    case None => None
    case Some(hs) => FirstHeaderValue(hs, name)
  }

  /** Metadata stored with each chunk; a field that is `None` is a key the dict lacks. */
  datatype ChunkMeta = ChunkMeta(
    docId: Option<string>,
    title: Option<string>,
    userId: Option<string>,
    createdAt: Option<int>,
    order: Option<int>,
    url: Option<string>)
  {
    /** An empty dict (falsy in the source). */
    predicate Empty()
    {
      docId.None? && title.None? && userId.None? && createdAt.None? && order.None? && url.None?
    }
  }

  /** `make_meta`, with the clock reading as a parameter. */
  function MakeMeta(docId: string, title: string, userId: string, order: int, url: Option<string>, nowMs: int): (m: ChunkMeta)
    ensures !m.Empty()
    ensures m.docId == Some(docId) && m.title == Some(title) && m.userId == Some(userId)
    ensures m.order == Some(order) && m.createdAt == Some(nowMs)
    ensures m.url.Some? <==> url.Some?
    ensures url.Some? ==> m.url == url
  {
    ChunkMeta(Some(docId), Some(title), Some(userId), Some(nowMs), Some(order), url)
  }
}
