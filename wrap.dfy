/**
  * Greedy word wrap of the title (script.js, wrapText): the words are laid
  * into lines left to right, a word goes to a new line only when it would
  * make the current line measure wider than the limit, and the lines are
  * then drawn one below the other as a block centred on the given height.
  */
module Wrap {
  import opened Words
  import opened Canvas

  /** The lines closed so far and the line being filled, as word lists. */
  datatype Progress = Progress(closed: seq<seq<string>>, open: seq<string>)

  /**
    * Where the wrap loop stands after looking at the first `n` words. The
    * first word never starts a new line, however wide it is.
    */
  function WrapAfter(words: seq<string>, measure: string -> real, maxWidth: real, n: nat): Progress
    requires n <= |words|
  {
    if n == 0 then Progress([], [])
    else
      var p := WrapAfter(words, measure, maxWidth, n - 1);
      var word := words[n - 1];
      if measure(Render(p.open + [word])) > maxWidth && n - 1 > 0 then Progress(p.closed + [p.open], [word])
      else Progress(p.closed, p.open + [word])
  }

  /** The lines of the wrapped text, as word lists. */
  function WrapGroups(words: seq<string>, measure: string -> real, maxWidth: real): seq<seq<string>>
  {
    var p := WrapAfter(words, measure, maxWidth, |words|);
    p.closed + [p.open]
  }

  /** The lines of the wrapped text, as the strings that are drawn. */
  function WrapLines(words: seq<string>, measure: string -> real, maxWidth: real): seq<string>
  {
    RenderAll(WrapGroups(words, measure, maxWidth))
  }

  /**
    * What a greedy wrap of `words` must look like: the lines hold the words
    * in order, none is empty, a line of two or more words fits the width, and
    * the first word of each line would not have fitted on the line before.
    */
  ghost predicate GreedyWrap(groups: seq<seq<string>>, words: seq<string>, measure: string -> real, maxWidth: real)
  {
    && Flatten(groups) == words
    && (forall i :: 0 <= i < |groups| ==> groups[i] != [])
    && (forall i :: 0 <= i < |groups| && |groups[i]| >= 2 ==> measure(Render(groups[i])) <= maxWidth)
    && (forall i :: 1 <= i < |groups| ==> measure(Render(groups[i - 1] + [groups[i][0]])) > maxWidth)
  }

  /** Closing the last line and starting a new one with `word` keeps the wrap greedy. */
  lemma CloseLine(groups: seq<seq<string>>, done: seq<string>, word: string, measure: string -> real, maxWidth: real)
    requires |groups| >= 1 && GreedyWrap(groups, done, measure, maxWidth)
    requires measure(Render(groups[|groups| - 1] + [word])) > maxWidth
    ensures GreedyWrap(groups + [[word]], done + [word], measure, maxWidth)
  {
    var after := groups + [[word]];
    assert after[..|after| - 1] == groups;
    forall i | 1 <= i < |after|
      ensures measure(Render(after[i - 1] + [after[i][0]])) > maxWidth
    {
      if i < |groups| {
        assert after[i - 1] == groups[i - 1] && after[i] == groups[i];
      }
    }
  }

  /** Adding `word` to the last line keeps the wrap greedy when the longer line still fits. */
  lemma ExtendLine(groups: seq<seq<string>>, done: seq<string>, word: string, measure: string -> real, maxWidth: real)
    requires |groups| >= 1 && GreedyWrap(groups, done, measure, maxWidth)
    requires measure(Render(groups[|groups| - 1] + [word])) <= maxWidth
    ensures GreedyWrap(groups[..|groups| - 1] + [groups[|groups| - 1] + [word]], done + [word], measure, maxWidth)
  {
    var init := groups[..|groups| - 1];
    var last := groups[|groups| - 1];
    var after := init + [last + [word]];
    assert after[..|after| - 1] == init;
    assert groups == init + [last];
    assert Flatten(groups) == Flatten(init) + last;
    assert Flatten(after) == Flatten(init) + (last + [word]);
    forall i | 0 <= i < |after| && |after[i]| >= 2
      ensures measure(Render(after[i])) <= maxWidth
    {
      if i < |init| {
        assert after[i] == groups[i];
      }
    }
    forall i | 1 <= i < |after|
      ensures measure(Render(after[i - 1] + [after[i][0]])) > maxWidth
    {
      assert after[i - 1] == groups[i - 1];
      assert after[i][0] == groups[i][0];
    }
  }

  /** One more word keeps the loop's lines a greedy wrap of the words seen. */
  lemma WrapStepIsGreedy(words: seq<string>, measure: string -> real, maxWidth: real, n: nat)
    requires 2 <= n <= |words|
    requires WrapAfter(words, measure, maxWidth, n - 1).open != []
    requires GreedyWrap(WrapAfter(words, measure, maxWidth, n - 1).closed + [WrapAfter(words, measure, maxWidth, n - 1).open],
                        words[..n - 1], measure, maxWidth)
    ensures WrapAfter(words, measure, maxWidth, n).open != []
    ensures GreedyWrap(WrapAfter(words, measure, maxWidth, n).closed + [WrapAfter(words, measure, maxWidth, n).open],
                       words[..n], measure, maxWidth)
  {
    var p := WrapAfter(words, measure, maxWidth, n - 1);
    var word := words[n - 1];
    var before := p.closed + [p.open];
    assert words[..n] == words[..n - 1] + [word];
    assert before[|before| - 1] == p.open;
    if measure(Render(p.open + [word])) > maxWidth {
      CloseLine(before, words[..n - 1], word, measure, maxWidth);
    } else {
      ExtendLine(before, words[..n - 1], word, measure, maxWidth);
      assert before[..|before| - 1] == p.closed;
    }
  }

  /** After at least one word, the loop's lines so far form a greedy wrap of the words seen. */
  lemma {:induction false} WrapAfterIsGreedy(words: seq<string>, measure: string -> real, maxWidth: real, n: nat)
    requires 1 <= n <= |words|
    ensures WrapAfter(words, measure, maxWidth, n).open != []
    ensures GreedyWrap(WrapAfter(words, measure, maxWidth, n).closed + [WrapAfter(words, measure, maxWidth, n).open],
                       words[..n], measure, maxWidth)
  {
    if n == 1 {
      assert WrapAfter(words, measure, maxWidth, 0) == Progress([], []);
      assert WrapAfter(words, measure, maxWidth, 1) == Progress([], [words[0]]);
      assert Flatten([[words[0]]]) == Flatten([]) + [words[0]];
    } else {
      WrapAfterIsGreedy(words, measure, maxWidth, n - 1);
      WrapStepIsGreedy(words, measure, maxWidth, n);
    }
  }

  /** The wrap of a non-empty word list is greedy. */
  lemma WrapGroupsIsGreedy(words: seq<string>, measure: string -> real, maxWidth: real)
    requires |words| >= 1
    ensures GreedyWrap(WrapGroups(words, measure, maxWidth), words, measure, maxWidth)
  {
    WrapAfterIsGreedy(words, measure, maxWidth, |words|);
    assert words[..|words|] == words;
  }

  /** Non-empty groups hold at least as many words as there are groups. */
  lemma {:induction false} FlattenLength(groups: seq<seq<string>>)
    requires forall i :: 0 <= i < |groups| ==> groups[i] != []
    ensures |Flatten(groups)| >= |groups|
  {
    if groups != [] {
      FlattenLength(groups[..|groups| - 1]);
    }
  }

  /**
    * The wrap produces at least one line, and never more lines than there
    * are words.
    */
  lemma WrapLineCount(words: seq<string>, measure: string -> real, maxWidth: real)
    requires |words| >= 1
    ensures 1 <= |WrapLines(words, measure, maxWidth)| <= |words|
  {
    WrapGroupsIsGreedy(words, measure, maxWidth);
    FlattenLength(WrapGroups(words, measure, maxWidth));
  }

  /**
    * Written one after the other, the lines give back the text followed by
    * one space: no word is split, dropped or reordered.
    */
  lemma WrapKeepsText(text: string, measure: string -> real, maxWidth: real)
    ensures Concat(WrapLines(Split(text), measure, maxWidth)) == text + " "
  {
    var words := Split(text);
    WrapGroupsIsGreedy(words, measure, maxWidth);
    ConcatRender(WrapGroups(words, measure, maxWidth));
    RenderJoin(words);
    JoinSplit(text);
  }

  /** Only a line made of a single word can measure wider than the limit. */
  lemma WrapLinesFit(words: seq<string>, measure: string -> real, maxWidth: real, i: nat)
    requires |words| >= 1
    requires i < |WrapGroups(words, measure, maxWidth)|
    requires measure(WrapLines(words, measure, maxWidth)[i]) > maxWidth
    ensures |WrapGroups(words, measure, maxWidth)[i]| == 1
  {
    WrapGroupsIsGreedy(words, measure, maxWidth);
  }

  /**
    * Every line but the last is full: with the next line's first word added
    * it would measure wider than the limit.
    */
  lemma WrapLinesFull(words: seq<string>, measure: string -> real, maxWidth: real, i: nat)
    requires |words| >= 1
    requires i + 1 < |WrapGroups(words, measure, maxWidth)|
    ensures WrapGroups(words, measure, maxWidth)[i + 1] != []
    ensures measure(WrapLines(words, measure, maxWidth)[i] + WrapGroups(words, measure, maxWidth)[i + 1][0] + " ") > maxWidth
  {
    var groups := WrapGroups(words, measure, maxWidth);
    WrapGroupsIsGreedy(words, measure, maxWidth);
    var extended := groups[i] + [groups[i + 1][0]];
    assert extended[..|extended| - 1] == groups[i];
  }

  /** One step of the wrap loop, on the rendered text of the closed lines and of the open line. */
  lemma LineStep(words: seq<string>, measure: string -> real, maxWidth: real, n: nat)
    requires n < |words|
    ensures var p := WrapAfter(words, measure, maxWidth, n);
      var q := WrapAfter(words, measure, maxWidth, n + 1);
      var testLine := Render(p.open) + words[n] + " ";
      if measure(testLine) > maxWidth && n > 0 then
        RenderAll(q.closed) == RenderAll(p.closed) + [Render(p.open)] && Render(q.open) == words[n] + " "
      else
        RenderAll(q.closed) == RenderAll(p.closed) && Render(q.open) == testLine
  {
    var p := WrapAfter(words, measure, maxWidth, n);
    var q := WrapAfter(words, measure, maxWidth, n + 1);
    var word := words[n];
    RenderSnoc(p.open, word);
    if measure(Render(p.open + [word])) > maxWidth && n > 0 {
      assert q == Progress(p.closed + [p.open], [word]);
      RenderAllSnoc(p.closed, p.open);
      assert [word][..0] == [];
    } else {
      assert q == Progress(p.closed, p.open + [word]);
    }
  }

  /**
    * The lines of the wrap, computed as wrapText does: one pass over the
    * words that either extends the current line or closes it.
    */
  method ComputeLines(words: seq<string>, measure: string -> real, maxWidth: real) returns (lines: seq<string>)
    ensures lines == WrapLines(words, measure, maxWidth)
  {
    var line := "";
    lines := [];
    for n := 0 to |words|
      invariant lines == RenderAll(WrapAfter(words, measure, maxWidth, n).closed)
      invariant line == Render(WrapAfter(words, measure, maxWidth, n).open)
    {
      LineStep(words, measure, maxWidth, n);
      var testLine := line + words[n] + " ";
      var testWidth := measure(testLine);
      if testWidth > maxWidth && n > 0 {
        lines := lines + [line];
        line := words[n] + " ";
      } else {
        line := testLine;
      }
    }
    ghost var p := WrapAfter(words, measure, maxWidth, |words|);
    RenderAllSnoc(p.closed, p.open);
    lines := lines + [line];
  }

  /** The first baseline of a block of `count` lines centred on `y`. */
  function StartY(count: nat, y: real, lineHeight: real): real
  {
    y - (count as real * lineHeight) / 2.0 + lineHeight / 2.0
  }

  /** The baseline of line `index` in a block of `count` lines centred on `y`. */
  function Baseline(count: nat, index: nat, y: real, lineHeight: real): real
  {
    StartY(count, y, lineHeight) + index as real * lineHeight
  }

  /** The text commands that draw `lines` as a block centred on `y`, in `style`. */
  function TextBlock(lines: seq<string>, x: real, y: real, lineHeight: real, style: TextStyle): seq<DrawCmd>
  {
    seq(|lines|, k requires 0 <= k < |lines| => Text(lines[k], x, Baseline(|lines|, k, y, lineHeight), style))
  }

  /**
    * The block is centred on `y`: its first and last baselines are equally
    * far from it, and neighbouring baselines are one line height apart.
    */
  lemma BlockCentred(count: nat, y: real, lineHeight: real)
    requires count >= 1
    ensures Baseline(count, 0, y, lineHeight) + Baseline(count, count - 1, y, lineHeight) == 2.0 * y
    ensures forall k: nat :: k + 1 < count ==>
      Baseline(count, k + 1, y, lineHeight) - Baseline(count, k, y, lineHeight) == lineHeight
  {
    assert (count - 1) as real * lineHeight == count as real * lineHeight - lineHeight;
    forall k: nat | k + 1 < count
      ensures Baseline(count, k + 1, y, lineHeight) - Baseline(count, k, y, lineHeight) == lineHeight
    {
      assert (k + 1) as real * lineHeight == k as real * lineHeight + lineHeight;
    }
  }

  /**
    * wrapText: wraps `text` in the context's current font and draws the
    * lines, left to right at `x`, as a block centred on `y`.
    */
  method WrapText(ctx: Context, text: string, x: real, y: real, maxWidth: real, lineHeight: real)
    modifies ctx
    ensures ctx.state == old(ctx.state)
    ensures ctx.commands == old(ctx.commands) +
      TextBlock(WrapLines(Split(text), MeasureIn(ctx.metrics, ctx.state.font), maxWidth), x, y, lineHeight, TextStyleOf(ctx.state))
  {
    var words := Split(text);
    var lines := ComputeLines(words, MeasureIn(ctx.metrics, ctx.state.font), maxWidth);
    DrawLines(ctx, lines, x, y, lineHeight);
  }

  /** The drawing half of wrapText: one fillText per line, a line height apart. */
  method DrawLines(ctx: Context, lines: seq<string>, x: real, y: real, lineHeight: real)
    modifies ctx
    ensures ctx.state == old(ctx.state)
    ensures ctx.commands == old(ctx.commands) + TextBlock(lines, x, y, lineHeight, TextStyleOf(ctx.state))
  {
    var totalHeight := |lines| as real * lineHeight;
    var startY := y - (totalHeight / 2.0) + (lineHeight / 2.0);
    ghost var before := ctx.commands;
    ghost var block := TextBlock(lines, x, y, lineHeight, TextStyleOf(ctx.state));
    for index := 0 to |lines|
      invariant ctx.state == old(ctx.state)
      invariant ctx.commands == before + block[..index]
    {
      assert block[index] == Text(lines[index], x, startY + (index as real * lineHeight), TextStyleOf(ctx.state));
      ctx.FillText(lines[index], x, startY + (index as real * lineHeight));
      assert block[..index + 1] == block[..index] + [block[index]];
    }
    assert block[..|lines|] == block;
  }
}
