/**
  * Strings as the title wrapper sees them (script.js, wrapText): the text is
  * cut at every single space, and a line is its words each followed by one
  * space.
  */
module Words {

  /**
    * JavaScript's `s.split(' ')`: the pieces between single spaces, empty
    * pieces included, so there is always one piece more than there are spaces.
    */
  function Split(s: string): (words: seq<string>)
    ensures |words| == Spaces(s) + 1
    ensures forall i :: 0 <= i < |words| ==> ' ' !in words[i]
  {
    if s == [] then [""]
    else
      var rest := Split(s[1..]);
      if s[0] == ' ' then [""] + rest
      else [[s[0]] + rest[0]] + rest[1..]
  }

  /** The number of space characters in `s`. */
  function Spaces(s: string): nat
  {
    if s == [] then 0 else (if s[0] == ' ' then 1 else 0) + Spaces(s[1..])
  }

  /** The inverse of Split: the words with one space between neighbours. */
  function Join(words: seq<string>): string
    requires |words| >= 1
  {
    if |words| == 1 then words[0] else words[0] + " " + Join(words[1..])
  }

  /** The text of a line: each word followed by one space, in order. */
  function Render(words: seq<string>): string
  {
    if words == [] then "" else Render(words[..|words| - 1]) + words[|words| - 1] + " "
  }

  /** The words of consecutive groups, in order. */
  function Flatten(groups: seq<seq<string>>): seq<string>
  {
    if groups == [] then [] else Flatten(groups[..|groups| - 1]) + groups[|groups| - 1]
  }

  /** Strings written one after the other. */
  function Concat(parts: seq<string>): string
  {
    if parts == [] then "" else Concat(parts[..|parts| - 1]) + parts[|parts| - 1]
  }

  /** Splitting at spaces and joining with spaces gives back the text. */
  lemma {:induction false} JoinSplit(s: string)
    ensures Join(Split(s)) == s
  {
    if s != [] {
      var rest := Split(s[1..]);
      JoinSplit(s[1..]);
      if s[0] == ' ' {
        assert Split(s) == [""] + rest;
        assert Split(s)[1..] == rest;
      } else if |rest| == 1 {
        assert Split(s) == [[s[0]] + rest[0]];
      } else {
        var words := Split(s);
        assert words[0] == [s[0]] + rest[0];
        assert words[1..] == rest[1..];
        assert Join(rest) == rest[0] + " " + Join(rest[1..]);
        assert s == [s[0]] + s[1..];
      }
    }
  }

  /** Joining space-free words and splitting again gives back the words. */
  lemma {:induction false} SplitJoin(words: seq<string>)
    requires |words| >= 1
    requires forall i :: 0 <= i < |words| ==> ' ' !in words[i]
    ensures Split(Join(words)) == words
  {
    if |words| == 1 {
      SplitWord(words[0], []);
      assert words[0] + [] == words[0];
      assert Split([]) == [""];
    } else {
      var tail := words[1..];
      SplitJoin(tail);
      assert Join(words) == words[0] + (" " + Join(tail));
      SplitWord(words[0], " " + Join(tail));
      assert Split(" " + Join(tail)) == [""] + tail by {
        assert (" " + Join(tail))[1..] == Join(tail);
      }
      assert words[0] + "" == words[0];
      assert words == [words[0]] + tail;
    }
  }

  /** A space-free word in front of the rest extends the rest's first piece. */
  lemma {:induction false} SplitWord(word: string, rest: string)
    requires ' ' !in word
    ensures Split(word + rest) == [word + Split(rest)[0]] + Split(rest)[1..]
  {
    if word != [] {
      SplitWord(word[1..], rest);
      assert (word + rest)[1..] == word[1..] + rest;
      assert word + rest != [];
      assert (word + rest)[0] == word[0];
      assert [word[0]] + (word[1..] + Split(rest)[0]) == word + Split(rest)[0];
    } else {
      assert word + rest == rest;
      assert word + Split(rest)[0] == Split(rest)[0];
      assert Split(rest) == [Split(rest)[0]] + Split(rest)[1..];
    }
  }

  /** Rendering distributes over putting word lists one after the other. */
  lemma {:induction false} RenderAppend(a: seq<string>, b: seq<string>)
    ensures Render(a + b) == Render(a) + Render(b)
  {
    if b != [] {
      var init := b[..|b| - 1];
      RenderAppend(a, init);
      assert (a + b)[..|a + b| - 1] == a + init;
    } else {
      assert a + b == a;
    }
  }

  /** A non-empty line is the joined words plus one trailing space. */
  lemma {:induction false} RenderJoin(words: seq<string>)
    requires |words| >= 1
    ensures Render(words) == Join(words) + " "
  {
    if |words| == 1 {
      assert words[..0] == [];
    } else {
      var rest := words[1..];
      RenderJoin(rest);
      RenderAppend([words[0]], rest);
      assert [words[0]] + rest == words;
      assert [words[0]][..0] == [];
      assert Render([words[0]]) == words[0] + " ";
      assert Join(words) == words[0] + " " + Join(rest);
    }
  }

  /** Rendering the groups one by one and concatenating equals rendering all their words. */
  lemma {:induction false} ConcatRender(groups: seq<seq<string>>)
    ensures Concat(RenderAll(groups)) == Render(Flatten(groups))
  {
    if groups != [] {
      var init := groups[..|groups| - 1];
      ConcatRender(init);
      RenderAppend(Flatten(init), groups[|groups| - 1]);
      assert RenderAll(groups)[..|groups| - 1] == RenderAll(init);
    }
  }

  /** Adding a word to a line adds the word and one space to its text. */
  lemma RenderSnoc(words: seq<string>, word: string)
    ensures Render(words + [word]) == Render(words) + word + " "
  {
    assert (words + [word])[..|words|] == words;
  }

  /** Adding a group adds its text as one more line. */
  lemma RenderAllSnoc(groups: seq<seq<string>>, group: seq<string>)
    ensures RenderAll(groups + [group]) == RenderAll(groups) + [Render(group)]
  {
    assert RenderAll(groups + [group])[..|groups|] == RenderAll(groups);
  }

  /** The rendered text of each group. */
  function RenderAll(groups: seq<seq<string>>): (lines: seq<string>)
    ensures |lines| == |groups|
    ensures forall i :: 0 <= i < |groups| ==> lines[i] == Render(groups[i])
  {
    seq(|groups|, i requires 0 <= i < |groups| => Render(groups[i]))
  }
}
