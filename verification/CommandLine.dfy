/** Writing the arguments of a stage as one command line, and reading them back. */
module CommandLine {
  import opened ShellText

  /** An argument that is one word of a line. */
  predicate IsWord(w: string) {
    w != "" && NUL !in w && forall k :: 0 <= k < |w| ==> !IsDelimiter(w[k])
  }

  /** The arguments, each with a blank behind it. */
  function Padded(args: seq<string>): string {
    if args == [] then "" else Padded(args[..|args| - 1]) + args[|args| - 1] + " "
  }

  lemma {:induction false} PaddedGrows(args: seq<string>, n: nat)
    requires n <= |args|
    ensures |Padded(args[..n])| <= |Padded(args)|
  {
    if n < |args| {
      assert args[..|args| - 1][..n] == args[..n];
      PaddedGrows(args[..|args| - 1], n);
    } else {
      assert args[..n] == args;
    }
  }

  /** The written part of the line and the part that is as before. */
  ghost predicate Written(line: seq<char>, was: seq<char>, front: string) {
    |front| <= |was| && line == front + was[|front|..]
  }

  lemma WriteNext(line: seq<char>, was: seq<char>, front: string, c: char)
    requires Written(line, was, front) && |front| < |was|
    ensures Written(line[|front| := c], was, front + [c])
  {
  }

  /** sprintf(line, "%s", w) at a position of the line. */
  method WriteString(line: array<char>, at: nat, w: string, ghost was: seq<char>, ghost front: string)
    requires Written(line[..], was, front) && at == |front| && at + |w| < line.Length
    modifies line
    ensures Written(line[..], was, front + w + [NUL])
  {
    for i := 0 to |w|
      invariant Written(line[..], was, front + w[..i])
    {
      WriteNext(line[..], was, front + w[..i], w[i]);
      assert front + w[..i + 1] == front + w[..i] + [w[i]];
      line[at + i] := w[i];
    }
    assert w[..|w|] == w;
    WriteNext(line[..], was, front + w, NUL);
    line[at + |w|] := NUL;
  }

  lemma PaddedNext(args: seq<string>, i: nat)
    requires i < |args|
    ensures Padded(args[..i + 1]) == Padded(args[..i]) + args[i] + " "
    ensures |Padded(args[..i])| + |args[i]| < |Padded(args)|
  {
    assert args[..i + 1][..i] == args[..i];
    PaddedGrows(args, i + 1);
  }

  /** One argument and the blank behind it; the end that sprintf puts there is overwritten. */
  method WriteArgument(line: array<char>, at: nat, w: string, ghost was: seq<char>, ghost front: string)
    returns (next: nat)
    requires Written(line[..], was, front) && at == |front| && at + |w| < line.Length
    modifies line
    ensures next == at + |w| + 1 && Written(line[..], was, front + w + " ")
  {
    WriteString(line, at, w, was, front);
    assert line[..][|front + w| := ' '] == front + w + " " + was[|front + w| + 1..];
    line[at + |w|] := ' ';
    next := at + |w| + 1;
  }

  /** The whole line: single blanks between the arguments, and the end of the string behind the last one. */
  function Line(args: seq<string>): string
    requires args != []
  {
    if |args| == 1 then args[0] + [NUL] else args[0] + " " + Line(args[1..])
  }

  lemma {:induction false} LineIsPadded(args: seq<string>)
    requires args != []
    ensures |Line(args)| == |Padded(args)| && Line(args) == Padded(args)[..|Padded(args)| - 1] + [NUL]
  {
    PaddedFront(args);
    if |args| > 1 {
      LineIsPadded(args[1..]);
    }
  }

  lemma {:induction false} PaddedFront(args: seq<string>)
    requires args != []
    ensures Padded(args) == args[0] + " " + Padded(args[1..])
    ensures Padded(args[1..]) == "" <==> |args| == 1
  {
    if |args| > 1 {
      var init := args[..|args| - 1];
      PaddedFront(init);
      assert args[1..][..|args| - 2] == init[1..];
    }
  }

  /** The arguments one behind the other, and then the end of the string in place of the last blank. */
  method BuildCommandLine(args: seq<string>, line: array<char>)
    requires args != [] && |Line(args)| <= line.Length
    modifies line
    ensures line[..] == Line(args) + old(line[|Line(args)|..])
  {
    var at := 0;
    ghost var was := line[..];
    LineIsPadded(args);
    for i := 0 to |args|
      invariant at == |Padded(args[..i])| && Written(line[..], was, Padded(args[..i]))
    {
      PaddedNext(args, i);
      at := WriteArgument(line, at, args[i], was, Padded(args[..i]));
    }
    assert args[..|args|] == args;
    Finish(Padded(args), was[at..]);
    ghost var before := line[..];
    line[at - 1] := NUL;
    assert line[..] == before[at - 1 := NUL];
  }

  lemma Finish(padded: string, rest: seq<char>)
    requires padded != ""
    ensures (padded + rest)[|padded| - 1 := NUL] == padded[..|padded| - 1] + [NUL] + rest
  {
  }

  /** The arguments lie from p on, each ended by a blank or the end of the string, the last one by the end. */
  ghost predicate LaidOut(s: seq<char>, p: nat, args: seq<string>)
    decreases |args|
  {
    if args == [] then p < |s| && s[p] == NUL
    else
      && p + |args[0]| < |s| && s[p..p + |args[0]|] == args[0]
      && if |args| == 1 then s[p + |args[0]|] == NUL
         else s[p + |args[0]|] == ' ' && LaidOut(s, p + |args[0]| + 1, args[1..])
  }

  lemma FirstIs(s: seq<char>, p: nat, w: string)
    requires IsWord(w) && p + |w| < |s| && s[p..p + |w|] == w
    requires Terminated(s, p + |w|) && (s[p + |w|] == NUL || IsDelimiter(s[p + |w|]))
    ensures Terminated(s, p) && !Blank(s, p) && FirstWord(s, p) == w && TokenEnd(s, p) == p + |w|
  {
    var e := p + |w|;
    forall k | p <= k < e ensures s[k] == w[k - p] { assert s[p..e][k - p] == w[k - p]; }
    WordEndsAt(s, p, e);
    assert WordStart(s, p) == p;
  }

  /** Arguments that are words and lie in a line like that are its words. */
  lemma {:induction false} LaidOutWords(s: seq<char>, p: nat, args: seq<string>)
    requires LaidOut(s, p, args) && forall i :: 0 <= i < |args| ==> IsWord(args[i])
    ensures Terminated(s, p) && Words(s, p) == args
    decreases |args|
  {
    if args != [] {
      var e := p + |args[0]|;
      if |args| > 1 {
        LaidOutWords(s, e + 1, args[1..]);
        assert Terminated(s, e);
      }
      FirstIs(s, p, args[0]);
      assert |args| == 1 ==> Words(s, e) == [];
    }
  }

  lemma {:induction false} LineIsLaidOut(s: seq<char>, p: nat, args: seq<string>)
    requires args != [] && p + |Line(args)| <= |s| && s[p..p + |Line(args)|] == Line(args)
    ensures LaidOut(s, p, args)
    decreases |args|
  {
    var w := args[0];
    if |args| == 1 {
      Pieces(s, p, w, [NUL]);
    } else {
      var tail := Line(args[1..]);
      assert w + " " + tail == w + (" " + tail);
      Pieces(s, p, w, " " + tail);
      Pieces(s, p + |w|, " ", tail);
      LineIsLaidOut(s, p + |w| + 1, args[1..]);
    }
  }

  lemma Pieces(s: seq<char>, p: nat, a: string, b: string)
    requires p + |a| + |b| <= |s| && s[p..p + |a| + |b|] == a + b
    ensures s[p..p + |a|] == a && s[p + |a|..p + |a| + |b|] == b
    ensures b != "" ==> s[p + |a|] == b[0]
  {
    assert s[p..p + |a|] == s[p..p + |a| + |b|][..|a|];
    assert s[p + |a|..p + |a| + |b|] == s[p..p + |a| + |b|][|a|..];
    assert b != "" ==> s[p + |a|] == s[p..p + |a| + |b|][|a|];
  }

  /** Reading a line back that was written from words gives these words. */
  lemma RoundTrip(line: seq<char>, args: seq<string>, rest: seq<char>)
    requires args != [] && forall i :: 0 <= i < |args| ==> IsWord(args[i])
    requires line == Line(args) + rest
    ensures Terminated(line, 0) && Words(line, 0) == args
  {
    LineIsLaidOut(line, 0, args);
    LaidOutWords(line, 0, args);
  }

  /** What the parser cuts out of a line are words, so a stage's command line reads back as its arguments. */
  lemma {:induction false} WordsAreWords(s: seq<char>, p: nat)
    requires Terminated(s, p)
    ensures forall i :: 0 <= i < |Words(s, p)| ==> IsWord(Words(s, p)[i])
    decreases |s| - p
  {
    if !Blank(s, p) {
      WordsAreWords(s, Next(s, p));
      NoDelimiterInside(s, WordStart(s, p));
    }
  }

  /** The command line made for a stage reads back as the arguments of the stage. */
  lemma StageReadsBack(s: seq<char>, p: nat, n: nat, line: seq<char>, rest: seq<char>)
    requires Terminated(s, p) && 0 < n <= |Words(s, p)| && line == Line(Words(s, p)[..n]) + rest
    ensures Terminated(line, 0) && Words(line, 0) == Words(s, p)[..n]
  {
    WordsAreWords(s, p);
    RoundTrip(line, Words(s, p)[..n], rest);
  }
}
