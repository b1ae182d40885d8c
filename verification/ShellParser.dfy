/** The command-line parser of the shell with pipes: counting and cutting out the words of a stage. */
module ShellParser {
  import opened Options
  import opened ShellStages
  import opened ShellText

  const COMMAND_LENGTH := 1024

  // ---------------------------------------------------------------- where the words are

  /** Where the call after n calls of strtok starts looking. */
  function Skip(s: seq<char>, p: nat, n: nat): (q: nat)
    requires Terminated(s, p)
    ensures p <= q < |s| && Terminated(s, q)
  {
    if n == 0 then p else Next(s, Skip(s, p, n - 1))
  }

  /** Where word n starts. */
  function StartOf(s: seq<char>, p: nat, n: nat): (d: nat)
    requires Terminated(s, p)
    ensures Skip(s, p, n) <= d < |s|
  {
    WordStart(s, Skip(s, p, n))
  }

  /** Behind n words the others follow. */
  lemma {:induction false} SkipWords(s: seq<char>, p: nat, n: nat)
    requires Terminated(s, p) && n <= |Words(s, p)|
    ensures Words(s, Skip(s, p, n)) == Words(s, p)[n..]
  {
    if n > 0 {
      SkipWords(s, p, n - 1);
    }
  }

  // ------------------------------------------------------------- the first '|' of a text

  lemma BarInFirstWord(s: seq<char>, q: nat)
    requires Terminated(s, q)
    ensures '|' !in FirstWord(s, q) <==> forall k :: q <= k < Next(s, q) ==> s[k] != '|'
  {
    var d, e := WordStart(s, q), TokenEnd(s, q);
    DelimitersBefore(s, q);
    forall k | d <= k < e ensures s[k] == FirstWord(s, q)[k - d] { }
    if '|' in FirstWord(s, q) {
      var k :| 0 <= k < e - d && FirstWord(s, q)[k] == '|';
      assert s[d + k] == '|';
    }
  }

  lemma BarStep(s: seq<char>, p: nat, q: nat)
    requires Terminated(s, q) && p <= q
    ensures Next(s, q) <= FirstBar(s, p) <==> q <= FirstBar(s, p) && '|' !in FirstWord(s, q)
  {
    BarInFirstWord(s, q);
    NoBarBefore(s, p);
  }

  lemma WordAt(s: seq<char>, p: nat, n: nat)
    requires Terminated(s, p) && n < |Words(s, p)|
    ensures !Blank(s, Skip(s, p, n)) && FirstWord(s, Skip(s, p, n)) == Words(s, p)[n] != ""
  {
    SkipWords(s, p, n);
    var q := Skip(s, p, n);
    assert Words(s, q)[0] == FirstWord(s, q);
  }

  /** A '|' before word n lies in one of the words before it. */
  lemma BarsAreInWords(s: seq<char>, p: nat, n: nat)
    requires Terminated(s, p) && n <= |Words(s, p)|
    ensures BarFree(Words(s, p), n) <==> Skip(s, p, n) <= FirstBar(s, p)
  {
    var ws, b := Words(s, p), FirstBar(s, p);
    for i := 0 to n
      invariant BarFree(ws, i) <==> Skip(s, p, i) <= b
    {
      OneMoreWord(s, p, i, ws, Skip(s, p, i), b);
    }
  }

  lemma OneMoreWord(s: seq<char>, p: nat, n: nat, ws: seq<string>, q: nat, b: nat)
    requires Terminated(s, p) && ws == Words(s, p) && n < |ws| && q == Skip(s, p, n) && b == FirstBar(s, p)
    requires BarFree(ws, n) <==> q <= b
    ensures BarFree(ws, n + 1) <==> Skip(s, p, n + 1) <= b
  {
    WordAt(s, p, n);
    BarStep(s, p, q);
  }

  lemma BarAt(s: seq<char>, q: nat)
    requires Terminated(s, q) && FirstWord(s, q) == BAR && !Blank(s, Next(s, q))
    ensures s[WordStart(s, q)] == '|' && Next(s, q) == WordStart(s, q) + 2
  {
    var d, e := WordStart(s, q), TokenEnd(s, q);
    assert s[d..e] == BAR;
    assert s[d] == BAR[0];
  }

  /** Where the bar that ends a stage stands, when words follow it. */
  lemma BarWord(s: seq<char>, p: nat, n: nat)
    requires Terminated(s, p) && n + 1 < |Words(s, p)| && Words(s, p)[n] == BAR
    ensures s[StartOf(s, p, n)] == '|' && Skip(s, p, n + 1) == StartOf(s, p, n) + 2
    ensures FirstBar(s, p) <= StartOf(s, p, n)
  {
    WordAt(s, p, n);
    WordAt(s, p, n + 1);
    BarAt(s, Skip(s, p, n));
    NoBarBefore(s, p);
  }

  /**
   * The scan for the first '|' finds the bar that ends the stage exactly when no word of the stage
   * has a '|' in it. Then the next stage starts with the right words; otherwise it starts too early,
   * inside the stage that has just been counted.
   */
  lemma NextStageExactlyWhen(s: seq<char>, p: nat)
    requires Terminated(s, p) && !Blank(s, p) && MoreStages(Words(s, p))
    ensures var ws, n := Words(s, p), StageLength(Words(s, p));
      && (FirstBar(s, p) + 2 == Skip(s, p, n + 1) <==> BarFree(ws, n))
      && Words(s, Skip(s, p, n + 1)) == ws[n + 1..]
      && FirstBar(s, p) + 2 <= Skip(s, p, n + 1)
      && (FirstBar(s, p) + 2 < Skip(s, p, n + 1) ==> FirstBar(s, p) < Skip(s, p, n))
  {
    var n := StageLength(Words(s, p));
    SkipWords(s, p, n + 1);
    BarWord(s, p, n);
    BarsAreInWords(s, p, n);
    DelimitersBefore(s, Skip(s, p, n));
  }

  // --------------------------------------------------------------------- repeated cuts

  /** What cutting words out of s between p and q may leave: delimiters there have become ends of strings. */
  ghost predicate Cut(s: seq<char>, s': seq<char>, p: nat, q: nat) {
    && |s'| == |s|
    && (forall k :: 0 <= k < |s| && (k < p || q <= k) ==> s'[k] == s[k])
    && (forall k :: 0 <= k < |s| ==> s'[k] == s[k] || (s'[k] == NUL && IsDelimiter(s[k])))
  }

  /** The next call finds the next word of the uncut text. */
  lemma CutFinds(s: seq<char>, s': seq<char>, p: nat, q: nat)
    requires Terminated(s, q) && p <= q && Cut(s, s', p, q)
    ensures Terminated(s', q) && TokenAt(s', q) == TokenAt(s, q) && Next(s', q) == Next(s, q)
    ensures AfterCut(s', q) == s'[TokenEnd(s, q) := NUL] && FirstWord(s', q) == FirstWord(s, q)
  {
    SameFrom(s, s', q);
    SameToken(s, q, s', q);
    SameNext(s, q, s', q);
  }

  /** The next call cuts off the next word of the uncut text. */
  lemma CutOn(s: seq<char>, s': seq<char>, p: nat, q: nat)
    requires Terminated(s, q) && p <= q && Cut(s, s', p, q)
    ensures Terminated(s', q) && TokenAt(s', q) == TokenAt(s, q) && Next(s', q) == Next(s, q)
    ensures Terminated(AfterCut(s', q), WordStart(s, q)) && String(AfterCut(s', q), WordStart(s, q)) == FirstWord(s, q)
    ensures Cut(s, AfterCut(s', q), p, Next(s, q))
    ensures AfterCut(s', q) == s'[TokenEnd(s, q) := NUL]
  {
    CutFinds(s, s', p, q);
    CutLaw(s', q);
    var e := TokenEnd(s, q);
    assert s'[e] == s[e];
  }

  lemma SkipGrows(s: seq<char>, p: nat, m: nat, n: nat)
    requires Terminated(s, p) && m <= n
    ensures Skip(s, p, m) <= Skip(s, p, n)
  {
    for i := m to n
      invariant Skip(s, p, m) <= Skip(s, p, i)
    {
    }
  }

  /** Later words end later. */
  lemma EndsGrow(s: seq<char>, p: nat, j: nat, i: nat)
    requires Terminated(s, p) && j < i
    ensures TokenEnd(s, Skip(s, p, j)) <= TokenEnd(s, Skip(s, p, i))
  {
    SkipGrows(s, p, j + 1, i);
    assert Skip(s, p, j + 1) == Next(s, Skip(s, p, j));
  }

  /** From q on all is as it was, up to e, where a string ends. */
  ghost predicate CutAt(s: seq<char>, s': seq<char>, q: nat, e: nat) {
    && q <= e < |s| == |s'|
    && s'[e] == NUL && s'[q..e] == s[q..e]
  }

  /** Word j and the delimiters before it are as they were, and a string ends behind it. */
  ghost predicate WordCut(s: seq<char>, s': seq<char>, p: nat, j: nat)
    requires Terminated(s, p)
  {
    CutAt(s, s', Skip(s, p, j), TokenEnd(s, Skip(s, p, j)))
  }

  /** The buffer after n words from p on have been cut out. */
  ghost predicate WordsCut(s: seq<char>, s': seq<char>, p: nat, n: nat)
    requires Terminated(s, p)
  {
    Cut(s, s', p, Skip(s, p, n)) && forall j: nat :: j < n ==> WordCut(s, s', p, j)
  }

  lemma CutStays(s: seq<char>, s': seq<char>, q: nat, e: nat, c: nat)
    requires CutAt(s, s', q, e) && e <= c < |s|
    ensures CutAt(s, s'[c := NUL], q, e)
  {
  }

  lemma CutHere(s: seq<char>, s': seq<char>, p: nat, q: nat, e: nat)
    requires Cut(s, s', p, q) && q <= e < |s|
    ensures CutAt(s, s'[e := NUL], q, e)
  {
  }

  lemma WordStays(s: seq<char>, s': seq<char>, p: nat, j: nat, n: nat, c: nat)
    requires Terminated(s, p) && j < n && WordCut(s, s', p, j) && c == TokenEnd(s, Skip(s, p, n))
    ensures WordCut(s, s'[c := NUL], p, j)
  {
    EndsGrow(s, p, j, n);
    CutStays(s, s', Skip(s, p, j), TokenEnd(s, Skip(s, p, j)), c);
  }

  /** The next call cuts off one word more. */
  lemma WordsCutOn(s: seq<char>, s': seq<char>, p: nat, n: nat, q: nat)
    requires Terminated(s, p) && WordsCut(s, s', p, n) && q == Skip(s, p, n)
    ensures Terminated(s', q) && WordsCut(s, AfterCut(s', q), p, n + 1)
  {
    var e := TokenEnd(s, q);
    CutOn(s, s', p, q);
    var cut := AfterCut(s', q);
    assert cut == s'[e := NUL];
    CutHere(s, s', p, q, e);
    forall j: nat | j < n + 1 ensures WordCut(s, cut, p, j) {
      if j < n {
        assert WordCut(s, s', p, j);
        WordStays(s, s', p, j, n, e);
      }
    }
  }

  /** A string keeps as long as it and its end are not overwritten. */
  lemma StringKeeps(s: seq<char>, s': seq<char>, x: nat)
    requires Terminated(s, x) && |s'| == |s|
    requires forall k :: x <= k <= x + |String(s, x)| ==> s'[k] == s[k]
    ensures Terminated(s', x) && String(s', x) == String(s, x)
  {
    var e := x + |String(s, x)|;
    StringIsSlice(s, x);
    forall k | x <= k < e ensures s'[k] != NUL {
      assert s[k] == String(s, x)[k - x];
    }
    StringIs(s', x, e);
    assert s'[x..e] == s[x..e];
  }

  // ------------------------------------------------------------------------ the parser

  /** strcpy of the string at p to the start of another buffer. */
  method CopyString(from: array<char>, p: nat, to: array<char>)
    requires Terminated(from[..], p) && |String(from[..], p)| < to.Length && from != to
    modifies to
    ensures Terminated(to[..], 0) && String(to[..], 0) == String(from[..], p)
    ensures forall k :: 0 <= k < |String(from[..], p)| ==> to[k] == from[p + k]
  {
    ghost var s := from[..];
    ghost var t := String(s, p);
    StringIsSlice(s, p);
    var i := 0;
    while from[p + i] != NUL
      invariant 0 <= i <= |t|
      invariant forall k :: 0 <= k < i ==> to[k] == from[p + k]
      decreases |t| - i
    {
      assert from[p + i] == s[p + i];
      to[i] := from[p + i];
      i := i + 1;
    }
    assert forall k :: 0 <= k < |t| ==> t[k] == s[p + k];
    to[i] := NUL;
    forall k | 0 <= k < i ensures to[..][k] == t[k] { assert t[k] == s[p + k]; }
    StringIs(to[..], 0, i);
    assert to[..][0..i] == t;
  }

  /** The index of the first '|' in a buffer that has one. */
  method FindBar(copy: array<char>) returns (i: nat)
    requires FirstBar(copy[..], 0) < copy.Length
    ensures i == FirstBar(copy[..], 0)
  {
    i := 0;
    while copy[i] != '|'
      invariant 0 <= i <= FirstBar(copy[..], 0) == FirstBar(copy[..], i)
      decreases FirstBar(copy[..], 0) - i
    {
      i := i + 1;
    }
  }

  /** Cutting does not change where the first '|' is. */
  lemma CutKeepsBar(c: seq<char>, c': seq<char>, q: nat)
    requires Cut(c, c', 0, q)
    ensures FirstBar(c', 0) == FirstBar(c, 0)
  {
    NoBarBefore(c, 0);
    NoBarBefore(c', 0);
  }

  /** Neither does copying the string. */
  lemma SameBar(s: seq<char>, p: nat, c: seq<char>)
    requires Terminated(c, 0) && Terminated(s, p) && String(c, 0) == String(s, p)
    requires FirstBar(c, 0) < |String(c, 0)|
    ensures FirstBar(s, p) == p + FirstBar(c, 0)
  {
    var t, b := String(c, 0), FirstBar(c, 0);
    StringIsSlice(c, 0);
    StringIsSlice(s, p);
    assert forall k :: 0 <= k < |t| ==> c[k] == t[k] && s[p + k] == t[k];
    assert s[p + b] == '|';
    var b' := FirstBar(s, p);
    NoBarBefore(c, 0);
    NoBarBefore(s, p);
    assert p <= b' <= p + b;
    assert forall k :: p <= k < p + b ==> s[k] != '|';
  }

  lemma NoEndInWord(s: seq<char>, q: nat)
    requires Terminated(s, q)
    ensures forall k :: q <= k < Next(s, q) ==> s[k] != NUL
  {
    DelimitersBefore(s, q);
    NoDelimiterInside(s, WordStart(s, q));
  }

  /** The words lie before the end of the string. */
  lemma SkipInString(s: seq<char>, p: nat, n: nat)
    requires Terminated(s, p)
    ensures Skip(s, p, n) <= p + |String(s, p)|
  {
    var end := p + |String(s, p)|;
    for i := 0 to n
      invariant Skip(s, p, i) <= end
    {
      NoEndInWord(s, Skip(s, p, i));
      assert s[end] == NUL;
    }
  }

  /** The copy has the same words, and the next stage in the same place. */
  lemma SameStage(s: seq<char>, p: nat, c: seq<char>)
    requires Terminated(c, 0) && Terminated(s, p) && String(c, 0) == String(s, p)
    ensures Words(c, 0) == Words(s, p)
    ensures Words(s, p) != [] && MoreStages(Words(s, p)) ==> FirstBar(s, p) == p + FirstBar(c, 0)
  {
    SameWords(s, p, c, 0);
    var ws := Words(c, 0);
    if ws != [] && MoreStages(ws) {
      BarWord(c, 0, StageLength(ws));
      SkipInString(c, 0, StageLength(ws) + 1);
      SameBar(s, p, c);
    }
  }

  /** What the n-th call of strtok has returned and left in the buffer. */
  ghost predicate Found(c: seq<char>, c': seq<char>, n: nat, token: Option<nat>, save: nat)
    requires Terminated(c, 0)
  {
    && n <= |Words(c, 0)|
    && (token.Some? <==> n < |Words(c, 0)|)
    && Cut(c, c', 0, save) && save == Skip(c, 0, n + 1)
    && (token.Some? ==> Terminated(c', token.value) && String(c', token.value) == Words(c, 0)[n] != "")
  }

  /** The call after n words. */
  lemma NextWord(c: seq<char>, c': seq<char>, n: nat)
    requires Terminated(c, 0) && n <= |Words(c, 0)| && Cut(c, c', 0, Skip(c, 0, n))
    ensures var q := Skip(c, 0, n);
      Terminated(c', q) && Found(c, AfterCut(c', q), n, TokenAt(c', q), Next(c', q))
  {
    var q := Skip(c, 0, n);
    CutOn(c, c', 0, q);
    SkipWords(c, 0, n);
    if n < |Words(c, 0)| {
      WordAt(c, 0, n);
    }
  }

  /** Counts the words of the first stage behind its first word; the last token is the bar, if there is one. */
  method CountStage(scanner: Tokenizer, copy: array<char>, ghost c: seq<char>, ghost ws: seq<string>)
    returns (args: int, token: Option<nat>)
    requires scanner.buffer == copy && Terminated(c, 0) && ws == Words(c, 0) && ws != []
    requires Cut(c, copy[..], 0, Skip(c, 0, 1)) && scanner.save == Skip(c, 0, 1)
    modifies scanner`save, copy
    ensures args == StageLength(ws)
    ensures Found(c, copy[..], args, token, scanner.save)
  {
    args := 1;
    NextWord(c, copy[..], 1);
    token := scanner.Again();
    while token.Some? && String(copy[..], token.value) != BAR
      invariant 1 <= args <= |ws| && NextBar(ws, 1) == NextBar(ws, args)
      invariant Found(c, copy[..], args, token, scanner.save)
      decreases |ws| - args
    {
      if String(copy[..], token.value) == "" {
        break;
      }
      args := args + 1;
      NextWord(c, copy[..], args);
      token := scanner.Again();
    }
    assert args == |ws| || ws[args] == BAR;
  }

  lemma BarInCopy(c: seq<char>, c': seq<char>, ws: seq<string>, n: nat, q: nat)
    requires Terminated(c, 0) && ws == Words(c, 0) && n + 1 < |ws| && ws[n] == BAR && Cut(c, c', 0, q)
    ensures FirstBar(c', 0) == FirstBar(c, 0) < |c|
  {
    BarWord(c, 0, n);
    CutKeepsBar(c, c', q);
  }

  /** The call behind a bar: a token if there are more words, and the first '|' is where it was. */
  lemma BarThenWord(c: seq<char>, c': seq<char>, ws: seq<string>, n: nat)
    requires Terminated(c, 0) && ws == Words(c, 0) && n < |ws| && ws[n] == BAR && Cut(c, c', 0, Skip(c, 0, n + 1))
    ensures var q := Skip(c, 0, n + 1);
      && Terminated(c', q) && (TokenAt(c', q).Some? <==> n + 1 < |ws|)
      && (n + 1 < |ws| ==> FirstBar(AfterCut(c', q), 0) == FirstBar(c, 0) < |c|)
  {
    var q := Skip(c, 0, n + 1);
    NextWord(c, c', n + 1);
    if n + 1 < |ws| {
      BarInCopy(c, AfterCut(c', q), ws, n, Next(c', q));
    }
  }

  /** The first '|' of a copy that has been counted up to the bar behind a stage, if words follow that bar. */
  method FindNextStage(scanner: Tokenizer, copy: array<char>, ghost c: seq<char>, ghost ws: seq<string>, ghost n: nat)
    returns (bar: Option<nat>)
    requires scanner.buffer == copy && Terminated(c, 0) && ws == Words(c, 0) && n < |ws| && ws[n] == BAR
    requires Cut(c, copy[..], 0, Skip(c, 0, n + 1)) && scanner.save == Skip(c, 0, n + 1)
    modifies scanner`save, copy
    ensures bar == if n + 1 < |ws| then Some(FirstBar(c, 0)) else None
  {
    BarThenWord(c, copy[..], ws, n);
    var token := scanner.Again();
    if token.None? {
      return None;
    }
    var i := FindBar(copy);
    return Some(i);
  }

  /** Counts in a copy of the text, which strtok cuts up: words, and the first '|' if another stage follows. */
  method CountCopy(copy: array<char>, ghost ws: seq<string>) returns (args: int, bar: Option<nat>)
    requires Terminated(copy[..], 0) && ws == Words(copy[..], 0)
    modifies copy
    ensures args == if ws == [] then -1 else StageLength(ws)
    ensures bar == if ws != [] && MoreStages(ws) then Some(FirstBar(old(copy[..]), 0)) else None
  {
    ghost var c := copy[..];
    args, bar := -1, None;
    var scanner := new Tokenizer(copy);
    NextWord(c, c, 0);
    var token := scanner.First(copy, 0);
    if token.None? || String(copy[..], token.value) == "" {
      return;
    }
    args, token := CountStage(scanner, copy, c, ws);
    if token.Some? {
      bar := FindNextStage(scanner, copy, c, ws, args);
    }
  }

  /** The local copy that counting cuts up instead of the line. */
  method CopyText(line: array<char>, start: nat) returns (copy: array<char>)
    requires Terminated(line[..], start) && line.Length <= COMMAND_LENGTH + 1
    ensures fresh(copy) && Terminated(copy[..], 0) && Words(copy[..], 0) == Words(line[..], start)
    ensures Words(line[..], start) != [] && MoreStages(Words(line[..], start)) ==>
      FirstBar(line[..], start) == start + FirstBar(copy[..], 0)
  {
    copy := new char[COMMAND_LENGTH + 1];
    CopyString(line, start, copy);
    SameStage(line[..], start, copy[..]);
  }

  /**
   * The number of words of the first stage, whether another stage follows, and where its text starts,
   * two characters behind the first '|'. A blank text gives -1.
   */
  method CountArgs(line: array<char>, start: nat) returns (args: int, present: bool, next: Option<nat>)
    requires Terminated(line[..], start) && line.Length <= COMMAND_LENGTH + 1
    ensures args == if Words(line[..], start) == [] then -1 else StageLength(Words(line[..], start))
    ensures present == (Words(line[..], start) != [] && MoreStages(Words(line[..], start)))
    ensures next == if present then Some(FirstBar(line[..], start) + 2) else None
  {
    ghost var ws := Words(line[..], start);
    var copy := CopyText(line, start);
    var bar;
    args, bar := CountCopy(copy, ws);
    present := bar.Some?;
    next := if present then Some(start + bar.value + 2) else None;
  }

  // --------------------------------------------------------------- the argument vector

  /** An entry of the vector: the word starts there, and it and its end lie before the limit. */
  ghost predicate Entry(s: seq<char>, at: Option<nat>, w: string, limit: nat) {
    at.Some? && Terminated(s, at.value) && String(s, at.value) == w && at.value + |w| < limit
  }

  /** What execvp reads through the vector: these strings, up to the null pointer behind the last one. */
  ghost predicate IsVector(s: seq<char>, vector: seq<Option<nat>>, ws: seq<string>) {
    && |vector| == |ws| + 1 && vector[|ws|] == None
    && forall i :: 0 <= i < |ws| ==> Entry(s, vector[i], ws[i], |s|)
  }

  /** Where the words returned so far end: before the rest, if there is one. */
  ghost function Limit(s: seq<char>, p: nat, n: nat): (limit: nat)
    requires Terminated(s, p)
    ensures limit <= |s|
  {
    if n < |Words(s, p)| then Skip(s, p, n) else |s|
  }

  lemma EntryKeeps(s: seq<char>, s': seq<char>, at: Option<nat>, w: string, limit: nat, limit': nat)
    requires Entry(s, at, w, limit) && |s'| == |s| && limit <= limit'
    requires forall k :: 0 <= k < limit && k < |s| ==> s'[k] == s[k]
    ensures Entry(s', at, w, limit')
  {
    StringKeeps(s, s', at.value);
  }

  /** The word cut off by the call after n words. */
  lemma NewEntry(s: seq<char>, s': seq<char>, p: nat, n: nat)
    requires Terminated(s, p) && n < |Words(s, p)| && Cut(s, s', p, Skip(s, p, n))
    ensures var q := Skip(s, p, n);
      && Terminated(s', q) && Next(s', q) == Skip(s, p, n + 1)
      && Entry(AfterCut(s', q), TokenAt(s', q), Words(s, p)[n], Limit(s, p, n + 1))
      && forall k :: 0 <= k < q ==> AfterCut(s', q)[k] == s'[k]
  {
    WordAt(s, p, n);
    CutOn(s, s', p, Skip(s, p, n));
    EndBeforeLimit(s, p, n);
  }

  lemma EndBeforeLimit(s: seq<char>, p: nat, n: nat)
    requires Terminated(s, p) && n < |Words(s, p)|
    ensures TokenEnd(s, Skip(s, p, n)) < Limit(s, p, n + 1)
    ensures n + 1 < |Words(s, p)| ==> Limit(s, p, n + 1) == Skip(s, p, n + 1)
  {
    if n + 1 < |Words(s, p)| {
      WordAt(s, p, n + 1);
      assert s[TokenEnd(s, Skip(s, p, n))] != NUL;
    }
  }

  /** The entries before the words of the next call. */
  ghost predicate Entries(s: seq<char>, vector: seq<Option<nat>>, ws: seq<string>, n: nat, limit: nat) {
    && n <= |vector| && n <= |ws|
    && forall j :: 0 <= j < n ==> Entry(s, vector[j], ws[j], limit)
  }

  lemma EntriesKeep(s: seq<char>, s': seq<char>, vector: seq<Option<nat>>, ws: seq<string>, n: nat, limit: nat, limit': nat)
    requires Entries(s, vector, ws, n, limit) && |s'| == |s| && limit <= limit'
    requires forall k :: 0 <= k < limit && k < |s| ==> s'[k] == s[k]
    ensures Entries(s', vector, ws, n, limit')
  {
    forall j | 0 <= j < n ensures Entry(s', vector[j], ws[j], limit') {
      EntryKeeps(s, s', vector[j], ws[j], limit, limit');
    }
  }

  /** The buffer and the vector after n calls. */
  ghost predicate Built(s: seq<char>, s': seq<char>, vector: seq<Option<nat>>, p: nat, n: nat)
    requires Terminated(s, p)
  {
    && n <= |Words(s, p)|
    && WordsCut(s, s', p, n)
    && Entries(s', vector, Words(s, p), n, Limit(s, p, n))
  }

  lemma BuildOn(s: seq<char>, s': seq<char>, vector: seq<Option<nat>>, p: nat, n: nat)
    requires Terminated(s, p) && n < |Words(s, p)| && n < |vector| && Built(s, s', vector, p, n)
    ensures var q := Skip(s, p, n);
      && Terminated(s', q) && Next(s', q) == Skip(s, p, n + 1)
      && Built(s, AfterCut(s', q), vector[n := TokenAt(s', q)], p, n + 1)
  {
    var q := Skip(s, p, n);
    WordsCutOn(s, s', p, n, q);
    NewEntry(s, s', p, n);
    EntriesKeep(s', AfterCut(s', q), vector, Words(s, p), n, Limit(s, p, n), Limit(s, p, n + 1));
  }

  lemma BuiltVector(s: seq<char>, s': seq<char>, vector: seq<Option<nat>>, p: nat, n: nat)
    requires Terminated(s, p) && Built(s, s', vector, p, n) && |vector| == n + 1
    ensures IsVector(s', vector[n := None], Words(s, p)[..n])
  {
    var ws := Words(s, p);
    forall i | 0 <= i < n ensures Entry(s', vector[n := None][i], ws[i], |s'|) {
      assert Entry(s', vector[i], ws[i], Limit(s, p, n));
    }
  }

  /** One step of the loop that fills the vector. */
  method PutArgument(scanner: Tokenizer, line: array<char>, command: nat, vector: array<Option<nat>>, i: nat,
                     ghost s: seq<char>)
    requires Terminated(s, command) && i < |Words(s, command)| && i < vector.Length
    requires Built(s, line[..], vector[..], command, i)
    requires i > 0 ==> scanner.buffer == line && scanner.save == Skip(s, command, i)
    modifies scanner, line, vector
    ensures Built(s, line[..], vector[..], command, i + 1)
    ensures scanner.buffer == line && scanner.save == Skip(s, command, i + 1)
  {
    ghost var s', v := line[..], vector[..];
    BuildOn(s, s', v, command, i);
    ghost var q := Skip(s, command, i);
    var token;
    if i == 0 {
      token := scanner.First(line, command);
    } else {
      token := scanner.Again();
    }
    ghost var cut := AfterCut(s', q);
    assert line[..] == cut && token == TokenAt(s', q);
    vector[i] := token;
    assert vector[..] == v[i := token];
  }

  /** The argument vector of a command, pointing into its text, which strtok cuts up. */
  method BuildArgVector(line: array<char>, command: nat, argNum: nat) returns (vector: array<Option<nat>>)
    requires Terminated(line[..], command) && argNum <= |Words(line[..], command)|
    modifies line
    ensures fresh(vector) && IsVector(line[..], vector[..], Words(old(line[..]), command)[..argNum])
    ensures WordsCut(old(line[..]), line[..], command, argNum)
  {
    ghost var s := line[..];
    vector := new Option<nat>[argNum + 1];
    var scanner := new Tokenizer(line);
    for i := 0 to argNum
      invariant Built(s, line[..], vector[..], command, i)
      invariant i > 0 ==> scanner.buffer == line && scanner.save == Skip(s, command, i)
    {
      PutArgument(scanner, line, command, vector, i, s);
    }
    BuiltVector(s, line[..], vector[..], command, argNum);
    ghost var v := vector[..];
    vector[argNum] := None;
    assert vector[..] == v[argNum := None];
  }

  /** The strings execvp reads through a vector. */
  function ReadVector(s: seq<char>, vector: seq<Option<nat>>): seq<string>
    requires forall i :: 0 <= i < |vector| && vector[i].Some? ==> Terminated(s, vector[i].value)
  {
    if vector == [] || vector[0].None? then [] else [String(s, vector[0].value)] + ReadVector(s, vector[1..])
  }

  lemma {:induction false} VectorRead(s: seq<char>, vector: seq<Option<nat>>, ws: seq<string>)
    requires IsVector(s, vector, ws)
    ensures forall i :: 0 <= i < |vector| && vector[i].Some? ==> Terminated(s, vector[i].value)
    ensures ReadVector(s, vector) == ws
  {
    if ws != [] {
      assert Entry(s, vector[0], ws[0], |s|);
      forall i | 0 <= i < |ws[1..]| ensures Entry(s, vector[1..][i], ws[1..][i], |s|) {
        assert Entry(s, vector[i + 1], ws[i + 1], |s|);
      }
      VectorRead(s, vector[1..], ws[1..]);
    }
  }

  // ---------------------------------------------------------- what the next round sees

  lemma {:induction false} OneWord(s: seq<char>, x: nat, d: nat, e: nat)
    requires x <= d < e < |s| && s[e] == NUL
    requires forall k :: x <= k < d ==> IsDelimiter(s[k])
    requires forall k :: d <= k < e ==> !IsDelimiter(s[k]) && s[k] != NUL
    ensures Terminated(s, x) && Words(s, x) == [s[d..e]]
    decreases d - x
  {
    TerminatedAt(s, x, e);
    TerminatedAt(s, d, e);
    if x < d {
      OneWord(s, x + 1, d, e);
      assert WordStart(s, x) == WordStart(s, x + 1);
    } else {
      WordEndsAt(s, d, e);
      assert Words(s, e) == [];
    }
  }

  /** Where the first '|' of a text is, by the words. */
  lemma BarPlace(s: seq<char>, p: nat, j: nat)
    requires Terminated(s, p) && j < |Words(s, p)| && BarFree(Words(s, p), j) && '|' in Words(s, p)[j]
    ensures FirstBar(s, p) == StartOf(s, p, j) + FirstBar(Words(s, p)[j], 0)
    ensures FirstBar(Words(s, p)[j], 0) < |Words(s, p)[j]|
  {
    var q := Skip(s, p, j);
    WordAt(s, p, j);
    BarsAreInWords(s, p, j);
    BarInside(Words(s, p)[j]);
    NoBarBefore(s, p);
    DelimitersBefore(s, q);
    BarInSlice(s, p, WordStart(s, q), TokenEnd(s, q));
  }

  lemma BarInSlice(s: seq<char>, p: nat, d: nat, e: nat)
    requires p <= d <= e <= |s| && FirstBar(s[d..e], 0) < e - d
    requires forall k :: p <= k < d ==> s[k] != '|'
    ensures FirstBar(s, p) == d + FirstBar(s[d..e], 0)
  {
    var o, b := FirstBar(s[d..e], 0), FirstBar(s, p);
    NoBarBefore(s, p);
    NoBarBefore(s[d..e], 0);
    assert s[d + o] == '|';
    assert b >= d;
    assert forall k :: d <= k < d + o ==> s[k] == s[d..e][k - d];
  }

  /** The words seen from inside a word that has been cut. */
  lemma SeenInside(s: seq<char>, s': seq<char>, q: nat, o: nat)
    requires Terminated(s, q) && CutAt(s, s', q, TokenEnd(s, q)) && o <= |FirstWord(s, q)|
    ensures var x := WordStart(s, q) + o;
      Terminated(s', x) && Words(s', x) == if o < |FirstWord(s, q)| then [FirstWord(s, q)[o..]] else []
  {
    var d, e := WordStart(s, q), TokenEnd(s, q);
    var x := d + o;
    SamePlaces(s, s', q, e);
    NoDelimiterInside(s, d);
    if x < e {
      OneWord(s', x, x, e);
      assert s'[x..e] == s[d..e][o..];
    }
  }

  /** The words seen from the delimiters before a word that has been cut. */
  lemma SeenBefore(s: seq<char>, s': seq<char>, q: nat)
    requires Terminated(s, q) && !Blank(s, q) && CutAt(s, s', q, TokenEnd(s, q))
    ensures Terminated(s', q) && Words(s', q) == [FirstWord(s, q)]
  {
    var d, e := WordStart(s, q), TokenEnd(s, q);
    SamePlaces(s, s', q, e);
    DelimitersBefore(s, q);
    NoDelimiterInside(s, d);
    OneWord(s', q, d, e);
    assert s'[d..e] == s[d..e];
  }

  lemma SamePlaces(s: seq<char>, s': seq<char>, q: nat, e: nat)
    requires CutAt(s, s', q, e)
    ensures forall k :: q <= k < e ==> s'[k] == s[k]
  {
    forall k | q <= k < e ensures s'[k] == s[k] { assert s'[q..e][k - q] == s[q..e][k - q]; }
  }

  /** The words seen from where nothing has been cut. */
  lemma SeenUncut(s: seq<char>, s': seq<char>, p: nat, ws: seq<string>, n: nat)
    requires Terminated(s, p) && ws == Words(s, p) && n <= |ws| && Cut(s, s', p, Skip(s, p, n))
    ensures Terminated(s', Skip(s, p, n)) && Words(s', Skip(s, p, n)) == ws[n..]
  {
    var q := Skip(s, p, n);
    SameFrom(s, s', q);
    SameWords(s, q, s', q);
    SkipWords(s, p, n);
  }

  /** Where word j ends and the next strtok call goes on, if there are more words. */
  lemma WordBounds(s: seq<char>, p: nat, ws: seq<string>, j: nat)
    requires Terminated(s, p) && ws == Words(s, p) && j + 1 < |ws|
    ensures Skip(s, p, j + 1) == StartOf(s, p, j) + |ws[j]| + 1
  {
    WordAt(s, p, j);
    WordAt(s, p, j + 1);
    assert s[TokenEnd(s, Skip(s, p, j))] != NUL;
  }

  /** Two characters behind a '|' that is not the last of its word: the rest of the word. */
  lemma NextInside(s: seq<char>, s': seq<char>, p: nat, w: string, j: nat, o: nat)
    requires Terminated(s, p) && j < |Words(s, p)| && BarFree(Words(s, p), j) && w == Words(s, p)[j]
    requires '|' in w && o == FirstBar(w, 0) + 2 <= |w| && WordCut(s, s', p, j)
    ensures var x := FirstBar(s, p) + 2; Terminated(s', x) && Words(s', x) == if o < |w| then [w[o..]] else []
  {
    BarPlace(s, p, j);
    WordAt(s, p, j);
    SeenInside(s, s', Skip(s, p, j), o);
  }

  /** Two characters behind a '|' that is the last of its word: where the next strtok call went on. */
  lemma NextBehind(s: seq<char>, p: nat, ws: seq<string>, j: nat)
    requires Terminated(s, p) && ws == Words(s, p) && j + 1 < |ws|
    requires BarFree(ws, j) && '|' in ws[j] && FirstBar(ws[j], 0) + 1 == |ws[j]|
    ensures FirstBar(s, p) + 2 == Skip(s, p, j + 1)
  {
    BarPlace(s, p, j);
    WordBounds(s, p, ws, j);
  }

  /** The next word, if it has been cut as well. */
  lemma SeenCut(s: seq<char>, s': seq<char>, p: nat, i: nat)
    requires Terminated(s, p) && i < |Words(s, p)| && WordCut(s, s', p, i)
    ensures Terminated(s', Skip(s, p, i)) && Words(s', Skip(s, p, i)) == [Words(s, p)[i]]
  {
    WordAt(s, p, i);
    SeenBefore(s, s', Skip(s, p, i));
  }

  /** The next round after words without: the words behind the bar, which the cuts leave as they were. */
  lemma NextBeyond(s: seq<char>, s': seq<char>, p: nat, ws: seq<string>, n: nat)
    requires Terminated(s, p) && ws == Words(s, p) && ws != [] && MoreStages(ws)
    requires n == StageLength(ws) && BarFree(ws, n) && Cut(s, s', p, Skip(s, p, n))
    ensures var x := FirstBar(s, p) + 2; Terminated(s', x) && Words(s', x) == ws[n + 1..]
  {
    NextStageExactlyWhen(s, p);
    var x := FirstBar(s, p) + 2;
    SameFrom(s, s', x);
    SameWords(s, x, s', x);
  }

  /** The words seen from where strtok was called for word i, or would be called for the bar. */
  lemma SeenAfter(s: seq<char>, s': seq<char>, p: nat, ws: seq<string>, n: nat, i: nat, x: nat, rest: seq<string>)
    requires Terminated(s, p) && ws == Words(s, p) && i <= n < |ws| && WordsCut(s, s', p, n) && x == Skip(s, p, i)
    requires rest == if i < n then [ws[i]] else ws[n..]
    ensures Terminated(s', x) && Words(s', x) == rest
  {
    if i < n {
      assert WordCut(s, s', p, i);
      SeenCut(s, s', p, i);
    } else {
      SeenUncut(s, s', p, ws, n);
    }
  }

  /** The next round after a word with a '|' in it. */
  lemma NextStray(s: seq<char>, s': seq<char>, p: nat, ws: seq<string>, n: nat, j: nat, x: nat, rest: seq<string>)
    requires Terminated(s, p) && ws == Words(s, p) && j < n < |ws| && BarFree(ws, j) && '|' in ws[j]
    requires WordsCut(s, s', p, n) && x == FirstBar(s, p) + 2
    requires var w, o := ws[j], FirstBar(ws[j], 0);
      rest == if o + 2 < |w| then [w[o + 2..]] else if o + 2 == |w| then [] else if j + 1 < n then [ws[j + 1]] else ws[n..]
    ensures Terminated(s', x) && Words(s', x) == rest
  {
    var w, o := ws[j], FirstBar(ws[j], 0);
    BarInside(w);
    if o + 2 <= |w| {
      assert WordCut(s, s', p, j);
      NextInside(s, s', p, w, j, o + 2);
    } else {
      NextBehind(s, p, ws, j);
      SeenAfter(s, s', p, ws, n, j + 1, x, rest);
    }
  }

  /** For every line: the text at next_command, after the cuts of this stage, has these words. */
  lemma NextWords(s: seq<char>, s': seq<char>, p: nat, ws: seq<string>, n: nat, x: nat)
    requires Terminated(s, p) && ws == Words(s, p) && ws != [] && MoreStages(ws) && n == StageLength(ws)
    requires WordsCut(s, s', p, n) && x == FirstBar(s, p) + 2
    ensures Terminated(s', x) && Words(s', x) == Following(ws)
  {
    var j, rest := FirstBarWord(ws, n), Following(ws);
    if j == n {
      NextBeyond(s, s', p, ws, n);
      assert rest == ws[n + 1..];
    } else {
      FollowingIs(ws, n, j, ws[j], FirstBar(ws[j], 0));
      NextStray(s, s', p, ws, n, j, x, rest);
    }
  }

  /** One stage parsed: its arguments as execvp sees them, and where the next stage starts, if there is one. */
  method ParseStage(line: array<char>, pos: nat)
    returns (blank: bool, present: bool, arguments: seq<string>, next: Option<nat>)
    requires Terminated(line[..], pos) && line.Length <= COMMAND_LENGTH + 1
    modifies line
    ensures var ws := Words(old(line[..]), pos);
      && (blank <==> ws == [])
      && (!blank ==> arguments == ws[..StageLength(ws)] && present == MoreStages(ws))
      && present == next.Some?
      && (!blank && present ==>
            pos < next.value && Terminated(line[..], next.value) && Words(line[..], next.value) == Following(ws))
  {
    ghost var s, ws := line[..], Words(line[..], pos);
    var args;
    args, present, next := CountArgs(line, pos);
    blank, arguments := args < 0, [];
    if !blank {
      arguments := CutArguments(line, pos, args, ws);
      if present {
        ghost var s' := line[..];
        NextWords(s, s', pos, ws, args, next.value);
      }
    }
  }

  /** The arguments of a stage as execvp sees them. */
  method CutArguments(line: array<char>, pos: nat, args: nat, ghost ws: seq<string>) returns (arguments: seq<string>)
    requires Terminated(line[..], pos) && ws == Words(line[..], pos) && args <= |ws|
    modifies line
    ensures arguments == ws[..args] && WordsCut(old(line[..]), line[..], pos, args)
  {
    var vector := BuildArgVector(line, pos, args);
    VectorRead(line[..], vector[..], ws[..args]);
    arguments := ReadVector(line[..], vector[..]);
  }

  /**
   * The condition matters: in this line the first word holds a '|', the next stage is sought right where
   * the first cut has put the end of that word, and the stage "c" is never found.
   */
  lemma LostStage()
    ensures var s := "a|b | c\n\0";
      && Terminated(s, 0) && Words(s, 0) == ["a|b", "|", "c"] && StageLength(Words(s, 0)) == 1
      && Terminated(AfterCut(s, 0), FirstBar(s, 0) + 2) && Words(AfterCut(s, 0), FirstBar(s, 0) + 2) == []
  {
    var s := "a|b | c\n\0";
    assert s[8] == NUL;
    TerminatedAt(s, 0, 8);
    TerminatedAt(s, 3, 8);
    TerminatedAt(s, 4, 8);
    TerminatedAt(s, 6, 8);
    assert WordEnd(s, 3) == 3 && WordEnd(s, 2) == 3 && WordEnd(s, 1) == 3;
    assert TokenEnd(s, 0) == 3 && Next(s, 0) == 4 && FirstWord(s, 0) == "a|b";
    assert WordEnd(s, 5) == 5 && TokenEnd(s, 4) == 5 && Next(s, 4) == 6 && FirstWord(s, 4) == "|";
    assert WordEnd(s, 7) == 7 && TokenEnd(s, 6) == 7 && Next(s, 6) == 8 && FirstWord(s, 6) == "c";
    assert Words(s, 8) == [] && Words(s, 6) == ["c"] && Words(s, 4) == ["|", "c"];
    assert NextBar(Words(s, 0), 1) == 1;
    assert FirstBar(s, 1) == 1;
    assert AfterCut(s, 0)[3] == NUL;
  }
}
