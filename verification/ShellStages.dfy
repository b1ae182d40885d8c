/** The words of a command line as stages of a pipeline, and which stages the shell makes of them. */
module ShellStages {

  const BAR := "|"

  // ---------------------------------------------------------------- splitting at bars

  /** The end of the first stage: the first bar that is not the first word. */
  function NextBar(ws: seq<string>, i: nat): (n: nat)
    requires i <= |ws|
    ensures i <= n <= |ws| && (n < |ws| ==> ws[n] == BAR)
    decreases |ws| - i
  {
    if i == |ws| || ws[i] == BAR then i else NextBar(ws, i + 1)
  }

  lemma {:induction false} NoBarInStage(ws: seq<string>, i: nat)
    requires i <= |ws|
    ensures forall k :: i <= k < NextBar(ws, i) ==> ws[k] != BAR
    decreases |ws| - i
  {
    if i < |ws| && ws[i] != BAR {
      NoBarInStage(ws, i + 1);
    }
  }

  function StageLength(ws: seq<string>): (n: nat)
    requires ws != []
    ensures 0 < n <= |ws|
  {
    NextBar(ws, 1)
  }

  /** Another stage follows: words behind the bar. */
  predicate MoreStages(ws: seq<string>)
    requires ws != []
  {
    StageLength(ws) + 1 < |ws|
  }

  /** The stages of a command line. */
  function Split(ws: seq<string>): (stages: seq<seq<string>>)
    ensures (stages == []) == (ws == [])
    decreases |ws|
  {
    if ws == [] then []
    else if MoreStages(ws) then [ws[..StageLength(ws)]] + Split(ws[StageLength(ws) + 1..])
    else [ws[..StageLength(ws)]]
  }

  /** The stages written with a bar between neighbours. */
  function Join(stages: seq<seq<string>>): seq<string> {
    if stages == [] then []
    else if |stages| == 1 then stages[0]
    else stages[0] + [BAR] + Join(stages[1..])
  }

  ghost predicate ProperStages(stages: seq<seq<string>>) {
    forall i :: 0 <= i < |stages| ==> stages[i] != [] && BAR !in stages[i]
  }

  lemma {:induction false} NextBarIs(ws: seq<string>, i: nat, n: nat)
    requires i <= n <= |ws| && (n < |ws| ==> ws[n] == BAR)
    requires forall k :: i <= k < n ==> ws[k] != BAR
    ensures NextBar(ws, i) == n
    decreases n - i
  {
    if i < n {
      NextBarIs(ws, i + 1, n);
    }
  }

  lemma SplitOne(first: seq<string>, rest: seq<string>)
    requires first != [] && BAR !in first && rest != []
    ensures Split(first + [BAR] + rest) == [first] + Split(rest)
  {
    var ws, n := first + [BAR] + rest, |first|;
    forall k | 0 <= k < n ensures ws[k] != BAR {
      assert ws[k] == first[k] && first[k] in first;
    }
    NextBarIs(ws, 1, n);
    assert ws[..n] == first && ws[n + 1..] == rest;
  }

  lemma SplitLast(last: seq<string>)
    requires last != [] && BAR !in last
    ensures Split(last) == [last]
  {
    NextBarIs(last, 1, |last|);
    assert last[..|last|] == last;
  }

  /** Splitting undoes joining, for stages that are not empty and hold no bar. */
  lemma {:induction false} SplitUndoesJoin(stages: seq<seq<string>>)
    requires ProperStages(stages)
    ensures Split(Join(stages)) == stages
  {
    if |stages| == 1 {
      SplitLast(stages[0]);
    } else if |stages| > 1 {
      SplitUndoesJoin(stages[1..]);
      assert Join(stages[1..]) != [];
      SplitOne(stages[0], Join(stages[1..]));
    }
  }

  /** A '|' stands alone, and behind a word. */
  predicate OrderlyAt(ws: seq<string>, i: nat)
    requires i < |ws|
  {
    '|' in ws[i] ==> ws[i] == BAR && i > 0 && ws[i - 1] != BAR
  }

  /** Bars stand alone, and no stage begins with one. */
  ghost predicate Orderly(ws: seq<string>) {
    forall i: nat :: i < |ws| ==> OrderlyAt(ws, i)
  }

  lemma OrderlyRest(ws: seq<string>, n: nat)
    requires Orderly(ws) && 0 < n <= |ws| && ws[n - 1] == BAR
    ensures Orderly(ws[n..])
  {
    forall i: nat | i < |ws[n..]| ensures OrderlyAt(ws[n..], i) {
      assert OrderlyAt(ws, n + i);
    }
  }

  lemma {:induction false} SplitIsProper(ws: seq<string>)
    requires Orderly(ws)
    ensures ProperStages(Split(ws))
    decreases |ws|
  {
    if ws == [] {
      return;
    }
    NoBarInStage(ws, 1);
    assert OrderlyAt(ws, 0);
    if MoreStages(ws) {
      OrderlyRest(ws, StageLength(ws) + 1);
      SplitIsProper(ws[StageLength(ws) + 1..]);
    }
  }

  lemma JoinFront(first: seq<string>, rest: seq<string>, stages: seq<seq<string>>, all: seq<seq<string>>)
    requires stages != [] && all == [first] + stages
    requires rest == Join(stages) || rest == Join(stages) + [BAR]
    ensures first + [BAR] + rest == Join(all) || first + [BAR] + rest == Join(all) + [BAR]
  {
    assert all[1..] == stages;
    var joined := Join(stages);
    assert first + [BAR] + (joined + [BAR]) == first + [BAR] + joined + [BAR];
  }

  lemma SplitParts(ws: seq<string>, n: nat)
    requires ws != [] && n == StageLength(ws)
    ensures MoreStages(ws) ==> ws == ws[..n] + [BAR] + ws[n + 1..]
    ensures !MoreStages(ws) ==> ws == ws[..n] || ws == ws[..n] + [BAR]
  {
  }

  /** Nothing is lost but the bars, which stand between the stages and maybe at the end. */
  lemma {:induction false} JoinUndoesSplit(ws: seq<string>)
    ensures ws == Join(Split(ws)) || ws == Join(Split(ws)) + [BAR]
    decreases |ws|
  {
    if ws == [] {
      return;
    }
    var n, all := StageLength(ws), Split(ws);
    SplitParts(ws, n);
    if MoreStages(ws) {
      JoinUndoesSplit(ws[n + 1..]);
      JoinFront(ws[..n], ws[n + 1..], Split(ws[n + 1..]), all);
    } else {
      assert all == [ws[..n]];
      var joined := Join(all);
      assert joined == ws[..n];
    }
  }

  // ------------------------------------------------------------------ '|' inside words

  /** The first '|' from p on, or the end. */
  function FirstBar(s: seq<char>, p: nat): (b: nat)
    requires p <= |s|
    ensures p <= b <= |s| && (b < |s| ==> s[b] == '|')
    decreases |s| - p
  {
    if p == |s| || s[p] == '|' then p else FirstBar(s, p + 1)
  }

  lemma {:induction false} NoBarBefore(s: seq<char>, p: nat)
    requires p <= |s|
    ensures forall k :: p <= k < FirstBar(s, p) ==> s[k] != '|'
    decreases |s| - p
  {
    if p < |s| && s[p] != '|' {
      NoBarBefore(s, p + 1);
    }
  }

  /** No '|' in the first n words. */
  predicate BarFree(ws: seq<string>, n: nat)
    requires n <= |ws|
  {
    n == 0 || ('|' !in ws[n - 1] && BarFree(ws, n - 1))
  }

  lemma {:induction false} BarFreeFront(ws: seq<string>, m: nat, n: nat)
    requires n <= m <= |ws|
    ensures BarFree(ws[..m], n) == BarFree(ws, n)
    decreases n
  {
    if n > 0 {
      BarFreeFront(ws, m, n - 1);
    }
  }

  /** The first of n words with a '|' in it, or n. */
  function FirstBarWord(ws: seq<string>, n: nat): (j: nat)
    requires n <= |ws|
    ensures j <= n && BarFree(ws, j) && (j < n ==> '|' in ws[j])
    ensures j == n <==> BarFree(ws, n)
  {
    if n == 0 then 0
    else if FirstBarWord(ws, n - 1) < n - 1 then FirstBarWord(ws, n - 1)
    else if '|' in ws[n - 1] then n - 1 else n
  }

  lemma {:induction false} FirstBarWordFront(ws: seq<string>, m: nat, n: nat)
    requires n <= m <= |ws|
    ensures FirstBarWord(ws[..m], n) == FirstBarWord(ws, n)
    decreases n
  {
    if n > 0 {
      FirstBarWordFront(ws, m, n - 1);
    }
  }

  // ------------------------------------------------------------ what the shell launches

  /**
    The words that the next round of the stage loop sees. The shell looks two characters behind the
    first '|' of the text. If that is not the bar it has counted to, it finds the rest of the word
    with the '|', the word behind that one, or the bar itself and what follows.
   */
  function Following(ws: seq<string>): (rest: seq<string>)
    requires ws != [] && MoreStages(ws)
    ensures |rest| < |ws|
  {
    var n := StageLength(ws);
    var j := FirstBarWord(ws, n);
    if j == n then ws[n + 1..]
    else
      var w, o := ws[j], FirstBar(ws[j], 0);
      if o + 2 < |w| then [w[o + 2..]]
      else if o + 2 == |w| then []
      else if j + 1 < n then [ws[j + 1]]
      else ws[n..]
  }

  lemma FollowingIs(ws: seq<string>, n: nat, j: nat, w: string, o: nat)
    requires ws != [] && MoreStages(ws) && n == StageLength(ws) && j == FirstBarWord(ws, n)
    requires j < n && w == ws[j] && o == FirstBar(w, 0)
    ensures o < |w|
    ensures o + 2 < |w| ==> Following(ws) == [w[o + 2..]]
    ensures o + 2 == |w| ==> Following(ws) == []
    ensures o + 2 > |w| ==> Following(ws) == if j + 1 < n then [ws[j + 1]] else ws[n..]
  {
    BarInside(w);
  }

  /** The stages that the shell launches for a line with these words, whatever they are. */
  function Launched(ws: seq<string>): (stages: seq<seq<string>>)
    ensures stages == [] <==> ws == []
    decreases |ws|
  {
    if ws == [] then []
    else if MoreStages(ws) then [ws[..StageLength(ws)]] + Launched(Following(ws))
    else [ws[..StageLength(ws)]]
  }

  /** The last stage launched writes to a pipe that nobody reads yet. */
  predicate LeavesPipe(ws: seq<string>)
    decreases |ws|
  {
    ws != [] && MoreStages(ws) && (Following(ws) == [] || LeavesPipe(Following(ws)))
  }

  /** No word of any stage but the last has a '|' in it. */
  ghost predicate BarsAlone(stages: seq<seq<string>>) {
    forall i: nat :: i < |stages| - 1 ==> BarFree(stages[i], |stages[i]|)
  }

  /** For such a line the shell launches exactly its stages, and no pipe is left. */
  lemma {:induction false} LaunchedIsSplit(ws: seq<string>)
    requires BarsAlone(Split(ws))
    ensures Launched(ws) == Split(ws) && !LeavesPipe(ws)
    decreases |ws|
  {
    if ws != [] && MoreStages(ws) {
      var n, stages := StageLength(ws), Split(ws);
      assert BarFree(stages[0], |stages[0]|) && stages[0] == ws[..n];
      BarFreeFront(ws, n, n);
      assert Following(ws) == ws[n + 1..];
      assert stages[1..] == Split(ws[n + 1..]);
      forall i: nat | i < |stages[1..]| - 1 ensures BarFree(stages[1..][i], |stages[1..][i]|) {
        assert BarFree(stages[i + 1], |stages[i + 1]|);
      }
      LaunchedIsSplit(ws[n + 1..]);
    }
  }

  /** Orderly lines are such lines. */
  lemma {:induction false} OrderlyBarsAlone(ws: seq<string>)
    requires Orderly(ws)
    ensures BarsAlone(Split(ws))
    decreases |ws|
  {
    if ws != [] && MoreStages(ws) {
      var n, stages := StageLength(ws), Split(ws);
      OrderlyBars(ws, n);
      BarFreeFront(ws, n, n);
      OrderlyRest(ws, n + 1);
      OrderlyBarsAlone(ws[n + 1..]);
      forall i: nat | i < |stages| - 1 ensures BarFree(stages[i], |stages[i]|) {
        if i > 0 {
          assert stages[i] == Split(ws[n + 1..])[i - 1];
        }
      }
    }
  }

  lemma {:induction false} OrderlyBars(ws: seq<string>, n: nat)
    requires ws != [] && Orderly(ws) && n <= StageLength(ws)
    ensures BarFree(ws, n)
  {
    if n > 0 {
      OrderlyBars(ws, n - 1);
      NoBarInStage(ws, 1);
      assert OrderlyAt(ws, n - 1);
    }
  }

  /**
    The first '|' inside a word, of any stage but the last, is the second to last character of its word.
   */
  predicate BarSecondToLast(stages: seq<seq<string>>) {
    |stages| > 1 &&
      var j := FirstBarWord(stages[0], |stages[0]|);
      if j == |stages[0]| then BarSecondToLast(stages[1..])
      else FirstBar(stages[0][j], 0) + 2 == |stages[0][j]|
  }

  /** A pipe is left exactly for such lines. */
  lemma {:induction false} LeavesPipeExactlyWhen(ws: seq<string>)
    ensures LeavesPipe(ws) <==> BarSecondToLast(Split(ws))
    decreases |ws|
  {
    if ws != [] && MoreStages(ws) {
      var n, stages := StageLength(ws), Split(ws);
      FirstBarWordFront(ws, n, n);
      var j := FirstBarWord(ws, n);
      assert stages[0] == ws[..n] && stages[1..] == Split(ws[n + 1..]);
      if j == n {
        LeavesPipeExactlyWhen(ws[n + 1..]);
      } else {
        BarInside(ws[j]);
        if FirstBar(ws[j], 0) + 1 == |ws[j]| && j + 1 == n {
          BarFirst(ws[n..]);
        }
      }
    }
  }

  lemma {:induction false} BarInside(w: string)
    requires '|' in w
    ensures FirstBar(w, 0) < |w|
  {
    NoBarBefore(w, 0);
  }

  /** What begins with a bar never leaves a pipe. */
  lemma {:induction false} BarFirst(ws: seq<string>)
    requires ws != [] && ws[0] == BAR
    ensures !LeavesPipe(ws)
    decreases |ws|
  {
    if MoreStages(ws) {
      FirstWordHasBar(ws, StageLength(ws));
      assert FirstBar(BAR, 0) == 0;
      if StageLength(ws) == 1 {
        BarFirst(ws[1..]);
      }
    }
  }

  lemma {:induction false} FirstWordHasBar(ws: seq<string>, n: nat)
    requires 0 < n <= |ws| && ws[0] == BAR
    ensures FirstBarWord(ws, n) == 0
  {
    if n > 1 {
      FirstWordHasBar(ws, n - 1);
    } else {
      assert BAR[0] == '|';
    }
  }
}
