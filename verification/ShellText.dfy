/** Words of a command line, and what strtok does to the buffer that holds it. */
module ShellText {
  import opened Options

  const NUL: char := '\0'

  predicate IsDelimiter(c: char) { c == ' ' || c == '\n' }

  /** The C string at position p ends inside the buffer. */
  predicate Terminated(s: seq<char>, p: nat)
    decreases |s| - p
  {
    p < |s| && (s[p] == NUL || Terminated(s, p + 1))
  }

  /** The C string at position p. */
  function String(s: seq<char>, p: nat): (t: string)
    requires Terminated(s, p)
    ensures p + |t| < |s| && s[p + |t|] == NUL
    decreases |s| - p
  {
    if s[p] == NUL then "" else [s[p]] + String(s, p + 1)
  }

  lemma {:induction false} StringIsSlice(s: seq<char>, p: nat)
    requires Terminated(s, p)
    ensures String(s, p) == s[p..p + |String(s, p)|] && NUL !in String(s, p)
    decreases |s| - p
  {
    if s[p] != NUL {
      StringIsSlice(s, p + 1);
    }
  }

  /** A NUL-free stretch with a NUL behind it is the C string there. */
  lemma {:induction false} StringIs(s: seq<char>, p: nat, e: nat)
    requires p <= e < |s| && s[e] == NUL && forall k :: p <= k < e ==> s[k] != NUL
    ensures Terminated(s, p) && String(s, p) == s[p..e]
    decreases e - p
  {
    if p < e {
      StringIs(s, p + 1, e);
    }
  }

  /** Buffers that agree from p on hold the same string there. */
  lemma {:induction false} SameFrom(s: seq<char>, s': seq<char>, p: nat)
    requires Terminated(s, p) && |s'| == |s| && forall k :: p <= k < |s| ==> s'[k] == s[k]
    ensures Terminated(s', p) && String(s', p) == String(s, p)
    decreases |s| - p
  {
    if s[p] != NUL {
      SameFrom(s, s', p + 1);
    }
  }

  lemma {:induction false} TerminatedAt(s: seq<char>, p: nat, e: nat)
    requires p <= e < |s| && s[e] == NUL
    ensures Terminated(s, p)
    decreases e - p
  {
    if p < e {
      TerminatedAt(s, p + 1, e);
    }
  }

  // ------------------------------------------------------------------------ words

  /** The first position from p on that holds no delimiter. */
  function WordStart(s: seq<char>, p: nat): (d: nat)
    requires Terminated(s, p)
    ensures p <= d < |s| && Terminated(s, d) && !IsDelimiter(s[d])
    decreases |s| - p
  {
    if IsDelimiter(s[p]) then WordStart(s, p + 1) else p
  }

  /** The first position from p on that holds a delimiter or the end. */
  function WordEnd(s: seq<char>, p: nat): (e: nat)
    requires Terminated(s, p)
    ensures p <= e < |s| && Terminated(s, e) && (IsDelimiter(s[e]) || s[e] == NUL)
    decreases |s| - p
  {
    if IsDelimiter(s[p]) || s[p] == NUL then p else WordEnd(s, p + 1)
  }

  lemma {:induction false} DelimitersBefore(s: seq<char>, p: nat)
    requires Terminated(s, p)
    ensures forall k :: p <= k < WordStart(s, p) ==> IsDelimiter(s[k])
    decreases |s| - p
  {
    if IsDelimiter(s[p]) {
      DelimitersBefore(s, p + 1);
    }
  }

  lemma {:induction false} NoDelimiterInside(s: seq<char>, p: nat)
    requires Terminated(s, p)
    ensures forall k :: p <= k < WordEnd(s, p) ==> !IsDelimiter(s[k]) && s[k] != NUL
    decreases |s| - p
  {
    if !IsDelimiter(s[p]) && s[p] != NUL {
      NoDelimiterInside(s, p + 1);
    }
  }

  lemma {:induction false} WordEndsAt(s: seq<char>, p: nat, e: nat)
    requires p <= e && Terminated(s, e) && (s[e] == NUL || IsDelimiter(s[e]))
    requires forall k :: p <= k < e ==> s[k] != NUL && !IsDelimiter(s[k])
    ensures Terminated(s, p) && WordEnd(s, p) == e
    decreases e - p
  {
    if p < e {
      WordEndsAt(s, p + 1, e);
    }
  }

  /** No word is left in the string at p. */
  predicate Blank(s: seq<char>, p: nat)
    requires Terminated(s, p)
  {
    s[WordStart(s, p)] == NUL
  }

  /** The end of the first word of the string at p. */
  function TokenEnd(s: seq<char>, p: nat): (e: nat)
    requires Terminated(s, p)
    ensures WordStart(s, p) <= e < |s| && Terminated(s, e) && (WordStart(s, p) == e <==> Blank(s, p))
  {
    WordEnd(s, WordStart(s, p))
  }

  function FirstWord(s: seq<char>, p: nat): string
    requires Terminated(s, p)
  {
    s[WordStart(s, p)..TokenEnd(s, p)]
  }

  /** Behind the delimiter at e, if there is one. */
  function Behind(s: seq<char>, e: nat): (q: nat)
    requires Terminated(s, e)
    ensures e <= q < |s| && Terminated(s, q)
  {
    if s[e] == NUL then e else (assert Terminated(s, e + 1); e + 1)
  }

  /** Where the text goes on behind its first word. */
  function Next(s: seq<char>, p: nat): (q: nat)
    requires Terminated(s, p)
    ensures p <= q < |s| && Terminated(s, q) && (!Blank(s, p) ==> p < q)
  {
    Behind(s, TokenEnd(s, p))
  }

  /** The words of the string at p: its maximal stretches without delimiters. */
  function Words(s: seq<char>, p: nat): (ws: seq<string>)
    requires Terminated(s, p)
    ensures ws == [] <==> Blank(s, p)
    decreases |s| - p
  {
    if Blank(s, p) then [] else [FirstWord(s, p)] + Words(s, Next(s, p))
  }

  /** Only the string matters, not where it is. */
  lemma {:induction false} SameStart(s: seq<char>, p: nat, s': seq<char>, p': nat)
    requires Terminated(s, p) && Terminated(s', p') && String(s, p) == String(s', p')
    ensures WordStart(s', p') - p' == WordStart(s, p) - p
    ensures String(s', WordStart(s', p')) == String(s, WordStart(s, p))
    decreases |s| - p
  {
    if s[p] != NUL {
      SameTail(s, p, s', p');
      if IsDelimiter(s[p]) {
        SameStart(s, p + 1, s', p' + 1);
      }
    }
  }

  lemma SameTail(s: seq<char>, p: nat, s': seq<char>, p': nat)
    requires Terminated(s, p) && Terminated(s', p') && String(s, p) == String(s', p') && s[p] != NUL
    ensures s'[p'] == s[p] && String(s, p + 1) == String(s', p' + 1)
  {
    assert String(s, p)[0] == s[p] && String(s, p)[1..] == String(s, p + 1);
    assert String(s', p')[0] == s'[p'] && String(s', p')[1..] == String(s', p' + 1);
  }

  lemma {:induction false} SameEnd(s: seq<char>, p: nat, s': seq<char>, p': nat)
    requires Terminated(s, p) && Terminated(s', p') && String(s, p) == String(s', p')
    ensures WordEnd(s', p') - p' == WordEnd(s, p) - p
    ensures String(s', WordEnd(s', p')) == String(s, WordEnd(s, p))
    decreases |s| - p
  {
    if s[p] != NUL {
      SameTail(s, p, s', p');
      if !IsDelimiter(s[p]) {
        SameEnd(s, p + 1, s', p' + 1);
      }
    }
  }

  lemma WordInString(s: seq<char>, p: nat)
    requires Terminated(s, p)
    ensures WordEnd(s, p) <= p + |String(s, p)| && s[p..WordEnd(s, p)] == String(s, p)[..WordEnd(s, p) - p]
  {
    StringIsSlice(s, p);
    NoDelimiterInside(s, p);
  }

  lemma SameBehind(s: seq<char>, e: nat, s': seq<char>, e': nat)
    requires Terminated(s, e) && Terminated(s', e') && String(s, e) == String(s', e')
    ensures Behind(s', e') - e' == Behind(s, e) - e && String(s', Behind(s', e')) == String(s, Behind(s, e))
  {
    if s[e] != NUL {
      SameTail(s, e, s', e');
    } else {
      assert String(s, e) == "";
    }
  }

  lemma SameToken(s: seq<char>, p: nat, s': seq<char>, p': nat)
    requires Terminated(s, p) && Terminated(s', p') && String(s, p) == String(s', p')
    ensures WordStart(s', p') - p' == WordStart(s, p) - p && TokenEnd(s', p') - p' == TokenEnd(s, p) - p
    ensures String(s', TokenEnd(s', p')) == String(s, TokenEnd(s, p))
    ensures FirstWord(s', p') == FirstWord(s, p) && Blank(s', p') == Blank(s, p)
  {
    SameStart(s, p, s', p');
    SameEnd(s, WordStart(s, p), s', WordStart(s', p'));
    WordInString(s, WordStart(s, p));
    WordInString(s', WordStart(s', p'));
  }

  lemma SameNext(s: seq<char>, p: nat, s': seq<char>, p': nat)
    requires Terminated(s, p) && Terminated(s', p') && String(s, p) == String(s', p')
    ensures Next(s', p') - p' == Next(s, p) - p && String(s', Next(s', p')) == String(s, Next(s, p))
  {
    SameToken(s, p, s', p');
    SameBehind(s, TokenEnd(s, p), s', TokenEnd(s', p'));
  }

  lemma {:induction false} SameWords(s: seq<char>, p: nat, s': seq<char>, p': nat)
    requires Terminated(s, p) && Terminated(s', p') && String(s, p) == String(s', p')
    ensures Words(s', p') == Words(s, p)
    decreases |s| - p
  {
    SameToken(s, p, s', p');
    SameNext(s, p, s', p');
    if !Blank(s, p) {
      SameWords(s, Next(s, p), s', Next(s', p'));
    }
  }

  // ----------------------------------------------------------------------- strtok

  /** The buffer after strtok has ended the first word of the string at p. */
  function AfterCut(s: seq<char>, p: nat): (s': seq<char>)
    requires Terminated(s, p)
    ensures |s'| == |s|
  {
    s[TokenEnd(s, p) := NUL]
  }

  /** Where strtok finds the word, if there is one. */
  function TokenAt(s: seq<char>, p: nat): Option<nat>
    requires Terminated(s, p)
  {
    if Blank(s, p) then None else Some(WordStart(s, p))
  }

  /** The token is the first word, and what follows is as before for the next call. */
  lemma CutLaw(s: seq<char>, p: nat)
    requires Terminated(s, p)
    ensures var s' := AfterCut(s, p);
      && Terminated(s', WordStart(s, p)) && String(s', WordStart(s, p)) == FirstWord(s, p)
      && Terminated(s', Next(s, p)) && String(s', Next(s, p)) == String(s, Next(s, p))
  {
    var s', d, e := AfterCut(s, p), WordStart(s, p), TokenEnd(s, p);
    NoDelimiterInside(s, d);
    StringIs(s', d, e);
    assert s'[d..e] == s[d..e];
    SameFrom(s, s', Next(s, p));
  }

  class Tokenizer {
    /** strtok's static state: the buffer being cut, and where to go on. */
    var buffer: array<char>
    var save: nat

    constructor (buffer: array<char>)
      ensures this.buffer == buffer && save == 0
    {
      this.buffer, save := buffer, 0;
    }

    /** strtok(string, " \n") for a string in a buffer. */
    method First(buffer: array<char>, p: nat) returns (token: Option<nat>)
      requires Terminated(buffer[..], p)
      modifies this, buffer
      ensures this.buffer == buffer && token == TokenAt(old(buffer[..]), p)
      ensures buffer[..] == AfterCut(old(buffer[..]), p) && save == Next(old(buffer[..]), p)
    {
      this.buffer, save := buffer, p;
      token := Again();
    }

    /** strtok(NULL, " \n"). */
    method Again() returns (token: Option<nat>)
      requires Terminated(buffer[..], save)
      modifies this`save, buffer
      ensures token == TokenAt(old(buffer[..]), old(save))
      ensures buffer[..] == AfterCut(old(buffer[..]), old(save)) && save == Next(old(buffer[..]), old(save))
    {
      ghost var s := buffer[..];
      var q := save;
      while IsDelimiter(buffer[q])
        invariant q < |s| && Terminated(s, q) && WordStart(s, q) == WordStart(s, save)
        decreases WordStart(s, save) - q
      {
        q := q + 1;
      }
      if buffer[q] == NUL {
        save := q;
        return None;
      }
      var e := q;
      while buffer[e] != NUL && !IsDelimiter(buffer[e])
        invariant e < |s| && Terminated(s, e) && WordEnd(s, e) == WordEnd(s, q)
        decreases WordEnd(s, q) - e
      {
        e := e + 1;
      }
      token := Some(q);
      if buffer[e] == NUL {
        save := e;
      } else {
        buffer[e] := NUL;
        save := e + 1;
      }
    }
  }
}
