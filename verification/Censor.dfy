/**
  N threads censor one shared buffer at the same time. Comparing with a string
  and starring the buffer both go byte by byte, with no lock between the threads.
  Main scans each word into the buffer byte by byte, releases the threads, waits
  for all of them and prints what is left.
 */
module Censor {
  import opened Counting
  import Runs

  const NUL: char := '\0'

  type Str = s: string | NUL !in s

  datatype Config = Config(strings: seq<Str>, words: seq<Str>, capacity: nat)

  datatype ThreadPc = Take | Compare(k: nat) | Star(k: nat) | PostW | PostMain

  /** One censor with its semaphore; seen and hitAt are history: words examined, and the last word matched. */
  datatype Thread = Thread(pc: ThreadPc, token: nat, seen: nat, hitAt: nat)

  datatype MainPc = AwaitMain | Scan(k: nat) | Release(i: nat) | AwaitW | Print | Exited

  /** round counts the words scanned completely. */
  datatype State = State(
    main: MainPc, round: nat, threads: seq<Thread>, semMain: nat, semW: nat, buffer: string, out: seq<string>)

  datatype Action =
    | TakeMain | ScanByte | Eof | ReleaseNext | TakeW | PrintBuffer
    | Begin(t: nat) | CompareByte(t: nat) | StarByte(t: nat) | DoPostW(t: nat) | DoPostMain(t: nat)

  predicate Ready(c: Config) {
    |c.strings| > 0 && forall w :: w in c.words ==> |w| < c.capacity
  }

  predicate Start(c: Config, s: State) {
    && |s.buffer| == c.capacity
    && s == State(AwaitMain, 0, seq(|c.strings|, i => Thread(Take, 0, 0, 0)), |c.strings|, 0, s.buffer, [])
  }

  /** The C string at the start of a buffer. */
  function CString(b: string): string {
    if b == [] || b[0] == NUL then [] else [b[0]] + CString(b[1..])
  }

  /** The byte of a string at position k, its terminator included. */
  function ByteAt(s: Str, k: nat): char
    requires k <= |s|
  {
    if k < |s| then s[k] else NUL
  }

  predicate Enabled(c: Config, s: State, a: Action) {
    && |s.threads| == |c.strings| && |s.buffer| == c.capacity
    && s.main != Exited
    && match a
       case TakeMain => s.main == AwaitMain && s.semMain >= |c.strings|
       case ScanByte =>
         s.main.Scan? && s.round < |c.words| && s.main.k <= |c.words[s.round]| && s.main.k < c.capacity
       case Eof => s.main == Scan(0) && s.round == |c.words|
       case ReleaseNext => s.main.Release? && s.main.i < |c.strings|
       case TakeW => s.main == AwaitW && s.semW >= |c.strings|
       case PrintBuffer => s.main == Print
       case Begin(t) => t < |s.threads| && s.threads[t].pc == Take && s.threads[t].token > 0
       case CompareByte(t) =>
         t < |s.threads| && s.threads[t].pc.Compare? && s.threads[t].pc.k <= |c.strings[t]| && s.threads[t].pc.k < c.capacity
       case StarByte(t) => t < |s.threads| && s.threads[t].pc.Star? && (s.threads[t].pc.k < |c.strings[t]| ==> s.threads[t].pc.k < c.capacity)
       case DoPostW(t) => t < |s.threads| && s.threads[t].pc == PostW
       case DoPostMain(t) => t < |s.threads| && s.threads[t].pc == PostMain
  }

  function Moved(s: State, t: nat, pc: ThreadPc): State
    requires t < |s.threads|
  {
    s.(threads := s.threads[t := s.threads[t].(pc := pc)])
  }

  function Step(c: Config, s: State, a: Action): State
    requires Enabled(c, s, a)
  {
    match a
    case TakeMain => s.(main := Scan(0), semMain := s.semMain - |c.strings|)
    case ScanByte =>
      var w, k := c.words[s.round], s.main.k;
      var s' := s.(buffer := s.buffer[k := ByteAt(w, k)]);
      if k < |w| then s'.(main := Scan(k + 1)) else s'.(main := Release(0), round := s.round + 1)
    case Eof => s.(main := Exited)
    case ReleaseNext =>
      var i := s.main.i;
      s.(main := if i + 1 < |c.strings| then Release(i + 1) else AwaitW,
         threads := s.threads[i := s.threads[i].(token := s.threads[i].token + 1)])
    case TakeW => s.(main := Print, semW := s.semW - |c.strings|)
    case PrintBuffer => s.(main := AwaitMain, out := s.out + [CString(s.buffer)])
    case Begin(t) =>
      var th := s.threads[t];
      s.(threads := s.threads[t := th.(pc := Compare(0), token := th.token - 1, seen := th.seen + 1)])
    case CompareByte(t) =>
      var k := s.threads[t].pc.k;
      if s.buffer[k] != ByteAt(c.strings[t], k) then Moved(s, t, PostW)
      else if k < |c.strings[t]| then Moved(s, t, Compare(k + 1))
      else s.(threads := s.threads[t := s.threads[t].(pc := Star(0), hitAt := s.round)])
    case StarByte(t) =>
      var k := s.threads[t].pc.k;
      if k < |c.strings[t]| then Moved(s, t, Star(k + 1)).(buffer := s.buffer[k := '*']) else Moved(s, t, PostW)
    case DoPostW(t) => Moved(s, t, PostMain).(semW := s.semW + 1)
    case DoPostMain(t) => Moved(s, t, Take).(semMain := s.semMain + 1)
  }

  ghost predicate Next(c: Config, s: State, t: State) {
    exists a :: Enabled(c, s, a) && t == Step(c, s, a)
  }

  ghost function Program(c: Config): Runs.System<State> {
    Runs.System(s => Start(c, s), (s, t) => Next(c, s, t))
  }

  // ------------------------------------------------------------ what is promised

  function Censored(c: Config, w: Str): string {
    if w in c.strings then seq(|w|, i => '*') else w
  }

  function CensoredAll(c: Config, words: seq<Str>): (out: seq<string>)
    ensures |out| == |words| && forall i :: 0 <= i < |words| ==> out[i] == Censored(c, words[i])
  {
    seq(|words|, i requires 0 <= i < |words| => Censored(c, words[i]))
  }

  // ------------------------------------------------------------------ token laws

  /** The thread still owes semW a token. */
  function OwesW(th: Thread): nat {
    if th.token > 0 || th.pc.Compare? || th.pc.Star? || th.pc.PostW? then 1 else 0
  }

  function OwesMain(th: Thread): nat {
    if OwesW(th) == 1 || th.pc.PostMain? then 1 else 0
  }

  /** Threads not yet released for the current word. */
  function Unreleased(c: Config, s: State): nat {
    match s.main
    case Scan(_) => |c.strings|
    case Exited => |c.strings|
    case Release(i) => if i <= |c.strings| then |c.strings| - i else 0
    case _ => 0
  }

  predicate Tokens(c: Config, s: State) { MainTokens(c, s) && WTokens(c, s) }

  predicate MainTokens(c: Config, s: State) {
    s.semMain + Sum(s.threads, OwesMain) + Unreleased(c, s) == |c.strings|
  }

  predicate WTokens(c: Config, s: State) {
    s.semW + Sum(s.threads, OwesW) + Unreleased(c, s) == if s.main.AwaitMain? || s.main.Print? then 0 else |c.strings|
  }

  predicate Waits(c: Config, s: State, j: nat) {
    s.main.Scan? || s.main.Exited? || (s.main.Release? && j >= s.main.i)
  }

  predicate ThreadOk(c: Config, s: State, j: nat)
    requires j < |s.threads|
  {
    var th := s.threads[j];
    && th.token <= 1 && (th.token == 1 ==> th.pc == Take)
    && (Waits(c, s, j) ==> th.pc == Take && th.token == 0)
    && th.seen + (if th.token == 1 || (s.main.Release? && j >= s.main.i) then 1 else 0) == s.round
    && th.hitAt <= s.round && (th.pc != Take ==> th.seen > 0)
  }

  /** Main has scanned the first k bytes of w. */
  predicate Scanned(s: State, w: Str)
    requires s.main.Scan?
  {
    s.main.k <= |w| < |s.buffer| && forall k :: 0 <= k < s.main.k ==> s.buffer[k] == w[k]
  }

  predicate MainOk(c: Config, s: State) {
    && s.round <= |c.words|
    && (s.main.Scan? ==> s.round < |c.words| || s.main.k == 0)
    && (s.main.Scan? && s.round < |c.words| ==>
          Scanned(s, c.words[s.round]))
    && (s.main.Release? ==> s.main.i < |c.strings|)
    && (s.main.Release? || s.main.AwaitW? || s.main.Print? ==> s.round > 0)
    && (s.main.Exited? ==> s.round == |c.words|)
    && s.out == CensoredAll(c, c.words[..Printed(s)])
  }

  /** The words whose censored form is on file. */
  function Printed(s: State): nat {
    if (s.main.Release? || s.main.AwaitW? || s.main.Print?) && s.round > 0 then s.round - 1 else s.round
  }

  predicate Shape(c: Config, s: State) {
    |s.threads| == |c.strings| && |s.buffer| == c.capacity
  }

  // ------------------------------------------------------- the buffer byte by byte

  /** A word is in the buffer, threads may be at work on it. */
  predicate Working(s: State) { s.round > 0 && !s.main.Scan? && !s.main.Exited? }

  predicate Hit(s: State, j: nat)
    requires j < |s.threads|
  {
    s.threads[j].hitAt == s.round
  }

  predicate AnyHit(s: State) { exists j :: 0 <= j < |s.threads| && Hit(s, j) }

  predicate Stars(buffer: string, n: nat)
    requires n <= |buffer|
  {
    forall k :: 0 <= k < n ==> buffer[k] == '*'
  }

  /** Each byte of the word is in place unless some thread has matched; then it may be a star. */
  predicate BufferAt(strings: seq<Str>, buffer: string, w: Str, any: bool)
    requires |w| < |buffer|
  {
    && buffer[|w|] == NUL
    && (forall k :: 0 <= k < |w| ==> buffer[k] == w[k] || (buffer[k] == '*' && any))
    && (any ==> w in strings)
  }

  predicate BufferOk(c: Config, s: State, w: Str)
    requires |w| < |s.buffer|
  {
    BufferAt(c.strings, s.buffer, w, AnyHit(s))
  }

  /** The thread is through with the current word. */
  predicate Through(th: Thread, waits: bool) { !waits && th.token == 0 && !th.pc.Compare? && !th.pc.Star? }

  /** How far a thread is with word w; any says that some thread has matched. */
  predicate WorkAt(th: Thread, mine: Str, w: Str, buffer: string, waits: bool, round: nat, any: bool)
    requires |w| < |buffer|
  {
    && (th.hitAt == round ==> !th.pc.Compare? && th.token == 0 && !waits && |mine| == |w|)
    && (th.pc.Compare? ==> th.pc.k <= |mine| && th.pc.k <= |w| && (any || mine[..th.pc.k] == w[..th.pc.k]))
    && (th.pc.Star? ==> th.hitAt == round && th.pc.k <= |w| && Stars(buffer, th.pc.k))
    && (Through(th, waits) ==> if th.hitAt == round then Stars(buffer, |w|) else any || mine != w)
  }

  predicate WorkOk(c: Config, s: State, w: Str, j: nat)
    requires Shape(c, s) && |w| < |s.buffer| && j < |s.threads|
  {
    WorkAt(s.threads[j], c.strings[j], w, s.buffer, Waits(c, s, j), s.round, AnyHit(s))
  }

  predicate Work(c: Config, s: State)
    requires Ready(c) && Shape(c, s) && s.round <= |c.words|
  {
    Working(s) ==>
      var w := c.words[s.round - 1];
      assert w in c.words;
      BufferOk(c, s, w) && forall j :: 0 <= j < |s.threads| ==> WorkOk(c, s, w, j)
  }

  predicate Inv(c: Config, s: State)
    requires Ready(c)
  {
    && Shape(c, s) && MainOk(c, s) && Tokens(c, s)
    && (forall j :: 0 <= j < |s.threads| ==> ThreadOk(c, s, j))
    && Work(c, s)
  }

  // ------------------------------------------------------------------ main's steps

  lemma StartInv(c: Config, s: State)
    requires Ready(c) && Start(c, s)
    ensures Inv(c, s)
  {
    SumConstant(s.threads, OwesMain, 0);
    SumConstant(s.threads, OwesW, 0);
  }

  /** With all of semMain's tokens back, every thread is idle. */
  lemma AllIdle(c: Config, s: State)
    requires Ready(c) && Inv(c, s) && Sum(s.threads, OwesMain) == 0
    ensures forall j :: 0 <= j < |s.threads| ==> s.threads[j].pc == Take && s.threads[j].token == 0
  {
    forall j | 0 <= j < |s.threads| ensures s.threads[j].pc == Take && s.threads[j].token == 0 {
      SumAtLeast(s.threads, j, OwesMain);
      assert ThreadOk(c, s, j);
    }
  }

  lemma TakeMainInv(c: Config, s: State)
    requires Ready(c) && Inv(c, s) && Enabled(c, s, TakeMain)
    ensures Inv(c, Step(c, s, TakeMain))
  {
    AllIdle(c, s);
    var t := Step(c, s, TakeMain);
    forall j | 0 <= j < |t.threads| ensures ThreadOk(c, t, j) { assert ThreadOk(c, s, j); }
  }

  lemma ScanByteInv(c: Config, s: State)
    requires Ready(c) && Inv(c, s) && Enabled(c, s, ScanByte)
    ensures Inv(c, Step(c, s, ScanByte))
  {
    var t := Step(c, s, ScanByte);
    forall j | 0 <= j < |t.threads| ensures ThreadOk(c, t, j) && (Working(t) ==> !Hit(t, j)) { assert ThreadOk(c, s, j); }
    if t.main.Release? {
      var w := c.words[s.round];
      assert !AnyHit(t);
      forall j | 0 <= j < |t.threads| ensures WorkOk(c, t, w, j) { assert ThreadOk(c, t, j); }
      assert c.words[..Printed(t)] == c.words[..Printed(s)];
    }
  }

  lemma ReleaseInv(c: Config, s: State)
    requires Ready(c) && Inv(c, s) && Enabled(c, s, ReleaseNext)
    ensures Inv(c, Step(c, s, ReleaseNext))
  {
    var t, i := Step(c, s, ReleaseNext), s.main.i;
    assert ThreadOk(c, s, i);
    SumUpdate(s.threads, i, t.threads[i], OwesMain);
    SumUpdate(s.threads, i, t.threads[i], OwesW);
    forall j | 0 <= j < |t.threads| ensures ThreadOk(c, t, j) { assert ThreadOk(c, s, j); }
    assert Printed(t) == Printed(s);
    ReleaseWork(c, s);
  }

  lemma ReleaseWork(c: Config, s: State)
    requires Ready(c) && Inv(c, s) && Enabled(c, s, ReleaseNext)
    ensures Work(c, Step(c, s, ReleaseNext))
  {
    var t, w := Step(c, s, ReleaseNext), c.words[s.round - 1];
    SameHits(s, t);
    forall j | 0 <= j < |t.threads| ensures WorkOk(c, t, w, j) {
      assert ThreadOk(c, s, j) && WorkOk(c, s, w, j) && Hit(t, j) == Hit(s, j);
    }
  }

  lemma SameHits(s: State, t: State)
    requires |s.threads| == |t.threads| && s.round == t.round
    requires forall j :: 0 <= j < |s.threads| ==> s.threads[j].hitAt == t.threads[j].hitAt
    ensures AnyHit(s) == AnyHit(t)
    ensures forall j :: 0 <= j < |s.threads| ==> Hit(s, j) == Hit(t, j)
  {
    if AnyHit(s) { var j :| 0 <= j < |s.threads| && Hit(s, j); assert Hit(t, j); }
    if AnyHit(t) { var j :| 0 <= j < |s.threads| && Hit(t, j); assert Hit(s, j); }
  }

  /** Main moves between its waits: nothing changes for the threads. */
  lemma MainMoves(c: Config, s: State, t: State)
    requires Ready(c) && Inv(c, s) && Shape(c, t) && t.threads == s.threads && t.round == s.round && t.buffer == s.buffer
    requires s.main.AwaitW? || s.main.Print?
    requires t.main.AwaitMain? || t.main.Print?
    ensures Work(c, t)
    ensures forall j :: 0 <= j < |t.threads| ==> ThreadOk(c, t, j)
  {
    var w := c.words[s.round - 1];
    SameHits(s, t);
    forall j | 0 <= j < |t.threads| ensures ThreadOk(c, t, j) { assert ThreadOk(c, s, j); }
    forall j | 0 <= j < |t.threads| ensures WorkOk(c, t, w, j) { assert WorkOk(c, s, w, j); }
  }

  lemma TakeWInv(c: Config, s: State)
    requires Ready(c) && Inv(c, s) && Enabled(c, s, TakeW)
    ensures Inv(c, Step(c, s, TakeW))
  {
    var t := Step(c, s, TakeW);
    MainMoves(c, s, t);
  }

  lemma {:induction false} CStringIs(b: string, n: nat)
    requires n < |b| && b[n] == NUL && NUL !in b[..n]
    ensures CString(b) == b[..n]
  {
    if n > 0 {
      assert b[0] == b[..n][0] && b[1..][..n - 1] == b[..n][1..];
      CStringIs(b[1..], n - 1);
      assert b[..n] == [b[0]] + b[1..][..n - 1];
    }
  }

  /**
    Once all threads have posted semW, and as long as main has not scanned the next
    word, the buffer holds the censored word, whatever the interleaving was.
   */
  lemma BufferIsCensored(c: Config, s: State)
    requires Ready(c) && Inv(c, s) && Working(s) && Sum(s.threads, OwesW) == 0 && Unreleased(c, s) == 0
    ensures CString(s.buffer) == Censored(c, c.words[s.round - 1])
  {
    var w := c.words[s.round - 1];
    AllThrough(c, s, w);
    CensoredIs(c, s, w);
  }

  lemma CensoredIs(c: Config, s: State, w: Str)
    requires Shape(c, s) && |w| < |s.buffer| && BufferOk(c, s, w)
    requires forall j :: 0 <= j < |s.threads| ==> Through(s.threads[j], Waits(c, s, j)) && WorkOk(c, s, w, j)
    ensures CString(s.buffer) == Censored(c, w)
  {
    if AnyHit(s) {
      var j :| 0 <= j < |s.threads| && Hit(s, j);
      assert WorkOk(c, s, w, j) && Stars(s.buffer, |w|);
      StarredString(s.buffer, |w|);
      HitIsString(c, s, w);
    } else {
      PlainString(c.strings, s.buffer, w);
      forall j | 0 <= j < |c.strings| ensures c.strings[j] != w { assert WorkOk(c, s, w, j) && !Hit(s, j); }
    }
  }

  lemma HitIsString(c: Config, s: State, w: Str)
    requires |w| < |s.buffer| && BufferOk(c, s, w) && AnyHit(s)
    ensures w in c.strings
  {
  }

  lemma AllThrough(c: Config, s: State, w: Str)
    requires Ready(c) && Inv(c, s) && Working(s) && Sum(s.threads, OwesW) == 0 && Unreleased(c, s) == 0
    requires w == c.words[s.round - 1]
    ensures |w| < |s.buffer| && BufferOk(c, s, w)
    ensures forall j :: 0 <= j < |s.threads| ==> Through(s.threads[j], Waits(c, s, j)) && WorkOk(c, s, w, j)
  {
    WorkIs(c, s, w);
    forall j | 0 <= j < |s.threads| ensures Through(s.threads[j], Waits(c, s, j)) && WorkOk(c, s, w, j) {
      SumAtLeast(s.threads, j, OwesW);
      assert ThreadOk(c, s, j);
    }
  }

  lemma StarredString(b: string, n: nat)
    requires n < |b| && Stars(b, n) && b[n] == NUL
    ensures CString(b) == seq(n, i => '*')
  {
    CStringIs(b, n);
    assert b[..n] == seq(n, i => '*');
  }

  lemma PlainString(strings: seq<Str>, b: string, w: Str)
    requires |w| < |b| && BufferAt(strings, b, w, false)
    ensures CString(b) == w
  {
    assert b[..|w|] == w;
    CStringIs(b, |w|);
  }

  lemma PrintInv(c: Config, s: State)
    requires Ready(c) && Inv(c, s) && Enabled(c, s, PrintBuffer)
    ensures Inv(c, Step(c, s, PrintBuffer))
  {
    var t := Step(c, s, PrintBuffer);
    BufferIsCensored(c, s);
    MainMoves(c, s, t);
    OneMoreOut(c, s.round);
  }

  lemma OneMoreOut(c: Config, round: nat)
    requires 0 < round <= |c.words|
    ensures CensoredAll(c, c.words[..round]) == CensoredAll(c, c.words[..round - 1]) + [Censored(c, c.words[round - 1])]
  {
    var more, fewer := c.words[..round], c.words[..round - 1];
    assert more == fewer + [c.words[round - 1]];
  }

  // -------------------------------------------------------------- the threads' steps

  predicate ByThread(a: Action) {
    a.Begin? || a.CompareByte? || a.StarByte? || a.DoPostW? || a.DoPostMain?
  }

  /** A thread's step touches only its own record, and main's only through the semaphores. */
  lemma ThreadFrame(c: Config, s: State, a: Action)
    requires Ready(c) && Inv(c, s) && Enabled(c, s, a) && ByThread(a)
    ensures var t := Step(c, s, a); var th := t.threads[a.t];
      && t.threads == s.threads[a.t := th]
      && t.main == s.main && t.round == s.round && t.out == s.out && |t.buffer| == |s.buffer|
      && (t.buffer == s.buffer || a.StarByte?)
      && !Waits(c, s, a.t) && Working(s)
  {
    assert ThreadOk(c, s, a.t);
  }

  lemma ThreadTokens(c: Config, s: State, a: Action)
    requires Ready(c) && Inv(c, s) && Enabled(c, s, a) && ByThread(a)
    ensures Tokens(c, Step(c, s, a))
  {
    ThreadFrame(c, s, a);
    assert ThreadOk(c, s, a.t);
    ThreadMainTokens(c, s, a);
    ThreadWTokens(c, s, a);
  }

  lemma ThreadMainTokens(c: Config, s: State, a: Action)
    requires Enabled(c, s, a) && ByThread(a) && MainTokens(c, s)
    requires s.threads[a.t].token <= 1 && (s.threads[a.t].token == 1 ==> s.threads[a.t].pc == Take)
    ensures MainTokens(c, Step(c, s, a))
  {
    var t := Step(c, s, a);
    var th := t.threads[a.t];
    assert t.semMain + OwesMain(th) == s.semMain + OwesMain(s.threads[a.t]);
    assert t.threads == s.threads[a.t := th] && t.main == s.main;
    SumUpdate(s.threads, a.t, th, OwesMain);
  }

  lemma ThreadWTokens(c: Config, s: State, a: Action)
    requires Enabled(c, s, a) && ByThread(a) && WTokens(c, s)
    requires s.threads[a.t].token <= 1 && (s.threads[a.t].token == 1 ==> s.threads[a.t].pc == Take)
    ensures WTokens(c, Step(c, s, a))
  {
    var t := Step(c, s, a);
    var th := t.threads[a.t];
    assert t.semW + OwesW(th) == s.semW + OwesW(s.threads[a.t]);
    assert t.threads == s.threads[a.t := th] && t.main == s.main;
    SumUpdate(s.threads, a.t, th, OwesW);
  }

  lemma ThreadRecords(c: Config, s: State, a: Action)
    requires Ready(c) && Inv(c, s) && Enabled(c, s, a) && ByThread(a)
    ensures var t := Step(c, s, a); forall j :: 0 <= j < |t.threads| ==> ThreadOk(c, t, j)
  {
    var t := Step(c, s, a);
    ThreadFrame(c, s, a);
    forall j | 0 <= j < |t.threads| ensures ThreadOk(c, t, j) { assert ThreadOk(c, s, j); }
  }

  /** A thread's progress keeps as long as its record does, stars stay, and a match stays one. */
  lemma WorkKeeps(th: Thread, mine: Str, w: Str, b: string, b': string, waits: bool, round: nat, any: bool, any': bool)
    requires |w| < |b| == |b'| && WorkAt(th, mine, w, b, waits, round, any) && (any ==> any')
    requires forall k :: 0 <= k < |w| && b[k] == '*' ==> b'[k] == '*'
    ensures WorkAt(th, mine, w, b', waits, round, any')
  {
  }

  /** One thread moves on, the others keep. */
  lemma WorkMoves(c: Config, s: State, t: State, w: Str, i: nat)
    requires Shape(c, s) && Shape(c, t) && |w| < |s.buffer| && i < |s.threads|
    requires t.threads == s.threads[i := t.threads[i]] && t.main == s.main && t.round == s.round
    requires (AnyHit(s) ==> AnyHit(t)) && forall k :: 0 <= k < |w| && s.buffer[k] == '*' ==> t.buffer[k] == '*'
    requires forall j :: 0 <= j < |s.threads| ==> WorkOk(c, s, w, j)
    requires WorkOk(c, t, w, i)
    ensures forall j :: 0 <= j < |t.threads| ==> WorkOk(c, t, w, j)
  {
    var any, any' := AnyHit(s), AnyHit(t);
    forall j | 0 <= j < |t.threads| ensures WorkOk(c, t, w, j) {
      if j != i {
        assert WorkOk(c, s, w, j) && Waits(c, s, j) == Waits(c, t, j);
        WorkKeeps(s.threads[j], c.strings[j], w, s.buffer, t.buffer, Waits(c, s, j), s.round, any, any');
      }
    }
  }

  /** A step that neither matches nor writes: it is enough to look at the thread itself. */
  lemma QuietMove(c: Config, s: State, t: State, w: Str, i: nat)
    requires Shape(c, s) && Shape(c, t) && |w| < |s.buffer| && i < |s.threads|
    requires t.threads == s.threads[i := t.threads[i]] && t.threads[i].hitAt == s.threads[i].hitAt
    requires t.main == s.main && t.round == s.round && t.buffer == s.buffer
    requires BufferOk(c, s, w) && forall j :: 0 <= j < |s.threads| ==> WorkOk(c, s, w, j)
    requires WorkAt(t.threads[i], c.strings[i], w, s.buffer, Waits(c, s, i), s.round, AnyHit(s))
    ensures BufferOk(c, t, w) && forall j :: 0 <= j < |t.threads| ==> WorkOk(c, t, w, j)
  {
    SameHits(s, t);
    assert Waits(c, s, i) == Waits(c, t, i);
    WorkMoves(c, s, t, w, i);
  }

  /** The word at work on. */
  lemma WorkIs(c: Config, s: State, w: Str)
    requires Ready(c) && Shape(c, s) && s.round <= |c.words| && Work(c, s) && Working(s) && w == c.words[s.round - 1]
    ensures w in c.words && |w| < |s.buffer| && BufferOk(c, s, w)
    ensures forall j :: 0 <= j < |s.threads| ==> WorkOk(c, s, w, j)
  {
  }

  lemma WorkBack(c: Config, t: State, w: Str)
    requires Ready(c) && Shape(c, t) && 0 < t.round <= |c.words| && w == c.words[t.round - 1] && |w| < |t.buffer|
    requires BufferOk(c, t, w) && forall j :: 0 <= j < |t.threads| ==> WorkOk(c, t, w, j)
    ensures Work(c, t)
  {
  }

  /** What a thread's step may rely on about the word in the buffer. */
  lemma InWork(c: Config, s: State, a: Action) returns (w: Str)
    requires Ready(c) && Inv(c, s) && Enabled(c, s, a) && ByThread(a)
    ensures 0 < s.round <= |c.words| && w == c.words[s.round - 1]
    ensures |w| < |s.buffer| && BufferOk(c, s, w) && !Waits(c, s, a.t)
    ensures forall j :: 0 <= j < |s.threads| ==> WorkOk(c, s, w, j)
    ensures s.threads[a.t].token <= 1 && (s.threads[a.t].token == 1 ==> s.threads[a.t].pc == Take)
  {
    ThreadFrame(c, s, a);
    assert ThreadOk(c, s, a.t);
    w := c.words[s.round - 1];
    WorkIs(c, s, w);
  }

  /** A step on: starting on the word, or from one post to the next. */
  lemma MoveOn(c: Config, s: State, t: State, w: Str, i: nat)
    requires Shape(c, s) && Shape(c, t) && |w| < |s.buffer| && i < |s.threads|
    requires t.threads == s.threads[i := t.threads[i]] && t.threads[i].hitAt == s.threads[i].hitAt
    requires t.main == s.main && t.round == s.round && t.buffer == s.buffer
    requires BufferOk(c, s, w) && forall j :: 0 <= j < |s.threads| ==> WorkOk(c, s, w, j)
    requires
      || (s.threads[i].token == 1 && s.threads[i].pc == Take && t.threads[i].pc == Compare(0))
      || (s.threads[i].token == t.threads[i].token == 0
          && (s.threads[i].pc == PostW || s.threads[i].pc == PostMain) && (t.threads[i].pc == PostMain || t.threads[i].pc == Take))
    ensures BufferOk(c, t, w) && forall j :: 0 <= j < |t.threads| ==> WorkOk(c, t, w, j)
  {
    assert WorkOk(c, s, w, i);
    QuietMove(c, s, t, w, i);
  }

  /** What the byte at position k tells about the word. */
  lemma CompareProgress(strings: seq<Str>, mine: Str, w: Str, b: string, any: bool, k: nat)
    requires |w| < |b| && BufferAt(strings, b, w, any) && k <= |mine| && k <= |w| && (any || mine[..k] == w[..k])
    ensures if b[k] != ByteAt(mine, k) then any || mine != w
      else if k < |mine| then k < |w| && (any || mine[..k + 1] == w[..k + 1])
      else |mine| == |w| && (any || mine == w)
  {
    assert k < |w| ==> w[k] in w;
    if b[k] == ByteAt(mine, k) {
      if k < |mine| {
        assert mine[k] in mine;
        if !any {
          assert mine[..k + 1] == mine[..k] + [mine[k]] && w[..k + 1] == w[..k] + [w[k]];
        }
      } else {
        assert mine[..k] == mine && w[..|w|] == w;
      }
    }
  }

  lemma CompareWork(c: Config, s: State, t: State, w: Str, i: nat)
    requires Shape(c, s) && |w| < |s.buffer| && i < |s.threads| && !Waits(c, s, i)
    requires BufferOk(c, s, w) && forall j :: 0 <= j < |s.threads| ==> WorkOk(c, s, w, j)
    requires s.threads[i].token == 0 && s.threads[i].pc.Compare? && s.threads[i].pc.k <= |c.strings[i]|
    requires var k, mine := s.threads[i].pc.k, c.strings[i];
      k < |s.buffer| &&
      t == if s.buffer[k] != ByteAt(mine, k) then Moved(s, i, PostW)
           else if k < |mine| then Moved(s, i, Compare(k + 1))
           else s.(threads := s.threads[i := s.threads[i].(pc := Star(0), hitAt := s.round)])
    ensures BufferOk(c, t, w) && forall j :: 0 <= j < |t.threads| ==> WorkOk(c, t, w, j)
  {
    assert WorkOk(c, s, w, i);
    CompareProgress(c.strings, c.strings[i], w, s.buffer, AnyHit(s), s.threads[i].pc.k);
    if t.threads[i].pc.Star? {
      Match(c, s, t, w, i);
    } else {
      QuietMove(c, s, t, w, i);
    }
  }

  /** The terminators met: equal lengths, and the word is one of the strings even if others starred it already. */
  lemma Match(c: Config, s: State, t: State, w: Str, i: nat)
    requires Shape(c, s) && |w| < |s.buffer| && i < |s.threads| && !Waits(c, s, i) && s.threads[i].token == 0
    requires BufferOk(c, s, w) && forall j :: 0 <= j < |s.threads| ==> WorkOk(c, s, w, j)
    requires |c.strings[i]| == |w| && (AnyHit(s) || c.strings[i] == w)
    requires t == s.(threads := s.threads[i := s.threads[i].(pc := Star(0), hitAt := s.round)])
    ensures BufferOk(c, t, w) && forall j :: 0 <= j < |t.threads| ==> WorkOk(c, t, w, j)
  {
    assert Hit(t, i);
    assert Waits(c, t, i) == Waits(c, s, i);
    WorkMoves(c, s, t, w, i);
  }

  lemma StarOn(th: Thread, mine: Str, w: Str, b: string, waits: bool, round: nat, any: bool)
    requires |w| < |b| && WorkAt(th, mine, w, b, waits, round, any) && th.pc.Star?
    ensures var k := th.pc.k;
      if k < |mine| then WorkAt(th.(pc := Star(k + 1)), mine, w, b[k := '*'], waits, round, any)
      else WorkAt(th.(pc := PostW), mine, w, b, waits, round, any)
  {
  }

  lemma StarWork(c: Config, s: State, t: State, w: Str, i: nat)
    requires Shape(c, s) && |w| < |s.buffer| && i < |s.threads| && !Waits(c, s, i) && s.threads[i].pc.Star?
    requires BufferOk(c, s, w) && forall j :: 0 <= j < |s.threads| ==> WorkOk(c, s, w, j)
    requires s.threads[i].pc.k < |c.strings[i]| ==> s.threads[i].pc.k < |s.buffer|
    requires var k := s.threads[i].pc.k;
      t == if k < |c.strings[i]| then Moved(s, i, Star(k + 1)).(buffer := s.buffer[k := '*']) else Moved(s, i, PostW)
    ensures BufferOk(c, t, w) && forall j :: 0 <= j < |t.threads| ==> WorkOk(c, t, w, j)
  {
    assert WorkOk(c, s, w, i) && Hit(s, i);
    SameHits(s, t);
    StarOn(s.threads[i], c.strings[i], w, s.buffer, Waits(c, s, i), s.round, AnyHit(s));
    assert Waits(c, t, i) == Waits(c, s, i);
    WorkMoves(c, s, t, w, i);
  }

  lemma MoveOnWork(c: Config, s: State, a: Action)
    requires Ready(c) && Inv(c, s) && Enabled(c, s, a) && (a.Begin? || a.DoPostW? || a.DoPostMain?)
    ensures Work(c, Step(c, s, a))
  {
    var t := Step(c, s, a);
    var w := InWork(c, s, a);
    MoveOn(c, s, t, w, a.t);
    WorkBack(c, t, w);
  }

  lemma ThreadWork(c: Config, s: State, a: Action)
    requires Ready(c) && Inv(c, s) && Enabled(c, s, a) && ByThread(a)
    ensures Work(c, Step(c, s, a))
  {
    var t := Step(c, s, a);
    if a.CompareByte? {
      var w := InWork(c, s, a);
      CompareWork(c, s, t, w, a.t);
      WorkBack(c, t, w);
    } else if a.StarByte? {
      var w := InWork(c, s, a);
      StarWork(c, s, t, w, a.t);
      WorkBack(c, t, w);
    } else {
      MoveOnWork(c, s, a);
    }
  }

  lemma ThreadInv(c: Config, s: State, a: Action)
    requires Ready(c) && Inv(c, s) && Enabled(c, s, a) && ByThread(a) && Work(c, Step(c, s, a))
    ensures Inv(c, Step(c, s, a))
  {
    ThreadFrame(c, s, a);
    ThreadTokens(c, s, a);
    ThreadRecords(c, s, a);
  }

  lemma StepInv(c: Config, s: State, a: Action)
    requires Ready(c) && Inv(c, s) && Enabled(c, s, a)
    ensures Inv(c, Step(c, s, a))
  {
    match a
    case TakeMain => TakeMainInv(c, s);
    case ScanByte => ScanByteInv(c, s);
    case Eof =>
      var t := Step(c, s, Eof);
      forall j | 0 <= j < |t.threads| ensures ThreadOk(c, t, j) { assert ThreadOk(c, s, j); }
    case ReleaseNext => ReleaseInv(c, s);
    case TakeW => TakeWInv(c, s);
    case PrintBuffer => PrintInv(c, s);
    case _ =>
      ThreadWork(c, s, a);
      ThreadInv(c, s, a);
  }

  lemma InvHolds(c: Config)
    requires Ready(c)
    ensures Runs.Inductive(Program(c), s => Inv(c, s))
  {
    forall s: State | Start(c, s) ensures Inv(c, s) { StartInv(c, s); }
    forall s: State, t: State | Inv(c, s) && Next(c, s, t) ensures Inv(c, t) {
      var a :| Enabled(c, s, a) && t == Step(c, s, a);
      StepInv(c, s, a);
    }
  }

  // ------------------------------------------------------------------ whole runs

  /** Main touches the buffer only while no thread is comparing or starring. */
  predicate Exclusive(s: State) {
    s.main.Scan? || s.main.Print? ==>
      forall j :: 0 <= j < |s.threads| ==> !s.threads[j].pc.Compare? && !s.threads[j].pc.Star?
  }

  /** When a word is printed every thread has examined every word so far, once each. */
  predicate ExaminedOnce(s: State) {
    s.main.Print? ==> forall j :: 0 <= j < |s.threads| ==> s.threads[j].seen == s.round
  }

  lemma InvIsSafe(c: Config, s: State)
    requires Ready(c) && Inv(c, s)
    ensures Exclusive(s) && ExaminedOnce(s)
  {
    forall j | 0 <= j < |s.threads| && (s.main.Scan? || s.main.Print?)
      ensures !s.threads[j].pc.Compare? && !s.threads[j].pc.Star? && (s.main.Print? ==> s.threads[j].seen == s.round)
    {
      SumAtLeast(s.threads, j, OwesW);
      assert ThreadOk(c, s, j);
    }
  }

  /**
    For any strings, any words and any interleaving: the output is the pointwise
    censoring of a prefix of the words, all of them once main exits.
   */
  lemma CensorRuns(c: Config, run: seq<State>, i: nat)
    requires Ready(c) && Runs.IsRun(Program(c), run) && i < |run|
    ensures Exclusive(run[i]) && ExaminedOnce(run[i])
    ensures |run[i].out| <= |c.words| && run[i].out == CensoredAll(c, c.words[..|run[i].out|])
    ensures run[i].main == Exited ==> run[i].out == CensoredAll(c, c.words)
    ensures run[i].main == AwaitW && run[i].semW == |c.strings| ==>
      0 < run[i].round <= |c.words| && CString(run[i].buffer) == Censored(c, c.words[run[i].round - 1])
  {
    InvHolds(c);
    Runs.InvariantAt(Program(c), s => Inv(c, s), run, i);
    var s := run[i];
    InvIsSafe(c, s);
    if s.main == Exited { assert c.words[..|c.words|] == c.words; }
    if s.main == AwaitW && s.semW == |c.strings| { BufferIsCensored(c, s); }
  }

  ghost predicate CanMove(c: Config, s: State) { exists a :: Enabled(c, s, a) }

  /** No reachable state but main's exit is stuck. */
  lemma NeverStuck(c: Config, run: seq<State>, i: nat)
    requires Ready(c) && Runs.IsRun(Program(c), run) && i < |run| && run[i].main != Exited
    ensures CanMove(c, run[i])
  {
    InvHolds(c);
    Runs.InvariantAt(Program(c), s => Inv(c, s), run, i);
    var s := run[i];
    if s.main.Scan? {
      if s.round < |c.words| {
        assert c.words[s.round] in c.words;
        assert Enabled(c, s, ScanByte);
      } else {
        assert Enabled(c, s, Eof);
      }
    } else if s.main.Release? {
      assert Enabled(c, s, ReleaseNext);
    } else if s.main.Print? {
      assert Enabled(c, s, PrintBuffer);
    } else if s.main.AwaitMain? && s.semMain >= |c.strings| {
      assert Enabled(c, s, TakeMain);
    } else if s.main.AwaitW? && s.semW >= |c.strings| {
      assert Enabled(c, s, TakeW);
    } else {
      assert Sum(s.threads, OwesMain) > 0 || Sum(s.threads, OwesW) > 0;
      if Sum(s.threads, OwesMain) > 0 {
        var j := SumWitness(s.threads, OwesMain);
        ThreadMoves(c, s, j);
      } else {
        var j := SumWitness(s.threads, OwesW);
        ThreadMoves(c, s, j);
      }
    }
  }

  lemma ThreadMoves(c: Config, s: State, j: nat)
    requires Ready(c) && Inv(c, s) && j < |s.threads| && OwesMain(s.threads[j]) > 0 && s.main != Exited
    ensures CanMove(c, s)
  {
    assert ThreadOk(c, s, j);
    assert Working(s);
    assert c.words[s.round - 1] in c.words && WorkOk(c, s, c.words[s.round - 1], j);
    match s.threads[j].pc
    case Take => assert Enabled(c, s, Begin(j));
    case Compare(k) => assert Enabled(c, s, CompareByte(j));
    case Star(k) => assert Enabled(c, s, StarByte(j));
    case PostW => assert Enabled(c, s, DoPostW(j));
    case PostMain => assert Enabled(c, s, DoPostMain(j));
  }

  // ------------------------------------------------------------------ length of runs

  /** The steps a thread may take from byte k of the buffer on, at most. */
  function Bytes(c: Config, k: nat): nat { if k <= c.capacity then c.capacity - k else 0 }

  function PcSteps(c: Config, pc: ThreadPc): nat {
    match pc
    case Take => 0
    case Compare(k) => c.capacity + Bytes(c, k) + 4
    case Star(k) => Bytes(c, k) + 3
    case PostW => 2
    case PostMain => 1
  }

  /** The steps a thread may take for one token. */
  function TokenSteps(c: Config): nat { 2 * c.capacity + 5 }

  function ThreadSteps(c: Config): Thread -> nat {
    (th: Thread) => th.token * TokenSteps(c) + PcSteps(c, th.pc)
  }

  /** The steps of releasing some threads, and of these. */
  function ReleaseSteps(c: Config, threads: nat): nat { threads * (TokenSteps(c) + 1) }

  /** The steps that all may take for one word. */
  function WordSteps(c: Config): nat { c.capacity + 4 + ReleaseSteps(c, |c.strings|) }

  function MainSteps(c: Config, s: State): nat {
    var words := if s.round <= |c.words| then |c.words| - s.round else 0;
    var rest := words * WordSteps(c);
    match s.main
    case AwaitMain => rest + 2
    case Scan(k) => if k <= rest then rest + 1 - k else 1
    case Release(i) => rest + 4 + ReleaseSteps(c, if i <= |c.strings| then |c.strings| - i else 0)
    case AwaitW => rest + 4
    case Print => rest + 3
    case Exited => 0
  }

  function Measure(c: Config, s: State): nat { MainSteps(c, s) + Sum(s.threads, ThreadSteps(c)) }

  lemma OneWordLess(words: nat, steps: nat)
    requires words > 0
    ensures words * steps == (words - 1) * steps + steps
  {
  }

  lemma ScanDrops(c: Config, s: State)
    requires Enabled(c, s, ScanByte)
    ensures MainSteps(c, Step(c, s, ScanByte)) < MainSteps(c, s)
  {
    var k, words := s.main.k, |c.words| - s.round;
    OneWordLess(words, WordSteps(c));
    assert MainSteps(c, s) == (words - 1) * WordSteps(c) + WordSteps(c) + 1 - k;
    assert k == |c.words[s.round]| ==>
      MainSteps(c, Step(c, s, ScanByte)) == (words - 1) * WordSteps(c) + 4 + ReleaseSteps(c, |c.strings|);
  }

  lemma ReleaseDrops(c: Config, s: State)
    requires Enabled(c, s, ReleaseNext)
    ensures MainSteps(c, Step(c, s, ReleaseNext)) + TokenSteps(c) < MainSteps(c, s)
  {
    OneWordLess(|c.strings| - s.main.i, TokenSteps(c) + 1);
  }

  lemma ThreadDrops(c: Config, s: State, a: Action)
    requires Enabled(c, s, a) && ByThread(a)
    ensures var t := Step(c, s, a);
      t.threads == s.threads[a.t := t.threads[a.t]] && t.main == s.main && t.round == s.round
      && ThreadSteps(c)(t.threads[a.t]) < ThreadSteps(c)(s.threads[a.t])
  {
    if a.Begin? {
      OneWordLess(s.threads[a.t].token, TokenSteps(c));
    }
  }

  /** Every step of main or of a thread lowers the measure. */
  lemma MeasureDrops(c: Config, s: State, a: Action)
    requires Enabled(c, s, a)
    ensures Measure(c, Step(c, s, a)) < Measure(c, s)
  {
    var t := Step(c, s, a);
    if ByThread(a) {
      ThreadDrops(c, s, a);
      SumUpdate(s.threads, a.t, t.threads[a.t], ThreadSteps(c));
    } else if a.ReleaseNext? {
      ReleaseDrops(c, s);
      var i := s.main.i;
      OneWordLess(s.threads[i].token + 1, TokenSteps(c));
      SumUpdate(s.threads, i, t.threads[i], ThreadSteps(c));
    } else if a.ScanByte? {
      ScanDrops(c, s);
    }
  }

  /** No run is longer than this, and one that cannot go on has censored all the words. */
  lemma CensorEnds(c: Config, run: seq<State>)
    requires Ready(c) && Runs.IsRun(Program(c), run)
    ensures |run| - 1 <= |c.words| * WordSteps(c) + 2
    ensures !CanMove(c, run[|run| - 1]) ==> run[|run| - 1].main == Exited && run[|run| - 1].out == CensoredAll(c, c.words)
  {
    forall k | 0 <= k < |run| - 1 ensures Measure(c, run[k + 1]) < Measure(c, run[k]) {
      assert Next(c, run[k], run[k + 1]);
      var a :| Enabled(c, run[k], a) && run[k + 1] == Step(c, run[k], a);
      MeasureDrops(c, run[k], a);
    }
    Runs.BoundedLength(Program(c), s => Measure(c, s), run, |run| - 1);
    SumConstant(run[0].threads, ThreadSteps(c), 0);
    CensorRuns(c, run, |run| - 1);
    if run[|run| - 1].main != Exited {
      NeverStuck(c, run, |run| - 1);
    }
  }
}
