/**
  Main reads integers one at a time and hands each to whichever of n workers gets hold of
  it; two mutexes, each unlocked by another thread than locked it, pass the turn. A worker
  puts what it got at the head of its own list, while main may already read on.
 */
module HandOff {
  import opened Counting
  import Runs

  /** A record; index is history: which of the integers read it carries. */
  datatype List = Nil | Node(val: int, index: nat, next: List)

  datatype MainPc = LockNext | Scan | UnlockLock

  datatype WorkerPc = Malloc | LockLock | Copy | UnlockNext | SetNext | SetHead

  datatype Worker = Worker(pc: WorkerPc, aux: List, list: List)

  datatype Config = Config(n: nat, input: nat -> int)

  /** lock and next are true when free. count is history: integers read. */
  datatype State = State(lock: bool, next: bool, main: MainPc, val: int, workers: seq<Worker>, count: nat)

  datatype Action = Main | Work(w: nat)

  predicate Start(c: Config, s: State) {
    s == State(false, true, LockNext, s.val, seq(c.n, i => Worker(Malloc, Nil, Nil)), 0)
  }

  predicate Enabled(c: Config, s: State, a: Action) {
    && |s.workers| == c.n
    && match a
       case Main => s.main == LockNext ==> s.next
       case Work(w) => w < c.n && (s.workers[w].pc == LockLock ==> s.lock)
  }

  function SetWorker(s: State, w: nat, me: Worker): State
    requires w < |s.workers|
  {
    s.(workers := s.workers[w := me])
  }

  function Step(c: Config, s: State, a: Action): State
    requires Enabled(c, s, a)
  {
    match a
    case Main =>
      (match s.main
       case LockNext => s.(main := Scan, next := false)
       case Scan => s.(main := UnlockLock, val := c.input(s.count), count := s.count + 1)
       case UnlockLock => s.(main := LockNext, lock := true))
    case Work(w) =>
      var me := s.workers[w];
      match me.pc
      case Malloc => SetWorker(s, w, me.(pc := LockLock))
      case LockLock => SetWorker(s, w, me.(pc := Copy)).(lock := false)
      case Copy => SetWorker(s, w, me.(pc := UnlockNext, aux := Node(s.val, if s.count == 0 then 0 else s.count - 1, Nil)))
      case UnlockNext => SetWorker(s, w, me.(pc := SetNext)).(next := true)
      case SetNext => SetWorker(s, w, me.(pc := SetHead, aux := if me.aux.Nil? then Nil else me.aux.(next := me.list)))
      case SetHead => SetWorker(s, w, me.(pc := Malloc, list := me.aux))
  }

  ghost predicate Next(c: Config, s: State, t: State) {
    exists a :: Enabled(c, s, a) && t == Step(c, s, a)
  }

  ghost function Program(c: Config): Runs.System<State> {
    Runs.System(s => Start(c, s), (s, t) => Next(c, s, t))
  }

  // ------------------------------------------------------------------- invariant

  /** The worker has the turn. */
  function Turn(me: Worker): nat { if me.pc == Copy || me.pc == UnlockNext then 1 else 0 }

  function Copying(me: Worker): nat { if me.pc == Copy then 1 else 0 }

  function Bit(b: bool): nat { if b then 1 else 0 }

  /** The turn is in exactly one place. */
  predicate TurnLaw(s: State) {
    Bit(s.lock) + Bit(s.next) + Bit(s.main != LockNext) + Sum(s.workers, Turn) == 1
  }

  /** The last integer read has not been copied yet. */
  predicate Pending(s: State) { s.lock || s.main == UnlockLock || Sum(s.workers, Copying) > 0 }

  function Occurs(l: List, k: nat): nat {
    if l.Nil? then 0 else (if l.index == k then 1 else 0) + Occurs(l.next, k)
  }

  predicate InHand(pc: WorkerPc) { pc == UnlockNext || pc == SetNext || pc == SetHead }

  /** How often the worker has integer k, on its list or in hand. */
  function Has(k: nat): Worker -> nat {
    (me: Worker) =>
      Occurs(me.list, k) + (if InHand(me.pc) && me.aux.Node? && me.aux.index == k then 1 else 0)
  }

  /** Each integer read is in one place, and only there. */
  predicate Once(s: State, k: nat) {
    Sum(s.workers, Has(k)) + (if Pending(s) && k + 1 == s.count then 1 else 0) == if k < s.count then 1 else 0
  }

  /** Newest first, and each record carries the integer it stands for. */
  predicate Ordered(c: Config, l: List, below: nat) {
    l.Node? ==> l.index < below && l.val == c.input(l.index) && Ordered(c, l.next, l.index)
  }

  predicate WorkerOk(c: Config, s: State, me: Worker) {
    && Ordered(c, me.list, s.count)
    && (InHand(me.pc) ==>
          me.aux.Node? && me.aux.index < s.count && me.aux.val == c.input(me.aux.index) && Ordered(c, me.list, me.aux.index))
    && (me.pc == SetHead ==> me.aux.next == me.list)
    && (me.pc == Copy ==> Ordered(c, me.list, if s.count == 0 then 0 else s.count - 1))
  }

  ghost predicate Inv(c: Config, s: State) {
    && |s.workers| == c.n && TurnLaw(s)
    && (Pending(s) ==> s.count > 0 && s.val == c.input(s.count - 1))
    && (forall k :: Once(s, k))
    && (forall w :: 0 <= w < c.n ==> WorkerOk(c, s, s.workers[w]))
  }

  lemma StartInv(c: Config, s: State)
    requires Start(c, s)
    ensures Inv(c, s)
  {
    SumConstant(s.workers, Turn, 0);
    SumConstant(s.workers, Copying, 0);
    forall k: nat ensures Once(s, k) { SumConstant(s.workers, Has(k), 0); }
  }

  lemma {:induction false} OrderedWeaken(c: Config, l: List, a: nat, b: nat)
    requires Ordered(c, l, a) && a <= b
    ensures Ordered(c, l, b)
  {
  }

  lemma {:induction false} CopyingIsTurn(workers: seq<Worker>)
    ensures Sum(workers, Copying) <= Sum(workers, Turn)
  {
    if workers != [] { CopyingIsTurn(workers[1..]); }
  }

  lemma MainInv(c: Config, s: State)
    requires Inv(c, s) && Enabled(c, s, Main)
    ensures Inv(c, Step(c, s, Main))
  {
    var t := Step(c, s, Main);
    CopyingIsTurn(s.workers);
    forall k: nat ensures Once(t, k) { assert Once(s, k); }
    forall w | 0 <= w < c.n ensures WorkerOk(c, t, t.workers[w]) {
      assert WorkerOk(c, s, s.workers[w]);
      OrderedWeaken(c, s.workers[w].list, s.count, t.count);
      SumAtLeast(s.workers, w, Turn);
    }
  }

  /** The turn that leaves one place is in the next; an integer copied is no longer pending. */
  lemma TurnMoves(s: State, t: State, w: nat)
    requires w < |s.workers| == |t.workers| && t.workers == s.workers[w := t.workers[w]] && t.main == s.main
    requires TurnLaw(s)
    requires Bit(t.lock) + Bit(t.next) + Turn(t.workers[w]) == Bit(s.lock) + Bit(s.next) + Turn(s.workers[w])
    requires s.workers[w].pc == Copy ==> t.lock == s.lock && t.workers[w].pc != Copy
    requires s.workers[w].pc != Copy ==> Bit(t.lock) + Copying(t.workers[w]) == Bit(s.lock)
    ensures TurnLaw(t) && (Pending(t) <==> (Pending(s) && s.workers[w].pc != Copy))
  {
    SumUpdate(s.workers, w, t.workers[w], Turn);
    SumUpdate(s.workers, w, t.workers[w], Copying);
    SumAtLeast(s.workers, w, Copying);
    CopyingIsTurn(s.workers);
    CopyingIsTurn(t.workers);
  }

  /** A worker's move: its own record, the turn, and where integer k is. */
  lemma WorkerCounts(c: Config, s: State, w: nat)
    requires Inv(c, s) && Enabled(c, s, Work(w))
    ensures var t := Step(c, s, Work(w));
      && t.workers == s.workers[w := t.workers[w]] && t.main == s.main && t.val == s.val && t.count == s.count
      && TurnLaw(t)
      && (Pending(t) <==> (Pending(s) && s.workers[w].pc != Copy))
  {
    var t := Step(c, s, Work(w));
    SumAtLeast(s.workers, w, Turn);
    TurnMoves(s, t, w);
  }

  lemma OnceMoves(s: State, t: State, w: nat, k: nat)
    requires w < |s.workers| == |t.workers| && t.workers == s.workers[w := t.workers[w]] && t.count == s.count && Once(s, k)
    requires Has(k)(t.workers[w]) + (if Pending(t) && k + 1 == s.count then 1 else 0)
          == Has(k)(s.workers[w]) + (if Pending(s) && k + 1 == s.count then 1 else 0)
    ensures Once(t, k)
  {
    SumUpdate(s.workers, w, t.workers[w], Has(k));
  }

  /** What the worker has of integer k changes only when it copies the last one read. */
  lemma HasMoves(c: Config, s: State, w: nat, k: nat)
    requires Enabled(c, s, Work(w)) && WorkerOk(c, s, s.workers[w])
    requires s.workers[w].pc == Copy ==> s.count > 0
    ensures var t := Step(c, s, Work(w));
      Has(k)(t.workers[w]) == Has(k)(s.workers[w]) + (if s.workers[w].pc == Copy && k + 1 == s.count then 1 else 0)
  {
  }

  lemma WorkerOnce(c: Config, s: State, w: nat, k: nat)
    requires Inv(c, s) && Enabled(c, s, Work(w))
    ensures Once(Step(c, s, Work(w)), k)
  {
    var t, me := Step(c, s, Work(w)), s.workers[w];
    WorkerCounts(c, s, w);
    SumAtLeast(s.workers, w, Copying);
    assert Once(s, k) && WorkerOk(c, s, me);
    HasMoves(c, s, w, k);
    OnceMoves(s, t, w, k);
  }

  /** Other workers' records do not depend on the one that moves. */
  lemma OtherRecords(c: Config, s: State, w: nat, v: nat)
    requires Enabled(c, s, Work(w)) && v < c.n && v != w && WorkerOk(c, s, s.workers[v])
    ensures var t := Step(c, s, Work(w)); |t.workers| == c.n && WorkerOk(c, t, t.workers[v])
  {
    var t := Step(c, s, Work(w));
    assert t.workers[v] == s.workers[v] && t.count == s.count;
  }

  lemma OwnRecords(c: Config, s: State, w: nat)
    requires Inv(c, s) && Enabled(c, s, Work(w))
    ensures var t := Step(c, s, Work(w)); |t.workers| == c.n && WorkerOk(c, t, t.workers[w])
  {
    var me := s.workers[w];
    assert WorkerOk(c, s, me);
    SumAtLeast(s.workers, w, Copying);
    if me.pc == LockLock { NothingNewer(c, s, w); }
  }

  lemma WorkerRecords(c: Config, s: State, w: nat, v: nat)
    requires Inv(c, s) && Enabled(c, s, Work(w)) && v < c.n
    ensures var t := Step(c, s, Work(w)); |t.workers| == c.n && WorkerOk(c, t, t.workers[v])
  {
    assert WorkerOk(c, s, s.workers[v]);
    if v == w { OwnRecords(c, s, w); } else { OtherRecords(c, s, w, v); }
  }

  /** While an integer is pending nobody has it, so all a worker has is older. */
  lemma NothingNewer(c: Config, s: State, w: nat)
    requires Inv(c, s) && w < c.n && Pending(s)
    ensures Ordered(c, s.workers[w].list, s.count - 1)
  {
    assert Once(s, s.count - 1) && WorkerOk(c, s, s.workers[w]);
    SumAtLeast(s.workers, w, Has(s.count - 1));
  }

  lemma InvHolds(c: Config)
    ensures Runs.Inductive(Program(c), s => Inv(c, s))
  {
    forall s: State | Start(c, s) ensures Inv(c, s) { StartInv(c, s); }
    forall s: State, t: State | Inv(c, s) && Next(c, s, t) ensures Inv(c, t) {
      var a :| Enabled(c, s, a) && t == Step(c, s, a);
      if a == Main {
        MainInv(c, s);
      } else {
        WorkerCounts(c, s, a.w);
        forall k: nat ensures Once(t, k) { WorkerOnce(c, s, a.w, k); }
        forall v | 0 <= v < c.n ensures WorkerOk(c, t, t.workers[v]) { WorkerRecords(c, s, a.w, v); }
      }
    }
  }

  /**
    In every run each integer read is on exactly one list, in exactly one worker's hand, or
    still to be copied; every list has the newest first, and main never reads over an
    integer that nobody has copied.
   */
  lemma HandOffRuns(c: Config, run: seq<State>, i: nat)
    requires Runs.IsRun(Program(c), run) && i < |run|
    ensures var s := run[i];
      && |s.workers| == c.n && (forall k :: Once(s, k))
      && (forall w :: 0 <= w < c.n ==> Ordered(c, s.workers[w].list, s.count))
      && (s.main == Scan ==> !Pending(s))
  {
    InvHolds(c);
    Runs.InvariantAt(Program(c), s => Inv(c, s), run, i);
    CopyingIsTurn(run[i].workers);
    forall w | 0 <= w < c.n ensures Ordered(c, run[i].workers[w].list, run[i].count) {
      assert WorkerOk(c, run[i], run[i].workers[w]);
    }
  }

  ghost predicate CanMove(c: Config, s: State) { exists a :: Enabled(c, s, a) }

  /** With at least one worker the turn never gets lost. */
  lemma NeverStuck(c: Config, run: seq<State>, i: nat)
    requires c.n > 0 && Runs.IsRun(Program(c), run) && i < |run|
    ensures CanMove(c, run[i])
  {
    InvHolds(c);
    Runs.InvariantAt(Program(c), s => Inv(c, s), run, i);
    var s := run[i];
    if s.main != LockNext || s.next {
      assert Enabled(c, s, Main);
    } else if s.lock {
      assert Enabled(c, s, Work(0));
    } else {
      var w := SumWitness(s.workers, Turn);
      assert Enabled(c, s, Work(w));
    }
  }
}
