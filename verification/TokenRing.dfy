/**
  n processes in a ring of shared cells. Process i waits until its own cell differs from
  the number it read last, reads it, and writes its successor into the next process's
  cell, as long as the number it read is below the limit.
 */
module TokenRing {
  import opened Counting
  import opened Modular
  import Runs

  /** limit is the 30 of the loop. */
  datatype Config = Config(n: nat, limit: nat)

  datatype Pc = Top | Spin | Load | Print | Store | Exited

  datatype Process = Process(pc: Pc, num: int)

  datatype Read = Read(process: nat, value: int)

  /** started: main has put the first number in cell 0. log is history: the numbers printed. */
  datatype State = State(started: bool, cells: seq<int>, procs: seq<Process>, log: seq<Read>)

  datatype Action = Kick | Go(i: nat)

  predicate Start(c: Config, s: State) {
    s == State(false, seq(c.n, i => 0), seq(c.n, i => Process(Top, 0)), [])
  }

  predicate Shape(c: Config, s: State) {
    c.n >= 2 && |s.cells| == |s.procs| == c.n
  }

  predicate Enabled(c: Config, s: State, a: Action) {
    && Shape(c, s)
    && match a
       case Kick => !s.started
       case Go(i) => i < c.n && s.procs[i].pc != Exited
  }

  function SetProc(s: State, i: nat, me: Process): State
    requires i < |s.procs|
  {
    s.(procs := s.procs[i := me])
  }

  function Step(c: Config, s: State, a: Action): State
    requires Enabled(c, s, a)
  {
    match a
    case Kick => s.(started := true, cells := s.cells[0 := 1])
    case Go(i) =>
      var me := s.procs[i];
      match me.pc
      case Top => SetProc(s, i, me.(pc := if me.num < c.limit then Spin else Exited))
      case Spin => if s.cells[i] == me.num then s else SetProc(s, i, me.(pc := Load))
      case Load => SetProc(s, i, Process(Print, s.cells[i]))
      case Print => SetProc(s, i, me.(pc := Store)).(log := s.log + [Read(i, me.num)])
      case Store => SetProc(s, i, me.(pc := Top)).(cells := s.cells[(i + 1) % c.n := me.num + 1])
  }

  /** Waiting for the cell to change. */
  predicate Spins(s: State, a: Action) {
    a.Go? && a.i < |s.procs| == |s.cells| && s.procs[a.i].pc == Spin && s.cells[a.i] == s.procs[a.i].num
  }

  ghost predicate Next(c: Config, s: State, t: State) {
    exists a :: Enabled(c, s, a) && t == Step(c, s, a)
  }

  ghost function Program(c: Config): Runs.System<State> {
    Runs.System(s => Start(c, s), (s, t) => Next(c, s, t))
  }

  // ------------------------------------------------------------------- invariant

  /** The process that reads number v. */
  function Reader(c: Config, v: nat): nat
    requires c.n > 0 && v > 0
  {
    (v - 1) % c.n
  }

  /** The last number up to v that process i reads, 0 if none. */
  function LastOf(c: Config, i: nat, v: nat): nat
    requires c.n > 0
  {
    if v == 0 then 0 else if Reader(c, v) == i then v else LastOf(c, i, v - 1)
  }

  /** Everybody but the token's owner shows the last number it read, in its cell and in num. */
  predicate Settled(c: Config, s: State, i: nat, v: nat)
    requires Shape(c, s) && i < c.n
  {
    var me := s.procs[i];
    && s.cells[i] == LastOf(c, i, v) == me.num
    && me.pc in {Top, Spin, Exited}
    && (me.pc == Exited ==> me.num >= c.limit)
    && (me.pc == Spin ==> me.num < c.limit)
  }

  /** Where the token is: v numbers have been passed on; the next is on its way, held, or was stored for an exited process. */
  datatype Phase = Unborn | Travelling | Held | Over

  predicate At(c: Config, s: State, ph: Phase, v: nat)
    requires Shape(c, s)
  {
    var o := v % c.n;
    match ph
    case Unborn =>
      v == 0 && !s.started && s.log == [] && forall i :: 0 <= i < c.n ==> Settled(c, s, i, 0)
    case Travelling =>
      && s.started && v < c.limit - 1 + c.n && |s.log| == v
      && s.cells[o] == v + 1 && s.procs[o].num == LastOf(c, o, v) < c.limit && s.procs[o].pc in {Top, Spin, Load}
      && forall i :: 0 <= i < c.n && i != o ==> Settled(c, s, i, v)
    case Held =>
      && s.started && v < c.limit - 1 + c.n && |s.log| == v + (if s.procs[o].pc == Store then 1 else 0)
      && s.cells[o] == v + 1 && s.procs[o].num == v + 1 && s.procs[o].pc in {Print, Store}
      && forall i :: 0 <= i < c.n && i != o ==> Settled(c, s, i, v)
    case Over =>
      && s.started && v == c.limit - 1 + c.n && |s.log| == v
      && forall i :: 0 <= i < c.n ==> s.procs[i].num >= c.limit && s.procs[i].pc in {Top, Exited}
  }

  /** The reads so far are 1, 2, 3, ..., each by the process whose turn it is. */
  predicate LogOk(c: Config, s: State)
    requires Shape(c, s)
  {
    forall k :: 0 <= k < |s.log| ==> s.log[k] == Read(k % c.n, k + 1)
  }

  ghost predicate Inv(c: Config, s: State) {
    && c.limit > 0 && Shape(c, s) && LogOk(c, s)
    && exists ph, v: nat :: At(c, s, ph, v)
  }

  // ---- whose number is which

  lemma {:induction false} LastOfBound(c: Config, i: nat, v: nat)
    requires i < c.n
    ensures LastOf(c, i, v) <= v
    ensures LastOf(c, i, v) > 0 ==> Reader(c, LastOf(c, i, v)) == i
  {
    if v > 0 && Reader(c, v) != i { LastOfBound(c, i, v - 1); }
  }

  /** What a process read last, when number w is about to come to it, is a full round older. */
  lemma RoundBefore(c: Config, v: nat, w: nat)
    requires c.n > 0 && w == v + 1
    ensures LastOf(c, v % c.n, v) == 0 || LastOf(c, v % c.n, v) + c.n <= w
  {
    var u := LastOf(c, v % c.n, v);
    LastOfBound(c, v % c.n, v);
    if u > 0 && u + c.n > w { PlacesDiffer(u - 1, v, c.n); }
  }

  lemma {:induction false} LastInRound(c: Config, i: nat, v: nat, j: nat)
    requires i < c.n && 0 < j <= v && Reader(c, j) == i
    ensures j <= LastOf(c, i, v)
  {
    if Reader(c, v) != i { LastInRound(c, i, v - 1, j); }
  }

  /** In any n numbers in a row there is one for each process. */
  lemma InEveryRound(c: Config, i: nat, v: nat)
    requires i < c.n <= v
    ensures LastOf(c, i, v) > v - c.n
  {
    var b := v - c.n;
    var q, r := b / c.n, b % c.n;
    assert b == q * c.n + r;
    var k := if i >= r then b + (i - r) else b + (i - r + c.n);
    ModuloUnique(c.n, q, if i >= r then i else i + c.n);
    assert k % c.n == i;
    LastInRound(c, i, v, k + 1);
  }

  // ---- the steps

  lemma KickInv(c: Config, s: State)
    requires c.limit > 0 && Shape(c, s) && At(c, s, Unborn, 0) && Enabled(c, s, Kick)
    ensures At(c, Step(c, s, Kick), Travelling, 0)
  {
    var t := Step(c, s, Kick);
    SmallMod(0, c.n);
    assert Settled(c, s, 0, 0);
    forall i | 0 <= i < c.n && i != 0 ensures Settled(c, t, i, 0) { assert Settled(c, s, i, 0); }
  }

  /** A process that does not have the token only comes to its loop's test or waits. */
  lemma SettledStep(c: Config, s: State, i: nat, v: nat)
    requires Shape(c, s) && i < c.n && Settled(c, s, i, v) && Enabled(c, s, Go(i))
    ensures var t := Step(c, s, Go(i));
      && Settled(c, t, i, v) && t == SetProc(s, i, t.procs[i])
      && (t == s ==> Spins(s, Go(i)))
  {
  }

  lemma OthersStep(c: Config, s: State, ph: Phase, v: nat, i: nat)
    requires Shape(c, s) && At(c, s, ph, v) && i < c.n && Enabled(c, s, Go(i)) && ph != Over
    requires ph == Unborn || i != v % c.n
    ensures At(c, Step(c, s, Go(i)), ph, v)
  {
    var t := Step(c, s, Go(i));
    assert Settled(c, s, i, v);
    SettledStep(c, s, i, v);
    forall k | 0 <= k < c.n && k != i && Settled(c, s, k, v) ensures Settled(c, t, k, v) {}
  }

  lemma OwnerTravels(c: Config, s: State, v: nat)
    requires Shape(c, s) && At(c, s, Travelling, v) && Enabled(c, s, Go(v % c.n))
    ensures var t := Step(c, s, Go(v % c.n)); At(c, t, if s.procs[v % c.n].pc == Load then Held else Travelling, v)
  {
    var t, o := Step(c, s, Go(v % c.n)), v % c.n;
    LastOfBound(c, o, v);
    forall k | 0 <= k < c.n && k != o ensures Settled(c, t, k, v) { assert Settled(c, s, k, v); }
  }

  lemma OwnerPrints(c: Config, s: State, v: nat)
    requires Shape(c, s) && At(c, s, Held, v) && LogOk(c, s) && s.procs[v % c.n].pc == Print
    ensures var t := Step(c, s, Go(v % c.n)); At(c, t, Held, v) && LogOk(c, t)
  {
    var t, o := Step(c, s, Go(v % c.n)), v % c.n;
    forall k | 0 <= k < c.n && k != o ensures Settled(c, t, k, v) { assert Settled(c, s, k, v); }
  }

  lemma OwnerStores(c: Config, s: State, v: nat)
    requires c.limit > 0 && Shape(c, s) && At(c, s, Held, v) && s.procs[v % c.n].pc == Store
    ensures var t := Step(c, s, Go(v % c.n)); At(c, t, if v + 1 < c.limit - 1 + c.n then Travelling else Over, v + 1)
  {
    var t, o, w := Step(c, s, Go(v % c.n)), v % c.n, v + 1;
    NextMod(v, c.n);
    var o' := w % c.n;
    PlacesDiffer(v, w, c.n);
    assert Reader(c, w) == o && LastOf(c, o, w) == w;
    forall k | 0 <= k < c.n && k != o' ensures Settled(c, t, k, w) {
      if k != o { assert Settled(c, s, k, v); }
    }
    assert Settled(c, s, o', v);
    if w < c.limit - 1 + c.n {
      RoundBefore(c, w, w + 1);
    } else {
      forall i | 0 <= i < c.n ensures t.procs[i].num >= c.limit && t.procs[i].pc in {Top, Exited} {
        InEveryRound(c, i, w);
        if i != o { assert Settled(c, s, i, v); }
      }
    }
  }

  lemma OverStep(c: Config, s: State, v: nat, i: nat)
    requires Shape(c, s) && At(c, s, Over, v) && i < c.n && Enabled(c, s, Go(i))
    ensures At(c, Step(c, s, Go(i)), Over, v)
  {
  }

  lemma StepInv(c: Config, s: State, a: Action)
    requires Inv(c, s) && Enabled(c, s, a)
    ensures Inv(c, Step(c, s, a))
  {
    var ph, v: nat :| At(c, s, ph, v);
    if a == Kick {
      KickInv(c, s);
    } else if ph == Over {
      OverStep(c, s, v, a.i);
    } else if ph == Unborn || a.i != v % c.n {
      assert ph == Unborn || ph == Travelling || ph == Held;
      if ph != Unborn { assert Settled(c, s, a.i, v); } else { assert Settled(c, s, a.i, 0); }
      OthersStep(c, s, ph, v, a.i);
    } else if ph == Travelling {
      OwnerTravels(c, s, v);
    } else if s.procs[a.i].pc == Print {
      OwnerPrints(c, s, v);
    } else {
      OwnerStores(c, s, v);
    }
  }

  lemma InvHolds(c: Config)
    requires c.n >= 2 && c.limit > 0
    ensures Runs.Inductive(Program(c), s => Inv(c, s))
  {
    forall s: State | Start(c, s) ensures Inv(c, s) { assert At(c, s, Unborn, 0); }
    forall s: State, t: State | Inv(c, s) && Next(c, s, t) ensures Inv(c, t) {
      var a :| Enabled(c, s, a) && t == Step(c, s, a);
      StepInv(c, s, a);
    }
  }

  // ------------------------------------------------------------------ termination

  function Left(me: Process): nat {
    match me.pc case Store => 4 case Top => 3 case Spin => 2 case Load => 1 case Print => 0 case Exited => 0
  }

  function Total(c: Config): nat
    requires c.limit > 0
  {
    c.limit - 1 + c.n
  }

  function Measure(c: Config, s: State): nat
    requires c.limit > 0
  {
    (if s.started then 0 else 1) + 5 * (if |s.log| <= Total(c) then Total(c) - |s.log| else 0) + Sum(s.procs, Left)
  }

  lemma LogBound(c: Config, s: State)
    requires Inv(c, s)
    ensures |s.log| <= Total(c)
  {
    var ph, v: nat :| At(c, s, ph, v);
  }

  lemma StepChanges(c: Config, s: State, i: nat)
    requires Enabled(c, s, Go(i))
    ensures var t := Step(c, s, Go(i));
      && t.procs == s.procs[i := t.procs[i]] && t.started == s.started
      && 5 * |s.log| + Left(t.procs[i]) <= 5 * |t.log| + Left(s.procs[i])
      && (!Spins(s, Go(i)) ==> 5 * |s.log| + Left(t.procs[i]) < 5 * |t.log| + Left(s.procs[i]))
      && (t == s <==> Spins(s, Go(i)))
  {
  }

  lemma MeasureDrops(c: Config, s: State, a: Action)
    requires c.limit > 0 && Enabled(c, s, a) && |Step(c, s, a).log| <= Total(c)
    ensures Step(c, s, a) == s || Measure(c, Step(c, s, a)) < Measure(c, s)
  {
    if a.Go? {
      StepChanges(c, s, a.i);
      SumUpdate(s.procs, a.i, Step(c, s, a).procs[a.i], Left);
    }
  }

  predicate AllExited(s: State) { forall i :: 0 <= i < |s.procs| ==> s.procs[i].pc == Exited }

  /** Some process can do more than wait. */
  ghost predicate CanProgress(c: Config, s: State) { exists a :: Enabled(c, s, a) && !Spins(s, a) }

  lemma ProgressUnlessExited(c: Config, s: State)
    requires Inv(c, s) && !AllExited(s)
    ensures CanProgress(c, s)
  {
    var ph, v: nat :| At(c, s, ph, v);
    match ph
    case Unborn => assert Enabled(c, s, Kick) && !Spins(s, Kick);
    case Travelling =>
      var o := v % c.n;
      LastOfBound(c, o, v);
      assert Enabled(c, s, Go(o)) && !Spins(s, Go(o));
    case Held => assert Enabled(c, s, Go(v % c.n)) && !Spins(s, Go(v % c.n));
    case Over =>
      var i :| 0 <= i < |s.procs| && s.procs[i].pc != Exited;
      assert Enabled(c, s, Go(i)) && !Spins(s, Go(i));
  }

  lemma ExitedMeansOver(c: Config, s: State)
    requires Inv(c, s) && AllExited(s)
    ensures |s.log| == Total(c) && s.started
  {
    var ph, v: nat :| At(c, s, ph, v);
    assert ph == Unborn ==> Settled(c, s, 0, v);
  }

  /**
    In every run the numbers printed are 1, 2, 3, ..., number k + 1 by process k mod n.
    Leaving out waiting, a run has a bounded number of steps; as long as a process has not
    exited some process can go on; and when all have exited the last number was limit - 1 + n.
   */
  lemma RingRuns(c: Config, run: seq<State>)
    requires c.n >= 2 && c.limit > 0 && Runs.IsRun(Program(c), run)
    ensures var s := run[|run| - 1];
      && |s.log| <= Total(c)
      && (forall k :: 0 <= k < |s.log| ==> s.log[k] == Read(k % c.n, k + 1))
      && (if AllExited(s) then |s.log| == Total(c) else CanProgress(c, s))
    ensures Runs.Changes(run) <= 1 + 5 * Total(c) + 3 * c.n
  {
    InvHolds(c);
    Runs.Invariant(Program(c), s => Inv(c, s), run);
    forall k | 0 <= k < |run| - 1 ensures run[k + 1] == run[k] || Measure(c, run[k + 1]) < Measure(c, run[k]) {
      assert Next(c, run[k], run[k + 1]);
      var a :| Enabled(c, run[k], a) && run[k + 1] == Step(c, run[k], a);
      assert Inv(c, run[k + 1]);
      LogBound(c, run[k + 1]);
      MeasureDrops(c, run[k], a);
    }
    Runs.BoundedChanges(s => Measure(c, s), run);
    SumConstant(run[0].procs, Left, 3);
    var s := run[|run| - 1];
    assert Inv(c, s);
    LogBound(c, s);
    if AllExited(s) { ExitedMeansOver(c, s); } else { ProgressUnlessExited(c, s); }
  }
}
