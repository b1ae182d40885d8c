/**
  Producer and consumer over a circular array with one pair of semaphores per slot:
  free_slot[i] and available_item[i].
 */
module SlotSemaphores {
  import opened BoundedQueue
  import opened Modular
  import Runs

  /** SIZE and END. */
  datatype Config = Config(size: nat, end: nat)

  datatype ProducerPc = Acquire | Write | Release

  datatype ConsumerPc = Await | Read | Check | Free | Broken | Exited

  /** taken is history: the values whose slots the consumer has given back. */
  datatype State = State(
    free: seq<nat>, avail: seq<nat>, v: seq<int>,
    producer: ProducerPc, data: nat, pIndex: nat,
    consumer: ConsumerPc, expected: nat, cIndex: nat, value: int, taken: seq<int>)

  datatype Action = PAcquire | PWrite | PRelease | CAwait | CRead | CCheck | CFree

  predicate Start(c: Config, s: State) {
    && |s.v| == c.size > 0
    && s == State(seq(c.size, i => 1), seq(c.size, i => 0), s.v, Acquire, 0, 0, Await, 0, 0, s.value, [])
  }

  predicate Shape(c: Config, s: State) {
    c.size > 0 && |s.free| == |s.avail| == |s.v| == c.size && s.pIndex < c.size && s.cIndex < c.size
  }

  predicate Enabled(c: Config, s: State, a: Action) {
    && Shape(c, s)
    && match a
       case PAcquire => s.producer == Acquire && s.free[s.pIndex] > 0
       case PWrite => s.producer == Write
       case PRelease => s.producer == Release
       case CAwait => s.consumer == Await && s.avail[s.cIndex] > 0
       case CRead => s.consumer == Read
       case CCheck => s.consumer == Check
       case CFree => s.consumer == Free
  }

  function Step(c: Config, s: State, a: Action): State
    requires Enabled(c, s, a)
  {
    match a
    case PAcquire => s.(free := s.free[s.pIndex := s.free[s.pIndex] - 1], producer := Write)
    case PWrite => s.(v := s.v[s.pIndex := s.data], producer := Release)
    case PRelease =>
      s.(avail := s.avail[s.pIndex := s.avail[s.pIndex] + 1], producer := Acquire,
         pIndex := (s.pIndex + 1) % c.size, data := s.data + 1)
    case CAwait => s.(avail := s.avail[s.cIndex := s.avail[s.cIndex] - 1], consumer := Read)
    case CRead => s.(value := s.v[s.cIndex], consumer := Check)
    case CCheck => s.(consumer := if s.value != s.expected then Broken else if s.value == c.end then Exited else Free)
    case CFree =>
      s.(free := s.free[s.cIndex := s.free[s.cIndex] + 1], consumer := Await,
         cIndex := (s.cIndex + 1) % c.size, expected := s.expected + 1, taken := s.taken + [s.value])
  }

  ghost predicate Next(c: Config, s: State, t: State) {
    exists a :: Enabled(c, s, a) && t == Step(c, s, a)
  }

  ghost function Program(c: Config): Runs.System<State> {
    Runs.System(s => Start(c, s), (s, t) => Next(c, s, t))
  }

  // ------------------------------------------------------------------- invariant

  /** The consumer has the token of the slot it looks at. */
  predicate Holds(pc: ConsumerPc) { pc != Await }

  /**
    Slot of place j, for the places from the next item to consume up to a full round later:
    occupied, being filled, or free.
   */
  predicate PlaceOk(c: Config, s: State, j: nat)
    requires Shape(c, s)
  {
    var i := j % c.size;
    if j < s.data then
      s.free[i] == 0 && s.avail[i] == (if j == s.expected && Holds(s.consumer) then 0 else 1) && InSlot(s.v, j)
    else if j == s.data && s.producer != Acquire then
      s.free[i] == 0 && s.avail[i] == 0 && (s.producer == Release ==> InSlot(s.v, j))
    else
      s.free[i] == 1 && s.avail[i] == 0
  }

  predicate Inv(c: Config, s: State) {
    && Shape(c, s)
    && s.expected <= s.data <= s.expected + c.size
    && (s.producer != Acquire ==> s.data < s.expected + c.size)
    && (Holds(s.consumer) ==> s.expected < s.data)
    && s.pIndex == s.data % c.size && s.cIndex == s.expected % c.size
    && s.consumer != Broken
    && (s.consumer in {Check, Free, Exited} ==> s.value == s.expected)
    && s.taken == seq(s.expected, i => i)
    && forall j :: s.expected <= j < s.expected + c.size ==> PlaceOk(c, s, j)
  }

  lemma StartInv(c: Config, s: State)
    requires Start(c, s)
    ensures Inv(c, s)
  {
    SmallMod(0, c.size);
  }

  /** A step that changes one slot leaves the places of other slots alone. */
  lemma OtherPlace(c: Config, s: State, t: State, i: nat, j: nat)
    requires Shape(c, s) && Shape(c, t) && PlaceOk(c, s, j) && s.expected <= i && s.expected <= j && i != j
    requires i < s.expected + c.size && j < s.expected + c.size && i <= s.data
    requires forall k :: 0 <= k < c.size && k != i % c.size ==>
      t.free[k] == s.free[k] && t.avail[k] == s.avail[k] && t.v[k] == s.v[k]
    requires t.expected == s.expected || (i == s.expected && t.expected == s.expected + 1)
    requires t.data == s.data || (i == s.data && t.data == s.data + 1 && t.producer == Acquire)
    requires i == s.data || (t.producer == s.producer && t.data == s.data)
    requires i == s.expected || Holds(t.consumer) == Holds(s.consumer)
    requires t.expected == s.expected + 1 ==> !Holds(t.consumer)
    ensures PlaceOk(c, t, j)
  {
    if i < j { PlacesDiffer(i, j, c.size); } else { PlacesDiffer(j, i, c.size); }
  }

  lemma ProducerInv(c: Config, s: State, a: Action)
    requires Inv(c, s) && Enabled(c, s, a) && (a.PAcquire? || a.PWrite? || a.PRelease?)
    ensures Inv(c, Step(c, s, a))
  {
    var t, p := Step(c, s, a), s.data;
    NextMod(p, c.size);
    FullRound(s.expected, c.size);
    assert PlaceOk(c, s, s.expected);
    assert p < s.expected + c.size;
    assert PlaceOk(c, s, p);
    forall j | s.expected <= j < s.expected + c.size ensures PlaceOk(c, t, j) {
      assert PlaceOk(c, s, j);
      if j != p { OtherPlace(c, s, t, p, j); }
    }
  }

  lemma ConsumerInv(c: Config, s: State, a: Action)
    requires Inv(c, s) && Enabled(c, s, a) && (a.CAwait? || a.CRead? || a.CCheck?)
    ensures Inv(c, Step(c, s, a))
  {
    var t, e := Step(c, s, a), s.expected;
    assert PlaceOk(c, s, e);
    forall j | e <= j < e + c.size ensures PlaceOk(c, t, j) {
      assert PlaceOk(c, s, j);
      if j != e { OtherPlace(c, s, t, e, j); }
    }
  }

  lemma FreeInv(c: Config, s: State)
    requires Inv(c, s) && Enabled(c, s, CFree)
    ensures Inv(c, Step(c, s, CFree))
  {
    var t, e := Step(c, s, CFree), s.expected;
    NextMod(e, c.size);
    FullRound(e, c.size);
    assert PlaceOk(c, s, e);
    forall j | e + 1 <= j < e + 1 + c.size ensures PlaceOk(c, t, j) {
      if j < e + c.size { OtherPlace(c, s, t, e, j); }
    }
    assert t.taken == seq(e + 1, i => i);
  }

  lemma StepInv(c: Config, s: State, a: Action)
    requires Inv(c, s) && Enabled(c, s, a)
    ensures Inv(c, Step(c, s, a))
  {
    match a
    case CFree => FreeInv(c, s);
    case CAwait => ConsumerInv(c, s, a);
    case CRead => ConsumerInv(c, s, a);
    case CCheck => ConsumerInv(c, s, a);
    case _ => ProducerInv(c, s, a);
  }

  lemma InvHolds(c: Config)
    ensures Runs.Inductive(Program(c), s => Inv(c, s))
  {
    forall s: State | Start(c, s) ensures Inv(c, s) { StartInv(c, s); }
    forall s: State, t: State | Inv(c, s) && Next(c, s, t) ensures Inv(c, t) {
      var a :| Enabled(c, s, a) && t == Step(c, s, a);
      StepInv(c, s, a);
    }
  }

  // ------------------------------------------------------------------ refinement

  /** The queue that the slots of the array hold. */
  function View(c: Config, s: State): Queue {
    if Shape(c, s) && s.expected <= s.data then Held(s.v, s.expected, s.data, s.taken) else EMPTY
  }

  lemma ViewIsBetween(c: Config, s: State)
    requires Inv(c, s)
    ensures View(c, s) == Between(s.expected, s.data)
  {
    forall j | s.expected <= j < s.data ensures InSlot(s.v, j) { assert PlaceOk(c, s, j); }
    HeldIsBetween(s.v, s.expected, s.data, s.taken);
  }

  lemma StepSimulates(c: Config, s: State, a: Action)
    requires Inv(c, s) && Enabled(c, s, a)
    ensures Simulates(c.size, View(c, s), View(c, Step(c, s, a)))
  {
    StepInv(c, s, a);
    ViewIsBetween(c, s);
    ViewIsBetween(c, Step(c, s, a));
    if a == PRelease { OneMore(c.size, s.expected, s.data); }
    if a == CFree { OneLess(s.expected, s.data); }
  }

  /**
    Every run is a run of one queue of capacity SIZE, what is delivered is 0, 1, 2, ...
    and the consumer never reports a broken protocol.
   */
  lemma RefinesQueue(c: Config, run: seq<State>, i: nat)
    requires Runs.IsRun(Program(c), run) && i < |run|
    ensures View(c, run[0]) == EMPTY
    ensures i + 1 < |run| ==> Simulates(c.size, View(c, run[i]), View(c, run[i + 1]))
    ensures |View(c, run[i]).items| <= c.size && View(c, run[i]).delivered == seq(run[i].expected, k => k)
    ensures run[i].consumer != Broken
    ensures run[i].consumer == Exited ==> run[i].expected == c.end
  {
    InvHolds(c);
    Runs.InvariantAt(Program(c), s => Inv(c, s), run, i);
    Runs.InvariantAt(Program(c), s => Inv(c, s), run, 0);
    ViewIsBetween(c, run[0]);
    ViewIsBetween(c, run[i]);
    ExitsAtEnd(c, run, i);
    if i + 1 < |run| {
      assert Next(c, run[i], run[i + 1]);
      var a :| Enabled(c, run[i], a) && run[i + 1] == Step(c, run[i], a);
      StepSimulates(c, run[i], a);
    }
  }

  lemma {:induction false} ExitsAtEnd(c: Config, run: seq<State>, i: nat)
    requires Runs.IsRun(Program(c), run) && i < |run|
    ensures run[i].consumer == Exited ==> run[i].value == c.end
  {
    if i > 0 {
      ExitsAtEnd(c, run, i - 1);
      assert Next(c, run[i - 1], run[i - 1 + 1]);
    }
  }

  ghost predicate CanMove(c: Config, s: State) { exists a :: Enabled(c, s, a) }

  lemma SomebodyMoves(c: Config, s: State)
    requires Inv(c, s) && s.consumer != Exited
    ensures CanMove(c, s)
  {
    assert PlaceOk(c, s, s.expected);
    if
    case s.producer == Write => assert Enabled(c, s, PWrite);
    case s.producer == Release => assert Enabled(c, s, PRelease);
    case s.consumer == Read => assert Enabled(c, s, CRead);
    case s.consumer == Check => assert Enabled(c, s, CCheck);
    case s.consumer == Free => assert Enabled(c, s, CFree);
    case s.producer == Acquire && s.consumer == Await =>
      assert if s.expected < s.data then Enabled(c, s, CAwait) else Enabled(c, s, PAcquire);
  }

  /** Producer and consumer never block each other for good. */
  lemma NeverStuck(c: Config, run: seq<State>, i: nat)
    requires Runs.IsRun(Program(c), run) && i < |run| && run[i].consumer != Exited
    ensures CanMove(c, run[i])
  {
    InvHolds(c);
    Runs.InvariantAt(Program(c), s => Inv(c, s), run, i);
    SomebodyMoves(c, run[i]);
  }
}
