/**
  The same buffer under one global mutex, with a counter of the items in it. Both
  threads poll: they take the mutex, look at the counter, and do nothing if they cannot move.
 */
module CounterBuffer {
  import opened BoundedQueue
  import opened Modular
  import Runs

  datatype Config = Config(size: nat, end: nat)

  datatype Holder = Nobody | Producer | Consumer

  datatype ProducerPc = PLock | PTest | PWrite | PCount | PUnlock

  datatype ConsumerPc = CLock | CTest | CCheck | CCount | CUnlock | Broken | Exited

  /** taken is history: the values the consumer has taken out. */
  datatype State = State(
    mutex: Holder, counter: int, v: seq<int>,
    producer: ProducerPc, data: nat, pIndex: nat,
    consumer: ConsumerPc, expected: nat, cIndex: nat, value: int, taken: seq<int>)

  predicate Start(c: Config, s: State) {
    && c.size > 0
    && s == State(Nobody, 0, seq(c.size, i => -1), PLock, 0, 0, CLock, 0, 0, s.value, [])
  }

  predicate Shape(c: Config, s: State) {
    c.size > 0 && |s.v| == c.size && s.pIndex < c.size && s.cIndex < c.size
  }

  predicate ProducerEnabled(c: Config, s: State) {
    Shape(c, s) && (s.producer == PLock ==> s.mutex == Nobody)
  }

  function ProducerStep(c: Config, s: State): State
    requires ProducerEnabled(c, s)
  {
    match s.producer
    case PLock => s.(mutex := Producer, producer := PTest)
    case PTest => s.(producer := if s.counter < c.size then PWrite else PUnlock)
    case PWrite => s.(v := s.v[s.pIndex := s.data], producer := PCount)
    case PCount =>
      s.(pIndex := (s.pIndex + 1) % c.size, data := s.data + 1, counter := s.counter + 1, producer := PUnlock)
    case PUnlock => s.(mutex := Nobody, producer := PLock)
  }

  predicate ConsumerEnabled(c: Config, s: State) {
    Shape(c, s) && (s.consumer == CLock ==> s.mutex == Nobody) && s.consumer != Broken && s.consumer != Exited
  }

  function ConsumerStep(c: Config, s: State): State
    requires ConsumerEnabled(c, s)
  {
    match s.consumer
    case CLock => s.(mutex := Consumer, consumer := CTest)
    case CTest => if s.counter > 0 then s.(value := s.v[s.cIndex], consumer := CCheck) else s.(consumer := CUnlock)
    case CCheck => s.(consumer := if s.value != s.expected then Broken else if s.value == c.end then Exited else CCount)
    case CCount =>
      s.(cIndex := (s.cIndex + 1) % c.size, expected := s.expected + 1, counter := s.counter - 1,
         taken := s.taken + [s.value], consumer := CUnlock)
    case CUnlock => s.(mutex := Nobody, consumer := CLock)
    case _ => s
  }

  predicate Next(c: Config, s: State, t: State) {
    || (ProducerEnabled(c, s) && t == ProducerStep(c, s))
    || (ConsumerEnabled(c, s) && t == ConsumerStep(c, s))
  }

  ghost function Program(c: Config): Runs.System<State> {
    Runs.System(s => Start(c, s), (s, t) => Next(c, s, t))
  }

  // ------------------------------------------------------------------- invariant

  predicate Inv(c: Config, s: State) {
    && Shape(c, s)
    && (s.producer != PLock <==> s.mutex == Producer)
    && (s.consumer != CLock <==> s.mutex == Consumer)
    && s.expected <= s.data <= s.expected + c.size
    && s.counter == s.data - s.expected
    && (s.producer in {PWrite, PCount} ==> s.counter < c.size)
    && (s.consumer in {CCheck, CCount, Exited} ==> s.counter > 0 && s.value == s.expected)
    && s.consumer != Broken
    && s.pIndex == s.data % c.size && s.cIndex == s.expected % c.size
    && (forall j :: s.expected <= j < s.data ==> InSlot(s.v, j))
    && (s.producer == PCount ==> InSlot(s.v, s.data))
    && s.taken == seq(s.expected, i => i)
  }

  lemma ProducerInv(c: Config, s: State)
    requires Inv(c, s) && ProducerEnabled(c, s)
    ensures Inv(c, ProducerStep(c, s))
  {
    var t := ProducerStep(c, s);
    NextMod(s.data, c.size);
    if s.producer == PWrite {
      forall j | s.expected <= j < s.data ensures InSlot(t.v, j) {
        assert InSlot(s.v, j);
        PlacesDiffer(j, s.data, c.size);
      }
    }
  }

  lemma ConsumerInv(c: Config, s: State)
    requires Inv(c, s) && ConsumerEnabled(c, s)
    ensures Inv(c, ConsumerStep(c, s))
  {
    NextMod(s.expected, c.size);
    if s.consumer == CTest && s.counter > 0 { assert InSlot(s.v, s.expected); }
    if s.consumer == CCount { assert ConsumerStep(c, s).taken == seq(s.expected + 1, i => i); }
  }

  lemma InvHolds(c: Config)
    ensures Runs.Inductive(Program(c), s => Inv(c, s))
  {
    forall s: State | Start(c, s) ensures Inv(c, s) { SmallMod(0, c.size); }
    forall s: State, t: State | Inv(c, s) && Next(c, s, t) ensures Inv(c, t) {
      if ProducerEnabled(c, s) && t == ProducerStep(c, s) { ProducerInv(c, s); } else { ConsumerInv(c, s); }
    }
  }

  function View(c: Config, s: State): Queue {
    if Shape(c, s) && s.expected <= s.data then Held(s.v, s.expected, s.data, s.taken) else EMPTY
  }

  lemma StepSimulates(c: Config, s: State, t: State)
    requires Inv(c, s) && Inv(c, t) && Next(c, s, t)
    ensures Simulates(c.size, View(c, s), View(c, t))
  {
    HeldIsBetween(s.v, s.expected, s.data, s.taken);
    HeldIsBetween(t.v, t.expected, t.data, t.taken);
    if t.data == s.data + 1 { OneMore(c.size, s.expected, s.data); }
    if t.expected == s.expected + 1 { OneLess(s.expected, s.data); }
  }

  /** Every run under the global mutex is a run of the same queue, and the counter is always its length. */
  lemma RefinesQueue(c: Config, run: seq<State>, i: nat)
    requires Runs.IsRun(Program(c), run) && i < |run|
    ensures View(c, run[0]) == EMPTY
    ensures i + 1 < |run| ==> Simulates(c.size, View(c, run[i]), View(c, run[i + 1]))
    ensures |View(c, run[i]).items| <= c.size && View(c, run[i]).delivered == seq(run[i].expected, k => k)
    ensures run[i].counter == |View(c, run[i]).items|
    ensures run[i].consumer != Broken
    ensures run[i].consumer == Exited ==> run[i].expected == c.end
  {
    ExitsAtEnd(c, run, i);
    InvHolds(c);
    Runs.Invariant(Program(c), s => Inv(c, s), run);
    var s := run[i];
    assert Inv(c, run[0]) && Inv(c, s);
    HeldIsBetween(run[0].v, 0, 0, []);
    HeldIsBetween(s.v, s.expected, s.data, s.taken);
    if i + 1 < |run| {
      assert Next(c, run[i], run[i + 1]);
      StepSimulates(c, run[i], run[i + 1]);
    }
  }

  lemma {:induction false} ExitsAtEnd(c: Config, run: seq<State>, i: nat)
    requires Runs.IsRun(Program(c), run) && i < |run|
    ensures run[i].consumer == Exited ==> run[i].value == c.end
  {
    if i > 0 {
      ExitsAtEnd(c, run, i - 1);
      assert Next(c, run[i - 1], run[i - 1 + 1]);
    }
  }

  /** Neither thread waits for good for the mutex, and one of the two finds the buffer as it needs it. */
  lemma NeverStuck(c: Config, run: seq<State>, i: nat)
    requires Runs.IsRun(Program(c), run) && i < |run| && run[i].consumer != Exited
    ensures ProducerEnabled(c, run[i]) || ConsumerEnabled(c, run[i])
    ensures run[i].producer == PLock && !ProducerEnabled(c, run[i]) ==> ConsumerEnabled(c, run[i])
    ensures run[i].consumer == CLock && !ConsumerEnabled(c, run[i]) ==> ProducerEnabled(c, run[i])
    ensures 0 < run[i].counter || run[i].counter < c.size
  {
    InvHolds(c);
    Runs.Invariant(Program(c), s => Inv(c, s), run);
    assert Inv(c, run[i]);
  }
}
