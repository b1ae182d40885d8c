/**
  Producers put packets on the shortest of n linked queues, consumer q takes from queue q.
  Lengths are read without the queue's lock: by the producers to choose a queue, and by
  the consumer to see whether there is anything to take.
 */
module LoadBalancer {
  import opened Counting
  import opened Options
  import Runs

  datatype Packet = Packet(source: nat, num: nat)

  /** A linked queue: its head pointer, followed through next_packet. */
  datatype List = Nil | Node(pkt: Packet, next: List)

  datatype Holder = Free | Producer(p: nat) | Consumer

  datatype ProducerPc = Make | Look(i: nat) | Note(i: nat) | Try | Lengthen | SetNext | SetHead | Unlock

  /**
    minLen is None while it is the largest unsigned number; a failed attempt to lock keeps it.
    began is history: the version of the lengths when the first search for this packet began.
   */
  datatype ProducerState = ProducerState(
    pc: ProducerPc, num: nat, minLen: Option<nat>, minId: nat, node: List, began: Option<nat>)

  datatype ConsumerPc = Check | Lock | ReadHead | Advance | Shorten | Release | Print

  datatype ConsumerState = ConsumerState(pc: ConsumerPc, node: List)

  datatype Config = Config(queues: nat, producers: nat)

  /** version counts the stores to len; produced and consumed are history as well. */
  datatype State = State(
    len: seq<nat>, lock: seq<Holder>, heads: seq<List>, ps: seq<ProducerState>, cs: seq<ConsumerState>,
    version: nat, produced: seq<Packet>, consumed: seq<Packet>)

  datatype Action = Produce(p: nat) | MallocFails(p: nat) | Consume(q: nat)

  predicate Start(c: Config, s: State) {
    s == State(seq(c.queues, i => 0), seq(c.queues, i => Free), seq(c.queues, i => Nil),
               seq(c.producers, i => ProducerState(Make, 0, None, 0, Nil, None)),
               seq(c.queues, i => ConsumerState(Check, Nil)), 0, [], [])
  }

  predicate Shape(c: Config, s: State) {
    && c.queues > 0 && |s.len| == |s.lock| == |s.heads| == |s.cs| == c.queues && |s.ps| == c.producers
    && forall p :: 0 <= p < |s.ps| ==> s.ps[p].minId < c.queues && (s.ps[p].pc.Note? ==> s.ps[p].pc.i < c.queues)
  }

  predicate Enabled(c: Config, s: State, a: Action) {
    && Shape(c, s)
    && match a
       case Produce(p) => p < c.producers
       case MallocFails(p) => p < c.producers && s.ps[p].pc == Make
       case Consume(q) => q < c.queues && (s.cs[q].pc == Lock ==> s.lock[q] == Free)
  }

  function Smaller(n: nat, min: Option<nat>): bool { min == None || n < min.value }

  function SetP(s: State, p: nat, me: ProducerState): State
    requires p < |s.ps|
  {
    s.(ps := s.ps[p := me])
  }

  function ProducerStep(c: Config, s: State, p: nat): State
    requires Enabled(c, s, Produce(p))
  {
    var me := s.ps[p];
    var q := me.minId;
    match me.pc
    case Make =>
      var pkt := Packet(p, me.num + 1);
      SetP(s, p, ProducerState(Look(0), me.num + 1, None, 0, Node(pkt, Nil), Some(s.version))).(produced := s.produced + [pkt])
    case Look(i) =>
      if i >= c.queues then SetP(s, p, me.(pc := Try))
      else if Smaller(s.len[i], me.minLen) then SetP(s, p, me.(pc := Note(i), minId := i))
      else SetP(s, p, me.(pc := Look(i + 1)))
    case Note(i) => SetP(s, p, me.(pc := Look(i + 1), minLen := Some(s.len[i])))
    case Try =>
      if s.lock[q] == Free then SetP(s, p, me.(pc := Lengthen)).(lock := s.lock[q := Producer(p)])
      else SetP(s, p, me.(pc := Look(0)))
    case Lengthen => SetP(s, p, me.(pc := SetNext)).(len := s.len[q := s.len[q] + 1], version := s.version + 1)
    case SetNext => if me.node.Nil? then s else SetP(s, p, me.(pc := SetHead, node := Node(me.node.pkt, s.heads[q])))
    case SetHead => SetP(s, p, me.(pc := Unlock)).(heads := s.heads[q := me.node])
    case Unlock => SetP(s, p, me.(pc := Make)).(lock := s.lock[q := Free])
  }

  function SetC(s: State, q: nat, me: ConsumerState): State
    requires q < |s.cs|
  {
    s.(cs := s.cs[q := me])
  }

  function ConsumerStep(c: Config, s: State, q: nat): State
    requires Enabled(c, s, Consume(q))
  {
    var me := s.cs[q];
    match me.pc
    case Check => if s.len[q] == 0 then s else SetC(s, q, me.(pc := Lock))
    case Lock => SetC(s, q, me.(pc := ReadHead)).(lock := s.lock[q := Consumer])
    case ReadHead => SetC(s, q, me.(pc := Advance, node := s.heads[q]))
    case Advance => SetC(s, q, me.(pc := Shorten)).(heads := s.heads[q := if me.node.Nil? then Nil else me.node.next])
    case Shorten => SetC(s, q, me.(pc := Release)).(len := s.len[q := if s.len[q] == 0 then 0 else s.len[q] - 1], version := s.version + 1)
    case Release => SetC(s, q, me.(pc := Print)).(lock := s.lock[q := Free])
    case Print =>
      SetC(s, q, me.(pc := Check)).(consumed := if me.node.Nil? then s.consumed else s.consumed + [me.node.pkt])
  }

  /** The consumer follows a null head pointer, or the length would wrap below zero. */
  predicate Faults(c: Config, s: State, q: nat)
    requires Enabled(c, s, Consume(q))
  {
    var me := s.cs[q];
    (me.pc == Advance && me.node.Nil?) || (me.pc == Shorten && s.len[q] == 0) || (me.pc == Print && me.node.Nil?)
  }

  function Step(c: Config, s: State, a: Action): State
    requires Enabled(c, s, a)
  {
    match a
    case Produce(p) => ProducerStep(c, s, p)
    case MallocFails(p) => s
    case Consume(q) => ConsumerStep(c, s, q)
  }

  ghost predicate Next(c: Config, s: State, t: State) {
    exists a :: Enabled(c, s, a) && t == Step(c, s, a)
  }

  ghost function Program(c: Config): Runs.System<State> {
    Runs.System(s => Start(c, s), (s, t) => Next(c, s, t))
  }

  // ------------------------------------------------------------ locks and lengths

  function Length(l: List): nat { if l.Nil? then 0 else 1 + Length(l.next) }

  predicate ProducerInside(pc: ProducerPc) { pc in {Lengthen, SetNext, SetHead, Unlock} }

  predicate ConsumerInside(pc: ConsumerPc) { pc in {ReadHead, Advance, Shorten, Release} }

  predicate LockOk(s: State, q: nat)
    requires q < |s.lock| && q < |s.cs|
  {
    && (s.lock[q] == Consumer <==> ConsumerInside(s.cs[q].pc))
    && forall p :: 0 <= p < |s.ps| ==> (s.lock[q] == Producer(p) <==> ProducerInside(s.ps[p].pc) && s.ps[p].minId == q)
  }

  /** How far the stored length is ahead of the list, as the lock's holder knows. */
  function Ahead(s: State, q: nat): nat
    requires q < |s.lock| && q < |s.cs|
  {
    match s.lock[q]
    case Free => 0
    case Consumer => if s.cs[q].pc == Shorten then 1 else 0
    case Producer(p) => if p < |s.ps| && (s.ps[p].pc == SetNext || s.ps[p].pc == SetHead) then 1 else 0
  }

  predicate ConsumerOk(s: State, q: nat)
    requires q < |s.len| && q < |s.cs| && q < |s.heads|
  {
    var me := s.cs[q];
    && (me.pc in {Lock, ReadHead, Advance, Shorten} ==> s.len[q] > 0)
    && (me.pc == Advance ==> me.node == s.heads[q])
    && (me.pc in {Advance, Shorten, Release, Print} ==> me.node.Node?)
  }

  predicate QueueOk(s: State, q: nat)
    requires q < |s.len| && q < |s.cs| && q < |s.heads| && q < |s.lock|
  {
    LockOk(s, q) && s.len[q] == Length(s.heads[q]) + Ahead(s, q) && ConsumerOk(s, q)
  }

  // --------------------------------------------------------------- choosing a queue

  /** No length was stored since the producer's first search began. */
  predicate Undisturbed(s: State, me: ProducerState) { me.began == Some(s.version) }

  /** A queue is noted, if any was looked at, and none of the first i is shorter. */
  predicate BestOf(s: State, me: ProducerState, i: nat)
    requires me.minId < |s.len| && i <= |s.len|
  {
    if me.minLen == None then i == 0
    else me.minLen == Some(s.len[me.minId]) && forall j :: 0 <= j < i ==> s.len[me.minId] <= s.len[j]
  }

  predicate SearchOk(s: State, me: ProducerState)
    requires me.minId < |s.len|
  {
    && (me.began.Some? ==> me.began.value <= s.version)
    && (Undisturbed(s, me) ==>
          match me.pc
          case Look(i) => i <= |s.len| && BestOf(s, me, i)
          case Note(i) => i < |s.len| && me.minId == i && forall j :: 0 <= j < i ==> s.len[i] <= s.len[j]
          case Try => BestOf(s, me, |s.len|)
          case _ => true)
  }

  predicate ProducerOk(s: State, me: ProducerState)
    requires me.minId < |s.len| == |s.heads|
  {
    && SearchOk(s, me)
    && (me.pc != Make ==> me.node.Node?)
    && (me.pc == SetHead ==> me.node.Node? && me.node.next == s.heads[me.minId])
  }

  // ------------------------------------------------------------------ conservation

  function CountIn(l: List, x: Packet): nat {
    if l.Nil? then 0 else (if l.pkt == x then 1 else 0) + CountIn(l.next, x)
  }

  function Queued(x: Packet): List -> nat { (l: List) => CountIn(l, x) }

  function Making(x: Packet): ProducerState -> nat {
    (me: ProducerState) =>
      if me.pc != Make && me.pc != Unlock && me.node.Node? && me.node.pkt == x then 1 else 0
  }

  function Taking(x: Packet): ConsumerState -> nat {
    (me: ConsumerState) =>
      if (me.pc == Shorten || me.pc == Release || me.pc == Print) && me.node.Node? && me.node.pkt == x then 1 else 0
  }

  /** Wherever packet x is: as often as it was produced. */
  predicate Conserved(s: State, x: Packet) {
    Sum(s.heads, Queued(x)) + Sum(s.ps, Making(x)) + Sum(s.cs, Taking(x)) + multiset(s.consumed)[x] == multiset(s.produced)[x]
  }

  /** No packet is produced twice. */
  ghost predicate Unique(s: State) {
    && (forall x :: x in s.produced ==> x.source < |s.ps| && x.num <= s.ps[x.source].num)
    && (forall x :: multiset(s.produced)[x] <= 1)
  }

  ghost predicate Inv(c: Config, s: State) {
    && Shape(c, s) && Unique(s)
    && (forall q :: 0 <= q < c.queues ==> QueueOk(s, q))
    && (forall p :: 0 <= p < c.producers ==> ProducerOk(s, s.ps[p]))
    && (forall x :: Conserved(s, x))
  }

  lemma StartInv(c: Config, s: State)
    requires Start(c, s) && c.queues > 0
    ensures Inv(c, s)
  {
    forall x: Packet ensures Conserved(s, x) {
      SumConstant(s.heads, Queued(x), 0);
      SumConstant(s.ps, Making(x), 0);
      SumConstant(s.cs, Taking(x), 0);
    }
  }

  // ---- who changes what

  /** Queue q is none of the step's business. */
  ghost predicate Elsewhere(s: State, t: State, q: nat)
    requires q < |s.len| == |s.lock| == |s.heads| == |s.cs| && q < |t.len| == |t.lock| == |t.heads| == |t.cs|
    requires |s.ps| == |t.ps|
  {
    && t.len[q] == s.len[q] && t.lock[q] == s.lock[q] && t.heads[q] == s.heads[q] && t.cs[q] == s.cs[q]
    && forall p :: 0 <= p < |s.ps| ==>
         t.ps[p] == s.ps[p]
         || (!(ProducerInside(s.ps[p].pc) && s.ps[p].minId == q) && !(ProducerInside(t.ps[p].pc) && t.ps[p].minId == q))
  }

  lemma ElsewhereOk(c: Config, s: State, t: State, q: nat)
    requires Shape(c, s) && Shape(c, t) && q < c.queues && QueueOk(s, q) && Elsewhere(s, t, q)
    ensures QueueOk(t, q)
  {
    forall p | 0 <= p < |t.ps| ensures t.lock[q] == Producer(p) <==> ProducerInside(t.ps[p].pc) && t.ps[p].minId == q {
      assert s.lock[q] == Producer(p) <==> ProducerInside(s.ps[p].pc) && s.ps[p].minId == q;
    }
  }

  /** Steps of a producer that is not inside its queue, and does not get in. */
  lemma OutsideStep(c: Config, s: State, p: nat, q: nat)
    requires Shape(c, s) && p < c.producers && q < c.queues && Shape(c, ProducerStep(c, s, p))
    requires s.ps[p].minId != q || (!ProducerInside(s.ps[p].pc) && !(s.ps[p].pc == Try && s.lock[q] == Free))
    ensures Elsewhere(s, ProducerStep(c, s, p), q)
  {
    var t := ProducerStep(c, s, p);
    assert t.ps == s.ps[p := t.ps[p]];
  }

  lemma ProducerQueue(c: Config, s: State, p: nat, q: nat)
    requires Inv(c, s) && Enabled(c, s, Produce(p)) && Shape(c, ProducerStep(c, s, p)) && q < c.queues
    ensures QueueOk(ProducerStep(c, s, p), q)
  {
    var me := s.ps[p];
    assert QueueOk(s, q) && ProducerOk(s, me);
    if q == me.minId && (ProducerInside(me.pc) || (me.pc == Try && s.lock[q] == Free)) {
      InsideStep(c, s, p);
    } else {
      OutsideStep(c, s, p, q);
      ElsewhereOk(c, s, ProducerStep(c, s, p), q);
    }
  }

  lemma InsideStep(c: Config, s: State, p: nat)
    requires Shape(c, s) && p < c.producers && ProducerOk(s, s.ps[p]) && QueueOk(s, s.ps[p].minId)
    requires var me := s.ps[p]; ProducerInside(me.pc) || (me.pc == Try && s.lock[me.minId] == Free)
    ensures Shape(c, ProducerStep(c, s, p)) && QueueOk(ProducerStep(c, s, p), s.ps[p].minId)
  {
    var t, me := ProducerStep(c, s, p), s.ps[p];
    var q := me.minId;
    assert t.ps == s.ps[p := t.ps[p]];
    assert s.lock[q] == Producer(p) <==> ProducerInside(me.pc);
    forall p' | 0 <= p' < |t.ps| ensures t.lock[q] == Producer(p') <==> ProducerInside(t.ps[p'].pc) && t.ps[p'].minId == q {
      assert s.lock[q] == Producer(p') <==> ProducerInside(s.ps[p'].pc) && s.ps[p'].minId == q;
    }
  }

  lemma ConsumerQueue(c: Config, s: State, r: nat, q: nat)
    requires Inv(c, s) && Enabled(c, s, Consume(r)) && q < c.queues
    ensures Shape(c, ConsumerStep(c, s, r)) && QueueOk(ConsumerStep(c, s, r), q)
  {
    var t := ConsumerStep(c, s, r);
    assert QueueOk(s, q) && t.ps == s.ps;
    if q != r {
      ElsewhereOk(c, s, t, q);
    } else {
      OwnQueue(c, s, q);
    }
  }

  lemma OwnQueue(c: Config, s: State, q: nat)
    requires Enabled(c, s, Consume(q)) && QueueOk(s, q)
    ensures Shape(c, ConsumerStep(c, s, q)) && QueueOk(ConsumerStep(c, s, q), q)
  {
    var t := ConsumerStep(c, s, q);
    assert t.ps == s.ps;
    assert s.cs[q].pc == Lock ==> forall p :: 0 <= p < |s.ps| ==> s.lock[q] != Producer(p);
    forall p | 0 <= p < |t.ps| ensures t.lock[q] == Producer(p) <==> ProducerInside(t.ps[p].pc) && t.ps[p].minId == q {
      assert s.lock[q] == Producer(p) <==> ProducerInside(s.ps[p].pc) && s.ps[p].minId == q;
    }
  }

  /** The consumer never pops an empty queue and the length never wraps. */
  lemma NoFault(c: Config, s: State, q: nat)
    requires Inv(c, s) && Enabled(c, s, Consume(q))
    ensures !Faults(c, s, q)
  {
    assert QueueOk(s, q);
  }

  // ---- the producers' searches

  lemma OtherProducer(s: State, t: State, me: ProducerState)
    requires me.minId < |s.len| == |s.heads| == |t.len| == |t.heads| && ProducerOk(s, me)
    requires (t.len == s.len && t.version == s.version) || t.version == s.version + 1
    requires me.pc == SetHead ==> t.heads[me.minId] == s.heads[me.minId]
    ensures ProducerOk(t, me)
  {
  }

  lemma LookStep(c: Config, s: State, p: nat)
    requires Shape(c, s) && p < c.producers && ProducerOk(s, s.ps[p]) && (s.ps[p].pc.Look? || s.ps[p].pc.Note?)
    ensures var t := ProducerStep(c, s, p); Shape(c, t) && ProducerOk(t, t.ps[p])
  {
    var t := ProducerStep(c, s, p);
    assert t.ps == s.ps[p := t.ps[p]];
  }

  lemma OtherOwnStep(c: Config, s: State, p: nat)
    requires Shape(c, s) && p < c.producers && ProducerOk(s, s.ps[p]) && !s.ps[p].pc.Look? && !s.ps[p].pc.Note?
    ensures var t := ProducerStep(c, s, p); Shape(c, t) && ProducerOk(t, t.ps[p])
  {
    var t := ProducerStep(c, s, p);
    assert t.ps == s.ps[p := t.ps[p]];
  }

  lemma OwnSearch(c: Config, s: State, p: nat)
    requires Shape(c, s) && p < c.producers && ProducerOk(s, s.ps[p])
    ensures var t := ProducerStep(c, s, p); Shape(c, t) && ProducerOk(t, t.ps[p])
  {
    if s.ps[p].pc.Look? || s.ps[p].pc.Note? { LookStep(c, s, p); } else { OtherOwnStep(c, s, p); }
  }

  /** Two producers are never inside the same queue. */
  lemma OneInside(s: State, p: nat, p': nat, q: nat)
    requires q < |s.lock| == |s.cs| && LockOk(s, q) && p < |s.ps| && p' < |s.ps|
    requires ProducerInside(s.ps[p].pc) && s.ps[p].minId == q && ProducerInside(s.ps[p'].pc) && s.ps[p'].minId == q
    ensures p == p'
  {
    assert s.lock[q] == Producer(p) && s.lock[q] == Producer(p');
  }

  lemma ProducersAfterProducer(c: Config, s: State, p: nat, p': nat)
    requires Inv(c, s) && p < c.producers && p' < c.producers
    ensures var t := ProducerStep(c, s, p); Shape(c, t) && ProducerOk(t, t.ps[p'])
  {
    var t, me, other := ProducerStep(c, s, p), s.ps[p], s.ps[p'];
    assert ProducerOk(s, me) && ProducerOk(s, other);
    OwnSearch(c, s, p);
    if p' != p {
      assert QueueOk(s, me.minId);
      if ProducerInside(other.pc) && ProducerInside(me.pc) && other.minId == me.minId {
        OneInside(s, p, p', me.minId);
      }
      OtherProducer(s, t, other);
    }
  }

  lemma ProducersAfterConsumer(c: Config, s: State, q: nat, p: nat)
    requires Inv(c, s) && Enabled(c, s, Consume(q)) && p < c.producers
    ensures var t := ConsumerStep(c, s, q); Shape(c, t) && ProducerOk(t, t.ps[p])
  {
    var t, me := ConsumerStep(c, s, q), s.ps[p];
    assert ProducerOk(s, me) && QueueOk(s, q);
    assert s.lock[q] == Producer(p) <==> ProducerInside(me.pc) && me.minId == q;
    OtherProducer(s, t, me);
  }

  // ---- conservation

  /** What a producer's step takes from one place it puts in another. */
  lemma ProducerMoves(s: State, t: State, p: nat, q: nat, x: Packet)
    requires Conserved(s, x) && t.cs == s.cs && t.consumed == s.consumed
    requires p < |s.ps| == |t.ps| && t.ps == s.ps[p := t.ps[p]]
    requires q < |s.heads| == |t.heads| && t.heads == s.heads[q := t.heads[q]]
    requires CountIn(t.heads[q], x) + Making(x)(t.ps[p]) + multiset(s.produced)[x]
          == CountIn(s.heads[q], x) + Making(x)(s.ps[p]) + multiset(t.produced)[x]
    ensures Conserved(t, x)
  {
    SumUpdate(s.heads, q, t.heads[q], Queued(x));
    SumUpdate(s.ps, p, t.ps[p], Making(x));
  }

  lemma ConsumerMoves(s: State, t: State, q: nat, x: Packet)
    requires Conserved(s, x) && t.ps == s.ps && t.produced == s.produced
    requires q < |s.cs| == |t.cs| && t.cs == s.cs[q := t.cs[q]]
    requires q < |s.heads| == |t.heads| && t.heads == s.heads[q := t.heads[q]]
    requires CountIn(t.heads[q], x) + Taking(x)(t.cs[q]) + multiset(t.consumed)[x]
          == CountIn(s.heads[q], x) + Taking(x)(s.cs[q]) + multiset(s.consumed)[x]
    ensures Conserved(t, x)
  {
    SumUpdate(s.heads, q, t.heads[q], Queued(x));
    SumUpdate(s.cs, q, t.cs[q], Taking(x));
  }

  predicate Searching(pc: ProducerPc) { pc.Look? || pc.Note? || pc.Try? || pc.Lengthen? || pc.Unlock? }

  /** A step of the search, or of the lock and the length, moves no packet. */
  lemma SearchMovesNothing(c: Config, s: State, p: nat, x: Packet)
    requires Shape(c, s) && p < c.producers && Searching(s.ps[p].pc)
    ensures var t := ProducerStep(c, s, p);
      && t.cs == s.cs && t.consumed == s.consumed && t.heads == s.heads && t.produced == s.produced
      && |t.ps| == |s.ps| && t.ps == s.ps[p := t.ps[p]] && Making(x)(t.ps[p]) == Making(x)(s.ps[p])
  {
  }

  lemma SearchConserves(c: Config, s: State, p: nat, x: Packet)
    requires Shape(c, s) && p < c.producers && Conserved(s, x) && Searching(s.ps[p].pc)
    ensures Conserved(ProducerStep(c, s, p), x)
  {
    var t := ProducerStep(c, s, p);
    SearchMovesNothing(c, s, p, x);
    ProducerMoves(s, t, p, s.ps[p].minId, x);
  }

  lemma MakeConserves(c: Config, s: State, p: nat, x: Packet)
    requires Shape(c, s) && p < c.producers && Conserved(s, x) && s.ps[p].pc == Make
    ensures Conserved(ProducerStep(c, s, p), x)
  {
    var t, pkt := ProducerStep(c, s, p), Packet(p, s.ps[p].num + 1);
    assert multiset(t.produced) == multiset(s.produced) + multiset{pkt};
    ProducerMoves(s, t, p, s.ps[p].minId, x);
  }

  lemma PushConserves(c: Config, s: State, p: nat, x: Packet)
    requires Shape(c, s) && p < c.producers && Conserved(s, x) && ProducerOk(s, s.ps[p])
    requires s.ps[p].pc == SetNext || s.ps[p].pc == SetHead
    ensures Conserved(ProducerStep(c, s, p), x)
  {
    ProducerMoves(s, ProducerStep(c, s, p), p, s.ps[p].minId, x);
  }

  lemma ProducerConserves(c: Config, s: State, p: nat, x: Packet)
    requires Shape(c, s) && p < c.producers && Conserved(s, x) && ProducerOk(s, s.ps[p])
    ensures Conserved(ProducerStep(c, s, p), x)
  {
    if s.ps[p].pc == Make {
      MakeConserves(c, s, p, x);
    } else if Searching(s.ps[p].pc) {
      SearchConserves(c, s, p, x);
    } else {
      PushConserves(c, s, p, x);
    }
  }

  lemma AdvanceConserves(c: Config, s: State, q: nat, x: Packet)
    requires Enabled(c, s, Consume(q)) && Conserved(s, x) && QueueOk(s, q) && s.cs[q].pc == Advance
    ensures Conserved(ConsumerStep(c, s, q), x)
  {
    var t := ConsumerStep(c, s, q);
    ConsumerMoves(s, t, q, x);
  }

  lemma PrintConserves(c: Config, s: State, q: nat, x: Packet)
    requires Enabled(c, s, Consume(q)) && Conserved(s, x) && QueueOk(s, q) && s.cs[q].pc == Print
    ensures Conserved(ConsumerStep(c, s, q), x)
  {
    var t, me := ConsumerStep(c, s, q), s.cs[q];
    assert multiset(t.consumed) == multiset(s.consumed) + multiset{me.node.pkt};
    ConsumerMoves(s, t, q, x);
  }

  /** Every other step of a consumer moves no packet. */
  lemma ConsumerMovesNothing(c: Config, s: State, q: nat, x: Packet)
    requires Enabled(c, s, Consume(q)) && s.cs[q].pc != Advance && s.cs[q].pc != Print
    ensures var t := ConsumerStep(c, s, q);
      && t.ps == s.ps && t.consumed == s.consumed && t.heads == s.heads && t.produced == s.produced
      && |t.cs| == |s.cs| && t.cs == s.cs[q := t.cs[q]] && Taking(x)(t.cs[q]) == Taking(x)(s.cs[q])
  {
  }

  lemma ConsumerConserves(c: Config, s: State, q: nat, x: Packet)
    requires Enabled(c, s, Consume(q)) && Conserved(s, x) && QueueOk(s, q)
    ensures Conserved(ConsumerStep(c, s, q), x)
  {
    if s.cs[q].pc == Advance {
      AdvanceConserves(c, s, q, x);
    } else if s.cs[q].pc == Print {
      PrintConserves(c, s, q, x);
    } else {
      var t := ConsumerStep(c, s, q);
      ConsumerMovesNothing(c, s, q, x);
      ConsumerMoves(s, t, q, x);
    }
  }

  lemma ProducerUnique(c: Config, s: State, p: nat)
    requires Shape(c, s) && p < c.producers && Unique(s)
    ensures Unique(ProducerStep(c, s, p))
  {
    var t, me := ProducerStep(c, s, p), s.ps[p];
    assert t.ps == s.ps[p := t.ps[p]];
    if me.pc == Make {
      assert Packet(p, me.num + 1) !in s.produced;
      assert multiset(s.produced)[Packet(p, me.num + 1)] == 0;
    }
  }

  // ------------------------------------------------------------------ whole runs

  lemma ProduceInv(c: Config, s: State, p: nat)
    requires Inv(c, s) && p < c.producers
    ensures Inv(c, ProducerStep(c, s, p))
  {
    var t := ProducerStep(c, s, p);
    assert ProducerOk(s, s.ps[p]);
    OwnSearch(c, s, p);
    ProducerUnique(c, s, p);
    forall q | 0 <= q < c.queues ensures QueueOk(t, q) { ProducerQueue(c, s, p, q); }
    forall p' | 0 <= p' < c.producers ensures ProducerOk(t, t.ps[p']) { ProducersAfterProducer(c, s, p, p'); }
    forall x ensures Conserved(t, x) { assert Conserved(s, x); ProducerConserves(c, s, p, x); }
  }

  lemma ConsumeInv(c: Config, s: State, r: nat)
    requires Inv(c, s) && Enabled(c, s, Consume(r))
    ensures Inv(c, ConsumerStep(c, s, r))
  {
    var t := ConsumerStep(c, s, r);
    ConsumerQueue(c, s, r, r);
    assert t.produced == s.produced && t.ps == s.ps;
    forall q | 0 <= q < c.queues ensures QueueOk(t, q) { ConsumerQueue(c, s, r, q); }
    forall p | 0 <= p < c.producers ensures ProducerOk(t, t.ps[p]) { ProducersAfterConsumer(c, s, r, p); }
    forall x ensures Conserved(t, x) { assert Conserved(s, x) && QueueOk(s, r); ConsumerConserves(c, s, r, x); }
  }

  lemma InvHolds(c: Config)
    requires c.queues > 0
    ensures Runs.Inductive(Program(c), s => Inv(c, s))
  {
    forall s: State | Start(c, s) ensures Inv(c, s) { StartInv(c, s); }
    forall s: State, t: State | Inv(c, s) && Next(c, s, t) ensures Inv(c, t) {
      var a :| Enabled(c, s, a) && t == Step(c, s, a);
      match a
      case Produce(p) => ProduceInv(c, s, p);
      case MallocFails(p) =>
      case Consume(q) => ConsumeInv(c, s, q);
    }
  }

  /**
    In every run: a consumer that saw a positive length without the lock never pops an empty
    queue; a free queue's length is exact; and every packet is as often queued, in some
    hand or consumed as it was produced, which is at most once.
   */
  lemma BalancerRuns(c: Config, run: seq<State>, i: nat)
    requires c.queues > 0 && Runs.IsRun(Program(c), run) && i < |run|
    ensures var s := run[i];
      && Shape(c, s)
      && (forall q :: 0 <= q < c.queues && Enabled(c, s, Consume(q)) ==> !Faults(c, s, q))
      && (forall q :: 0 <= q < c.queues && s.lock[q] == Free ==> s.len[q] == Length(s.heads[q]))
      && (forall x :: Conserved(s, x) && multiset(s.consumed)[x] <= multiset(s.produced)[x] <= 1)
  {
    InvHolds(c);
    Runs.InvariantAt(Program(c), s => Inv(c, s), run, i);
    var s := run[i];
    forall q | 0 <= q < c.queues && Enabled(c, s, Consume(q)) ensures !Faults(c, s, q) { NoFault(c, s, q); }
    forall q | 0 <= q < c.queues && s.lock[q] == Free ensures s.len[q] == Length(s.heads[q]) { assert QueueOk(s, q); }
    forall x ensures Conserved(s, x) && multiset(s.consumed)[x] <= multiset(s.produced)[x] <= 1 { assert Conserved(s, x); }
  }

  /** The queue a producer is about to lock is a shortest one, if no length was stored since it made its packet. */
  lemma LeastLoaded(c: Config, run: seq<State>, i: nat, p: nat)
    requires c.queues > 0 && Runs.IsRun(Program(c), run) && i < |run| && p < c.producers && |run[i].ps| == c.producers
    requires run[i].ps[p].pc == Try && Undisturbed(run[i], run[i].ps[p])
    ensures var s := run[i];
      s.ps[p].minId < |s.len| && forall j :: 0 <= j < |s.len| ==> s.len[s.ps[p].minId] <= s.len[j]
  {
    InvHolds(c);
    Runs.InvariantAt(Program(c), s => Inv(c, s), run, i);
    assert ProducerOk(run[i], run[i].ps[p]);
  }
}
