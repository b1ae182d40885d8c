/**
  A message router. n threads push packets on a master queue; the master moves each
  packet to the queue of its recipient, which pops it. Every queue is a linked list
  with head and tail pointers, a lock, and a semaphore posted after unlocking. Each
  read or write of shared memory is one step of its own.
 */
module Router {
  import opened Counting
  import Runs

  type Ptr = nat

  const NULL: Ptr := 0

  datatype Packet = Packet(sender: nat, recipient: nat, num: nat)

  datatype Node = Node(next: Ptr, pkt: Packet)

  datatype Lock = Free | HeldBy(actor: nat)

  datatype Queue = Queue(sem: nat, lock: Lock, head: Ptr, tail: Ptr)

  /**
    Where an actor is. The D points take a packet from its own queue, the E points
    append the packet in hand to the target queue.
   */
  datatype Pc =
    | Idle
    | DLock | DRead | DHead | DTail | DUnlock
    | Deliver | Dispose
    | Alloc | FillIn
    | Prep
    | ELock | ELink | ETail | EUnlock | EPost

  /** A thread, or the master; held is history: the packet that pkt pointed to when it came into its hands. */
  datatype Actor = Actor(pc: Pc, pkt: Ptr, target: nat, num: nat, held: Packet)

  /** A packet in a queue, and the node it is in. */
  datatype Item = Item(ptr: Ptr, pkt: Packet)

  datatype Owner = InQueue(q: nat) | InHand(a: nat)

  /**
    Actors and queues 0..n-1 belong to the threads, n to the master. The last four
    fields are history: list contents, who owns each node, packets received and pushed.
   */
  datatype State = State(
    actors: seq<Actor>, queues: seq<Queue>, heap: map<Ptr, Node>,
    contents: seq<seq<Item>>, owner: map<Ptr, Owner>, received: seq<seq<Packet>>, pushed: seq<Packet>)

  datatype Action =
    | Wait(a: nat) | TryFails(a: nat)
    | LockOwn(a: nat) | ReadHead(a: nat) | AdvanceHead(a: nat) | ClearTail(a: nat) | UnlockOwn(a: nat)
    | Print(a: nat) | FreePacket(a: nat)
    | Malloc(a: nat, p: Ptr) | MallocFails(a: nat) | Fill(a: nat, r: nat)
    | Prepare(a: nat)
    | LockTarget(a: nat) | Link(a: nat) | SetTail(a: nat) | UnlockTarget(a: nat) | Post(a: nat)

  const NO_PACKET := Packet(0, 0, 0)

  function Initial(n: nat): State {
    State(seq(n + 1, i => Actor(Idle, NULL, 0, 0, NO_PACKET)), seq(n + 1, i => Queue(0, Free, NULL, NULL)), map[],
          seq(n + 1, i => []), map[], seq(n, i => []), [])
  }

  predicate Shape(n: nat, s: State) {
    |s.actors| == |s.queues| == |s.contents| == n + 1 && |s.received| == n
  }

  /** The node at p; anything may come from a pointer that is not allocated (see NoFault). */
  function Load(s: State, p: Ptr): Node {
    if p in s.heap then s.heap[p] else Node(NULL, NO_PACKET)
  }

  predicate Enabled(n: nat, s: State, act: Action) {
    && Shape(n, s) && act.a <= n
    && var me, own := s.actors[act.a], s.queues[act.a];
       match act
       case Wait(a) => me.pc == Idle && own.sem > 0
       case TryFails(a) => me.pc == Idle && a < n && own.sem == 0
       case LockOwn(_) => me.pc == DLock && own.lock == Free
       case ReadHead(_) => me.pc == DRead
       case AdvanceHead(_) => me.pc == DHead
       case ClearTail(_) => me.pc == DTail
       case UnlockOwn(_) => me.pc == DUnlock
       case Print(a) => me.pc == Deliver && a < n
       case FreePacket(_) => me.pc == Dispose
       case Malloc(_, p) => me.pc == Alloc && p != NULL && p !in s.heap
       case MallocFails(_) => me.pc == Alloc
       case Fill(_, r) => me.pc == FillIn && r < n
       case Prepare(_) => me.pc == Prep
       case LockTarget(_) => me.pc == ELock && me.target <= n && s.queues[me.target].lock == Free
       case Link(_) => me.pc == ELink && me.target <= n
       case SetTail(_) => me.pc == ETail && me.target <= n
       case UnlockTarget(_) => me.pc == EUnlock && me.target <= n
       case Post(_) => me.pc == EPost && me.target <= n
  }

  function SetActor(s: State, a: nat, me: Actor): State
    requires a < |s.actors|
  {
    s.(actors := s.actors[a := me])
  }

  function SetQueue(s: State, q: nat, queue: Queue): State
    requires q < |s.queues|
  {
    s.(queues := s.queues[q := queue])
  }

  function Tail(items: seq<Item>): seq<Item> { if items == [] then [] else items[1..] }

  /** Taking a packet from the actor's own queue. */
  predicate Taking(act: Action) {
    act.Wait? || act.TryFails? || act.LockOwn? || act.ReadHead? || act.AdvanceHead? || act.ClearTail? || act.UnlockOwn?
  }

  function Take(n: nat, s: State, act: Action): (t: State)
    requires Enabled(n, s, act) && Taking(act)
    ensures Shape(n, t) && t.actors == s.actors[act.a := t.actors[act.a]]
  {
    var a := act.a;
    var me, own := s.actors[a], s.queues[a];
    match act
    case Wait(_) => SetQueue(SetActor(s, a, me.(pc := DLock)), a, own.(sem := own.sem - 1))
    case TryFails(_) => SetActor(s, a, me.(pc := Alloc))
    case LockOwn(_) => SetQueue(SetActor(s, a, me.(pc := DRead)), a, own.(lock := HeldBy(a)))
    case ReadHead(_) => SetActor(s, a, me.(pc := DHead, pkt := own.head))
    case AdvanceHead(_) =>
      var next := Load(s, me.pkt).next;
      var s' := SetActor(s, a, me.(pc := if next == NULL then DTail else DUnlock, held := Load(s, me.pkt).pkt));
      SetQueue(s', a, own.(head := next))
        .(contents := s.contents[a := Tail(s.contents[a])], owner := s.owner[me.pkt := InHand(a)])
    case ClearTail(_) => SetQueue(SetActor(s, a, me.(pc := DUnlock)), a, own.(tail := NULL))
    case UnlockOwn(_) =>
      SetQueue(SetActor(s, a, me.(pc := if a < n then Deliver else Prep)), a, own.(lock := Free))
  }

  /** Printing and freeing a packet, making one, or preparing it to be passed on. */
  predicate Using(act: Action) {
    act.Print? || act.FreePacket? || act.Malloc? || act.MallocFails? || act.Fill? || act.Prepare?
  }

  function Use(n: nat, s: State, act: Action): (t: State)
    requires Enabled(n, s, act) && Using(act)
    ensures Shape(n, t) && t.actors == s.actors[act.a := t.actors[act.a]]
  {
    var a := act.a;
    var me := s.actors[a];
    match act
    case Print(_) =>
      SetActor(s, a, me.(pc := Dispose)).(received := s.received[a := s.received[a] + [Load(s, me.pkt).pkt]])
    case FreePacket(_) => SetActor(s, a, me.(pc := Idle)).(heap := s.heap - {me.pkt}, owner := s.owner - {me.pkt})
    case Malloc(_, p) =>
      SetActor(s, a, me.(pc := FillIn, pkt := p)).(heap := s.heap[p := Node(NULL, NO_PACKET)], owner := s.owner[p := InHand(a)])
    case MallocFails(_) => SetActor(s, a, me.(pc := Idle))
    case Fill(_, r) =>
      var pkt := Packet(a, r, me.num + 1);
      SetActor(s, a, me.(pc := ELock, target := n, num := me.num + 1, held := pkt)).(heap := s.heap[me.pkt := Node(NULL, pkt)])
    case Prepare(_) =>
      var node := Load(s, me.pkt);
      SetActor(s, a, me.(pc := ELock, target := node.pkt.recipient)).(heap := s.heap[me.pkt := node.(next := NULL)])
  }

  /** Appending the packet in hand to the target queue. */
  predicate Putting(act: Action) { act.LockTarget? || act.Link? || act.SetTail? || act.UnlockTarget? || act.Post? }

  function Put(n: nat, s: State, act: Action): (t: State)
    requires Enabled(n, s, act) && Putting(act)
    ensures Shape(n, t) && t.actors == s.actors[act.a := t.actors[act.a]]
  {
    var a := act.a;
    var me := s.actors[a];
    match act
    case LockTarget(_) =>
      SetQueue(SetActor(s, a, me.(pc := ELink)), me.target, s.queues[me.target].(lock := HeldBy(a)))
    case Link(_) =>
      var q, queue := me.target, s.queues[me.target];
      var pkt := Load(s, me.pkt).pkt;
      var s' := SetActor(s, a, me.(pc := ETail))
                .(contents := s.contents[q := s.contents[q] + [Item(me.pkt, pkt)]], owner := s.owner[me.pkt := InQueue(q)],
                  pushed := if q == n then s.pushed + [pkt] else s.pushed);
      if queue.tail != NULL then s'.(heap := s.heap[queue.tail := Load(s, queue.tail).(next := me.pkt)])
      else SetQueue(s', q, queue.(head := me.pkt))
    case SetTail(_) => SetQueue(SetActor(s, a, me.(pc := EUnlock)), me.target, s.queues[me.target].(tail := me.pkt))
    case UnlockTarget(_) => SetQueue(SetActor(s, a, me.(pc := EPost)), me.target, s.queues[me.target].(lock := Free))
    case Post(_) =>
      SetQueue(SetActor(s, a, me.(pc := Idle)), me.target, s.queues[me.target].(sem := s.queues[me.target].sem + 1))
  }

  function Step(n: nat, s: State, act: Action): (t: State)
    requires Enabled(n, s, act)
    ensures Shape(n, t) && t.actors == s.actors[act.a := t.actors[act.a]]
  {
    if Taking(act) then Take(n, s, act) else if Using(act) then Use(n, s, act) else Put(n, s, act)
  }

  /** The step follows a pointer to memory that is not allocated. */
  predicate Faults(n: nat, s: State, act: Action)
    requires Enabled(n, s, act)
  {
    var me := s.actors[act.a];
    match act
    case AdvanceHead(_) => me.pkt !in s.heap
    case Print(_) => me.pkt !in s.heap
    case FreePacket(_) => me.pkt !in s.heap
    case Fill(_, _) => me.pkt !in s.heap
    case Prepare(_) => me.pkt !in s.heap || s.heap[me.pkt].pkt.recipient >= n
    case Link(_) => me.pkt !in s.heap || (s.queues[me.target].tail != NULL && s.queues[me.target].tail !in s.heap)
    case _ => false
  }

  ghost predicate Next(n: nat, s: State, t: State) {
    exists act :: Enabled(n, s, act) && t == Step(n, s, act)
  }

  ghost function Program(n: nat): Runs.System<State> {
    Runs.System(s => s == Initial(n), (s, t) => Next(n, s, t))
  }

  // ------------------------------------------------------------ what is promised

  function Packets(items: seq<Item>): seq<Packet> {
    seq(|items|, i requires 0 <= i < |items| => items[i].pkt)
  }

  /** The packets addressed to r, in order. */
  function To(r: nat, pkts: seq<Packet>): seq<Packet> {
    if pkts == [] then []
    else To(r, pkts[..|pkts| - 1]) + (if pkts[|pkts| - 1].recipient == r then [pkts[|pkts| - 1]] else [])
  }

  /** Packets of one sender come in the order of their numbers. */
  predicate InOrder(pkts: seq<Packet>) {
    forall i, j :: 0 <= i < j < |pkts| && pkts[i].sender == pkts[j].sender ==> pkts[i].num < pkts[j].num
  }

  // ------------------------------------------------------------------- invariant

  predicate Dequeuing(pc: Pc) { pc == DRead || pc == DHead || pc == DTail || pc == DUnlock }

  predicate Enqueuing(pc: Pc) { pc == ELink || pc == ETail || pc == EUnlock }

  /** The node at pkt belongs to the actor. */
  predicate Holding(pc: Pc) {
    pc in {DTail, DUnlock, Deliver, Dispose, FillIn, Prep, ELock, ELink}
  }

  /** The actor is in the critical section of queue q. */
  predicate Inside(s: State, a: nat, q: nat)
    requires a < |s.actors|
  {
    var me := s.actors[a];
    (Dequeuing(me.pc) && a == q) || (Enqueuing(me.pc) && me.target == q)
  }

  predicate LockOk(s: State, q: nat)
    requires q < |s.queues|
  {
    && (s.queues[q].lock.HeldBy? ==> s.queues[q].lock.actor < |s.actors|)
    && forall a :: 0 <= a < |s.actors| ==> (s.queues[q].lock == HeldBy(a) <==> Inside(s, a, q))
  }

  predicate HandOk(n: nat, s: State, a: nat)
    requires a < |s.actors|
  {
    var me := s.actors[a];
    Holding(me.pc) ==>
      && me.pkt in s.owner && s.owner[me.pkt] == InHand(a) && me.pkt in s.heap
      && (me.pc != FillIn ==> s.heap[me.pkt].pkt == me.held && me.held.recipient < n)
      && (me.pc == ELock || me.pc == ELink ==> s.heap[me.pkt].next == NULL)
  }

  predicate ActorOk(n: nat, s: State, a: nat)
    requires Shape(n, s) && a <= n
  {
    var me := s.actors[a];
    && HandOk(n, s, a)
    && (if a < n then me.pc != Prep else me.pc !in {Deliver, Dispose, Alloc, FillIn})
    && (me.pc in {ELock, ELink, ETail, EUnlock, EPost} ==> if a < n then me.target == n else me.target < n)
    && (me.pc in {ELock, ELink} ==> if a < n then me.held.sender == a && me.held.num == me.num else me.held.recipient == me.target)
    && (me.pc in {DTail, DUnlock, Deliver} && a < n ==> me.held.recipient == a)
    && (me.pc == DHead ==> me.pkt == s.queues[a].head)
    && (me.pc == DTail ==> s.contents[a] == [])
    && (me.pc == ETail ==> s.contents[me.target] != [] && me.pkt == s.contents[me.target][|s.contents[me.target]| - 1].ptr)
  }

  predicate OwnersOk(s: State) {
    s.owner.Keys == s.heap.Keys && NULL !in s.heap
  }

  function First(items: seq<Item>): Ptr { if items == [] then NULL else items[0].ptr }

  function Last(items: seq<Item>): Ptr { if items == [] then NULL else items[|items| - 1].ptr }

  /** Node k holds the packet of item k and points to node k + 1, the last one to NULL. */
  predicate NodeAt(heap: map<Ptr, Node>, items: seq<Item>, k: nat)
    requires k < |items|
  {
    items[k].ptr in heap && heap[items[k].ptr] == Node(if k + 1 < |items| then items[k + 1].ptr else NULL, items[k].pkt)
  }

  predicate List(heap: map<Ptr, Node>, items: seq<Item>) {
    forall k :: 0 <= k < |items| ==> NodeAt(heap, items, k)
  }

  predicate Distinct(items: seq<Item>) {
    forall i, j :: 0 <= i < j < |items| ==> items[i].ptr != items[j].ptr
  }

  predicate AllOwned(s: State, q: nat, items: seq<Item>) {
    forall k :: 0 <= k < |items| ==> items[k].ptr in s.owner && s.owner[items[k].ptr] == InQueue(q)
  }

  /** While the tail is being changed, the lock's holder knows what it is. */
  predicate TailOk(s: State, q: nat)
    requires q < |s.queues| && q < |s.contents|
  {
    var items, queue := s.contents[q], s.queues[q];
    if queue.lock.HeldBy? && queue.lock.actor < |s.actors| && s.actors[queue.lock.actor].pc == ETail
    then items != [] && queue.tail == Last(items[..|items| - 1])
    else if queue.lock.HeldBy? && queue.lock.actor < |s.actors| && s.actors[queue.lock.actor].pc == DTail
    then items == []
    else queue.tail == Last(items)
  }

  predicate Addressed(n: nat, q: nat, pkt: Packet) {
    if q < n then pkt.recipient == q else pkt.recipient < n
  }

  /** The nodes from the head on are the contents of the queue, all its own. */
  predicate ListOk(n: nat, s: State, q: nat)
    requires Shape(n, s) && q <= n
  {
    var items := s.contents[q];
    && s.queues[q].head == First(items)
    && List(s.heap, items) && Distinct(items) && AllOwned(s, q, items)
    && forall k :: 0 <= k < |items| ==> Addressed(n, q, items[k].pkt)
  }

  predicate QueueOk(n: nat, s: State, q: nat)
    requires Shape(n, s) && q <= n
  {
    LockOk(s, q) && TailOk(s, q) && ListOk(n, s, q)
  }

  /** Posts to q that are still to come from packets already in q. */
  function PostWeight(q: nat): Actor -> nat {
    (me: Actor) => if (me.pc == ETail || me.pc == EUnlock || me.pc == EPost) && me.target == q then 1 else 0
  }

  function Pops(me: Actor): nat {
    if me.pc == DLock || me.pc == DRead || me.pc == DHead then 1 else 0
  }

  /** Length = semaphore + pushes not yet posted + waits not yet popped. */
  predicate SemOk(n: nat, s: State, q: nat)
    requires Shape(n, s) && q <= n
  {
    |s.contents[q]| == s.queues[q].sem + Sum(s.actors, PostWeight(q)) + Pops(s.actors[q])
  }

  /** The packet for r that thread r or the master has in hand, on its way from queue to queue or to r. */
  function InTransit(me: Actor, r: nat): seq<Packet> {
    if me.pc in {DTail, DUnlock, Deliver, Prep, ELock, ELink} && me.held.recipient == r then [me.held] else []
  }

  /** A thread's own packet is in transit only after popping it, not when it is about to push it. */
  function ThreadHand(me: Actor): seq<Packet> {
    if me.pc in {DTail, DUnlock, Deliver} then [me.held] else []
  }

  /** The five places a packet for r can be in, one after the other. */
  function Route(received: seq<Packet>, hand: seq<Packet>, queue: seq<Packet>, transit: seq<Packet>, master: seq<Packet>): seq<Packet> {
    received + hand + queue + transit + master
  }

  /** Received, in hand, queued for r, in the master's hand, in the master queue: all that was pushed for r, in order. */
  predicate RouteOk(n: nat, s: State, r: nat)
    requires Shape(n, s) && r < n
  {
    Route(s.received[r], ThreadHand(s.actors[r]), Packets(s.contents[r]), InTransit(s.actors[n], r), To(r, Packets(s.contents[n])))
    == To(r, s.pushed)
  }

  predicate OrderOk(n: nat, s: State)
    requires Shape(n, s)
  {
    && InOrder(s.pushed)
    && forall i :: 0 <= i < |s.pushed| ==>
         var a := s.pushed[i].sender;
         a < n && s.pushed[i].num + (if s.actors[a].pc in {ELock, ELink} then 1 else 0) <= s.actors[a].num
  }

  predicate Inv(n: nat, s: State) {
    && Shape(n, s) && OwnersOk(s) && OrderOk(n, s)
    && (forall a :: 0 <= a <= n ==> ActorOk(n, s, a))
    && (forall q :: 0 <= q <= n ==> QueueOk(n, s, q))
    && (forall q :: 0 <= q <= n ==> SemOk(n, s, q))
    && (forall r :: 0 <= r < n ==> RouteOk(n, s, r))
  }

  // ------------------------------------------------- what the invariant says of a step

  lemma ListHead(heap: map<Ptr, Node>, items: seq<Item>)
    requires List(heap, items) && items != []
    ensures items[0].ptr in heap && heap[items[0].ptr].pkt == items[0].pkt
    ensures heap[items[0].ptr].next == First(items[1..])
  {
    assert NodeAt(heap, items, 0);
  }

  /** A queue about to be popped is not empty, and its head is what was read. */
  lemma HeadThere(n: nat, s: State, a: nat)
    requires Inv(n, s) && a <= n && s.actors[a].pc == DHead
    ensures s.contents[a] != [] && s.actors[a].pkt == s.contents[a][0].ptr && s.actors[a].pkt in s.heap
    ensures s.heap[s.actors[a].pkt].pkt == s.contents[a][0].pkt
    ensures s.heap[s.actors[a].pkt].next == First(s.contents[a][1..])
    ensures s.heap[s.actors[a].pkt].next == NULL <==> |s.contents[a]| == 1
  {
    assert ActorOk(n, s, a) && QueueOk(n, s, a) && SemOk(n, s, a);
    var items := s.contents[a];
    assert |items| > 0;
    ListHead(s.heap, items);
    if |items| == 1 {
      assert items[1..] == [];
    } else {
      assert NodeAt(s.heap, items, 1) && items[1..][0] == items[1];
    }
  }

  /** At the link the tail is NULL for an empty list and its last node otherwise. */
  lemma TailThere(n: nat, s: State, a: nat)
    requires Inv(n, s) && a <= n && s.actors[a].pc == ELink && s.actors[a].target <= n
    ensures var q := s.actors[a].target;
      && s.queues[q].lock == HeldBy(a)
      && s.queues[q].tail == Last(s.contents[q])
      && (s.contents[q] == [] <==> s.queues[q].tail == NULL)
      && (s.contents[q] != [] ==> s.queues[q].tail in s.heap)
  {
    var q := s.actors[a].target;
    assert ActorOk(n, s, a) && QueueOk(n, s, q);
    assert Inside(s, a, q);
    assert s.queues[q].lock == HeldBy(a);
  }

  /** No step of a reachable state follows a null or dangling pointer, or indexes outside the queues. */
  lemma NoFault(n: nat, s: State, act: Action)
    requires Inv(n, s) && Enabled(n, s, act)
    ensures !Faults(n, s, act)
  {
    assert ActorOk(n, s, act.a);
    if act.AdvanceHead? { HeadThere(n, s, act.a); }
    if act.Link? { TailThere(n, s, act.a); }
  }

  /** Two actors are never inside the same queue. */
  lemma MutualExclusion(s: State, a: nat, b: nat, q: nat)
    requires q < |s.queues| && LockOk(s, q) && a < |s.actors| && b < |s.actors| && Inside(s, a, q) && Inside(s, b, q)
    ensures a == b
  {
    assert s.queues[q].lock == HeldBy(a) && s.queues[q].lock == HeldBy(b);
  }
}
