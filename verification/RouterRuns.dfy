/** The router in every run: delivery, queues, memory safety and progress. */
module RouterRuns {
  import opened Counting
  import opened Options
  import opened Router
  import opened RouterActors
  import opened RouterLists
  import opened RouterLocks
  import opened RouterRoutes
  import Runs

  // ------------------------------------------------------------------ whole runs

  lemma InitialQueue(n: nat, q: nat)
    requires q <= n
    ensures QueueOk(n, Initial(n), q) && SemOk(n, Initial(n), q)
  {
    SumConstant(Initial(n).actors, PostWeight(q), 0);
  }

  lemma InitialInv(n: nat)
    ensures Inv(n, Initial(n))
  {
    var s := Initial(n);
    forall q | 0 <= q <= n ensures QueueOk(n, s, q) && SemOk(n, s, q) { InitialQueue(n, q); }
    forall r | 0 <= r < n ensures RouteOk(n, s, r) { assert Packets([]) == []; }
  }

  lemma StepInv(n: nat, s: State, act: Action)
    requires Inv(n, s) && Enabled(n, s, act)
    ensures Inv(n, Step(n, s, act))
  {
    var t := Step(n, s, act);
    StepOwners(n, s, act);
    StepOrder(n, s, act);
    forall a | 0 <= a <= n ensures ActorOk(n, t, a) { StepActor(n, s, act, a); }
    forall q | 0 <= q <= n ensures QueueOk(n, t, q) {
      StepLock(n, s, act, q);
      StepTail(n, s, act, q);
      StepList(n, s, act, q);
    }
    forall q | 0 <= q <= n ensures SemOk(n, t, q) { StepSem(n, s, act, q); }
    forall r | 0 <= r < n ensures RouteOk(n, t, r) { StepRoute(n, s, act, r); }
  }

  lemma InvHolds(n: nat)
    ensures Runs.Inductive(Program(n), s => Inv(n, s))
  {
    InitialInv(n);
    forall s: State, t: State | Inv(n, s) && Next(n, s, t) ensures Inv(n, t) {
      var act :| Enabled(n, s, act) && t == Step(n, s, act);
      StepInv(n, s, act);
    }
  }

  lemma Reachable(n: nat, run: seq<State>, i: nat)
    requires Runs.IsRun(Program(n), run) && i < |run|
    ensures Inv(n, run[i])
  {
    InvHolds(n);
    Runs.InvariantAt(Program(n), s => Inv(n, s), run, i);
  }

  /** In every run no actor ever follows a null or dangling pointer; in particular no dequeue finds a null head. */
  lemma RouterIsMemorySafe(n: nat, run: seq<State>, i: nat, act: Action)
    requires Runs.IsRun(Program(n), run) && i < |run| && Enabled(n, run[i], act)
    ensures !Faults(n, run[i], act)
    ensures act.AdvanceHead? ==> run[i].actors[act.a].pkt == run[i].queues[act.a].head != NULL
  {
    Reachable(n, run, i);
    NoFault(n, run[i], act);
    if act.AdvanceHead? {
      assert ActorOk(n, run[i], act.a);
      HeadThere(n, run[i], act.a);
    }
  }

  /** In every run and for every queue: an acyclic list, disjoint from all others, as long as its semaphore accounts for. */
  lemma RouterQueues(n: nat, run: seq<State>, i: nat, q: nat)
    requires Runs.IsRun(Program(n), run) && i < |run| && q <= n
    ensures Shape(n, run[i]) && QueueOk(n, run[i], q) && SemOk(n, run[i], q)
    ensures run[i].queues[q].lock == Free ==>
      (run[i].queues[q].head == NULL <==> run[i].queues[q].tail == NULL) && run[i].queues[q].tail == Last(run[i].contents[q])
    ensures forall p, k, l :: 0 <= p <= n && p != q && 0 <= k < |run[i].contents[p]| && 0 <= l < |run[i].contents[q]| ==>
      run[i].contents[p][k].ptr != run[i].contents[q][l].ptr
  {
    Reachable(n, run, i);
    var s := run[i];
    assert QueueOk(n, s, q) && SemOk(n, s, q);
    if s.contents[q] != [] {
      assert NodeAt(s.heap, s.contents[q], 0) && NodeAt(s.heap, s.contents[q], |s.contents[q]| - 1);
    }
    forall p, k, l | 0 <= p <= n && p != q && 0 <= k < |s.contents[p]| && 0 <= l < |s.contents[q]|
      ensures s.contents[p][k].ptr != s.contents[q][l].ptr
    {
      assert QueueOk(n, s, p);
    }
  }

  lemma {:induction false} ToKeepsOrder(r: nat, pkts: seq<Packet>)
    requires InOrder(pkts)
    ensures InOrder(To(r, pkts))
    ensures forall k :: 0 <= k < |To(r, pkts)| ==> To(r, pkts)[k] in pkts
  {
    if pkts != [] {
      var init, last := pkts[..|pkts| - 1], pkts[|pkts| - 1];
      ToKeepsOrder(r, init);
      var all := To(r, pkts);
      forall k | 0 <= k < |all| ensures all[k] in pkts {
        if k < |To(r, init)| { assert To(r, init)[k] in init; }
      }
      forall i, j | 0 <= i < j < |all| && all[i].sender == all[j].sender ensures all[i].num < all[j].num {
        assert all[i] == To(r, init)[i] && To(r, init)[i] in init;
      }
    }
  }

  /**
    Nothing is lost, duplicated or misrouted: for each thread what it received, has in hand,
    has queued, and what the master still carries for it make up, in order, all that was pushed for it.
    What it received from one sender comes in the order it was sent.
   */
  lemma RouterDelivers(n: nat, run: seq<State>, i: nat, r: nat)
    requires Runs.IsRun(Program(n), run) && i < |run| && r < n
    ensures Shape(n, run[i]) && RouteOk(n, run[i], r)
    ensures run[i].received[r] <= To(r, run[i].pushed)
    ensures InOrder(run[i].received[r])
  {
    Reachable(n, run, i);
    var s := run[i];
    assert RouteOk(n, s, r);
    ToKeepsOrder(r, s.pushed);
    var all := To(r, s.pushed);
    assert s.received[r] == all[..|s.received[r]|];
    forall x, y | 0 <= x < y < |s.received[r]| && s.received[r][x].sender == s.received[r][y].sender
      ensures s.received[r][x].num < s.received[r][y].num
    {
      assert s.received[r][x] == all[x] && s.received[r][y] == all[y];
    }
  }

  // ------------------------------------------------------------------- progress

  ghost predicate Moves(n: nat, s: State, a: nat) { exists act: Action :: act.a == a && Enabled(n, s, act) }

  /** The queue whose lock the actor is about to take. */
  function Wanted(me: Actor, a: nat): Option<nat> {
    if me.pc == DLock then Some(a) else if me.pc == ELock then Some(me.target) else None
  }

  /** The actor is the master, and its semaphore is zero. */
  predicate NothingPosted(n: nat, s: State, a: nat)
    requires Shape(n, s) && a <= n
  {
    a == n && s.actors[a].pc == Idle && s.queues[a].sem == 0
  }

  /** The actor is about to take a lock whose holder can go on. */
  ghost predicate WaitsForMover(n: nat, s: State, a: nat)
    requires Shape(n, s) && a <= n
  {
    var wanted := Wanted(s.actors[a], a);
    && wanted.Some? && wanted.value <= n
    && s.queues[wanted.value].lock.HeldBy? && Moves(n, s, s.queues[wanted.value].lock.actor)
  }

  /** Inside a critical section an actor can always go on. */
  lemma InsideMoves(n: nat, s: State, a: nat, q: nat)
    requires Inv(n, s) && a <= n && q <= n && Inside(s, a, q)
    ensures Moves(n, s, a)
  {
    match s.actors[a].pc
    case DRead => assert Enabled(n, s, ReadHead(a));
    case DHead => assert Enabled(n, s, AdvanceHead(a));
    case DTail => assert Enabled(n, s, ClearTail(a));
    case DUnlock => assert Enabled(n, s, UnlockOwn(a));
    case ELink => assert Enabled(n, s, Link(a));
    case ETail => assert Enabled(n, s, SetTail(a));
    case EUnlock => assert Enabled(n, s, UnlockTarget(a));
  }

  lemma OutsideMoves(n: nat, s: State, a: nat)
    requires n > 0 && Inv(n, s) && a <= n && Wanted(s.actors[a], a) == None
    ensures Moves(n, s, a) || NothingPosted(n, s, a)
  {
    assert ActorOk(n, s, a);
    var me := s.actors[a];
    if Dequeuing(me.pc) {
      InsideMoves(n, s, a, a);
    } else if Enqueuing(me.pc) {
      InsideMoves(n, s, a, me.target);
    } else if me.pc == Idle {
      assert s.queues[a].sem > 0 ==> Enabled(n, s, Wait(a));
      assert s.queues[a].sem == 0 && a < n ==> Enabled(n, s, TryFails(a));
    } else {
      assert me.pc == Deliver ==> Enabled(n, s, Print(a));
      assert me.pc == Dispose ==> Enabled(n, s, FreePacket(a));
      assert me.pc == Alloc ==> Enabled(n, s, MallocFails(a));
      assert me.pc == FillIn ==> Enabled(n, s, Fill(a, 0));
      assert me.pc == Prep ==> Enabled(n, s, Prepare(a));
      assert me.pc == EPost ==> Enabled(n, s, Post(a));
    }
  }

  /**
    In every run each actor can go on, or waits for a lock whose holder can go on, or is the
    master with nothing posted for it.
   */
  lemma NobodyIsStuck(n: nat, run: seq<State>, i: nat, a: nat)
    requires n > 0 && Runs.IsRun(Program(n), run) && i < |run| && a <= n
    ensures Shape(n, run[i])
    ensures Moves(n, run[i], a) || NothingPosted(n, run[i], a) || WaitsForMover(n, run[i], a)
  {
    Reachable(n, run, i);
    var s := run[i];
    assert ActorOk(n, s, a);
    var wanted := Wanted(s.actors[a], a);
    if wanted == None {
      OutsideMoves(n, s, a);
    } else {
      assert QueueOk(n, s, wanted.value);
      if s.queues[wanted.value].lock == Free {
        assert Enabled(n, s, if s.actors[a].pc == DLock then LockOwn(a) else LockTarget(a));
      } else {
        InsideMoves(n, s, s.queues[wanted.value].lock.actor, wanted.value);
      }
    }
  }
}
