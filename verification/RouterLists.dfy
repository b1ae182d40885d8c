/** The router's nodes, lists and tails: who owns which node, and what each step does to the lists. */
module RouterLists {
  import opened Router

  // ---- owners

  lemma OwnersTaking(n: nat, s: State, act: Action)
    requires Enabled(n, s, act) && Taking(act) && OwnersOk(s) && (act.AdvanceHead? ==> s.actors[act.a].pkt in s.heap)
    ensures OwnersOk(Take(n, s, act))
  {
  }

  lemma OwnersUsing(n: nat, s: State, act: Action)
    requires Enabled(n, s, act) && Using(act) && OwnersOk(s) && HandOk(n, s, act.a)
    ensures OwnersOk(Use(n, s, act))
  {
  }

  lemma OwnersPutting(n: nat, s: State, act: Action)
    requires Enabled(n, s, act) && Putting(act) && OwnersOk(s) && !Faults(n, s, act)
    ensures OwnersOk(Put(n, s, act))
  {
  }

  lemma StepOwners(n: nat, s: State, act: Action)
    requires Inv(n, s) && Enabled(n, s, act)
    ensures OwnersOk(Step(n, s, act))
  {
    NoFault(n, s, act);
    assert ActorOk(n, s, act.a);
    if Taking(act) {
      OwnersTaking(n, s, act);
    } else if Using(act) {
      OwnersUsing(n, s, act);
    } else {
      OwnersPutting(n, s, act);
    }
  }

  // ---- lists

  /** What belongs to queue q is left alone. */
  ghost predicate LeavesAlone(n: nat, s: State, t: State, q: nat)
    requires Shape(n, s) && Shape(n, t) && q <= n
  {
    && t.contents[q] == s.contents[q] && t.queues[q].head == s.queues[q].head
    && forall p :: p in s.owner && s.owner[p] == InQueue(q) && p in s.heap ==>
         p in t.owner && t.owner[p] == InQueue(q) && p in t.heap && t.heap[p] == s.heap[p]
  }

  lemma ListStays(n: nat, s: State, t: State, q: nat)
    requires Shape(n, s) && Shape(n, t) && q <= n && ListOk(n, s, q) && LeavesAlone(n, s, t, q)
    ensures ListOk(n, t, q)
  {
    var items := s.contents[q];
    forall k | 0 <= k < |items| ensures NodeAt(t.heap, items, k) { assert NodeAt(s.heap, items, k); }
    forall k | 0 <= k < |items| ensures items[k].ptr in t.owner && t.owner[items[k].ptr] == InQueue(q) {
      assert NodeAt(s.heap, items, k);
    }
  }

  /** Steps that change no list at all. */
  predicate KeepsLists(act: Action) {
    act.Wait? || act.TryFails? || act.LockOwn? || act.ReadHead? || act.ClearTail? || act.UnlockOwn? || act.Print?
    || act.MallocFails? || act.LockTarget? || act.SetTail? || act.UnlockTarget? || act.Post?
  }

  ghost predicate ListsAsBefore(s: State, t: State, q: nat)
    requires q < |s.queues| == |t.queues|
  {
    t.heap == s.heap && t.owner == s.owner && t.contents == s.contents && t.queues[q].head == s.queues[q].head
  }

  lemma KeepsTaking(n: nat, s: State, act: Action, q: nat)
    requires Enabled(n, s, act) && q <= n && KeepsLists(act) && Taking(act)
    ensures ListsAsBefore(s, Take(n, s, act), q)
  {
  }

  lemma KeepsUsing(n: nat, s: State, act: Action, q: nat)
    requires Enabled(n, s, act) && q <= n && KeepsLists(act) && Using(act)
    ensures ListsAsBefore(s, Use(n, s, act), q)
  {
  }

  lemma KeepsPutting(n: nat, s: State, act: Action, q: nat)
    requires Enabled(n, s, act) && q <= n && KeepsLists(act) && Putting(act)
    ensures ListsAsBefore(s, Put(n, s, act), q)
  {
  }

  lemma KeepsAll(n: nat, s: State, act: Action, q: nat)
    requires Enabled(n, s, act) && q <= n && KeepsLists(act)
    ensures ListsAsBefore(s, Step(n, s, act), q)
  {
    if Taking(act) {
      KeepsTaking(n, s, act, q);
    } else if Using(act) {
      KeepsUsing(n, s, act, q);
    } else {
      KeepsPutting(n, s, act, q);
    }
  }

  /** Packets in hand are in no queue. */
  lemma HandStep(n: nat, s: State, act: Action, q: nat)
    requires Enabled(n, s, act) && q <= n && HandOk(n, s, act.a) && OwnersOk(s)
    requires act.FreePacket? || act.Malloc? || act.Fill? || act.Prepare?
    ensures LeavesAlone(n, s, Step(n, s, act), q)
  {
  }

  lemma PopList(n: nat, s: State, a: nat, q: nat)
    requires Inv(n, s) && Enabled(n, s, AdvanceHead(a)) && q <= n
    ensures ListOk(n, Take(n, s, AdvanceHead(a)), q)
  {
    var t := Take(n, s, AdvanceHead(a));
    HeadThere(n, s, a);
    assert QueueOk(n, s, a) && QueueOk(n, s, q);
    assert s.owner[s.contents[a][0].ptr] == InQueue(a);
    if q != a {
      ListStays(n, s, t, q);
    } else {
      PopOwn(n, s, t, a);
    }
  }

  lemma PopOwn(n: nat, s: State, t: State, a: nat)
    requires Shape(n, s) && Shape(n, t) && a <= n && ListOk(n, s, a) && s.contents[a] != []
    requires t.heap == s.heap && t.contents[a] == s.contents[a][1..]
    requires t.owner == s.owner[s.contents[a][0].ptr := InHand(a)]
    requires t.queues[a].head == First(s.contents[a][1..])
    ensures ListOk(n, t, a)
  {
    var items := s.contents[a];
    forall k | 0 <= k < |items[1..]| ensures NodeAt(t.heap, items[1..], k) { assert NodeAt(s.heap, items, k + 1); }
  }

  lemma PushList(n: nat, s: State, a: nat, q: nat)
    requires Inv(n, s) && Enabled(n, s, Link(a)) && q <= n
    ensures ListOk(n, Put(n, s, Link(a)), q)
  {
    var t, me := Put(n, s, Link(a)), s.actors[a];
    var x := me.target;
    TailThere(n, s, a);
    assert ActorOk(n, s, a) && QueueOk(n, s, x) && QueueOk(n, s, q);
    if s.contents[x] != [] { assert s.owner[Last(s.contents[x])] == InQueue(x); }
    if q != x {
      ListStays(n, s, t, q);
    } else {
      PushOwn(n, s, t, x, me.pkt, me.held);
    }
  }

  lemma PushOwn(n: nat, s: State, t: State, q: nat, p: Ptr, pkt: Packet)
    requires Shape(n, s) && Shape(n, t) && q <= n && ListOk(n, s, q) && Addressed(n, q, pkt)
    requires p in s.heap && s.heap[p] == Node(NULL, pkt) && p in s.owner && s.owner[p] != InQueue(q)
    requires t.contents[q] == s.contents[q] + [Item(p, pkt)] && t.owner == s.owner[p := InQueue(q)]
    requires var items := s.contents[q];
      if items == [] then t.heap == s.heap && t.queues[q].head == p
      else Last(items) in s.heap && t.heap == s.heap[Last(items) := s.heap[Last(items)].(next := p)]
           && t.queues[q].head == s.queues[q].head
    ensures ListOk(n, t, q)
  {
    var items, all := s.contents[q], t.contents[q];
    forall k | 0 <= k < |all| ensures NodeAt(t.heap, all, k) {
      if k < |items| { assert NodeAt(s.heap, items, k); }
    }
  }

  lemma StepList(n: nat, s: State, act: Action, q: nat)
    requires Inv(n, s) && Enabled(n, s, act) && q <= n
    ensures ListOk(n, Step(n, s, act), q)
  {
    assert QueueOk(n, s, q) && ActorOk(n, s, act.a);
    if KeepsLists(act) {
      KeepsAll(n, s, act, q);
      ListStays(n, s, Step(n, s, act), q);
    } else if act.AdvanceHead? {
      PopList(n, s, act.a, q);
    } else if act.Link? {
      PushList(n, s, act.a, q);
    } else {
      HandStep(n, s, act, q);
      ListStays(n, s, Step(n, s, act), q);
    }
  }

  // ---- tails

  /** The tail of q and what it is measured against stay. */
  ghost predicate TailAsBefore(s: State, t: State, a: nat, q: nat)
    requires a < |s.actors| == |t.actors| && q < |s.queues| == |t.queues| && q < |s.contents| == |t.contents|
  {
    && t.actors == s.actors[a := t.actors[a]]
    && t.contents[q] == s.contents[q] && t.queues[q].tail == s.queues[q].tail && t.queues[q].lock == s.queues[q].lock
    && (s.queues[q].lock == HeldBy(a) ==>
          (s.actors[a].pc == ETail <==> t.actors[a].pc == ETail) && (s.actors[a].pc == DTail <==> t.actors[a].pc == DTail))
  }

  lemma TailStays(s: State, t: State, a: nat, q: nat)
    requires a < |s.actors| == |t.actors| && q < |s.queues| == |t.queues| && q < |s.contents| == |t.contents|
    requires TailOk(s, q) && TailAsBefore(s, t, a, q)
    ensures TailOk(t, q)
  {
  }

  /** Steps at a tail's boundary, and steps inside or around a critical section. */
  predicate TailSteps(act: Action) {
    act.LockOwn? || act.AdvanceHead? || act.ClearTail? || act.UnlockOwn? || act.LockTarget? || act.Link? || act.SetTail?
    || act.UnlockTarget?
  }

  lemma TailQuiet(n: nat, s: State, act: Action, q: nat)
    requires Enabled(n, s, act) && q <= n && !TailSteps(act)
    ensures TailAsBefore(s, Step(n, s, act), act.a, q)
  {
  }

  lemma TailOwn(n: nat, s: State, act: Action, q: nat)
    requires Inv(n, s) && Enabled(n, s, act) && q <= n
    requires act.LockOwn? || act.AdvanceHead? || act.ClearTail? || act.UnlockOwn?
    ensures TailOk(Step(n, s, act), q)
  {
    var t, a := Step(n, s, act), act.a;
    assert QueueOk(n, s, q) && QueueOk(n, s, a) && ActorOk(n, s, a);
    if q != a {
      assert !Inside(s, a, q);
      TailStays(s, t, a, q);
    } else if act.AdvanceHead? {
      HeadThere(n, s, a);
      assert Inside(s, a, a);
    } else if act.ClearTail? || act.UnlockOwn? {
      assert Inside(s, a, a);
    }
  }

  lemma TailElsewhere(n: nat, s: State, act: Action, q: nat)
    requires Inv(n, s) && Enabled(n, s, act) && q <= n && q != s.actors[act.a].target
    requires act.LockTarget? || act.SetTail? || act.UnlockTarget?
    ensures TailOk(Put(n, s, act), q)
  {
    assert QueueOk(n, s, q) && !Inside(s, act.a, q);
    TailStays(s, Put(n, s, act), act.a, q);
  }

  lemma TailTarget(n: nat, s: State, act: Action, q: nat)
    requires Inv(n, s) && Enabled(n, s, act) && q <= n
    requires act.LockTarget? || act.SetTail? || act.UnlockTarget?
    ensures TailOk(Put(n, s, act), q)
  {
    if q != s.actors[act.a].target {
      TailElsewhere(n, s, act, q);
    } else {
      assert QueueOk(n, s, q) && ActorOk(n, s, act.a);
      assert !act.LockTarget? ==> Inside(s, act.a, q);
    }
  }

  lemma TailLink(n: nat, s: State, a: nat, q: nat)
    requires Inv(n, s) && Enabled(n, s, Link(a)) && q <= n
    ensures TailOk(Put(n, s, Link(a)), q)
  {
    var t := Put(n, s, Link(a));
    TailThere(n, s, a);
    assert QueueOk(n, s, q) && ActorOk(n, s, a);
    if q != s.actors[a].target {
      assert !Inside(s, a, q);
      TailStays(s, t, a, q);
    } else {
      assert t.contents[q][..|t.contents[q]| - 1] == s.contents[q];
    }
  }

  lemma StepTail(n: nat, s: State, act: Action, q: nat)
    requires Inv(n, s) && Enabled(n, s, act) && q <= n
    ensures TailOk(Step(n, s, act), q)
  {
    if act.LockOwn? || act.AdvanceHead? || act.ClearTail? || act.UnlockOwn? {
      TailOwn(n, s, act, q);
    } else if act.Link? {
      TailLink(n, s, act.a, q);
    } else if act.LockTarget? || act.SetTail? || act.UnlockTarget? {
      TailTarget(n, s, act, q);
    } else {
      assert QueueOk(n, s, q);
      TailQuiet(n, s, act, q);
      TailStays(s, Step(n, s, act), act.a, q);
    }
  }
}
