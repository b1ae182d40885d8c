/** The locks and the semaphores of the router: what each step does to them. */
module RouterLocks {
  import opened Counting
  import opened Router

  // ---- locks

  predicate Locks(act: Action) { act.LockOwn? || act.UnlockOwn? || act.LockTarget? || act.UnlockTarget? }

  /** Taking or releasing one lock: from free to the actor's, or back. */
  lemma LockMoves(n: nat, s: State, t: State, a: nat, x: nat, q: nat)
    requires Shape(n, s) && Shape(n, t) && a <= n && x <= n && q <= n
    requires LockOk(s, q) && LockOk(s, x)
    requires t.actors == s.actors[a := t.actors[a]]
    requires forall y :: 0 <= y <= n && y != x ==> t.queues[y].lock == s.queues[y].lock && Inside(t, a, y) == Inside(s, a, y)
    requires (s.queues[x].lock == Free && t.queues[x].lock == HeldBy(a) && Inside(t, a, x))
          || (Inside(s, a, x) && t.queues[x].lock == Free && !Inside(t, a, x))
    ensures LockOk(t, q)
  {
    forall b | 0 <= b < |t.actors| ensures t.queues[q].lock == HeldBy(b) <==> Inside(t, b, q) {
      assert s.queues[q].lock == HeldBy(b) <==> Inside(s, b, q);
      assert b != a ==> Inside(t, b, q) == Inside(s, b, q);
      if q == x { assert s.queues[x].lock == HeldBy(a) <==> Inside(s, a, x); }
    }
  }

  lemma StepLockOwn(n: nat, s: State, act: Action, q: nat)
    requires Enabled(n, s, act) && q <= n && LockOk(s, q) && LockOk(s, act.a) && (act.LockOwn? || act.UnlockOwn?)
    ensures LockOk(Step(n, s, act), q)
  {
    LockMoves(n, s, Step(n, s, act), act.a, act.a, q);
  }

  lemma StepLockTarget(n: nat, s: State, act: Action, q: nat)
    requires Enabled(n, s, act) && q <= n && LockOk(s, q) && s.actors[act.a].target <= n
    requires LockOk(s, s.actors[act.a].target) && (act.LockTarget? || act.UnlockTarget?)
    ensures LockOk(Step(n, s, act), q)
  {
    var x := s.actors[act.a].target;
    LockMoves(n, s, Step(n, s, act), act.a, x, q);
  }

  ghost predicate LocksAsBefore(s: State, t: State, a: nat, q: nat)
    requires a < |s.actors| == |t.actors| && q < |s.queues| == |t.queues|
  {
    t.queues[q].lock == s.queues[q].lock && t.actors == s.actors[a := t.actors[a]] && Inside(t, a, q) == Inside(s, a, q)
  }

  lemma UseKeepsQueues(n: nat, s: State, act: Action)
    requires Enabled(n, s, act) && Using(act)
    ensures Use(n, s, act).queues == s.queues && Use(n, s, act).contents == s.contents
  {
  }

  /** A link adds one packet to its target, and one post to come; the semaphores and locks stay. */
  lemma LinkAdds(n: nat, s: State, a: nat, q: nat)
    requires Enabled(n, s, Link(a)) && q <= n
    ensures var t, me := Put(n, s, Link(a)), s.actors[a];
      && Shape(n, t) && t.actors == s.actors[a := me.(pc := ETail)]
      && t.queues[q].sem == s.queues[q].sem && t.queues[q].lock == s.queues[q].lock
      && |t.contents[q]| == |s.contents[q]| + if q == me.target then 1 else 0
  {
  }

  lemma QuietLocksTaking(n: nat, s: State, act: Action, q: nat)
    requires Enabled(n, s, act) && q <= n && !Locks(act) && Taking(act)
    ensures LocksAsBefore(s, Take(n, s, act), act.a, q)
  {
  }

  lemma QuietLocksUsing(n: nat, s: State, act: Action, q: nat)
    requires Enabled(n, s, act) && q <= n && !Locks(act) && Using(act)
    ensures LocksAsBefore(s, Use(n, s, act), act.a, q)
  {
    UseKeepsQueues(n, s, act);
  }

  lemma QuietLocksLink(n: nat, s: State, a: nat, q: nat)
    requires Enabled(n, s, Link(a)) && q <= n
    ensures LocksAsBefore(s, Put(n, s, Link(a)), a, q)
  {
    LinkAdds(n, s, a, q);
  }

  lemma QuietLocksTail(n: nat, s: State, a: nat, q: nat)
    requires Enabled(n, s, SetTail(a)) && q <= n
    ensures LocksAsBefore(s, Put(n, s, SetTail(a)), a, q)
  {
  }

  lemma QuietLocksPost(n: nat, s: State, a: nat, q: nat)
    requires Enabled(n, s, Post(a)) && q <= n
    ensures LocksAsBefore(s, Put(n, s, Post(a)), a, q)
  {
  }

  lemma QuietLocksPutting(n: nat, s: State, act: Action, q: nat)
    requires Enabled(n, s, act) && q <= n && !Locks(act) && Putting(act)
    ensures LocksAsBefore(s, Put(n, s, act), act.a, q)
  {
    if act.Link? {
      QuietLocksLink(n, s, act.a, q);
    } else if act.SetTail? {
      QuietLocksTail(n, s, act.a, q);
    } else {
      QuietLocksPost(n, s, act.a, q);
    }
  }

  lemma LockStays(n: nat, s: State, t: State, a: nat, q: nat)
    requires Shape(n, s) && Shape(n, t) && a <= n && q <= n && LockOk(s, q)
    requires LocksAsBefore(s, t, a, q)
    ensures LockOk(t, q)
  {
    forall b | 0 <= b < |t.actors| ensures t.queues[q].lock == HeldBy(b) <==> Inside(t, b, q) {
      assert s.queues[q].lock == HeldBy(b) <==> Inside(s, b, q);
      assert b != a ==> Inside(t, b, q) == Inside(s, b, q);
    }
  }

  lemma StepLock(n: nat, s: State, act: Action, q: nat)
    requires Inv(n, s) && Enabled(n, s, act) && q <= n
    ensures LockOk(Step(n, s, act), q)
  {
    assert QueueOk(n, s, q) && QueueOk(n, s, act.a);
    if act.LockOwn? || act.UnlockOwn? {
      StepLockOwn(n, s, act, q);
    } else if act.LockTarget? || act.UnlockTarget? {
      assert QueueOk(n, s, s.actors[act.a].target);
      StepLockTarget(n, s, act, q);
    } else {
      if Taking(act) {
        QuietLocksTaking(n, s, act, q);
      } else if Using(act) {
        QuietLocksUsing(n, s, act, q);
      } else {
        QuietLocksPutting(n, s, act, q);
      }
      LockStays(n, s, Step(n, s, act), act.a, q);
    }
  }

  // ---- semaphores

  predicate Counts(act: Action) { act.Wait? || act.AdvanceHead? || act.Link? || act.Post? }

  ghost predicate CountsAsBefore(s: State, t: State, a: nat, q: nat)
    requires a < |s.actors| == |t.actors| && q < |s.queues| == |t.queues|
  {
    && t.actors == s.actors[a := t.actors[a]] && Pops(t.actors[a]) == Pops(s.actors[a])
    && PostWeight(q)(t.actors[a]) == PostWeight(q)(s.actors[a])
    && t.contents == s.contents && t.queues[q].sem == s.queues[q].sem
  }

  lemma QuietCountsTaking(n: nat, s: State, act: Action, q: nat)
    requires Enabled(n, s, act) && q <= n && !Counts(act) && Taking(act)
    ensures CountsAsBefore(s, Take(n, s, act), act.a, q)
  {
  }

  lemma QuietCountsUsing(n: nat, s: State, act: Action, q: nat)
    requires Enabled(n, s, act) && q <= n && !Counts(act) && Using(act)
    ensures CountsAsBefore(s, Use(n, s, act), act.a, q)
  {
    UseKeepsQueues(n, s, act);
  }

  lemma QuietCountsPutting(n: nat, s: State, act: Action, q: nat)
    requires Enabled(n, s, act) && q <= n && !Counts(act) && Putting(act)
    ensures CountsAsBefore(s, Put(n, s, act), act.a, q)
  {
  }

  lemma QuietCounts(n: nat, s: State, act: Action, q: nat)
    requires Enabled(n, s, act) && q <= n && !Counts(act)
    ensures CountsAsBefore(s, Step(n, s, act), act.a, q)
  {
    if Taking(act) {
      QuietCountsTaking(n, s, act, q);
    } else if Using(act) {
      QuietCountsUsing(n, s, act, q);
    } else {
      QuietCountsPutting(n, s, act, q);
    }
  }

  lemma SemMoves(n: nat, s: State, t: State, a: nat, q: nat)
    requires Shape(n, s) && Shape(n, t) && a <= n && q <= n && SemOk(n, s, q) && t.actors == s.actors[a := t.actors[a]]
    requires |t.contents[q]| + s.queues[q].sem + PostWeight(q)(s.actors[a]) + (if a == q then Pops(s.actors[a]) else 0)
          == |s.contents[q]| + t.queues[q].sem + PostWeight(q)(t.actors[a]) + (if a == q then Pops(t.actors[a]) else 0)
    ensures SemOk(n, t, q)
  {
    SumUpdate(s.actors, a, t.actors[a], PostWeight(q));
  }

  lemma PopCounts(n: nat, s: State, act: Action, q: nat)
    requires Enabled(n, s, act) && q <= n && SemOk(n, s, q)
    requires act.Wait? || (act.AdvanceHead? && s.contents[act.a] != [])
    ensures SemOk(n, Step(n, s, act), q)
  {
    SemMoves(n, s, Step(n, s, act), act.a, q);
  }

  lemma LinkCounts(n: nat, s: State, a: nat, q: nat)
    requires Enabled(n, s, Link(a)) && q <= n && SemOk(n, s, q)
    ensures SemOk(n, Put(n, s, Link(a)), q)
  {
    var t, me := Put(n, s, Link(a)), s.actors[a];
    LinkAdds(n, s, a, q);
    assert me.pc == ELink && t.actors[a] == me.(pc := ETail);
    SemMoves(n, s, t, a, q);
  }

  lemma PostCounts(n: nat, s: State, a: nat, q: nat)
    requires Enabled(n, s, Post(a)) && q <= n && SemOk(n, s, q)
    ensures SemOk(n, Put(n, s, Post(a)), q)
  {
    var t, me := Put(n, s, Post(a)), s.actors[a];
    assert t.actors == s.actors[a := me.(pc := Idle)] && t.contents == s.contents && t.actors[a] == me.(pc := Idle);
    assert t.queues[q].sem == s.queues[q].sem + if q == me.target then 1 else 0;
    SemMoves(n, s, t, a, q);
  }

  lemma StepSem(n: nat, s: State, act: Action, q: nat)
    requires Inv(n, s) && Enabled(n, s, act) && q <= n
    ensures SemOk(n, Step(n, s, act), q)
  {
    assert SemOk(n, s, q);
    if act.AdvanceHead? { HeadThere(n, s, act.a); }
    if act.Wait? || act.AdvanceHead? {
      PopCounts(n, s, act, q);
    } else if act.Link? {
      LinkCounts(n, s, act.a, q);
    } else if act.Post? {
      PostCounts(n, s, act.a, q);
    } else {
      QuietCounts(n, s, act, q);
      SemMoves(n, s, Step(n, s, act), act.a, q);
    }
  }
}
