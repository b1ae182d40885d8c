/** What the actors of the router know of their packets and queues, and how each step keeps it. */
module RouterActors {
  import opened Router
  import opened RouterLists

  /** The queue's contents and its head stay. */
  ghost predicate QueueAsBefore(s: State, t: State, q: nat)
    requires q < |s.queues| == |t.queues| && q < |s.contents| == |t.contents|
  {
    t.contents[q] == s.contents[q] && t.queues[q].head == s.queues[q].head
  }

  lemma OutsideKeepsTaking(n: nat, s: State, act: Action, q: nat)
    requires Enabled(n, s, act) && q <= n && !Inside(s, act.a, q) && Taking(act)
    ensures QueueAsBefore(s, Take(n, s, act), q)
  {
  }

  lemma OutsideKeepsUsing(n: nat, s: State, act: Action, q: nat)
    requires Enabled(n, s, act) && q <= n && !Inside(s, act.a, q) && Using(act)
    ensures QueueAsBefore(s, Use(n, s, act), q)
  {
  }

  lemma OutsideKeepsPutting(n: nat, s: State, act: Action, q: nat)
    requires Enabled(n, s, act) && q <= n && !Inside(s, act.a, q) && Putting(act)
    ensures QueueAsBefore(s, Put(n, s, act), q)
  {
  }

  /** Only from inside a queue are its contents and its head changed. */
  lemma OutsideKeeps(n: nat, s: State, act: Action, q: nat)
    requires Enabled(n, s, act) && q <= n && !Inside(s, act.a, q)
    ensures QueueAsBefore(s, Step(n, s, act), q)
  {
    if Taking(act) {
      OutsideKeepsTaking(n, s, act, q);
    } else if Using(act) {
      OutsideKeepsUsing(n, s, act, q);
    } else {
      OutsideKeepsPutting(n, s, act, q);
    }
  }

  /** Nodes in another actor's hands are left alone. */
  ghost predicate LeavesHand(s: State, t: State, b: nat) {
    forall p :: p in s.owner && s.owner[p] == InHand(b) && p in s.heap ==>
      p in t.owner && t.owner[p] == InHand(b) && p in t.heap && t.heap[p] == s.heap[p]
  }

  lemma OthersHandsPop(n: nat, s: State, a: nat, b: nat)
    requires Inv(n, s) && Enabled(n, s, AdvanceHead(a)) && b <= n && b != a
    ensures LeavesHand(s, Take(n, s, AdvanceHead(a)), b)
  {
    HeadThere(n, s, a);
    assert QueueOk(n, s, a);
    assert s.owner[s.contents[a][0].ptr] == InQueue(a);
  }

  lemma OthersHandsLink(n: nat, s: State, a: nat, b: nat)
    requires Inv(n, s) && Enabled(n, s, Link(a)) && b <= n && b != a
    ensures LeavesHand(s, Put(n, s, Link(a)), b)
  {
    assert ActorOk(n, s, a);
    TailThere(n, s, a);
    var x := s.actors[a].target;
    assert QueueOk(n, s, x);
    if s.contents[x] != [] { assert s.owner[Last(s.contents[x])] == InQueue(x); }
  }

  lemma OthersHandsUse(n: nat, s: State, act: Action, b: nat)
    requires Enabled(n, s, act) && OwnersOk(s) && HandOk(n, s, act.a) && b <= n && b != act.a && Using(act)
    ensures LeavesHand(s, Use(n, s, act), b)
  {
  }

  lemma OthersHands(n: nat, s: State, act: Action, b: nat)
    requires Inv(n, s) && Enabled(n, s, act) && b <= n && b != act.a
    ensures LeavesHand(s, Step(n, s, act), b)
  {
    assert ActorOk(n, s, act.a);
    if KeepsLists(act) {
      KeepsAll(n, s, act, 0);
    } else if act.AdvanceHead? {
      OthersHandsPop(n, s, act.a, b);
    } else if act.Link? {
      OthersHandsLink(n, s, act.a, b);
    } else {
      OthersHandsUse(n, s, act, b);
    }
  }

  lemma OtherActor(n: nat, s: State, act: Action, b: nat)
    requires Inv(n, s) && Enabled(n, s, act) && b <= n && b != act.a
    ensures ActorOk(n, Step(n, s, act), b)
  {
    var t, me := Step(n, s, act), s.actors[b];
    OthersHands(n, s, act, b);
    assert ActorOk(n, s, b) && t.actors[b] == me;
    if Dequeuing(me.pc) {
      KeepsOutOf(n, s, act, b, b);
    }
    if Enqueuing(me.pc) {
      KeepsOutOf(n, s, act, b, me.target);
    }
    OtherStays(n, s, t, b);
  }

  lemma KeepsOutOf(n: nat, s: State, act: Action, b: nat, q: nat)
    requires Inv(n, s) && Enabled(n, s, act) && b <= n && b != act.a && q <= n && Inside(s, b, q)
    ensures QueueAsBefore(s, Step(n, s, act), q)
  {
    assert QueueOk(n, s, q);
    if Inside(s, act.a, q) { MutualExclusion(s, act.a, b, q); }
    OutsideKeeps(n, s, act, q);
  }

  lemma OtherStays(n: nat, s: State, t: State, b: nat)
    requires Shape(n, s) && Shape(n, t) && b <= n && ActorOk(n, s, b) && t.actors[b] == s.actors[b] && LeavesHand(s, t, b)
    requires Dequeuing(s.actors[b].pc) ==> t.contents[b] == s.contents[b] && t.queues[b].head == s.queues[b].head
    requires Enqueuing(s.actors[b].pc) ==> t.contents[s.actors[b].target] == s.contents[s.actors[b].target]
    ensures ActorOk(n, t, b)
  {
  }

  lemma OwnAdvance(n: nat, s: State, a: nat)
    requires Inv(n, s) && Enabled(n, s, AdvanceHead(a))
    ensures ActorOk(n, Step(n, s, AdvanceHead(a)), a)
  {
    assert ActorOk(n, s, a) && QueueOk(n, s, a);
    HeadThere(n, s, a);
  }

  lemma OwnPop(n: nat, s: State, act: Action)
    requires Inv(n, s) && Enabled(n, s, act) && Taking(act) && !act.AdvanceHead?
    ensures ActorOk(n, Take(n, s, act), act.a)
  {
    assert ActorOk(n, s, act.a) && QueueOk(n, s, act.a);
  }

  lemma OwnUse(n: nat, s: State, act: Action)
    requires Inv(n, s) && Enabled(n, s, act)
    requires Using(act)
    ensures ActorOk(n, Use(n, s, act), act.a)
  {
    assert ActorOk(n, s, act.a);
  }

  lemma OwnLink(n: nat, s: State, a: nat)
    requires Inv(n, s) && Enabled(n, s, Link(a))
    ensures ActorOk(n, Step(n, s, Link(a)), a)
  {
    assert ActorOk(n, s, a);
  }

  lemma OwnPush(n: nat, s: State, act: Action)
    requires Inv(n, s) && Enabled(n, s, act) && Putting(act) && !act.Link?
    ensures ActorOk(n, Put(n, s, act), act.a)
  {
    assert ActorOk(n, s, act.a);
  }

  lemma StepActor(n: nat, s: State, act: Action, b: nat)
    requires Inv(n, s) && Enabled(n, s, act) && b <= n
    ensures ActorOk(n, Step(n, s, act), b)
  {
    if b != act.a {
      OtherActor(n, s, act, b);
    } else if act.AdvanceHead? {
      OwnAdvance(n, s, b);
    } else if act.Link? {
      OwnLink(n, s, b);
    } else if Taking(act) {
      OwnPop(n, s, act);
    } else if Using(act) {
      OwnUse(n, s, act);
    } else {
      OwnPush(n, s, act);
    }
  }
}
