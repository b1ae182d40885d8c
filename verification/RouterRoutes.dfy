/** The order of each sender's packets, and the way of each packet from queue to queue. */
module RouterRoutes {
  import opened Router

  // ---- the order of each sender's packets

  predicate Numbers(act: Action) { act.Fill? || act.Link? }

  lemma OrderStays(n: nat, s: State, t: State, a: nat)
    requires Shape(n, s) && Shape(n, t) && OrderOk(n, s) && a <= n
    requires t.pushed == s.pushed && t.actors == s.actors[a := t.actors[a]] && t.actors[a].num == s.actors[a].num
    requires a < n && t.actors[a].pc in {ELock, ELink} ==> s.actors[a].pc in {ELock, ELink}
    ensures OrderOk(n, t)
  {
  }

  lemma OrderTaking(n: nat, s: State, act: Action)
    requires Enabled(n, s, act) && OrderOk(n, s) && ActorOk(n, s, act.a) && !Numbers(act) && Taking(act)
    ensures OrderOk(n, Take(n, s, act))
  {
    OrderStays(n, s, Take(n, s, act), act.a);
  }

  lemma OrderUsing(n: nat, s: State, act: Action)
    requires Enabled(n, s, act) && OrderOk(n, s) && ActorOk(n, s, act.a) && !Numbers(act) && Using(act)
    ensures OrderOk(n, Use(n, s, act))
  {
    OrderStays(n, s, Use(n, s, act), act.a);
  }

  lemma OrderPutting(n: nat, s: State, act: Action)
    requires Enabled(n, s, act) && OrderOk(n, s) && ActorOk(n, s, act.a) && !Numbers(act) && Putting(act)
    ensures OrderOk(n, Put(n, s, act))
  {
    OrderStays(n, s, Put(n, s, act), act.a);
  }

  lemma StepOrderQuiet(n: nat, s: State, act: Action)
    requires Enabled(n, s, act) && OrderOk(n, s) && ActorOk(n, s, act.a) && !Numbers(act)
    ensures OrderOk(n, Step(n, s, act))
  {
    if Taking(act) {
      OrderTaking(n, s, act);
    } else if Using(act) {
      OrderUsing(n, s, act);
    } else {
      OrderPutting(n, s, act);
    }
  }

  lemma StepOrderFill(n: nat, s: State, a: nat, r: nat)
    requires Inv(n, s) && Enabled(n, s, Fill(a, r))
    ensures OrderOk(n, Step(n, s, Fill(a, r)))
  {
  }

  lemma StepOrderLink(n: nat, s: State, a: nat)
    requires Inv(n, s) && Enabled(n, s, Link(a))
    ensures OrderOk(n, Step(n, s, Link(a)))
  {
    assert ActorOk(n, s, a);
    var t := Step(n, s, Link(a));
    assert t.actors == s.actors[a := s.actors[a].(pc := ETail)];
    assert t.pushed == if a < n then s.pushed + [s.actors[a].held] else s.pushed;
  }

  lemma StepOrder(n: nat, s: State, act: Action)
    requires Inv(n, s) && Enabled(n, s, act)
    ensures OrderOk(n, Step(n, s, act))
  {
    assert ActorOk(n, s, act.a);
    if act.Fill? {
      StepOrderFill(n, s, act.a, act.r);
    } else if act.Link? {
      StepOrderLink(n, s, act.a);
    } else {
      StepOrderQuiet(n, s, act);
    }
  }

  // ---- routes

  lemma {:induction false} ToConcat(r: nat, p: seq<Packet>, q: seq<Packet>)
    ensures To(r, p + q) == To(r, p) + To(r, q)
  {
    if q == [] {
      assert p + q == p;
    } else {
      ToConcat(r, p, q[..|q| - 1]);
      assert (p + q)[..|p + q| - 1] == p + q[..|q| - 1];
    }
  }

  lemma ToOne(r: nat, pkt: Packet)
    ensures To(r, [pkt]) == if pkt.recipient == r then [pkt] else []
  {
    assert [pkt][..0] == [];
  }

  predicate Routes(act: Action) { act.AdvanceHead? || act.Print? || act.Fill? || act.Prepare? || act.UnlockOwn? || act.Link? }

  /** What a step changes of a packet's places lies with the actor alone. */
  ghost predicate RouteAsBefore(n: nat, s: State, t: State, a: nat, r: nat)
    requires Shape(n, s) && Shape(n, t) && a <= n
  {
    && t.received == s.received && t.contents == s.contents && t.pushed == s.pushed && t.actors == s.actors[a := t.actors[a]]
    && if a < n then ThreadHand(t.actors[a]) == ThreadHand(s.actors[a])
       else InTransit(t.actors[a], r) == InTransit(s.actors[a], r)
  }

  lemma RouteStays(n: nat, s: State, t: State, a: nat, r: nat)
    requires Shape(n, s) && Shape(n, t) && a <= n && r < n && RouteOk(n, s, r) && RouteAsBefore(n, s, t, a, r)
    ensures RouteOk(n, t, r)
  {
  }

  lemma RouteTaking(n: nat, s: State, act: Action, r: nat)
    requires Enabled(n, s, act) && r < n && RouteOk(n, s, r) && Taking(act) && !Routes(act)
    ensures RouteOk(n, Take(n, s, act), r)
  {
    RouteStays(n, s, Take(n, s, act), act.a, r);
  }

  lemma RouteUsing(n: nat, s: State, act: Action, r: nat)
    requires Enabled(n, s, act) && r < n && RouteOk(n, s, r) && ActorOk(n, s, act.a) && Using(act) && !Routes(act)
    ensures RouteOk(n, Use(n, s, act), r)
  {
    RouteStays(n, s, Use(n, s, act), act.a, r);
  }

  lemma RoutePutting(n: nat, s: State, act: Action, r: nat)
    requires Enabled(n, s, act) && r < n && RouteOk(n, s, r) && ActorOk(n, s, act.a) && Putting(act) && !Routes(act)
    ensures RouteOk(n, Put(n, s, act), r)
  {
    RouteStays(n, s, Put(n, s, act), act.a, r);
  }

  /** Behind its own queue's critical section an actor has the packet in hand as before. */
  lemma RouteUnlock(n: nat, s: State, a: nat, r: nat)
    requires Enabled(n, s, UnlockOwn(a)) && r < n && RouteOk(n, s, r) && ActorOk(n, s, a)
    ensures RouteOk(n, Take(n, s, UnlockOwn(a)), r)
  {
    RouteStays(n, s, Take(n, s, UnlockOwn(a)), a, r);
  }

  lemma RouteHands(n: nat, s: State, act: Action, r: nat)
    requires Enabled(n, s, act) && r < n && RouteOk(n, s, r) && ActorOk(n, s, act.a)
    requires act.Fill? || act.Prepare?
    ensures RouteOk(n, Use(n, s, act), r)
  {
    RouteStays(n, s, Use(n, s, act), act.a, r);
  }

  /** A packet that moves from the front of one place to the end of the one before it stays in its position. */
  lemma RouteMoves(a: seq<Packet>, b: seq<Packet>, c: seq<Packet>, d: seq<Packet>, x: seq<Packet>)
    ensures Route(a, x, b, c, d) == Route(a + x, [], b, c, d)
    ensures Route(a, [], x + b, c, d) == Route(a, x, b, c, d)
    ensures Route(a, b, c, [], x + d) == Route(a, b, c, x, d)
    ensures Route(a, b, c, x, d) == Route(a, b, c + x, [], d)
    ensures Route(a, b, c, [], d + x) == Route(a, b, c, [], d) + x
  {
  }

  lemma RoutePrint(n: nat, s: State, a: nat, r: nat)
    requires Enabled(n, s, Print(a)) && r < n && RouteOk(n, s, r) && ActorOk(n, s, a)
    ensures RouteOk(n, Use(n, s, Print(a)), r)
  {
    var t := Use(n, s, Print(a));
    assert t.contents == s.contents && t.pushed == s.pushed && t.actors[n] == s.actors[n];
    if r == a {
      RouteMoves(s.received[r], Packets(s.contents[r]), InTransit(s.actors[n], r), To(r, Packets(s.contents[n])), [s.actors[a].held]);
    }
  }

  lemma PopOwnRoute(n: nat, s: State, a: nat, r: nat)
    requires Inv(n, s) && Enabled(n, s, AdvanceHead(a)) && a < n && r < n
    ensures RouteOk(n, Take(n, s, AdvanceHead(a)), r)
  {
    var t, items := Take(n, s, AdvanceHead(a)), s.contents[a];
    HeadThere(n, s, a);
    assert RouteOk(n, s, r);
    if r == a {
      assert Packets(items) == [items[0].pkt] + Packets(items[1..]);
      RouteMoves(s.received[r], Packets(items[1..]), InTransit(s.actors[n], r), To(r, Packets(s.contents[n])), [items[0].pkt]);
    }
  }

  lemma PopMasterRoute(n: nat, s: State, r: nat)
    requires Inv(n, s) && Enabled(n, s, AdvanceHead(n)) && r < n
    ensures RouteOk(n, Take(n, s, AdvanceHead(n)), r)
  {
    var t, items := Take(n, s, AdvanceHead(n)), s.contents[n];
    HeadThere(n, s, n);
    assert RouteOk(n, s, r);
    assert Packets(items) == [items[0].pkt] + Packets(items[1..]);
    ToConcat(r, [items[0].pkt], Packets(items[1..]));
    ToOne(r, items[0].pkt);
    RouteMoves(s.received[r], ThreadHand(s.actors[r]), Packets(s.contents[r]), To(r, Packets(items[1..])), To(r, [items[0].pkt]));
  }

  /** What a push on the master queue does to all that its route depends on. */
  lemma PushMasterFrame(n: nat, s: State, a: nat)
    requires Inv(n, s) && Enabled(n, s, Link(a)) && a < n
    ensures var t, me := Put(n, s, Link(a)), s.actors[a];
      && Shape(n, t) && t.received == s.received && t.pushed == s.pushed + [me.held]
      && t.contents == s.contents[n := s.contents[n] + [Item(me.pkt, me.held)]]
      && t.actors == s.actors[a := me.(pc := ETail)] && me.pc == ELink
  {
    assert ActorOk(n, s, a);
  }

  lemma PushMasterRoute(n: nat, s: State, a: nat, r: nat)
    requires Inv(n, s) && Enabled(n, s, Link(a)) && a < n && r < n
    ensures RouteOk(n, Put(n, s, Link(a)), r)
  {
    PushMasterFrame(n, s, a);
    assert RouteOk(n, s, r);
    PushRoute(n, s, Put(n, s, Link(a)), a, r);
  }

  lemma PushRoute(n: nat, s: State, t: State, a: nat, r: nat)
    requires Shape(n, s) && Shape(n, t) && a < n && r < n && RouteOk(n, s, r)
    requires t.received == s.received && t.pushed == s.pushed + [s.actors[a].held]
    requires t.contents == s.contents[n := s.contents[n] + [Item(s.actors[a].pkt, s.actors[a].held)]]
    requires t.actors == s.actors[a := s.actors[a].(pc := ETail)] && s.actors[a].pc == ELink
    ensures RouteOk(n, t, r)
  {
    var pkt := s.actors[a].held;
    assert Packets(t.contents[n]) == Packets(s.contents[n]) + [pkt];
    ToConcat(r, s.pushed, [pkt]);
    ToConcat(r, Packets(s.contents[n]), [pkt]);
    PushedRoute(n, s, t, r, To(r, [pkt]));
  }

  lemma PushedRoute(n: nat, s: State, t: State, r: nat, x: seq<Packet>)
    requires Shape(n, s) && Shape(n, t) && r < n && RouteOk(n, s, r)
    requires t.received == s.received && t.contents[r] == s.contents[r]
    requires ThreadHand(t.actors[r]) == ThreadHand(s.actors[r]) && InTransit(t.actors[n], r) == InTransit(s.actors[n], r)
    requires To(r, Packets(t.contents[n])) == To(r, Packets(s.contents[n])) + x && To(r, t.pushed) == To(r, s.pushed) + x
    ensures RouteOk(n, t, r)
  {
    var y, m := InTransit(s.actors[n], r), To(r, Packets(s.contents[n]));
    assert Route(s.received[r], ThreadHand(s.actors[r]), Packets(s.contents[r]), y, m + x)
        == Route(s.received[r], ThreadHand(s.actors[r]), Packets(s.contents[r]), y, m) + x;
  }

  lemma PushThreadRoute(n: nat, s: State, r: nat)
    requires Inv(n, s) && Enabled(n, s, Link(n)) && r < n
    ensures RouteOk(n, Put(n, s, Link(n)), r)
  {
    var t, me := Put(n, s, Link(n)), s.actors[n];
    assert RouteOk(n, s, r) && ActorOk(n, s, n);
    if me.target == r {
      assert Packets(t.contents[r]) == Packets(s.contents[r]) + [me.held];
      RouteMoves(s.received[r], ThreadHand(s.actors[r]), Packets(s.contents[r]), To(r, Packets(s.contents[n])), [me.held]);
    }
  }

  lemma StepRouteTaking(n: nat, s: State, act: Action, r: nat)
    requires Inv(n, s) && Enabled(n, s, act) && r < n && Taking(act)
    ensures RouteOk(n, Take(n, s, act), r)
  {
    assert RouteOk(n, s, r) && ActorOk(n, s, act.a);
    if act.AdvanceHead? {
      if act.a < n { PopOwnRoute(n, s, act.a, r); } else { PopMasterRoute(n, s, r); }
    } else if act.UnlockOwn? {
      RouteUnlock(n, s, act.a, r);
    } else {
      RouteTaking(n, s, act, r);
    }
  }

  lemma StepRouteUsing(n: nat, s: State, act: Action, r: nat)
    requires Inv(n, s) && Enabled(n, s, act) && r < n && Using(act)
    ensures RouteOk(n, Use(n, s, act), r)
  {
    assert RouteOk(n, s, r) && ActorOk(n, s, act.a);
    if act.Print? {
      RoutePrint(n, s, act.a, r);
    } else if act.Fill? || act.Prepare? {
      RouteHands(n, s, act, r);
    } else {
      RouteUsing(n, s, act, r);
    }
  }

  lemma StepRoutePutting(n: nat, s: State, act: Action, r: nat)
    requires Inv(n, s) && Enabled(n, s, act) && r < n && Putting(act)
    ensures RouteOk(n, Put(n, s, act), r)
  {
    assert RouteOk(n, s, r) && ActorOk(n, s, act.a);
    if act.Link? {
      if act.a < n { PushMasterRoute(n, s, act.a, r); } else { PushThreadRoute(n, s, r); }
    } else {
      RoutePutting(n, s, act, r);
    }
  }

  lemma StepRoute(n: nat, s: State, act: Action, r: nat)
    requires Inv(n, s) && Enabled(n, s, act) && r < n
    ensures RouteOk(n, Step(n, s, act), r)
  {
    if Taking(act) {
      StepRouteTaking(n, s, act, r);
    } else if Using(act) {
      StepRouteUsing(n, s, act, r);
    } else {
      StepRoutePutting(n, s, act, r);
    }
  }
}
