/** What all bounded buffers of this project are: one first-in first-out queue of limited length. */
module BoundedQueue {

  /** Waiting items, the next item to be produced, and what was delivered so far. */
  datatype Queue = Queue(items: seq<int>, next: int, delivered: seq<int>)

  const EMPTY := Queue([], 0, [])

  predicate Put(capacity: nat, f: Queue, g: Queue) {
    |f.items| < capacity && g == Queue(f.items + [f.next], f.next + 1, f.delivered)
  }

  predicate Get(f: Queue, g: Queue) {
    f.items != [] && g == Queue(f.items[1..], f.next, f.delivered + [f.items[0]])
  }

  /** One step of an implementation is one operation on the queue, or none. */
  predicate Simulates(capacity: nat, f: Queue, g: Queue) {
    f == g || Put(capacity, f, g) || Get(f, g)
  }

  /** The queue after `produced` items went in and `consumed` came out. */
  function Between(consumed: nat, produced: nat): Queue
    requires consumed <= produced
  {
    Queue(seq(produced - consumed, i => consumed + i), produced, seq(consumed, i => i))
  }

  lemma OneMore(capacity: nat, consumed: nat, produced: nat)
    requires consumed <= produced < consumed + capacity
    ensures Put(capacity, Between(consumed, produced), Between(consumed, produced + 1))
  {
    assert Between(consumed, produced + 1).items == Between(consumed, produced).items + [produced];
  }

  lemma OneLess(consumed: nat, produced: nat)
    requires consumed < produced
    ensures Get(Between(consumed, produced), Between(consumed + 1, produced))
  {
    assert Between(consumed + 1, produced).items == Between(consumed, produced).items[1..];
    assert Between(consumed + 1, produced).delivered == Between(consumed, produced).delivered + [consumed];
  }

  /** The queue a circular array holds from place `consumed` on, before place `produced`. */
  function Held(v: seq<int>, consumed: nat, produced: nat, taken: seq<int>): Queue
    requires |v| > 0 && consumed <= produced
  {
    Queue(seq(produced - consumed, i requires i >= 0 => v[(consumed + i) % |v|]), produced, taken)
  }

  /** Item j is in its slot. */
  predicate InSlot(v: seq<int>, j: nat)
    requires |v| > 0
  {
    v[j % |v|] == j
  }

  lemma HeldIsBetween(v: seq<int>, consumed: nat, produced: nat, taken: seq<int>)
    requires |v| > 0 && consumed <= produced && taken == seq(consumed, i => i)
    requires forall j :: consumed <= j < produced ==> InSlot(v, j)
    ensures Held(v, consumed, produced, taken) == Between(consumed, produced)
  {
    forall i | 0 <= i < produced - consumed ensures Held(v, consumed, produced, taken).items[i] == consumed + i {
      assert InSlot(v, consumed + i);
    }
  }
}
