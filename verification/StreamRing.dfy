/** The stream ring (src/stepper_stream.c): step events mapped onto byte slots by
    virtual time, slots read and re-zeroed by the shipper, an index space that
    restarts with every fresh stream. The simple form it refines is a queue of
    timed step events. */
module StreamRing {
  import opened PulseBytes

  const RING_SIZE := 131072
  const VTICKS_PER_BYTE := 1000

  /** The ring and its cursors; a zero slot is the step triple ZERO. */
  datatype Ring = Ring(slots: seq<Vec>, produced: nat, shipped: nat, base: nat, vticks: nat)

  predicate Sized(r: Ring) { |r.slots| == RING_SIZE }

  /** The number of unshipped slots: shipped may run past produced. */
  function Backlog(r: Ring): nat { if r.produced > r.shipped then r.produced - r.shipped else 0 }

  /** The stream index of the current virtual time. */
  function TickNow(r: Ring): nat { r.base + r.vticks / VTICKS_PER_BYTE }

  // ---- the operations on the slots ----

  /** Where an event at the current virtual time lands: never behind the ship
      cursor, never on a slot an earlier event took. */
  function Place(r: Ring): nat {
    var i := if TickNow(r) < r.shipped then r.shipped else TickNow(r);
    if i < r.produced then r.produced else i
  }

  predicate Overflows(r: Ring) { Place(r) - r.shipped >= RING_SIZE - 1 }

  function Store(r: Ring, v: Vec): Ring
    requires Sized(r)
  {
    r.(slots := r.slots[Place(r) % RING_SIZE := v], produced := Place(r) + 1)
  }

  /** One slot shipped: its steps, and the ring with it re-zeroed. */
  function Ship(r: Ring): (Ring, Vec)
    requires Sized(r)
  {
    (r.(slots := r.slots[r.shipped % RING_SIZE := ZERO], shipped := r.shipped + 1),
     r.slots[r.shipped % RING_SIZE])
  }

  /** The drop loop from slot i up to slot n: the slots zeroed, their steps. */
  function DropSlots(slots: seq<Vec>, i: nat, n: nat): (r: (seq<Vec>, Vec))
    requires |slots| == RING_SIZE
    ensures |r.0| == RING_SIZE
    decreases n - i
  {
    if i >= n then (slots, ZERO)
    else
      var (rest, sum) := DropSlots(slots[i % RING_SIZE := ZERO], i + 1, n);
      (rest, Plus(slots[i % RING_SIZE], sum))
  }

  function Drop(r: Ring): (Ring, Vec)
    requires Sized(r)
  {
    var (slots, sum) := DropSlots(r.slots, r.shipped, r.produced);
    (r.(slots := slots, produced := r.shipped), sum)
  }

  /** A fresh stream restarts the index space behind one depth of pads. */
  function Fresh(r: Ring, depth: nat): Ring {
    r.(shipped := 0, produced := depth, base := depth, vticks := 0)
  }

  /** A continuation resumes production at the cursor's wall position. */
  function Continue(r: Ring, dueNow: nat): Ring {
    var p := if dueNow > r.produced then dueNow else r.produced;
    r.(produced := p, base := p, vticks := 0)
  }

  // ---- the simple form: a queue of timed events ----

  /** An accepted step event: the slot it took and the tick it asked for. */
  datatype Event = Event(idx: nat, steps: Vec, tick: nat)

  ghost predicate Sorted(evs: seq<Event>) {
    forall i, j :: 0 <= i < j < |evs| ==> evs[i].idx < evs[j].idx
  }

  /** An event is live: inside the window, at or after its tick, and a step. */
  ghost predicate Pending(r: Ring, e: Event) {
    r.shipped <= e.idx < r.produced && e.idx < r.shipped + RING_SIZE && e.tick <= e.idx && e.steps != ZERO
  }

  /** Slot j belongs to one of the events. */
  ghost predicate Taken(evs: seq<Event>, j: nat) {
    exists i :: 0 <= i < |evs| && evs[i].idx % RING_SIZE == j
  }

  /** The ring holds exactly the queue: each live event in its own slot, and zero
      in every other slot. */
  ghost predicate Holds(r: Ring, evs: seq<Event>) {
    && Sized(r)
    && Sorted(evs)
    && (forall i :: 0 <= i < |evs| ==> Pending(r, evs[i]) && r.slots[evs[i].idx % RING_SIZE] == evs[i].steps)
    && (forall j {:trigger Taken(evs, j)} :: 0 <= j < RING_SIZE && r.slots[j] != ZERO ==> Taken(evs, j))
  }

  function EventSteps(evs: seq<Event>): Vec {
    if evs == [] then ZERO else Plus(evs[0].steps, EventSteps(evs[1..]))
  }

  lemma {:induction false} EventStepsConcat(a: seq<Event>, b: seq<Event>)
    ensures EventSteps(a + b) == Plus(EventSteps(a), EventSteps(b))
  {
    if a == [] {
      assert a + b == b;
    } else {
      assert (a + b)[1..] == a[1..] + b;
      EventStepsConcat(a[1..], b);
    }
  }

  lemma EventStepsOne(e: Event)
    ensures EventSteps([e]) == e.steps
  {
    assert [e][1..] == [];
  }

  /** Two indices less than a lap apart never share a slot. */
  lemma OneLap(a: nat, b: nat)
    requires a <= b < a + RING_SIZE && a % RING_SIZE == b % RING_SIZE
    ensures a == b
  {
    assert (b - a) % RING_SIZE == 0;
  }

  lemma FreeSlot(r: Ring, evs: seq<Event>)
    requires Holds(r, evs) && !Overflows(r)
    ensures r.slots[Place(r) % RING_SIZE] == ZERO
    ensures forall i :: 0 <= i < |evs| ==> evs[i].idx % RING_SIZE != Place(r) % RING_SIZE
  {
    var p := Place(r);
    forall i | 0 <= i < |evs|
      ensures evs[i].idx % RING_SIZE != p % RING_SIZE
    {
      assert Pending(r, evs[i]);
      if evs[i].idx % RING_SIZE == p % RING_SIZE { OneLap(evs[i].idx, p); }
    }
    assert !Taken(evs, p % RING_SIZE);
  }

  function Largest(a: nat, b: nat, c: nat): (m: nat)
    ensures m >= a && m >= b && m >= c && (m == a || m == b || m == c)
  {
    var m := if a < b then b else a;
    if m < c then c else m
  }

  /** An event stored lands at the first index it may: not before its tick, not behind
      the cursor, not where production has been. It lands behind every live event, in
      a slot that held nothing: no event is merged or overwritten. It finds no room
      exactly when that index is a ring ahead of the cursor. */
  lemma StoreRefines(r: Ring, evs: seq<Event>, v: Vec)
    requires Holds(r, evs) && v != ZERO && !Overflows(r)
    ensures Place(r) == Largest(TickNow(r), r.shipped, r.produced) < r.shipped + RING_SIZE - 1
    ensures r.slots[Place(r) % RING_SIZE] == ZERO
    ensures Holds(Store(r, v), evs + [Event(Place(r), v, TickNow(r))])
  {
    FreeSlot(r, evs);
    var p := Place(r);
    var r', evs' := Store(r, v), evs + [Event(p, v, TickNow(r))];
    forall i | 0 <= i < |evs'|
      ensures Pending(r', evs'[i]) && r'.slots[evs'[i].idx % RING_SIZE] == evs'[i].steps
    {
      if i < |evs| { assert evs'[i] == evs[i]; assert Pending(r, evs[i]); }
    }
    forall j | 0 <= j < RING_SIZE && r'.slots[j] != ZERO
      ensures Taken(evs', j)
    {
      if j == p % RING_SIZE {
        assert evs'[|evs|].idx % RING_SIZE == j;
      } else {
        assert Taken(evs, j);
        var i :| 0 <= i < |evs| && evs[i].idx % RING_SIZE == j;
        assert evs'[i].idx % RING_SIZE == j;
      }
    }
  }

  /** The event the ship cursor reaches, if there is one. */
  ghost predicate AtCursor(r: Ring, evs: seq<Event>) { evs != [] && evs[0].idx == r.shipped }

  ghost function Unshipped(r: Ring, evs: seq<Event>): seq<Event> {
    if AtCursor(r, evs) then evs[1..] else evs
  }

  /** A nonzero slot at the cursor is the head event's. */
  lemma CursorSlot(r: Ring, evs: seq<Event>)
    requires Holds(r, evs)
    ensures r.slots[r.shipped % RING_SIZE] == (if AtCursor(r, evs) then evs[0].steps else ZERO)
  {
    var slot := r.shipped % RING_SIZE;
    if r.slots[slot] != ZERO {
      assert Taken(evs, slot);
      var i :| 0 <= i < |evs| && evs[i].idx % RING_SIZE == slot;
      assert Pending(r, evs[i]) && Pending(r, evs[0]);
      assert i == 0 || evs[0].idx < evs[i].idx;
      OneLap(r.shipped, evs[i].idx);
    }
  }

  /** An event behind the cursor's stays live and untouched when the slot ships. */
  lemma ShipKeeps(r: Ring, evs: seq<Event>, i: nat)
    requires Holds(r, evs) && i < |evs| && evs[i].idx != r.shipped
    ensures Pending(Ship(r).0, evs[i]) && Ship(r).0.slots[evs[i].idx % RING_SIZE] == evs[i].steps
  {
    assert Pending(r, evs[i]);
    if evs[i].idx % RING_SIZE == r.shipped % RING_SIZE { OneLap(r.shipped, evs[i].idx); }
  }

  /** A slot shipped is the queue's head event exactly at its index, else a pad. */
  lemma ShipRefines(r: Ring, evs: seq<Event>)
    requires Holds(r, evs)
    ensures Ship(r).1 == (if AtCursor(r, evs) then evs[0].steps else ZERO)
    ensures Holds(Ship(r).0, Unshipped(r, evs))
  {
    CursorSlot(r, evs);
    ShipKeepsAll(r, evs);
    ShipFrees(r, evs);
  }

  lemma HeadNotBehind(r: Ring, evs: seq<Event>)
    requires Holds(r, evs) && evs != []
    ensures r.shipped <= evs[0].idx
  {
    hide Sized, Sorted, Taken;
    assert Pending(r, evs[0]);
  }

  /** The events behind the cursor's, each one of the queue and past the cursor. */
  lemma UnshippedIs(r: Ring, evs: seq<Event>, i: nat)
    requires Sorted(evs) && (evs != [] ==> r.shipped <= evs[0].idx) && i < |Unshipped(r, evs)|
    ensures var k := i + |evs| - |Unshipped(r, evs)|;
            0 <= k < |evs| && Unshipped(r, evs)[i] == evs[k] && evs[k].idx != r.shipped
  {
    var k := i + |evs| - |Unshipped(r, evs)|;
    assert Unshipped(r, evs)[i] == evs[k];
    assert k == 0 || evs[0].idx < evs[k].idx;
  }

  lemma UnshippedSorted(r: Ring, evs: seq<Event>)
    requires Sorted(evs)
    ensures Sorted(Unshipped(r, evs))
  {
  }

  /** Every event but the cursor's is still in its slot. */
  lemma ShipKeepsAll(r: Ring, evs: seq<Event>)
    requires Holds(r, evs)
    ensures var r', rest := Ship(r).0, Unshipped(r, evs);
            && Sorted(rest)
            && (forall i :: 0 <= i < |rest| ==>
                  Pending(r', rest[i]) && r'.slots[rest[i].idx % RING_SIZE] == rest[i].steps)
  {
    UnshippedSorted(r, evs);
    if evs != [] { HeadNotBehind(r, evs); }
    assert Sorted(evs);
    hide Sorted, Pending, Ship, Unshipped, Holds;
    var r', rest := Ship(r).0, Unshipped(r, evs);
    forall i | 0 <= i < |rest|
      ensures Pending(r', rest[i]) && r'.slots[rest[i].idx % RING_SIZE] == rest[i].steps
    {
      UnshippedIs(r, evs, i);
      ShipKeeps(r, evs, i + |evs| - |rest|);
    }
  }

  /** Every slot still taken is one of theirs. */
  lemma ShipFrees(r: Ring, evs: seq<Event>)
    requires Holds(r, evs)
    ensures var r', rest := Ship(r).0, Unshipped(r, evs);
            forall j {:trigger Taken(rest, j)} :: 0 <= j < RING_SIZE && r'.slots[j] != ZERO ==> Taken(rest, j)
  {
    var r', rest := Ship(r).0, Unshipped(r, evs);
    var off := |evs| - |rest|;
    forall j | 0 <= j < RING_SIZE && r'.slots[j] != ZERO
      ensures Taken(rest, j)
    {
      assert j != r.shipped % RING_SIZE && Taken(evs, j);
      var i :| 0 <= i < |evs| && evs[i].idx % RING_SIZE == j;
      assert rest[i - off].idx % RING_SIZE == j;
    }
  }

  /** A ring with nothing live is all zero, and any cursors fit it. */
  lemma HoldsNothing(r: Ring)
    requires Sized(r)
    ensures Holds(r, []) <==> forall j :: 0 <= j < RING_SIZE ==> r.slots[j] == ZERO
  {
    if Holds(r, []) {
      forall j | 0 <= j < RING_SIZE
        ensures r.slots[j] == ZERO
      {
        assert !Taken([], j);
      }
    }
  }

  /** Dropping is shipping without a stream: the head slot, then the rest. */
  lemma DropUnfolds(r: Ring)
    requires Sized(r) && r.shipped < r.produced
    ensures var (r', v) := Ship(r);
            && Drop(r) == (Drop(r').0.(shipped := r.shipped, produced := r.shipped), Plus(v, Drop(r').1))
            && (Holds(Drop(r').0, []) ==> Holds(Drop(r).0, []))
  {
    HoldsNothing(Drop(r).0);
    HoldsNothing(Drop(Ship(r).0).0);
  }

  lemma {:induction false} NoBacklogNoEvents(r: Ring, evs: seq<Event>)
    requires Holds(r, evs) && r.shipped >= r.produced
    ensures evs == [] && Drop(r) == (r.(produced := r.shipped), ZERO) && Holds(Drop(r).0, [])
  {
    assert |evs| == 0 || Pending(r, evs[0]);
  }

  lemma {:induction false} UnshippedSteps(r: Ring, evs: seq<Event>)
    ensures EventSteps(evs) ==
            Plus(if AtCursor(r, evs) then evs[0].steps else ZERO, EventSteps(Unshipped(r, evs)))
  {
    if !AtCursor(r, evs) {
      PlusZero(EventSteps(evs));
    }
  }

  /** The drop loop zeroes every slot and gathers exactly the live events' steps. */
  lemma {:induction false} DropRefines(r: Ring, evs: seq<Event>)
    requires Sized(r) && Holds(r, evs)
    ensures Holds(Drop(r).0, [])
    ensures Drop(r).1 == EventSteps(evs)
    decreases Backlog(r)
  {
    hide Holds;
    if r.shipped >= r.produced {
      NoBacklogNoEvents(r, evs);
    } else {
      ShipRefines(r, evs);
      UnshippedSteps(r, evs);
      DropUnfolds(r);
      DropRefines(Ship(r).0, Unshipped(r, evs));
    }
  }

  lemma ContinueRefines(r: Ring, evs: seq<Event>, dueNow: nat)
    requires Holds(r, evs)
    ensures Holds(Continue(r, dueNow), evs)
  {
    forall i | 0 <= i < |evs|
      ensures Pending(Continue(r, dueNow), evs[i])
    {
      assert Pending(r, evs[i]);
    }
  }

  /** A fresh stream starts clean if and only if no event was left unshipped. */
  lemma FreshRefines(r: Ring, evs: seq<Event>, depth: nat)
    requires Holds(r, evs)
    ensures Holds(Fresh(r, depth), []) <==> evs == []
  {
    if evs != [] {
      assert Pending(r, evs[0]);
      assert Fresh(r, depth).slots[evs[0].idx % RING_SIZE] != ZERO;
    }
    HoldsNothing(Fresh(r, depth));
    HoldsNothing(r);
  }

  /** Why it matters: a fresh stream takes one step, ends unshipped, and the next
      fresh stream takes its first step at the same tick. The second step takes the
      first one's slot, and the first is gone: the ring owes only the second. */
  lemma FreshOverBacklogLosesAStep(r: Ring, depth: nat, v: Vec, w: Vec)
    requires depth < RING_SIZE - 1 && v != ZERO && w != ZERO
    requires Holds(r, []) && r == Fresh(r, depth)
    ensures var one := Store(r, v);
            var two := Store(Fresh(one, depth), w);
            Drop(one).1 == v && Drop(two).1 == w
  {
    assert Place(r) == depth && TickNow(r) == depth;
    SingleStep(r, v);
    SingleStep(r, w);
    assert Store(Fresh(Store(r, v), depth), w) == Store(r, w) by {
      assert r.slots[depth := v][depth := w] == r.slots[depth := w];
    }
  }

  lemma SingleStep(r: Ring, v: Vec)
    requires Holds(r, []) && v != ZERO && !Overflows(r)
    ensures Drop(Store(r, v)).1 == v
  {
    var e := Event(Place(r), v, TickNow(r));
    StoreRefines(r, [], v);
    assert [] + [e] == [e];
    DropRefines(Store(r, v), [e]);
    EventStepsOne(e);
  }
}
