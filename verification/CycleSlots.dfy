/** The soak driver's slot pacer (cmd/kansoku/soak.go).

    Instants and durations are integers in one unit (nanoseconds in the driver). A call
    reserves the slot max(nextSlot, now), sleeps until it, and moves nextSlot one pace on. */
module CycleSlots {
  const MILLISECOND := 1_000_000
  const DEFAULT_PACE := 650 * MILLISECOND
  const MINUTE := 60_000 * MILLISECOND
  const PEER_LIMIT := 120

  function Slot(nextSlot: int, now: int): (slot: int)
    ensures slot >= nextSlot && slot >= now && slot in {nextSlot, now}
  {
    if nextSlot > now then nextSlot else now
  }

  /** Every two reservations are a full pace apart for each one made between them. */
  ghost predicate Spaced(slots: seq<int>, pace: int)
  {
    forall i, j :: 0 <= i < j < |slots| ==> slots[j] - slots[i] >= (j - i) * pace
  }

  /** What holds between two critical sections: nextSlot is one pace after the last reservation. */
  ghost predicate Paced(slots: seq<int>, nextSlot: int, pace: int)
  {
    && pace > 0
    && Spaced(slots, pace)
    && (slots != [] ==> nextSlot == slots[|slots| - 1] + pace)
  }

  lemma ReserveKeepsPaced(slots: seq<int>, nextSlot: int, pace: int, now: int)
    requires Paced(slots, nextSlot, pace)
    ensures var slot := Slot(nextSlot, now); Paced(slots + [slot], slot + pace, pace)
  {
    var slot := Slot(nextSlot, now);
    var longer := slots + [slot];
    forall i, j | 0 <= i < j < |longer| ensures longer[j] - longer[i] >= (j - i) * pace {
      if j == |slots| {
        var last := |slots| - 1;
        assert i == last || slots[last] - slots[i] >= (last - i) * pace;
        assert (j - i) * pace == (last - i) * pace + pace;
      }
    }
  }

  /** awaitCycleSlot and the two fields it owns. */
  class SlotPacer {
    const pace: int
    var nextSlot: int
    ghost var reserved: seq<int>

    ghost predicate Valid()
      reads this
    {
      Paced(reserved, nextSlot, pace)
    }

    constructor (cycleInterval: int, zeroTime: int)
      ensures Valid() && reserved == [] && nextSlot == zeroTime
      ensures pace == if cycleInterval <= 0 then DEFAULT_PACE else cycleInterval
    {
      pace := if cycleInterval <= 0 then DEFAULT_PACE else cycleInterval;
      nextSlot := zeroTime;
      reserved := [];
    }

    /** Returns how long the caller sleeps; now + wait is the reserved slot. */
    method AwaitCycleSlot(now: int) returns (wait: int)
      requires Valid()
      modifies this
      ensures Valid()
      ensures wait >= 0 && (wait > 0 ==> now + wait == old(nextSlot))
      ensures now + wait >= old(nextSlot)
      ensures reserved == old(reserved) + [now + wait]
      ensures nextSlot == now + wait + pace
    {
      ReserveKeepsPaced(reserved, nextSlot, pace, now);
      if nextSlot > now {
        wait := nextSlot - now;
        nextSlot := nextSlot + pace;
      } else {
        wait := 0;
        nextSlot := now + pace;
      }
      reserved := reserved + [now + wait];
    }
  }

  // ---------- callers interleaving around the mutex ----------

  /** Where one caller is. Copied holds what it read inside the critical section, so an
      update made from a stale copy is expressible; only the mutex rules it out. */
  datatype Caller = Idle | Holding | Clocked(now: int) | Copied(now: int, next: int) | Sleeping(slot: int)

  datatype Pacer = Pacer(nextSlot: int, owner: int, callers: map<nat, Caller>, slots: seq<int>)

  const NOBODY := -1

  ghost predicate Start(p: Pacer)
  {
    && p.owner == NOBODY && p.slots == []
    && forall c :: c in p.callers ==> p.callers[c] == Idle
  }

  /** One step of caller c; the instant is what time.Now() reports if it reads the clock. */
  ghost predicate Step(p: Pacer, q: Pacer, pace: int, c: nat, instant: int)
  {
    c in p.callers &&
    match p.callers[c] {
      case Idle =>
        p.owner == NOBODY && q == p.(owner := c, callers := p.callers[c := Holding])
      case Holding =>
        q == p.(callers := p.callers[c := Clocked(instant)])
      case Clocked(now) =>
        q == p.(callers := p.callers[c := Copied(now, p.nextSlot)])
      case Copied(now, next) =>
        var slot := Slot(next, now);
        q == Pacer(slot + pace, NOBODY, p.callers[c := Sleeping(slot)], p.slots + [slot])
      case Sleeping(_) =>
        q == p.(callers := p.callers[c := Idle])
    }
  }

  ghost predicate InSection(caller: Caller)
  {
    caller.Holding? || caller.Clocked? || caller.Copied?
  }

  ghost predicate Invariant(p: Pacer, pace: int)
  {
    && Paced(p.slots, p.nextSlot, pace)
    && (forall c :: c in p.callers && InSection(p.callers[c]) ==> p.owner == c)
    && (forall c :: c in p.callers && p.callers[c].Copied? ==> p.callers[c].next == p.nextSlot)
    && (forall c :: c in p.callers && p.callers[c].Sleeping? ==> p.callers[c].slot in p.slots)
  }

  lemma StepKeepsInvariant(p: Pacer, q: Pacer, pace: int, c: nat, instant: int)
    requires Invariant(p, pace) && Step(p, q, pace, c, instant)
    ensures Invariant(q, pace)
    ensures |p.slots| <= |q.slots| && q.slots[..|p.slots|] == p.slots
  {
    hide Paced, Slot;
    if p.callers[c].Copied? { ReserveKeepsInvariant(p, q, pace, c, instant); }
  }

  /** The step that leaves the critical section. */
  lemma ReserveKeepsInvariant(p: Pacer, q: Pacer, pace: int, c: nat, instant: int)
    requires Invariant(p, pace) && Step(p, q, pace, c, instant) && p.callers[c].Copied?
    ensures Invariant(q, pace)
    ensures |p.slots| <= |q.slots| && q.slots[..|p.slots|] == p.slots
  {
    hide Paced, Slot;
    var slot := Slot(p.nextSlot, p.callers[c].now);
    ReserveKeepsPaced(p.slots, p.nextSlot, pace, p.callers[c].now);
    assert q.slots == p.slots + [slot] && slot in q.slots;
    assert forall d :: d in q.callers && d != c ==> q.callers[d] == p.callers[d] && !InSection(q.callers[d]);
  }

  ghost predicate Next(p: Pacer, q: Pacer, pace: int)
  {
    exists c: nat, instant: int :: Step(p, q, pace, c, instant)
  }

  ghost predicate Run(states: seq<Pacer>, pace: int)
  {
    && states != [] && pace > 0
    && Start(states[0])
    && forall i, j :: 0 <= i < |states| && j == i + 1 < |states| ==> Next(states[i], states[j], pace)
  }

  lemma {:induction false} RunKeepsInvariant(states: seq<Pacer>, pace: int, k: nat)
    requires Run(states, pace) && k < |states|
    ensures Invariant(states[k], pace)
  {
    if k > 0 {
      RunKeepsInvariant(states, pace, k - 1);
      assert Next(states[k - 1], states[k], pace);
      var c: nat, instant: int :| Step(states[k - 1], states[k], pace, c, instant);
      StepKeepsInvariant(states[k - 1], states[k], pace, c, instant);
    }
  }

  // ---------- reservations in a window ----------

  function InWindow(slots: seq<int>, from: int, width: int): nat
  {
    if slots == [] then 0
    else InWindow(slots[..|slots| - 1], from, width)
         + (if from <= slots[|slots| - 1] < from + width then 1 else 0)
  }

  function CeilDiv(a: int, b: int): int
    requires b > 0
  {
    (a + b - 1) / b
  }

  /** The count is witnessed by a first and a last slot that many places apart. */
  lemma {:induction false} WindowSpan(slots: seq<int>, from: int, width: int, pace: int)
      returns (first: nat, last: nat)
    requires pace > 0 && Spaced(slots, pace) && InWindow(slots, from, width) > 0
    ensures first <= last < |slots| && last - first >= InWindow(slots, from, width) - 1
    ensures from <= slots[first] && slots[last] < from + width
  {
    var n := |slots| - 1;
    var front := slots[..n];
    if InWindow(front, from, width) == 0 {
      first, last := n, n;
    } else {
      first, last := WindowSpan(front, from, width, pace);
      if from <= slots[n] < from + width {
        last := n;
      }
    }
  }

  lemma SpacedWindowBound(slots: seq<int>, from: int, width: int, pace: int)
    requires pace > 0 && width >= 0 && Spaced(slots, pace)
    ensures InWindow(slots, from, width) <= CeilDiv(width, pace)
  {
    var k := InWindow(slots, from, width);
    if k > 0 {
      var first, last := WindowSpan(slots, from, width, pace);
      assert slots[last] - slots[first] >= (last - first) * pace;
      MultiplyMonotone(k - 1, last - first, pace);
      CeilDivAbove(k, width, pace);
    } else {
      CeilDivAbove(1, width, pace);
      DivisionFloor(width + pace - 1, pace);
    }
  }

  lemma MultiplyMonotone(a: int, b: int, c: int)
    requires a <= b && c > 0
    ensures a * c <= b * c
  {
  }

  lemma DivisionFloor(a: int, b: int)
    requires a >= 0 && b > 0
    ensures a / b >= 0
  {
  }

  lemma CeilDivAbove(k: int, width: int, pace: int)
    requires pace > 0
    ensures (k - 1) * pace < width ==> k <= CeilDiv(width, pace)
  {
    var q := CeilDiv(width, pace);
    if k > q {
      MultiplyMonotone(q, k - 1, pace);
      assert (q + 1) * pace == q * pace + pace;
    }
  }

  /** Over every run of any number of interleaved callers with any clock readings, every
      half-open window holds at most ceil(width / pace) reservations. */
  lemma ReservationsPerWindow(states: seq<Pacer>, pace: int, k: nat, from: int, width: nat)
    requires Run(states, pace) && k < |states|
    ensures InWindow(states[k].slots, from, width) <= CeilDiv(width, pace)
  {
    RunKeepsInvariant(states, pace, k);
    SpacedWindowBound(states[k].slots, from, width, pace);
  }

  /** At the default pace a minute holds at most 93 reservations, under the peer limit of 120. */
  lemma DefaultPaceStaysUnderPeerLimit(states: seq<Pacer>, k: nat, from: int)
    requires Run(states, DEFAULT_PACE) && k < |states|
    ensures InWindow(states[k].slots, from, MINUTE) <= 93 < PEER_LIMIT
  {
    ReservationsPerWindow(states, DEFAULT_PACE, k, from, MINUTE);
    DefaultPaceArithmetic(DEFAULT_PACE);
  }

  lemma DefaultPaceArithmetic(pace: int)
    requires pace == DEFAULT_PACE
    ensures CeilDiv(MINUTE, pace) == 93
  {
    assert MINUTE + pace - 1 == 93 * pace + 199_999_999;
  }

  // ---------- the bound is reached ----------

  lemma {:induction false} FullWindow(slots: seq<int>, from: int, pace: int, width: int)
    requires pace > 0 && (|slots| - 1) * pace < width
    requires forall i :: 0 <= i < |slots| ==> slots[i] == from + i * pace
    ensures InWindow(slots, from, width) == |slots|
  {
    if slots != [] {
      var n := |slots| - 1;
      assert (n - 1) * pace == n * pace - pace;
      MultiplyMonotone(0, n, pace);
      FullWindow(slots[..n], from, pace, width);
    }
  }

  lemma RunSnoc(states: seq<Pacer>, pace: int, c: nat, instant: int, q: Pacer)
    requires Run(states, pace) && Step(states[|states| - 1], q, pace, c, instant)
    ensures Run(states + [q], pace)
  {
    hide Step;
    var longer := states + [q];
    forall i, j | 0 <= i < |longer| && j == i + 1 < |longer| ensures Next(longer[i], longer[j], pace) {
      if j < |states| { assert Next(states[i], states[j], pace); }
    }
  }

  /** One caller alone, between two calls. */
  function Resting(nextSlot: int, slots: seq<int>): Pacer
  {
    Pacer(nextSlot, NOBODY, map[0 := Idle], slots)
  }

  /** One call of that caller at the very instant that is free next. */
  lemma OneCall(states: seq<Pacer>, pace: int, at: int, slots: seq<int>) returns (longer: seq<Pacer>)
    requires Run(states, pace) && states[|states| - 1] == Resting(at, slots)
    ensures Run(longer, pace) && longer[|longer| - 1] == Resting(at + pace, slots + [at])
  {
    hide Run;
    var holding := Pacer(at, 0, map[0 := Holding], slots);
    var clocked := Pacer(at, 0, map[0 := Clocked(at)], slots);
    var copied := Pacer(at, 0, map[0 := Copied(at, at)], slots);
    var sleeping := Pacer(at + pace, NOBODY, map[0 := Sleeping(at)], slots + [at]);
    longer := Extend(states, pace, at, holding);
    longer := Extend(longer, pace, at, clocked);
    longer := Extend(longer, pace, at, copied);
    longer := Extend(longer, pace, at, sleeping);
    longer := Extend(longer, pace, at, Resting(at + pace, slots + [at]));
  }

  lemma Extend(states: seq<Pacer>, pace: int, instant: int, q: Pacer) returns (longer: seq<Pacer>)
    requires Run(states, pace) && Step(states[|states| - 1], q, pace, 0, instant)
    ensures Run(longer, pace) && longer != [] && longer[|longer| - 1] == q
  {
    RunSnoc(states, pace, 0, instant, q);
    longer := states + [q];
  }

  lemma {:induction false} BackToBack(from: int, pace: int, n: nat) returns (states: seq<Pacer>, slots: seq<int>)
    requires pace > 0
    ensures Run(states, pace) && states[|states| - 1] == Resting(from + n * pace, slots)
    ensures |slots| == n && forall i :: 0 <= i < n ==> slots[i] == from + i * pace
  {
    if n == 0 {
      states, slots := [Resting(from, [])], [];
    } else {
      states, slots := BackToBack(from, pace, n - 1);
      states := OneCall(states, pace, from + (n - 1) * pace, slots);
      assert n * pace == (n - 1) * pace + pace;
      slots := slots + [from + (n - 1) * pace];
    }
  }

  lemma CeilDivBelow(width: nat, pace: int)
    requires pace > 0
    ensures CeilDiv(width, pace) >= 0 && (CeilDiv(width, pace) - 1) * pace < width
  {
    var q := CeilDiv(width, pace);
    DivisionFloor(width + pace - 1, pace);
    assert q * pace <= width + pace - 1;
    assert (q - 1) * pace == q * pace - pace;
  }

  /** The bound is exact for every pace, window and instant: some run holds that many reservations in
      the window. */
  lemma BoundIsTight(from: int, width: nat, pace: int) returns (states: seq<Pacer>)
    requires pace > 0
    ensures Run(states, pace)
    ensures InWindow(states[|states| - 1].slots, from, width) == CeilDiv(width, pace)
  {
    hide Run;
    CeilDivBelow(width, pace);
    var slots;
    states, slots := BackToBack(from, pace, CeilDiv(width, pace));
    FullWindow(slots, from, pace, width);
  }
}
