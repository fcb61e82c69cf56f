/** The order in which `update` (collisionEngine/main.cpp) visits the balls of one frame:
    for each ball in index order, its own gravity and integration step, then its collision
    check against every later ball. Events name the balls by index; the effect of each event
    on the balls' values is in `CollisionEngine`. */
module UpdateOrder {

  /** One step of `update`: ball `i`'s own gravity and integration, or the collision check
      of the pair (i, j). */
  datatype Event = Advance(i: nat) | Meet(i: nat, j: nat)

  predicate ValidEvent(e: Event, n: nat)
  {
    match e
    case Advance(i) => i < n
    case Meet(i, j) => i < j < n
  }

  /** The pair checks of ball `i` against balls i+1 .. end-1, in order. */
  function Pairs(i: nat, end: nat): seq<Event>
    decreases end
  {
    if end <= i + 1 then [] else Pairs(i, end - 1) + [Meet(i, end - 1)]
  }

  lemma {:induction false} PairsStep(i: nat, j: nat)
    requires i < j
    ensures Pairs(i, j + 1) == Pairs(i, j) + [Meet(i, j)]
  {
  }

  lemma {:induction false} PairsValid(i: nat, end: nat)
    ensures forall e | e in Pairs(i, end) :: e.Meet? && e.i == i && i < e.j < end
    decreases end
  {
    if end > i + 1 {
      PairsValid(i, end - 1);
    }
  }

  /** The order in which `update` works through `n` balls, up to (not including) ball `m`:
      for each ball, its own step and then its pair checks against every later ball. */
  function Schedule(m: nat, n: nat): seq<Event>
    requires m <= n
  {
    if m == 0 then [] else Schedule(m - 1, n) + [Advance(m - 1)] + Pairs(m - 1, n)
  }

  /** Every event of the schedule up to ball `m` concerns two valid balls, the lower one
      below `m`. */
  lemma {:induction false} ScheduleValid(m: nat, n: nat)
    requires m <= n
    ensures forall e | e in Schedule(m, n) :: ValidEvent(e, n) && e.i < m
  {
    if m > 0 {
      ScheduleValid(m - 1, n);
      PairsValid(m - 1, n);
    }
  }

  /** How many times `e` occurs in `es`. */
  function Occurrences(es: seq<Event>, e: Event): nat
  {
    if es == [] then 0 else Occurrences(es[..|es| - 1], e) + (if es[|es| - 1] == e then 1 else 0)
  }

  lemma {:induction false} OccurrencesAppend(a: seq<Event>, b: seq<Event>, e: Event)
    ensures Occurrences(a + b, e) == Occurrences(a, e) + Occurrences(b, e)
    decreases |b|
  {
    if b != [] {
      OccurrencesAppend(a, b[..|b| - 1], e);
      assert (a + b)[..|a + b| - 1] == a + b[..|b| - 1];
    } else {
      assert a + b == a;
    }
  }

  lemma {:induction false} PairsCount(i: nat, end: nat, k: nat, j: nat)
    ensures Occurrences(Pairs(i, end), Meet(k, j)) == if k == i && i < j < end then 1 else 0
    decreases end
  {
    if end > i + 1 {
      PairsCount(i, end - 1, k, j);
      OccurrencesAppend(Pairs(i, end - 1), [Meet(i, end - 1)], Meet(k, j));
    }
  }

  lemma {:induction false} PairsHaveNoAdvance(i: nat, end: nat, k: nat)
    ensures Occurrences(Pairs(i, end), Advance(k)) == 0
    decreases end
  {
    if end > i + 1 {
      PairsHaveNoAdvance(i, end - 1, k);
      OccurrencesAppend(Pairs(i, end - 1), [Meet(i, end - 1)], Advance(k));
    }
  }

  /** Counting over a sequence split around one event. */
  lemma OccurrencesAround(a: seq<Event>, x: Event, b: seq<Event>, e: Event)
    ensures Occurrences(a + [x] + b, e) == Occurrences(a, e) + Occurrences(b, e) + if x == e then 1 else 0
  {
    OccurrencesAppend(a + [x], b, e);
    OccurrencesAppend(a, [x], e);
    assert [x][..0] == [];
  }

  /** One more ball's turn adds its own step and no other ball's. */
  lemma AdvanceStep(prior: seq<Event>, pairs: seq<Event>, m: nat, i: nat)
    requires 0 < m
    requires Occurrences(prior, Advance(i)) == if i < m - 1 then 1 else 0
    requires Occurrences(pairs, Advance(i)) == 0
    ensures Occurrences(prior + [Advance(m - 1)] + pairs, Advance(i)) == if i < m then 1 else 0
  {
    OccurrencesAround(prior, Advance(m - 1), pairs, Advance(i));
  }

  lemma {:induction false} AdvanceCount(m: nat, n: nat, i: nat)
    requires m <= n
    ensures Occurrences(Schedule(m, n), Advance(i)) == if i < m then 1 else 0
  {
    if m > 0 {
      AdvanceCount(m - 1, n, i);
      PairsHaveNoAdvance(m - 1, n, i);
      AdvanceStep(Schedule(m - 1, n), Pairs(m - 1, n), m, i);
    }
  }

  /** One more ball's turn adds the checks of its own pairs and of no other pair. */
  lemma MeetStep(prior: seq<Event>, pairs: seq<Event>, m: nat, n: nat, i: nat, j: nat)
    requires 0 < m && i < j < n
    requires Occurrences(prior, Meet(i, j)) == if i < m - 1 then 1 else 0
    requires Occurrences(pairs, Meet(i, j)) == if i == m - 1 && m - 1 < j < n then 1 else 0
    ensures Occurrences(prior + [Advance(m - 1)] + pairs, Meet(i, j)) == if i < m then 1 else 0
  {
    OccurrencesAround(prior, Advance(m - 1), pairs, Meet(i, j));
  }

  lemma {:induction false} MeetCount(m: nat, n: nat, i: nat, j: nat)
    requires m <= n && i < j < n
    ensures Occurrences(Schedule(m, n), Meet(i, j)) == if i < m then 1 else 0
  {
    if m > 0 {
      MeetCount(m - 1, n, i, j);
      PairsCount(m - 1, n, i, j);
      MeetStep(Schedule(m - 1, n), Pairs(m - 1, n), m, n, i, j);
    }
  }

  /** `update` advances every ball exactly once and checks every unordered pair exactly once,
      with the lower index first; nothing else is in its schedule. */
  lemma UpdateVisitsEachOnce(n: nat)
    ensures forall i | 0 <= i < n :: Occurrences(Schedule(n, n), Advance(i)) == 1
    ensures forall i, j | 0 <= i < j < n :: Occurrences(Schedule(n, n), Meet(i, j)) == 1
    ensures forall e | e in Schedule(n, n) :: ValidEvent(e, n)
  {
    ScheduleValid(n, n);
    forall i | 0 <= i < n ensures Occurrences(Schedule(n, n), Advance(i)) == 1 {
      AdvanceCount(n, n, i);
    }
    forall i, j | 0 <= i < j < n ensures Occurrences(Schedule(n, n), Meet(i, j)) == 1 {
      MeetCount(n, n, i, j);
    }
  }
}
