/**
  Audio buffers for the realtime thread.  The engine keeps free buffers in a linked
  list and asks for more by raising `needed`; the other thread builds a chain of new
  ones in `tick` and publishes it through `firstNew`; the engine splices it in `run`.

  Every load and store of a shared variable is a step of its own, so that a run is any
  interleaving of the two threads.  Buffers are numbered from 1 and 0 is null.
 */
module BufferManagers {

  /** How many free buffers the engine wants to have. */
  const FREE_BUFFERS_WANTED: nat := 50

  /** Where the engine is in `run`. */
  datatype Engine = EngineIdle | SawChain | LinkedLast | TookFirst | Counted | Subtracted | CheckingLevel

  /** Where the other thread is in `tick`. */
  datatype Ticker =
    | TickerIdle
    | SawNeed                                      // needed_new_buffers was not zero
    | SawNoChain                                   // and first_new_buffer was null
    | ResetCount
    | WillBuild(count: int)
    | Building(count: int, left: int, prev: nat)
    | PublishedCount(prev: nat)

  datatype State = State(
    next: map<nat, nat>, numAllocated: nat,
    firstFree: nat, numFree: int, hadOverrun: bool,
    needed: int, numNew: int, firstNew: nat, lastNew: nat,
    engine: Engine, ticker: Ticker,
    // What the pointers stand for: the free list, the new chain, and the buffers in use;
    // and how many chains were spliced in whose count was zero.
    free: seq<nat>, chain: seq<nat>, borrowed: set<nat>, uncounted: nat)

  datatype Step =
    // the engine
    | GetBuffer | FreeBuffer(buffer: nat)
    | LookForChain | LinkLast | TakeFirst | AddCount | SubtractNeed | ClearFirst | CheckLevel
    // the other thread
    | LookForNeed | LookForNoChain | ZeroCount | ReadNeed | AllocateLast | AllocateNext | StoreCount | StoreFirst

  ghost predicate Enabled(s: State, step: Step) {
    match step
    case GetBuffer => s.engine == EngineIdle
    case FreeBuffer(buffer) => s.engine == EngineIdle && (buffer == 0 || buffer in s.borrowed)
    case LookForChain => s.engine == EngineIdle
    case LinkLast => s.engine == SawChain
    case TakeFirst => s.engine == LinkedLast
    case AddCount => s.engine == TookFirst
    case SubtractNeed => s.engine == Counted
    case ClearFirst => s.engine == Subtracted
    case CheckLevel => s.engine == CheckingLevel
    case LookForNeed => s.ticker == TickerIdle
    case LookForNoChain => s.ticker == SawNeed
    case ZeroCount => s.ticker == SawNoChain
    case ReadNeed => s.ticker == ResetCount
    case AllocateLast => s.ticker.WillBuild?
    case AllocateNext => s.ticker.Building? && s.ticker.left > 0
    case StoreCount => s.ticker.Building? && s.ticker.left <= 0
    case StoreFirst => s.ticker.PublishedCount?
  }

  ghost function Next(s: State, step: Step): State
    requires Enabled(s, step)
  {
    match step
    case GetBuffer =>
      if s.firstFree == 0 then s.(hadOverrun := true)
      else
        s.(firstFree := NextOf(s, s.firstFree), numFree := s.numFree - 1,
        free := if s.free == [] then [] else s.free[1..], borrowed := s.borrowed + {s.firstFree})
    case FreeBuffer(buffer) =>
      if buffer == 0 then s
      else
        s.(next := s.next[buffer := s.firstFree], firstFree := buffer, numFree := s.numFree + 1,
        free := [buffer] + s.free, borrowed := s.borrowed - {buffer})
    case LookForChain => s.(engine := if s.firstNew != 0 then SawChain else CheckingLevel)
    case LinkLast => s.(engine := LinkedLast, next := s.next[s.lastNew := s.firstFree])
    case TakeFirst =>
      s.(engine := TookFirst, firstFree := s.firstNew, free := s.chain + s.free, chain := [],
      uncounted := if s.numNew == 0 then s.uncounted + 1 else s.uncounted)
    case AddCount => s.(engine := Counted, numFree := s.numFree + s.numNew)
    case SubtractNeed => s.(engine := Subtracted, needed := s.needed - s.numNew)
    case ClearFirst => s.(engine := CheckingLevel, firstNew := 0)
    case CheckLevel =>
      s.(engine := EngineIdle,
      needed := if s.numFree < FREE_BUFFERS_WANTED then s.needed + FREE_BUFFERS_WANTED else s.needed)
    case LookForNeed => if s.needed != 0 then s.(ticker := SawNeed) else s
    case LookForNoChain => s.(ticker := if s.firstNew == 0 then SawNoChain else TickerIdle)
    case ZeroCount => s.(ticker := ResetCount, numNew := 0)
    case ReadNeed => s.(ticker := WillBuild(s.needed))
    case AllocateLast =>
      var node := s.numAllocated + 1;
      s.(numAllocated := node, lastNew := node, chain := [node],
      ticker := Building(s.ticker.count, s.ticker.count - 1, node))
    case AllocateNext =>
      var node := s.numAllocated + 1;
      s.(numAllocated := node, next := s.next[node := s.ticker.prev], chain := [node] + s.chain,
      ticker := Building(s.ticker.count, s.ticker.left - 1, node))
    case StoreCount => s.(numNew := s.ticker.count, ticker := PublishedCount(s.ticker.prev))
    case StoreFirst => s.(firstNew := s.ticker.prev, ticker := TickerIdle)
  }

  function NextOf(s: State, buffer: nat): nat {
    if buffer in s.next then s.next[buffer] else 0
  }

  const Initial := State(map[], 0, 0, 0, false, 0, 0, 0, 0, EngineIdle, TickerIdle, [], [], {}, 0)

  // ---------------------------------------------------------------- the invariant

  /** `nodes` is the list that starts at `first`, link by link, up to its last node. */
  ghost predicate Links(next: map<nat, nat>, first: nat, nodes: seq<nat>) {
    && nodes != [] && first == nodes[0]
    && forall i :: 0 <= i < |nodes| - 1 ==> nodes[i] in next && next[nodes[i]] == nodes[i + 1]
  }

  /** `nodes` is the null-terminated list that starts at `first`. */
  ghost predicate IsList(next: map<nat, nat>, first: nat, nodes: seq<nat>) {
    if nodes == [] then first == 0
    else Links(next, first, nodes) && nodes[|nodes| - 1] in next && next[nodes[|nodes| - 1]] == 0
  }

  ghost predicate Distinct(nodes: seq<nat>) {
    forall i, j :: 0 <= i < j < |nodes| ==> nodes[i] != nodes[j]
  }

  /** Every buffer is in the free list, in the chain, or in use, and in only one of them. */
  ghost predicate Partitioned(free: seq<nat>, chain: seq<nat>, borrowed: set<nat>, count: nat) {
    && Distinct(free) && Distinct(chain)
    && (forall b :: b in free ==> b !in chain)
    && (forall b :: b in free || b in chain ==> b !in borrowed)
    && (forall b :: b in free || b in chain || b in borrowed <==> 1 <= b <= count)
  }

  function AtLeastOne(count: int): int {
    if count < 1 then 1 else count
  }

  /** The new chain runs from `first` to `lastNew`. */
  ghost predicate ChainOf(next: map<nat, nat>, chain: seq<nat>, lastNew: nat, first: nat) {
    Links(next, first, chain) && chain[|chain| - 1] == lastNew
  }

  ghost predicate Inv(s: State) {
    && Partitioned(s.free, s.chain, s.borrowed, s.numAllocated)
    && IsList(s.next, s.firstFree, s.free)
    && |s.free| == s.numFree + s.uncounted + (if s.engine == TookFirst then s.numNew else 0)
    && 0 <= s.needed
    && (if s.firstNew == 0 then WhileBuilding(s) else WhilePublished(s))
  }

  ghost predicate WhileBuilding(s: State) {
    && (s.engine == EngineIdle || s.engine == CheckingLevel)
    && match s.ticker
       case WillBuild(count) => s.chain == [] && 0 <= count <= s.needed
       case Building(count, left, prev) =>
         && 0 <= count <= s.needed && ChainOf(s.next, s.chain, s.lastNew, prev)
         && |s.chain| + (if left < 0 then 0 else left) == AtLeastOne(count)
       case PublishedCount(prev) =>
         0 <= s.numNew <= s.needed && ChainOf(s.next, s.chain, s.lastNew, prev) && |s.chain| == AtLeastOne(s.numNew)
       case _ => s.chain == []
  }

  ghost predicate WhilePublished(s: State) {
    && (s.ticker == TickerIdle || s.ticker == SawNeed)
    && 0 <= s.numNew && (s.engine != Subtracted ==> s.numNew <= s.needed)
    && if s.engine == TookFirst || s.engine == Counted || s.engine == Subtracted then s.chain == []
       else
         && (if s.engine == LinkedLast then
               Links(s.next, s.firstNew, s.chain) && s.chain[|s.chain| - 1] == s.lastNew
               && s.lastNew in s.next && s.next[s.lastNew] == s.firstFree
             else ChainOf(s.next, s.chain, s.lastNew, s.firstNew))
         && |s.chain| == AtLeastOne(s.numNew)
  }

  lemma EngineKeepsInv(s: State, step: Step)
    requires Inv(s) && Enabled(s, step)
    requires step.LookForChain? || step.AddCount? || step.SubtractNeed? || step.ClearFirst? || step.CheckLevel?
    ensures Inv(Next(s, step))
  {
    hide Partitioned, IsList, ChainOf, Links;
  }

  /** Linking a node outside the free list leaves the free list alone. */
  lemma ListIsUntouched(next: map<nat, nat>, first: nat, nodes: seq<nat>, other: nat, to: nat)
    requires IsList(next, first, nodes) && other !in nodes
    ensures IsList(next[other := to], first, nodes)
  {
    assert forall i :: 0 <= i < |nodes| ==> nodes[i] in nodes;
  }

  lemma LinkKeepsInv(s: State)
    requires Inv(s) && Enabled(s, LinkLast)
    ensures Inv(Next(s, LinkLast))
  {
    hide IsList;
    assert s.lastNew in s.chain;
    ListIsUntouched(s.next, s.firstFree, s.free, s.lastNew, s.firstFree);
    assert forall i :: 0 <= i < |s.free| ==> s.free[i] in s.free;
  }

  lemma GetKeepsInv(s: State)
    requires Inv(s) && Enabled(s, GetBuffer)
    ensures Inv(Next(s, GetBuffer))
  {
    hide Partitioned, IsList, ChainOf;
    FirstOfFree(s.next, s.firstFree, s.free);
    if s.free != [] {
      TakenFromFree(s.free, s.chain, s.borrowed, s.numAllocated);
    }
  }

  /** The list is empty if and only if it starts at null; otherwise it goes on after its first node. */
  lemma FirstOfFree(next: map<nat, nat>, first: nat, nodes: seq<nat>)
    requires IsList(next, first, nodes)
    ensures nodes == [] ==> first == 0
    ensures nodes != [] ==> first == nodes[0] && first in next && IsList(next, next[first], nodes[1..])
  {
  }

  lemma NoNull(free: seq<nat>, chain: seq<nat>, borrowed: set<nat>, count: nat)
    requires Partitioned(free, chain, borrowed, count)
    ensures free != [] ==> free[0] != 0
  {
    assert free != [] ==> free[0] in free;
  }

  lemma TakenFromFree(free: seq<nat>, chain: seq<nat>, borrowed: set<nat>, count: nat)
    requires Partitioned(free, chain, borrowed, count) && free != []
    ensures Partitioned(free[1..], chain, borrowed + {free[0]}, count) && free[0] != 0
  {
    assert free == [free[0]] + free[1..];
    assert forall b :: b in free <==> b == free[0] || b in free[1..];
  }

  lemma ListGrows(next: map<nat, nat>, first: nat, nodes: seq<nat>, node: nat)
    requires IsList(next, first, nodes) && node !in nodes
    ensures IsList(next[node := first], node, [node] + nodes)
  {
    ListIsUntouched(next, first, nodes, node, first);
    assert forall i :: 0 < i < |[node] + nodes| ==> ([node] + nodes)[i] == nodes[i - 1];
  }

  lemma ReturnedToFree(free: seq<nat>, chain: seq<nat>, borrowed: set<nat>, count: nat, buffer: nat)
    requires Partitioned(free, chain, borrowed, count) && buffer in borrowed
    ensures Partitioned([buffer] + free, chain, borrowed - {buffer}, count) && buffer !in free && buffer !in chain
  {
    assert forall b :: b in [buffer] + free <==> b == buffer || b in free;
  }

  /** Only the chain's own links matter. */
  lemma ChainIsUntouched(next: map<nat, nat>, chain: seq<nat>, lastNew: nat, first: nat, other: nat, to: nat)
    requires ChainOf(next, chain, lastNew, first) && other !in chain
    ensures ChainOf(next[other := to], chain, lastNew, first)
  {
    assert forall i :: 0 <= i < |chain| ==> chain[i] in chain;
  }

  lemma FreeKeepsInv(s: State, buffer: nat)
    requires Inv(s) && Enabled(s, FreeBuffer(buffer))
    ensures Inv(Next(s, FreeBuffer(buffer)))
  {
    hide Partitioned, IsList, ChainOf;
    if buffer != 0 {
      ReturnedToFree(s.free, s.chain, s.borrowed, s.numAllocated, buffer);
      ListGrows(s.next, s.firstFree, s.free, buffer);
      if ChainOf(s.next, s.chain, s.lastNew, s.firstNew) {
        ChainIsUntouched(s.next, s.chain, s.lastNew, s.firstNew, buffer, s.firstFree);
      }
      if s.ticker.Building? && ChainOf(s.next, s.chain, s.lastNew, s.ticker.prev) {
        ChainIsUntouched(s.next, s.chain, s.lastNew, s.ticker.prev, buffer, s.firstFree);
      }
      if s.ticker.PublishedCount? && ChainOf(s.next, s.chain, s.lastNew, s.ticker.prev) {
        ChainIsUntouched(s.next, s.chain, s.lastNew, s.ticker.prev, buffer, s.firstFree);
      }
    }
  }

  lemma TakeKeepsInv(s: State)
    requires Inv(s) && Enabled(s, TakeFirst)
    ensures Inv(Next(s, TakeFirst))
  {
    var s' := Next(s, TakeFirst);
    assert forall b :: b in s'.free <==> b in s.chain || b in s.free;
    forall i, j | 0 <= i < j < |s'.free|
      ensures s'.free[i] != s'.free[j]
    {
      if i < |s.chain| <= j {
        assert s.chain[i] in s.chain && s.free[j - |s.chain|] in s.free;
      }
    }
  }

  lemma TickerKeepsInv(s: State, step: Step)
    requires Inv(s) && Enabled(s, step)
    requires step.LookForNeed? || step.LookForNoChain? || step.ZeroCount? || step.ReadNeed? || step.StoreCount? || step.StoreFirst?
    ensures Inv(Next(s, step))
  {
    hide IsList;
    assert s.chain != [] ==> s.chain[0] in s.chain;
  }

  /** A new buffer goes in the chain. */
  lemma AllocatedIsNew(free: seq<nat>, chain: seq<nat>, borrowed: set<nat>, count: nat)
    requires Partitioned(free, chain, borrowed, count)
    ensures Partitioned(free, [count + 1] + chain, borrowed, count + 1) && count + 1 !in free && count + 1 !in chain
  {
    var node, chain' := count + 1, [count + 1] + chain;
    assert forall b :: b in chain' <==> b == node || b in chain;
    assert forall b :: b in free || b in chain || b in borrowed ==> b < node;
    assert forall i :: 0 <= i < |chain| ==> chain[i] in chain;
  }

  lemma ChainGrows(next: map<nat, nat>, chain: seq<nat>, lastNew: nat, first: nat, node: nat)
    requires ChainOf(next, chain, lastNew, first) && node !in chain
    ensures ChainOf(next[node := first], [node] + chain, lastNew, node)
  {
    var chain' := [node] + chain;
    forall i | 0 <= i < |chain'| - 1
      ensures chain'[i] in next[node := first] && next[node := first][chain'[i]] == chain'[i + 1]
    {
      if i > 0 {
        assert chain[i - 1] in chain;
      }
    }
  }

  lemma ChainOfOne(next: map<nat, nat>, node: nat)
    ensures ChainOf(next, [node], node, node)
  {
  }

  lemma AllocateKeepsInv(s: State, step: Step)
    requires Inv(s) && Enabled(s, step) && (step.AllocateLast? || step.AllocateNext?)
    ensures Inv(Next(s, step))
  {
    hide Partitioned, IsList, ChainOf;
    var node := s.numAllocated + 1;
    NoPublished(s);
    AllocatedIsNew(s.free, s.chain, s.borrowed, s.numAllocated);
    if step.AllocateLast? {
      ChainOfOne(s.next, node);
      assert [node] + s.chain == [node];
    } else {
      ChainGrows(s.next, s.chain, s.lastNew, s.ticker.prev, node);
      ListIsUntouched(s.next, s.firstFree, s.free, node, s.ticker.prev);
    }
  }

  /** Nothing is published while the other thread builds. */
  lemma NoPublished(s: State)
    requires Inv(s) && (s.ticker.WillBuild? || s.ticker.Building? || s.ticker.PublishedCount?)
    ensures s.firstNew == 0
  {
    hide Partitioned, IsList, ChainOf;
  }

  lemma StepKeepsInv(s: State, step: Step)
    requires Inv(s) && Enabled(s, step)
    ensures Inv(Next(s, step))
  {
    match step
    case GetBuffer => GetKeepsInv(s);
    case FreeBuffer(buffer) => FreeKeepsInv(s, buffer);
    case TakeFirst => TakeKeepsInv(s);
    case AllocateLast => AllocateKeepsInv(s, step);
    case AllocateNext => AllocateKeepsInv(s, step);
    case LookForChain => EngineKeepsInv(s, step);
    case LinkLast => LinkKeepsInv(s);
    case AddCount => EngineKeepsInv(s, step);
    case SubtractNeed => EngineKeepsInv(s, step);
    case ClearFirst => EngineKeepsInv(s, step);
    case CheckLevel => EngineKeepsInv(s, step);
    case _ => TickerKeepsInv(s, step);
  }

  // ---------------------------------------------------------------- whole runs

  /** `steps` can be taken one after the other from `s`. */
  ghost predicate CanRun(s: State, steps: seq<Step>)
    decreases |steps|, 0
  {
    steps == [] ||
    (var before := steps[..|steps| - 1];
     CanRun(s, before) && Enabled(RunFrom(s, before), steps[|steps| - 1]))
  }

  ghost function RunFrom(s: State, steps: seq<Step>): State
    requires CanRun(s, steps)
    decreases |steps|, 1
  {
    if steps == [] then s else Next(RunFrom(s, steps[..|steps| - 1]), steps[|steps| - 1])
  }

  lemma OneMore(s: State, steps: seq<Step>, step: Step)
    requires CanRun(s, steps) && Enabled(RunFrom(s, steps), step)
    ensures CanRun(s, steps + [step]) && RunFrom(s, steps + [step]) == Next(RunFrom(s, steps), step)
  {
    assert (steps + [step])[..|steps + [step]| - 1] == steps;
  }

  /** How often `tick` went on to build a chain although there was no need any more when it read the need again. */
  ghost function Stale(steps: seq<Step>): nat
    requires CanRun(Initial, steps)
  {
    if steps == [] then 0
    else
      var before := steps[..|steps| - 1];
      Stale(before) + (if steps[|steps| - 1] == ReadNeed && RunFrom(Initial, before).needed == 0 then 1 else 0)
  }

  /** There was no need the last time that `tick` read it again. */
  ghost predicate LastWasStale(steps: seq<Step>)
    requires CanRun(Initial, steps)
  {
    steps != [] &&
    (var before := steps[..|steps| - 1];
     if steps[|steps| - 1] == ReadNeed then RunFrom(Initial, before).needed == 0 else LastWasStale(before))
  }

  /** A chain is being built, or is published and not in the free list yet. */
  predicate OnItsWay(s: State) {
    || s.ticker.WillBuild? || s.ticker.Building? || s.ticker.PublishedCount?
    || (s.firstNew != 0 && s.engine != TookFirst && s.engine != Counted && s.engine != Subtracted)
  }

  /** How many buffers the chain on its way is said to have. */
  function Announced(s: State): int {
    match s.ticker
    case WillBuild(count) => count
    case Building(count, _, _) => count
    case _ => s.numNew
  }

  /** How many buffers are on their way in a chain that is said to have none. */
  function Coming(s: State): nat {
    if OnItsWay(s) && Announced(s) == 0 then 1 else 0
  }

  lemma StepCounts(s: State, step: Step)
    requires Inv(s) && Enabled(s, step)
    ensures var s' := Next(s, step);
            s'.uncounted + Coming(s') == s.uncounted + Coming(s) + (if step == ReadNeed && s.needed == 0 then 1 else 0)
    ensures var s' := Next(s, step);
            OnItsWay(s') ==>
              && (step == ReadNeed || OnItsWay(s))
              && (Coming(s') == 1 <==> if step == ReadNeed then s.needed == 0 else Coming(s) == 1)
    ensures s.uncounted <= Next(s, step).uncounted
  {
    hide Partitioned, IsList, ChainOf, Links;
    if step == StoreFirst {
      PublishesSomething(s);
    }
  }

  lemma PublishesSomething(s: State)
    requires Inv(s) && s.ticker.PublishedCount?
    ensures s.ticker.prev != 0 && s.firstNew == 0
  {
    hide IsList;
    assert s.chain != [] ==> s.chain[0] in s.chain;
  }

  lemma NothingToCount()
    ensures Initial.uncounted == 0 && Coming(Initial) == 0 && !OnItsWay(Initial) && Inv(Initial)
  {
  }

  /** The buffers never counted are the stale chains that have arrived. */
  lemma {:induction false} StaleAreUncounted(steps: seq<Step>)
    requires CanRun(Initial, steps)
    ensures var s := RunFrom(Initial, steps);
            && Inv(s) && s.uncounted + Coming(s) == Stale(steps)
            && (OnItsWay(s) ==> (Coming(s) == 1 <==> LastWasStale(steps)))
  {
    hide Inv, Coming, OnItsWay;
    NothingToCount();
    if steps != [] {
      var before := steps[..|steps| - 1];
      StaleAreUncounted(before);
      StepKeepsInv(RunFrom(Initial, before), steps[|steps| - 1]);
      StepCounts(RunFrom(Initial, before), steps[|steps| - 1]);
    }
  }

  /**
    Buffer hand-off, in every interleaving: a buffer is in one place only, the free
    list is well linked, `needed` never goes negative, and outside `run` the free list
    is longer than the counter says by just the stale chains, as far as they have
    arrived.  A chain that is published is linked from `firstNew` to `lastNew` and has
    as many distinct nodes as announced if and only if there was a need when it was read.
   */
  lemma HandOffIsSafe(steps: seq<Step>)
    requires CanRun(Initial, steps)
    ensures var s := RunFrom(Initial, steps);
            && Inv(s) && Partitioned(s.free, s.chain, s.borrowed, s.numAllocated) && IsList(s.next, s.firstFree, s.free) && 0 <= s.needed
            && (s.engine == EngineIdle ==> |s.free| + Coming(s) == s.numFree + Stale(steps))
            && (s.engine == EngineIdle && s.firstNew != 0 ==>
                  && ChainOf(s.next, s.chain, s.lastNew, s.firstNew) && Distinct(s.chain) && |s.chain| == AtLeastOne(s.numNew)
                  && (|s.chain| == s.numNew <==> !LastWasStale(steps)))
  {
    hide CanRun, RunFrom, Stale, LastWasStale;
    StaleAreUncounted(steps);
  }

  /**
    Outside `run` the counter is the length of the free list if and only if every
    stale chain is still on its way; so if nothing is on its way, if and only if no
    `tick` that built a chain found the need gone when it read it again.
   */
  lemma CountIsExact(steps: seq<Step>)
    requires CanRun(Initial, steps) && RunFrom(Initial, steps).engine == EngineIdle
    ensures var s := RunFrom(Initial, steps);
            && (s.numFree == |s.free| <==> Stale(steps) == Coming(s))
            && (Stale(steps) == 0 ==> s.numFree == |s.free|)
            && (!OnItsWay(s) ==> (s.numFree == |s.free| <==> Stale(steps) == 0))
  {
    hide CanRun, RunFrom, Stale, LastWasStale, Inv, Partitioned, IsList, ChainOf;
    HandOffIsSafe(steps);
    StaleAreUncounted(steps);
  }

  /** Buffers that are not counted are never counted: the free list stays at least as much longer, for good. */
  lemma {:induction false} DriftIsForGood(steps: seq<Step>, more: seq<Step>)
    requires CanRun(Initial, steps + more)
    ensures CanRun(Initial, steps)
    ensures var s, t := RunFrom(Initial, steps), RunFrom(Initial, steps + more);
            s.engine == t.engine == EngineIdle ==> |s.free| - s.numFree <= |t.free| - t.numFree
    decreases |more|
  {
    hide Inv, Partitioned, IsList, ChainOf, Next;
    NeverFewer(steps, more);
    StaleAreUncounted(steps);
    StaleAreUncounted(steps + more);
    if RunFrom(Initial, steps).engine == RunFrom(Initial, steps + more).engine == EngineIdle {
      LongerByUncounted(RunFrom(Initial, steps));
      LongerByUncounted(RunFrom(Initial, steps + more));
    }
  }

  /** A buffer was wanted when none was free. */
  ghost predicate RanOut(steps: seq<Step>)
    requires CanRun(Initial, steps)
  {
    steps != [] &&
    (var before := steps[..|steps| - 1];
     RanOut(before) || (steps[|steps| - 1] == GetBuffer && RunFrom(Initial, before).free == []))
  }

  lemma OverrunStep(s: State, step: Step)
    requires Inv(s) && Enabled(s, step)
    ensures Next(s, step).hadOverrun <==> s.hadOverrun || (step == GetBuffer && s.free == [])
  {
    hide ChainOf, WhileBuilding, WhilePublished;
    assert s.free != [] ==> s.free[0] in s.free;
  }

  /** An overrun is noted if and only if a buffer was wanted when none was free. */
  lemma {:induction false} OverrunIfEmpty(steps: seq<Step>)
    requires CanRun(Initial, steps)
    ensures RunFrom(Initial, steps).hadOverrun <==> RanOut(steps)
  {
    hide Inv, Next;
    if steps != [] {
      var before, step := steps[..|steps| - 1], steps[|steps| - 1];
      StaleAreUncounted(before);
      OverrunIfEmpty(before);
      OverrunStep(RunFrom(Initial, before), step);
    }
  }

  /** The last `run` found too few free buffers. */
  ghost predicate LastFoundFew(steps: seq<Step>)
    requires CanRun(Initial, steps)
  {
    steps != [] &&
    (var before := steps[..|steps| - 1];
     if steps[|steps| - 1] == CheckLevel then RunFrom(Initial, before).numFree < FREE_BUFFERS_WANTED else LastFoundFew(before))
  }

  /** The need when a `run` begins. */
  ghost function NeedAtRun(steps: seq<Step>): int
    requires CanRun(Initial, steps)
  {
    if steps == [] then 0
    else
      var before := steps[..|steps| - 1];
      if steps[|steps| - 1] == CheckLevel then RunFrom(Initial, before).needed else NeedAtRun(before)
  }

  lemma LevelStep(s: State, step: Step)
    requires Inv(s) && Enabled(s, step) && Next(s, step).engine == EngineIdle
    ensures step == CheckLevel || (s.engine == EngineIdle && Next(s, step).needed == s.needed)
    ensures step == CheckLevel ==>
              0 <= s.needed && Next(s, step).needed == s.needed + if s.numFree < FREE_BUFFERS_WANTED then FREE_BUFFERS_WANTED else 0
  {
    hide Partitioned, IsList, ChainOf, Links;
  }

  /**
    The engine asks for buffers in time.  If the last `run` found fewer free buffers than
    are wanted, as many as are wanted are needed at least, until the next one, whatever the
    other thread does; if it found enough, as many as before.
   */
  lemma {:induction false} FewRaisesNeed(steps: seq<Step>)
    requires CanRun(Initial, steps) && RunFrom(Initial, steps).engine == EngineIdle
    ensures RunFrom(Initial, steps).needed == NeedAtRun(steps) + if LastFoundFew(steps) then FREE_BUFFERS_WANTED else 0
    ensures LastFoundFew(steps) ==> RunFrom(Initial, steps).needed >= FREE_BUFFERS_WANTED
    ensures NeedAtRun(steps) >= 0
  {
    hide Inv, Next;
    if steps != [] {
      var before, step := steps[..|steps| - 1], steps[|steps| - 1];
      StaleAreUncounted(before);
      LevelStep(RunFrom(Initial, before), step);
      if step != CheckLevel {
        FewRaisesNeed(before);
      }
    }
  }

  lemma LongerByUncounted(s: State)
    requires Inv(s) && s.engine == EngineIdle
    ensures |s.free| - s.numFree == s.uncounted
  {
    hide Partitioned, IsList, ChainOf;
  }

  lemma {:induction false} NeverFewer(steps: seq<Step>, more: seq<Step>)
    requires CanRun(Initial, steps + more)
    ensures CanRun(Initial, steps) && RunFrom(Initial, steps).uncounted <= RunFrom(Initial, steps + more).uncounted
    decreases |more|
  {
    if more == [] {
      assert steps + more == steps;
    } else {
      var less := more[..|more| - 1];
      assert (steps + more)[..|steps + more| - 1] == steps + less;
      NeverFewer(steps, less);
      StaleAreUncounted(steps + less);
      StepCounts(RunFrom(Initial, steps + less), (steps + more)[|steps + more| - 1]);
    }
  }

  /** Building the rest of a chain. */
  lemma {:induction false} BuildsChain(s: State, steps: seq<Step>, left: nat) returns (steps': seq<Step>)
    requires CanRun(s, steps) && RunFrom(s, steps).ticker.Building? && RunFrom(s, steps).ticker.left == left
    ensures CanRun(s, steps') && RunFrom(s, steps').ticker.Building? && RunFrom(s, steps').ticker.left == 0
    ensures var t, t' := RunFrom(s, steps), RunFrom(s, steps');
            && t'.ticker.count == t.ticker.count && t'.lastNew == t.lastNew && |t'.chain| == |t.chain| + left
            && (t.ticker.prev != 0 ==> t'.ticker.prev != 0)
            && t' == t.(ticker := t'.ticker, numAllocated := t'.numAllocated, next := t'.next, chain := t'.chain)
    decreases left
  {
    steps' := steps;
    if left > 0 {
      OneMore(s, steps, AllocateNext);
      steps' := BuildsChain(s, steps + [AllocateNext], left - 1);
    }
  }

  lemma Do(steps: seq<Step>, step: Step) returns (steps': seq<Step>)
    requires CanRun(Initial, steps) && Enabled(RunFrom(Initial, steps), step)
    ensures steps' == steps + [step] && CanRun(Initial, steps')
    ensures RunFrom(Initial, steps') == Next(RunFrom(Initial, steps), step)
  {
    OneMore(Initial, steps, step);
    steps' := steps + [step];
  }

  /** The other thread builds and publishes a chain of `need` buffers, or one if there is no need any more. */
  lemma Builds(steps: seq<Step>) returns (steps': seq<Step>)
    requires CanRun(Initial, steps)
    requires var s := RunFrom(Initial, steps); s.ticker == SawNeed && s.firstNew == 0 && 0 <= s.needed
    ensures CanRun(Initial, steps')
    ensures var s, t := RunFrom(Initial, steps), RunFrom(Initial, steps');
            && t.firstNew != 0 && t.numNew == s.needed && |t.chain| == AtLeastOne(s.needed)
            && t == s.(ticker := TickerIdle, numNew := t.numNew, firstNew := t.firstNew, lastNew := t.lastNew,
                       numAllocated := t.numAllocated, next := t.next, chain := t.chain)
  {
    hide CanRun, RunFrom;
    steps' := Do(steps, LookForNoChain);
    steps' := Do(steps', ZeroCount);
    steps' := Do(steps', ReadNeed);
    steps' := Do(steps', AllocateLast);
    if RunFrom(Initial, steps).needed > 0 {
      steps' := BuildsChain(Initial, steps', RunFrom(Initial, steps).needed - 1);
    }
    steps' := Do(steps', StoreCount);
    steps' := Do(steps', StoreFirst);
  }

  /** The engine splices the published chain into its free list. */
  lemma Splices(steps: seq<Step>) returns (steps': seq<Step>)
    requires CanRun(Initial, steps)
    requires var s := RunFrom(Initial, steps); s.engine == EngineIdle && s.firstNew != 0
    requires var s := RunFrom(Initial, steps); s.numFree + s.numNew >= FREE_BUFFERS_WANTED
    ensures CanRun(Initial, steps')
    ensures var s, t := RunFrom(Initial, steps), RunFrom(Initial, steps');
            && t.engine == EngineIdle && t.ticker == s.ticker && t.firstNew == 0
            && |t.free| == |s.free| + |s.chain| && t.numFree == s.numFree + s.numNew && t.needed == s.needed - s.numNew
  {
    hide CanRun, RunFrom;
    steps' := Do(steps, LookForChain);
    steps' := Do(steps', LinkLast);
    steps' := Do(steps', TakeFirst);
    steps' := Do(steps', AddCount);
    steps' := Do(steps', SubtractNeed);
    steps' := Do(steps', ClearFirst);
    steps' := Do(steps', CheckLevel);
  }

  /**
    The count can go wrong.  The other thread sees a need while a chain is waiting;
    before it looks at the chain the engine splices that chain in and the need drops
    to zero.  The other thread then builds a chain of one buffer and counts none.
   */
  lemma StaleNeedMiscounts() returns (steps: seq<Step>)
    ensures CanRun(Initial, steps)
    ensures var s := RunFrom(Initial, steps);
            s.engine == EngineIdle && s.ticker == TickerIdle && |s.free| == s.numFree + 1
  {
    hide CanRun, RunFrom;
    steps := [];
    assert CanRun(Initial, steps) && RunFrom(Initial, steps) == Initial by {
      Start();
    }
    steps := Do(steps, LookForChain);
    steps := Do(steps, CheckLevel);
    steps := Do(steps, LookForNeed);
    steps := Builds(steps);
    steps := Do(steps, LookForNeed);
    steps := Splices(steps);
    steps := Builds(steps);
    steps := Splices(steps);
  }

  lemma Start()
    ensures CanRun(Initial, []) && RunFrom(Initial, []) == Initial
  {
  }

  // ---------------------------------------------------------------- the manager object

  /** The engine's steps in `run`, one after the other. */
  ghost function Spliced(s: State): State {
    if s.firstNew == 0 then s
    else
      s.(next := s.next[s.lastNew := s.firstFree], firstFree := s.firstNew, numFree := s.numFree + s.numNew,
      needed := s.needed - s.numNew, firstNew := 0, free := s.chain + s.free, chain := [],
      uncounted := if s.numNew == 0 then s.uncounted + 1 else s.uncounted)
  }

  ghost function Levelled(s: State): State {
    if s.numFree < FREE_BUFFERS_WANTED then s.(needed := s.needed + FREE_BUFFERS_WANTED) else s
  }

  lemma IdleAgain(s: State, t: State)
    requires Inv(s) && s.engine == CheckingLevel && t == s.(engine := EngineIdle)
    ensures Inv(t)
  {
  }

  /** The engine has linked the last new buffer to the free list and made the first one its start. */
  ghost function Joined(s: State): State {
    s.(engine := TookFirst, next := s.next[s.lastNew := s.firstFree], firstFree := s.firstNew, free := s.chain + s.free, chain := [],
    uncounted := if s.numNew == 0 then s.uncounted + 1 else s.uncounted)
  }

  lemma JoinKeepsInv(s: State)
    requires Inv(s) && s.engine == EngineIdle && s.firstNew != 0
    ensures Inv(Joined(s))
  {
    hide Inv;
    StepKeepsInv(s, LookForChain);
    var t := Next(s, LookForChain);
    StepKeepsInv(t, LinkLast);
    t := Next(t, LinkLast);
    StepKeepsInv(t, TakeFirst);
    assert Next(t, TakeFirst) == Joined(s);
  }

  lemma CountKeepsInv(s: State)
    requires Inv(s) && s.engine == TookFirst
    ensures Inv(s.(numFree := s.numFree + s.numNew, needed := s.needed - s.numNew, firstNew := 0, engine := CheckingLevel))
  {
    hide Inv;
    StepKeepsInv(s, AddCount);
    var t := Next(s, AddCount);
    StepKeepsInv(t, SubtractNeed);
    t := Next(t, SubtractNeed);
    StepKeepsInv(t, ClearFirst);
  }

  lemma NeedIsNatural(s: State)
    requires Inv(s)
    ensures 0 <= s.needed
  {
    hide Partitioned, IsList;
  }

  lemma RunKeepsInv(s: State)
    requires Inv(s) && s.engine == EngineIdle && s.ticker == TickerIdle
    ensures Inv(Spliced(s)) && Inv(Levelled(Spliced(s)))
  {
    hide Inv;
    var t := Spliced(s).(engine := CheckingLevel);
    if s.firstNew == 0 {
      StepKeepsInv(s, LookForChain);
    } else {
      JoinKeepsInv(s);
      CountKeepsInv(Joined(s));
    }
    assert Inv(t);
    StepKeepsInv(t, CheckLevel);
    IdleAgain(t, Spliced(s));
  }

  lemma TickStarts(s: State)
    requires Inv(s) && s.engine == EngineIdle && s.ticker == TickerIdle && s.needed != 0 && s.firstNew == 0
    ensures 0 < s.needed
    ensures var t := s.(ticker := WillBuild(s.needed), numNew := 0);
            Inv(t) && Inv(Next(t, AllocateLast))
  {
    AllocateKeepsInv(s.(ticker := WillBuild(s.needed), numNew := 0), AllocateLast);
  }

  /** What building a buffer changes. */
  lemma Allocates(s: State)
    ensures s.ticker.WillBuild? ==>
              var node := s.numAllocated + 1;
              Next(s, AllocateLast)
              == s.(numAllocated := node, lastNew := node, chain := [node],
              ticker := Building(s.ticker.count, s.ticker.count - 1, node))
    ensures s.ticker.Building? && s.ticker.left > 0 ==>
              var node := s.numAllocated + 1;
              Next(s, AllocateNext)
              == s.(numAllocated := node, next := s.next[node := s.ticker.prev], chain := [node] + s.chain,
              ticker := Building(s.ticker.count, s.ticker.left - 1, node))
  {
  }

  lemma TickEnds(s: State)
    requires Inv(s) && s.ticker.Building? && s.ticker.left == 0
    ensures Inv(s.(ticker := TickerIdle, numNew := s.ticker.count, firstNew := s.ticker.prev))
  {
    StepKeepsInv(s, StoreCount);
    StepKeepsInv(Next(s, StoreCount), StoreFirst);
  }

  lemma FreeStarts(s: State)
    requires Inv(s)
    ensures s.free == [] <==> s.firstFree == 0
    ensures s.free != [] ==> s.firstFree == s.free[0] && s.firstFree in s.next
  {
    hide Partitioned, IsList;
    FirstOfFree(s.next, s.firstFree, s.free);
    NoNull(s.free, s.chain, s.borrowed, s.numAllocated);
  }

  class BufferManager {
    var next: map<nat, nat>
    var numAllocated: nat
    var firstFree: nat
    var numFree: int
    var hadOverrun: bool
    var needed: int
    var numNew: int
    var firstNew: nat
    var lastNew: nat
    ghost var free: seq<nat>
    ghost var chain: seq<nat>
    ghost var borrowed: set<nat>
    ghost var uncounted: nat

    ghost function View(): State
      reads this
    {
      State(next, numAllocated, firstFree, numFree, hadOverrun, needed, numNew, firstNew, lastNew,
            EngineIdle, TickerIdle, free, chain, borrowed, uncounted)
    }

    ghost predicate Valid()
      reads this
    {
      Inv(View())
    }

    constructor ()
      ensures Valid() && View() == Initial
    {
      next, numAllocated, firstFree, numFree, hadOverrun := map[], 0, 0, 0, false;
      needed, numNew, firstNew, lastNew := 0, 0, 0, 0;
      free, chain, borrowed, uncounted := [], [], {}, 0;
    }

    /** Takes the first free buffer; null when there is none. */
    method GetBuffer() returns (buffer: nat)
      requires Valid()
      modifies this
      ensures Valid() && View() == Next(old(View()), Step.GetBuffer)
      ensures if old(free) == [] then buffer == 0 else buffer == old(free)[0] && free == old(free)[1..]
    {
      hide Inv;
      GetKeepsInv(View());
      FreeStarts(View());
      buffer := firstFree;
      if firstFree == 0 {
        hadOverrun := true;
      } else {
        borrowed := borrowed + {firstFree};
        free := free[1..];
        firstFree := next[firstFree];
        numFree := numFree - 1;
      }
    }

    method FreeBuffer(buffer: nat)
      requires Valid() && (buffer == 0 || buffer in borrowed)
      modifies this
      ensures Valid() && View() == Next(old(View()), Step.FreeBuffer(buffer))
      ensures free == if buffer == 0 then old(free) else [buffer] + old(free)
    {
      hide Inv;
      FreeKeepsInv(View(), buffer);
      if buffer != 0 {
        next := next[buffer := firstFree];
        firstFree := buffer;
        numFree := numFree + 1;
        free, borrowed := [buffer] + free, borrowed - {buffer};
      }
    }

    method InstallNewBuffers()
      requires Valid()
      modifies this
      ensures View() == Spliced(old(View()))
    {
      hide Inv;
      if firstNew != 0 {
        next := next[lastNew := firstFree];
        firstFree := firstNew;
        numFree := numFree + numNew;
        needed := needed - numNew;
        firstNew := 0;
        free, chain, uncounted := chain + free, [], if numNew == 0 then uncounted + 1 else uncounted;
      }
    }

    /** The engine's part, uninterrupted. */
    method Run()
      requires Valid()
      modifies this
      ensures Valid() && View() == Levelled(Spliced(old(View())))
      ensures numFree < FREE_BUFFERS_WANTED ==> needed >= FREE_BUFFERS_WANTED
    {
      hide Inv, Spliced;
      RunKeepsInv(View());
      InstallNewBuffers();
      NeedIsNatural(View());
      if numFree < FREE_BUFFERS_WANTED {
        needed := needed + FREE_BUFFERS_WANTED;
      }
    }

    /** Builds a chain of `count` new buffers, last one first, and returns its first buffer. */
    method BuildChain(count: int) returns (prev: nat)
      requires 0 < count
      requires var s := View().(ticker := WillBuild(count)); Inv(s) && Inv(Next(s, AllocateLast))
      modifies this`numAllocated, this`lastNew, this`next, this`chain
      ensures Inv(View().(ticker := Building(count, 0, prev))) && |chain| == count && prev != 0
    {
      hide Inv, Next;
      Allocates(View().(ticker := WillBuild(count)));
      numAllocated := numAllocated + 1;
      lastNew := numAllocated;
      chain := [numAllocated];
      prev := lastNew;
      var left := count - 1;
      while left > 0
        invariant Inv(View().(ticker := Building(count, left, prev)))
        invariant 0 <= left && |chain| + left == count && prev != 0
      {
        AllocateKeepsInv(View().(ticker := Building(count, left, prev)), AllocateNext);
        Allocates(View().(ticker := Building(count, left, prev)));
        numAllocated := numAllocated + 1;
        next := next[numAllocated := prev];
        chain := [numAllocated] + chain;
        prev := numAllocated;
        left := left - 1;
      }
    }

    /** The other thread's part, uninterrupted: builds the buffers that are needed, unless some are waiting. */
    method Tick()
      requires Valid()
      modifies this
      ensures Valid() && free == old(free) && borrowed == old(borrowed)
      ensures if old(needed) != 0 && old(firstNew) == 0 then
                firstNew != 0 && numNew == old(needed) == |chain| && needed == old(needed)
              else View() == old(View())
    {
      hide Inv;
      if needed != 0 && firstNew == 0 {
        TickStarts(View());
        numNew := 0;
        var toBuild := needed;
        var prev := BuildChain(toBuild);
        TickEnds(View().(ticker := Building(toBuild, 0, prev)));
        numNew := toBuild;
        firstNew := prev;
      }
    }
  }
}
