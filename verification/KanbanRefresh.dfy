/**
 Coalesced refreshes of the board: any number of callers share one drain, which loads the board until
 every request made so far is answered. Each synchronous stretch between awaits is one method; the ghost
 clock numbers those stretches.
 */
module KanbanRefreshes {
  import opened Outcomes

  type Api = nat

  /** The load in flight: the requests it answers, and what it captured when it began. */
  datatype Load = Load(previous: nat, generation: nat, api: Option<Api>, runtime: nat)

  /** What the load behind an outcome was worth, and whether it fetched a board. */
  datatype Source = Source(begunAt: nat, runtime: nat, api: Option<Api>, fetched: bool)

  /** A drain runs exactly while a request is unanswered; each load answers at least one request more. */
  predicate Counted(completed: nat, requested: nat, draining: Option<Load>, loads: nat, clock: nat, begunAt: nat, runtime: nat) {
    && completed <= requested && (draining.None? <==> completed == requested)
    && (draining.Some? ==>
          && draining.value.previous == completed < draining.value.generation <= requested
          && draining.value.runtime <= runtime && begunAt <= clock)
    && loads <= completed + (if draining.Some? then 1 else 0)
  }

  predicate Known(callers: map<nat, nat>, asked: map<nat, nat>, requested: nat, clock: nat, runtime: nat) {
    forall r :: r in callers ==> 1 <= r <= requested && r in asked && asked[r] <= clock && callers[r] <= runtime
  }

  /** What the load in flight is to answer was asked before it began. */
  predicate Covered(callers: map<nat, nat>, asked: map<nat, nat>, completed: nat, draining: Option<Load>, begunAt: nat) {
    draining.Some? ==>
      forall r :: r in callers && completed < r <= draining.value.generation ==>
        r in asked && asked[r] <= begunAt && callers[r] <= draining.value.runtime
  }

  /** Every answered request has its outcome, from a load begun no earlier than it; a success came from a
      load that was of the current runtime when it ended. */
  predicate Answered(callers: map<nat, nat>, asked: map<nat, nat>, completed: nat, outcomes: map<nat, bool>,
                     sources: map<nat, Source>, runtime: nat, api: Option<Api>)
  {
    forall r :: r in callers && r <= completed ==>
      && r in outcomes && r in sources && r in asked
      && asked[r] <= sources[r].begunAt && callers[r] <= sources[r].runtime <= runtime
      && (outcomes[r] ==> sources[r].api.Some? && (sources[r].runtime == runtime ==> sources[r].api == api))
  }

  /** The same value for all requests after one, up to another. */
  function Filled<V>(m: map<nat, V>, after: nat, upTo: nat, value: V): map<nat, V> {
    if upTo <= after then m else Filled(m, after, upTo - 1, value)[upTo := value]
  }

  lemma {:induction false} FilledIs<V>(m: map<nat, V>, after: nat, upTo: nat, value: V)
    ensures var m' := Filled(m, after, upTo, value);
      && (forall r :: after < r <= upTo ==> r in m' && m'[r] == value)
      && (forall r :: !(after < r <= upTo) ==> (r in m' <==> r in m) && (r in m ==> m'[r] == m[r]))
  {
    if upTo > after {
      FilledIs(m, after, upTo - 1, value);
      assert Filled(m, after, upTo, value) == Filled(m, after, upTo - 1, value)[upTo := value];
    }
  }

  /** What one load answers. */
  lemma AnsweredByLoad(callers: map<nat, nat>, asked: map<nat, nat>, load: Load, begunAt: nat, outcomes: map<nat, bool>,
                       sources: map<nat, Source>, fetched: bool, succeeded: bool, runtime: nat, api: Option<Api>)
    requires Answered(callers, asked, load.previous, outcomes, sources, runtime, api)
    requires Covered(callers, asked, load.previous, Some(load), begunAt) && load.runtime <= runtime
    requires succeeded ==> load.api.Some? && load.api == api
    ensures Answered(callers, asked, load.generation,
              Filled(outcomes, load.previous, load.generation, succeeded),
              Filled(sources, load.previous, load.generation, Source(begunAt, load.runtime, load.api, fetched)), runtime, api)
  {
    FilledIs(outcomes, load.previous, load.generation, succeeded);
    FilledIs(sources, load.previous, load.generation, Source(begunAt, load.runtime, load.api, fetched));
    hide Filled;
  }

  /** A new request is behind whatever the load in flight covers. */
  lemma AskedKeeps(callers: map<nat, nat>, asked: map<nat, nat>, requested: nat, clock: nat, runtime: nat,
                   completed: nat, draining: Option<Load>, begunAt: nat)
    requires Known(callers, asked, requested, clock, runtime) && Covered(callers, asked, completed, draining, begunAt)
    requires draining.Some? ==> draining.value.generation <= requested
    ensures requested + 1 !in callers
    ensures Known(callers[requested + 1 := runtime], asked[requested + 1 := clock + 1], requested + 1, clock + 1, runtime)
    ensures Covered(callers[requested + 1 := runtime], asked[requested + 1 := clock + 1], completed, draining, begunAt)
  {
  }

  lemma ClockAdvances(callers: map<nat, nat>, asked: map<nat, nat>, requested: nat, clock: nat, runtime: nat)
    requires Known(callers, asked, requested, clock, runtime)
    ensures Known(callers, asked, requested, clock + 1, runtime)
  {
  }

  lemma LoadCovers(callers: map<nat, nat>, asked: map<nat, nat>, requested: nat, clock: nat, runtime: nat, load: Load)
    requires Known(callers, asked, requested, clock, runtime) && load.runtime == runtime
    ensures Covered(callers, asked, load.previous, Some(load), clock)
  {
  }

  lemma NothingCovered(callers: map<nat, nat>, asked: map<nat, nat>, completed: nat, begunAt: nat)
    ensures Covered(callers, asked, completed, None, begunAt)
  {
  }

  lemma AskedAnswered(callers: map<nat, nat>, asked: map<nat, nat>, completed: nat, outcomes: map<nat, bool>,
                      sources: map<nat, Source>, runtime: nat, api: Option<Api>, r: nat, at: nat)
    requires Answered(callers, asked, completed, outcomes, sources, runtime, api) && r > completed
    ensures Answered(callers[r := runtime], asked[r := at], completed, outcomes, sources, runtime, api)
  {
  }

  // ---- The steps ---------------------------------------------------------------------------------

  /** The store's counters and maps, and what the history needs: when each waiting request was made, how
      many loads were begun and when the last one was, and which load answered a request. */
  datatype Board = Board(
    api: Option<Api>, runtime: nat, requested: nat, completed: nat, outcomes: map<nat, bool>, draining: Option<Load>,
    callers: map<nat, nat>, clock: nat, asked: map<nat, nat>, loads: nat, begunAt: nat, sources: map<nat, Source>)

  const EMPTY := Board(None, 0, 0, 0, map[], None, map[], 0, map[], 0, 0, map[])

  predicate Sound(b: Board) {
    && Counted(b.completed, b.requested, b.draining, b.loads, b.clock, b.begunAt, b.runtime)
    && Known(b.callers, b.asked, b.requested, b.clock, b.runtime)
    && Covered(b.callers, b.asked, b.completed, b.draining, b.begunAt)
    && Answered(b.callers, b.asked, b.completed, b.outcomes, b.sources, b.runtime, b.api)
  }

  function Activated(b: Board, next: Option<Api>): Board {
    b.(api := next, runtime := b.runtime + 1, clock := b.clock + 1)
  }

  function Begun(b: Board): Board {
    b.(draining := Some(Load(b.completed, b.requested, b.api, b.runtime)), loads := b.loads + 1, begunAt := b.clock)
  }

  /** A refresh is asked for; nothing comes of it when there is nothing to ask. */
  function Asked(b: Board): Board {
    var now := b.(clock := b.clock + 1);
    if b.api.None? then now
    else
      var r := b.requested + 1;
      var waiting := now.(requested := r, callers := b.callers[r := b.runtime], asked := b.asked[r := now.clock]);
      if b.draining.None? then Begun(waiting) else waiting
  }

  predicate Succeeds(b: Board, load: Load, fetched: bool) {
    fetched && load.api.Some? && load.api == b.api && load.runtime == b.runtime
  }

  /** The load's requests get its outcome. */
  function Settled(b: Board, load: Load, fetched: bool): Board {
    b.(outcomes := Filled(b.outcomes, load.previous, load.generation, Succeeds(b, load, fetched)),
       sources := Filled(b.sources, load.previous, load.generation, Source(b.begunAt, load.runtime, load.api, fetched)))
  }

  function Ended(b: Board, fetched: bool): Board
    requires b.draining.Some?
  {
    var load := b.draining.value;
    var settled := Settled(b, load, fetched).(clock := b.clock + 1, completed := load.generation);
    if load.generation < b.requested then Begun(settled) else settled.(draining := None)
  }

  /** A caller is told of success if its load succeeded and its runtime is still the current one. */
  predicate Told(b: Board, request: nat)
    requires request in b.callers
  {
    request in b.outcomes && b.outcomes[request] && b.callers[request] == b.runtime
  }

  function Resumed(b: Board, request: nat): Board {
    b.(outcomes := b.outcomes - {request}, callers := b.callers - {request}, clock := b.clock + 1)
  }

  datatype Event = Activate(api: Option<Api>) | Ask | Ending(fetched: bool) | Wake(request: nat)

  /** An event whose turn has not come is passed over. */
  function Step(b: Board, e: Event): Board {
    match e
    case Activate(api) => Activated(b, api)
    case Ask => Asked(b)
    case Ending(fetched) => if b.draining.Some? then Ended(b, fetched) else b
    case Wake(request) => if request in b.callers && request <= b.completed then Resumed(b, request) else b
  }

  /** What a caller is told in a step: that there is nothing to ask, or the end of its wait. */
  function Answer(b: Board, e: Event): Option<bool> {
    if e.Ask? && b.api.None? then Some(false)
    else if e.Wake? && e.request in b.callers && e.request <= b.completed then Some(Told(b, e.request))
    else None
  }

  function Answers(b: Board, events: seq<Event>): seq<Option<bool>>
    decreases |events|
  {
    if events == [] then [] else [Answer(b, events[0])] + Answers(Step(b, events[0]), events[1..])
  }

  function Steps(b: Board, events: seq<Event>): Board
    decreases |events|
  {
    if events == [] then b else Steps(Step(b, events[0]), events[1..])
  }

  // ---- Every step and every run keeps the refreshes fresh ----------------------------------------

  lemma AskedSound(b: Board)
    requires Sound(b)
    ensures Sound(Asked(b))
  {
    hide Answered, Covered, Known;
    ClockAdvances(b.callers, b.asked, b.requested, b.clock, b.runtime);
    AskedKeeps(b.callers, b.asked, b.requested, b.clock, b.runtime, b.completed, b.draining, b.begunAt);
    AskedAnswered(b.callers, b.asked, b.completed, b.outcomes, b.sources, b.runtime, b.api, b.requested + 1, b.clock + 1);
    var b' := Asked(b);
    if b'.draining.Some? && b.draining.None? { LoadCovers(b'.callers, b'.asked, b'.requested, b'.clock, b'.runtime, b'.draining.value); }
  }

  lemma EndedSound(b: Board, fetched: bool)
    requires Sound(b) && b.draining.Some?
    ensures Sound(Ended(b, fetched))
  {
    hide Answered, Covered, Known, Filled;
    var load := b.draining.value;
    var b' := Ended(b, fetched);
    ClockAdvances(b.callers, b.asked, b.requested, b.clock, b.runtime);
    AnsweredByLoad(b.callers, b.asked, load, b.begunAt, b.outcomes, b.sources, fetched, Succeeds(b, load, fetched), b.runtime, b.api);
    if load.generation < b.requested {
      LoadCovers(b'.callers, b'.asked, b'.requested, b'.clock, b'.runtime, b'.draining.value);
    } else {
      NothingCovered(b'.callers, b'.asked, b'.completed, b'.begunAt);
    }
  }

  lemma StepSound(b: Board, e: Event)
    requires Sound(b)
    ensures Sound(Step(b, e))
  {
    match e
    case Activate(api) =>
    case Ask => hide Sound, Asked; AskedSound(b);
    case Ending(fetched) => hide Sound, Ended; if b.draining.Some? { EndedSound(b, fetched); }
    case Wake(request) =>
  }

  /** Over any interleaving: at most one drain, none only when nothing is open, and never more loads than requests. */
  lemma {:induction false} RunSound(b: Board, events: seq<Event>)
    requires Sound(b)
    ensures var b' := Steps(b, events);
      Sound(b') && b'.loads <= b'.requested && (b'.draining.None? <==> b'.completed == b'.requested)
    decreases |events|
  {
    if events != [] {
      StepSound(b, events[0]);
      RunSound(Step(b, events[0]), events[1..]);
    }
  }

  /** Whenever in a run a caller resumes, its outcome is there, from a load begun at or after its request; and
      told of success, it has the board of the current runtime, which is the one it asked under. */
  lemma TellsFresh(b: Board, events: seq<Event>, request: nat)
    requires Sound(b)
    requires var b' := Steps(b, events); request in b'.callers && request <= b'.completed
    ensures var b' := Steps(b, events);
      && request in b'.outcomes && request in b'.sources && request in b'.asked
      && b'.asked[request] <= b'.sources[request].begunAt
      && (Told(b', request) ==>
            && b'.callers[request] == b'.sources[request].runtime == b'.runtime
            && b'.sources[request].api == b'.api && b'.api.Some?)
  {
    RunSound(b, events);
  }

  // ---- What a caller is told, exactly ------------------------------------------------------------

  /** While no other runtime has been activated: there is something to ask, the load in flight asks it, and the
      outcome of a request is whether its load fetched a board. The load in flight covers all that was asked by
      the time it began. */
  predicate Exact(b: Board) {
    && (forall r :: r in b.callers && b.callers[r] == b.runtime ==> b.api.Some?)
    && (b.draining.Some? && b.draining.value.runtime == b.runtime ==> b.draining.value.api == b.api)
    && (forall r :: r in b.callers && r <= b.completed && b.callers[r] == b.runtime ==>
          r in b.outcomes && r in b.sources && (b.outcomes[r] <==> b.sources[r].fetched))
    && (b.draining.Some? ==>
          forall r :: r in b.callers && r > b.draining.value.generation ==> r in b.asked && b.asked[r] > b.begunAt)
  }

  lemma EndedExact(b: Board, fetched: bool)
    requires Sound(b) && Exact(b) && b.draining.Some?
    ensures Exact(Ended(b, fetched))
  {
    var load := b.draining.value;
    var source := Source(b.begunAt, load.runtime, load.api, fetched);
    var outcomes := Filled(b.outcomes, load.previous, load.generation, Succeeds(b, load, fetched));
    var sources := Filled(b.sources, load.previous, load.generation, source);
    FilledIs(b.outcomes, load.previous, load.generation, Succeeds(b, load, fetched));
    FilledIs(b.sources, load.previous, load.generation, source);
    hide Filled, Answered;
    var b' := Ended(b, fetched);
    assert b'.outcomes == outcomes && b'.sources == sources;
    forall r | r in b.callers && r <= load.generation && b.callers[r] == b.runtime
      ensures r in outcomes && r in sources && (outcomes[r] <==> sources[r].fetched)
    {
      if r > load.previous {
        assert b.callers[r] <= load.runtime;
        assert r in outcomes && r in sources;
      } else {
        assert !(load.previous < r <= load.generation);
        assert r in b.outcomes && r in b.sources;
      }
    }
  }

  lemma StepExact(b: Board, e: Event)
    requires Sound(b) && Exact(b)
    ensures Exact(Step(b, e))
  {
    match e
    case Activate(api) => hide Answered, Covered;
    case Ask => hide Sound, Exact, Asked; AskedExact(b);
    case Ending(fetched) => hide Sound, Exact, Ended; if b.draining.Some? { EndedExact(b, fetched); }
    case Wake(request) => hide Sound;
  }

  lemma AskedExact(b: Board)
    requires Sound(b) && Exact(b)
    ensures Exact(Asked(b))
  {
    hide Answered, Covered;
  }

  lemma {:induction false} RunExact(b: Board, events: seq<Event>)
    requires Sound(b) && Exact(b)
    ensures Sound(Steps(b, events)) && Exact(Steps(b, events))
    decreases |events|
  {
    hide Sound, Exact, Step;
    if events != [] {
      StepSound(b, events[0]);
      StepExact(b, events[0]);
      RunExact(Step(b, events[0]), events[1..]);
    }
  }

  function Activations(events: seq<Event>): nat {
    if events == [] then 0 else (if events[0].Activate? then 1 else 0) + Activations(events[1..])
  }

  /** A request that waits is the one that was made, and the runtimes are counted. */
  lemma {:induction false} WaitsSince(b: Board, events: seq<Event>, request: nat)
    requires request <= b.requested
    ensures var b' := Steps(b, events);
      && b'.runtime == b.runtime + Activations(events) && b'.requested >= b.requested
      && (request in b'.callers ==> request in b.callers && b'.callers[request] == b.callers[request])
    decreases |events|
  {
    hide Filled;
    if events != [] {
      WaitsSince(Step(b, events[0]), events[1..], request);
      hide Steps;
    }
  }

  lemma {:induction false} StepsJoin(b: Board, before: seq<Event>, after: seq<Event>)
    ensures Steps(b, before + after) == Steps(Steps(b, before), after)
    decreases |before|
  {
    hide Step;
    if before == [] {
      assert before + after == after;
    } else {
      assert (before + after)[1..] == before[1..] + after;
      StepsJoin(Step(b, before[0]), before[1..], after);
    }
  }

  /** Whatever happens before and after a request, its caller is told of success exactly if the load that answered
      it fetched a board and no other runtime has been activated since it asked. */
  lemma TellsExactly(before: seq<Event>, after: seq<Event>)
    requires var b := Steps(EMPTY, before);
      && b.api.Some?
      && var b' := Steps(EMPTY, before + ([Ask] + after));
      b.requested + 1 in b'.callers && b.requested + 1 <= b'.completed
    ensures var request := Steps(EMPTY, before).requested + 1;
      var b' := Steps(EMPTY, before + ([Ask] + after));
      && request in b'.sources
      && Answer(b', Wake(request)) == Some(b'.sources[request].fetched && Activations(after) == 0)
  {
    var b := Steps(EMPTY, before);
    var request := b.requested + 1;
    StepsJoin(EMPTY, before, [Ask] + after);
    assert ([Ask] + after)[0] == Ask && ([Ask] + after)[1..] == after;
    WaitsSince(Asked(b), after, request);
    hide Steps, Counted, Known, Covered;
    RunExact(EMPTY, before + ([Ask] + after));
    hide Answered;
  }

  /** With nothing to ask the answer comes at once, and no request is made. */
  lemma NothingToAsk(b: Board)
    requires b.api.None?
    ensures Answer(b, Ask) == Some(false) && Step(b, Ask) == b.(clock := b.clock + 1)
  {
  }

  /** However many requests are open, the load in flight and one more answer them all. */
  lemma TwoLoadsAnswerAll(b: Board, first: bool, second: bool)
    requires Sound(b)
    ensures var b' := Step(Step(b, Ending(first)), Ending(second));
      b'.completed == b'.requested == b.requested && b'.draining.None?
  {
    hide Filled, Answered, Covered, Known;
  }

  class KanbanBoard {
    var api: Option<Api>
    var runtimeGeneration: nat
    var requested: nat
    var completed: nat
    var outcomes: map<nat, bool>
    var draining: Option<Load>
    var callers: map<nat, nat>           // waiting requests, with the runtime each was made under
    ghost var clock: nat
    ghost var asked: map<nat, nat>       // when each waiting request was made
    ghost var loads: nat                 // loads begun so far
    ghost var begunAt: nat               // when the load in flight began
    ghost var sources: map<nat, Source>  // which load answered a request

    ghost function View(): Board
      reads this
    {
      Board(api, runtimeGeneration, requested, completed, outcomes, draining, callers, clock, asked, loads, begunAt, sources)
    }

    constructor ()
      ensures View() == EMPTY
    {
      api, runtimeGeneration, requested, completed := None, 0, 0, 0;
      outcomes, draining, callers := map[], None, map[];
      clock, loads, begunAt, sources, asked := 0, 0, 0, map[], map[];
    }

    method ActivateRuntime(next: Option<Api>)
      modifies this`api, this`runtimeGeneration, this`clock
      ensures View() == Activated(old(View()), next)
    {
      clock := clock + 1;
      runtimeGeneration, api := runtimeGeneration + 1, next;
    }

    /** The stretch of the drain up to the fetch. */
    method BeginLoad()
      modifies this`draining, this`loads, this`begunAt
      ensures View() == Begun(old(View()))
    {
      draining := Some(Load(completed, requested, api, runtimeGeneration));
      loads, begunAt := loads + 1, clock;
    }

    /** A refresh is asked for; false at once when there is nothing to ask. The request joins the drain in
        progress or starts one. */
    method RefreshKanbanBoard() returns (request: Option<nat>)
      modifies this
      ensures View() == Asked(old(View()))
      ensures request == if old(api).None? then None else Some(old(requested) + 1)
    {
      clock := clock + 1;
      if api.None? { return None; }
      requested := requested + 1;
      callers, asked := callers[requested := runtimeGeneration], asked[requested := clock];
      if draining.None? { BeginLoad(); }
      return Some(requested);
    }

    /** The load ends: all its requests get its outcome, and the drain goes on while others wait. */
    method LoadEnded(fetched: bool)
      requires draining.Some? && draining.value.previous <= draining.value.generation
      modifies this
      ensures View() == Ended(old(View()), fetched)
    {
      var load := draining.value;
      var succeeded := fetched && load.api.Some? && load.api == api && load.runtime == runtimeGeneration;
      SetOutcomes(load, fetched, succeeded);
      clock, completed := clock + 1, load.generation;
      if completed < requested { BeginLoad(); } else { draining := None; }
    }

    method SetOutcomes(load: Load, ghost fetched: bool, succeeded: bool)
      requires load.previous <= load.generation
      modifies this`outcomes, this`sources
      ensures outcomes == Filled(old(outcomes), load.previous, load.generation, succeeded)
      ensures sources == Filled(old(sources), load.previous, load.generation, Source(begunAt, load.runtime, load.api, fetched))
    {
      var request := load.previous + 1;
      while request <= load.generation
        invariant load.previous < request <= load.generation + 1
        invariant outcomes == Filled(old(outcomes), load.previous, request - 1, succeeded)
        invariant sources == Filled(old(sources), load.previous, request - 1, Source(begunAt, load.runtime, load.api, fetched))
      {
        outcomes := outcomes[request := succeeded];
        sources := sources[request := Source(begunAt, load.runtime, load.api, fetched)];
        request := request + 1;
      }
    }

    /** The caller resumes once its request is answered. */
    method Resume(request: nat) returns (succeeded: bool)
      requires request in callers && request <= completed
      modifies this`outcomes, this`callers, this`clock
      ensures View() == Resumed(old(View()), request) && succeeded == Told(old(View()), request)
    {
      clock := clock + 1;
      var outcome := if request in outcomes then outcomes[request] else false;
      var caller := callers[request];
      outcomes, callers := outcomes - {request}, callers - {request};
      succeeded := outcome && caller == runtimeGeneration;
    }

    method Do(e: Event) returns (answer: Option<bool>)
      requires Sound(View())
      modifies this
      ensures Sound(View()) && View() == Step(old(View()), e) && answer == Answer(old(View()), e)
    {
      StepSound(View(), e);
      answer := None;
      match e {
        case Activate(next) => ActivateRuntime(next);
        case Ask =>
          var request := RefreshKanbanBoard();
          if request.None? { answer := Some(false); }
        case Ending(fetched) => if draining.Some? { LoadEnded(fetched); }
        case Wake(request) =>
          if request in callers && request <= completed {
            var succeeded := Resume(request);
            answer := Some(succeeded);
          }
      }
    }

    /** Any interleaving of callers, loads and runtimes. */
    method Run(events: seq<Event>) returns (answers: seq<Option<bool>>)
      requires Sound(View())
      modifies this
      ensures View() == Steps(old(View()), events) && answers == Answers(old(View()), events)
      decreases |events|
    {
      if events == [] { return []; }
      var first := Do(events[0]);
      var rest := Run(events[1..]);
      return [first] + rest;
    }
  }
}
