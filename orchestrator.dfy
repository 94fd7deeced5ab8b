/**
 * The turn of `run_agent_stream`: load or create the state, append the
 * user's message, then for every step the graph yields: pass the step on,
 * merge its output, re-run the router to set the phase (unless it answers
 * "end") and save.  The graph's steps are an input; the graph's edges are
 * described separately, so that lemmas can speak of the steps it yields.
 */
module Orchestrator {
  import opened Wrappers
  import opened Registry
  import opened Routing
  import opened Dialogue
  import opened Session
  import opened Nodes
  import opened Listing

  /** Why a turn ended with an unexpected-error result. */
  datatype Cause = RouterFailed(fault: Fault) | GraphFailed

  /** What the turn yields to its caller. */
  datatype Chunk =
    | Output(node: Node, update: StepOutput)   // one graph step, keyed by its node
    | LoadError(discussionId: string)          // "Could not load discussion <id>."
    | AgentError(cause: Cause)                 // "An unexpected error occurred in the agent: ..."

  /** One step of the graph stream: the node that ran and what it returned. */
  datatype Step = Step(node: Node, output: StepOutput)

  /** Everything a turn does that is visible outside: the chunks yielded and the records saved. */
  datatype TurnLog = TurnLog(chunks: seq<Chunk>, saves: seq<Record>)

  function Join(a: TurnLog, b: TurnLog): TurnLog
  {
    TurnLog(a.chunks + b.chunks, a.saves + b.saves)
  }

  // ----- Loading and the user's message -----

  /** A discussion id is used only when it is given and not empty. */
  predicate Given(discussionId: Option<string>)
  {
    discussionId.Some? && discussionId.value != ""
  }

  /**
   * The state before the first graph step, or the single error result when a
   * given id cannot be loaded.  `loaded` is what the store returned for the id
   * and `newId` the id a new discussion receives.
   */
  function Begin(userInput: string, discussionId: Option<string>, loaded: Option<Record>, newId: string): (r: Result<Record, Chunk>)
    ensures r.Err? <==> Given(discussionId) && loaded.None?
    ensures r.Ok? ==> |r.value.history| > 0 && r.value.history[|r.value.history| - 1] == Entry(User, userInput)
    ensures r.Ok? ==> r.value.userCommand == userInput
  {
    if Given(discussionId) && loaded.None? then
      Err(LoadError(discussionId.value))
    else
      var base := if Given(discussionId) then loaded.value else Record(newId, [], PhaseNode(Phases[0]), map[], "");
      Ok(base.(userCommand := userInput, history := base.history + [Entry(User, userInput)]))
  }

  /** A given id that cannot be loaded gives exactly the load error. */
  lemma BeginLoadFailure(userInput: string, id: string, newId: string)
    requires id != ""
    ensures Begin(userInput, Some(id), None, newId) == Err(LoadError(id))
  {
  }

  /**
   * Without an id (or with an empty one) the discussion starts under the new id,
   * in the first phase, with an empty document and the user's message as its
   * whole history and as the command.
   */
  lemma BeginFresh(userInput: string, discussionId: Option<string>, loaded: Option<Record>, newId: string)
    requires !Given(discussionId)
    ensures Begin(userInput, discussionId, loaded, newId)
         == Ok(Record(newId, [Entry(User, userInput)], PhaseNode(VisionAndScoping), map[], userInput))
  {
    var start := Record(newId, [], PhaseNode(Phases[0]), map[], "");
    assert Phases[0] == VisionAndScoping;
    assert start.history + [Entry(User, userInput)] == [Entry(User, userInput)];
    assert Begin(userInput, discussionId, loaded, newId)
        == Ok(start.(userCommand := userInput, history := start.history + [Entry(User, userInput)]));
  }

  /** A loaded discussion keeps its id, phase and document and gains the user's message. */
  lemma BeginResumed(userInput: string, id: string, r: Record, newId: string)
    requires id != ""
    ensures Begin(userInput, Some(id), Some(r), newId)
         == Ok(Record(r.discussionId, r.history + [Entry(User, userInput)], r.currentPhase, r.document, userInput))
  {
  }

  // ----- After each step -----

  /** Merge a step's output, then set the phase to the router's answer unless it is "end". */
  function Advance(s: Record, out: StepOutput): (r: Result<Record, Fault>)
    ensures r.Err? <==> Router(s.currentPhase, s.userCommand).Err?
    ensures r.Ok? ==> r.value.history == out.history
    ensures r.Ok? ==> r.value.discussionId == s.discussionId && r.value.userCommand == s.userCommand
    ensures r.Ok? && Router(s.currentPhase, s.userCommand) == Ok(End) ==> r.value.currentPhase == s.currentPhase
    ensures r.Ok? && Router(s.currentPhase, s.userCommand).value.Goto? ==>
      r.value.currentPhase == Router(s.currentPhase, s.userCommand).value.node
    ensures r.Ok? ==> r.value.document == (if out.document.Some? then out.document.value else s.document)
  {
    var merged := Merge(s, out);
    match Router(merged.currentPhase, merged.userCommand)
    case Err(f) => Err(f)
    case Ok(End) => Ok(merged)
    case Ok(Goto(n)) => Ok(merged.(currentPhase := n))
  }

  /** The chunks and saves of the step loop, from the state `s` on. */
  function Stream(s: Record, steps: seq<Step>, raised: bool): TurnLog
    decreases |steps|
  {
    if steps == [] then
      TurnLog(if raised then [AgentError(GraphFailed)] else [], [])
    else
      var yielded := Output(steps[0].node, steps[0].output);
      match Advance(s, steps[0].output)
      case Err(f) => TurnLog([yielded, AgentError(RouterFailed(f))], [])
      case Ok(s1) => Join(TurnLog([yielded], [s1]), Stream(s1, steps[1..], raised))
  }

  /** The first step of a stream: pass it on, then either fail or save and go on. */
  lemma StreamFirstStep(s: Record, steps: seq<Step>, raised: bool)
    requires steps != []
    ensures Advance(s, steps[0].output).Err? ==>
      Stream(s, steps, raised)
        == TurnLog([Output(steps[0].node, steps[0].output), AgentError(RouterFailed(Advance(s, steps[0].output).error))], [])
    ensures Advance(s, steps[0].output).Ok? ==>
      Stream(s, steps, raised)
        == Join(TurnLog([Output(steps[0].node, steps[0].output)], [Advance(s, steps[0].output).value]),
                Stream(Advance(s, steps[0].output).value, steps[1..], raised))
  {
  }

  /**
   * One turn.  `loaded` is the store's answer for the given id, `newId` the id
   * of a new discussion, `steps` what the graph yields and `raised` whether the
   * graph raises after them.
   */
  method RunAgentStream(userInput: string, discussionId: Option<string>, loaded: Option<Record>, newId: string,
                        steps: seq<Step>, raised: bool)
    returns (chunks: seq<Chunk>, saves: seq<Record>)
    ensures Begin(userInput, discussionId, loaded, newId).Err? ==>
      chunks == [Begin(userInput, discussionId, loaded, newId).error] && saves == []
    ensures Begin(userInput, discussionId, loaded, newId).Ok? ==>
      TurnLog(chunks, saves) == Stream(Begin(userInput, discussionId, loaded, newId).value, steps, raised)
  {
    var state: AgentState;
    if discussionId.Some? && discussionId.value != "" {
      if loaded.None? {
        chunks, saves := [LoadError(discussionId.value)], [];
        return;
      }
      state := new AgentState.Loaded(loaded.value);
    } else {
      state := new AgentState.Fresh(newId);
    }
    state.userCommand := userInput;
    state.history := state.history + [Entry(User, userInput)];
    assert state.Snapshot() == Begin(userInput, discussionId, loaded, newId).value;
    chunks, saves := StreamSteps(state, steps, raised);
  }

  /**
   * The step loop of a turn: pass each step on, merge its output into the
   * state, set the phase to the router's answer unless that is "end", save.
   */
  method StreamSteps(state: AgentState, steps: seq<Step>, raised: bool) returns (chunks: seq<Chunk>, saves: seq<Record>)
    modifies state
    ensures TurnLog(chunks, saves) == Stream(old(state.Snapshot()), steps, raised)
  {
    ghost var s0 := state.Snapshot();
    chunks, saves := [], [];
    var i := 0;
    while i < |steps|
      invariant 0 <= i <= |steps|
      invariant Join(TurnLog(chunks, saves), Stream(state.Snapshot(), steps[i..], raised)) == Stream(s0, steps, raised)
    {
      var step := steps[i];
      ghost var before := state.Snapshot();
      assert steps[i..][0] == step && steps[i..][1..] == steps[i + 1..];
      StreamOneStep(TurnLog(chunks, saves), before, steps[i..], raised);
      chunks := chunks + [Output(step.node, step.output)];
      state.Update(step.output);
      var route := Router(state.currentPhase, state.userCommand);
      AdvanceFollowsRoute(before, step.output, route);
      if route.Err? {
        chunks := chunks + [AgentError(RouterFailed(route.error))];
        return;
      }
      if route.value.Goto? {
        state.currentPhase := route.value.node;
      }
      saves := saves + [state.Snapshot()];
      i := i + 1;
    }
    assert steps[i..] == [];
    if raised {
      chunks := chunks + [AgentError(GraphFailed)];
    }
  }

  /** Advance is the router's answer, asked about the merged state, applied to that state. */
  lemma AdvanceFollowsRoute(s: Record, out: StepOutput, route: Result<Route, Fault>)
    requires route == Router(s.currentPhase, s.userCommand)
    ensures route.Err? ==> Advance(s, out) == Err(route.error)
    ensures route.Ok? && route.value.End? ==> Advance(s, out) == Ok(Merge(s, out))
    ensures route.Ok? && route.value.Goto? ==> Advance(s, out) == Ok(Merge(s, out).(currentPhase := route.value.node))
  {
    MergeKeepsRouting(s, out);
  }

  /** One turn of the loop, told on the logs: what was done so far, then the first remaining step. */
  lemma StreamOneStep(done: TurnLog, s: Record, rest: seq<Step>, raised: bool)
    requires rest != []
    ensures Advance(s, rest[0].output).Err? ==>
      Join(done, Stream(s, rest, raised))
        == TurnLog(done.chunks + [Output(rest[0].node, rest[0].output)]
                     + [AgentError(RouterFailed(Advance(s, rest[0].output).error))], done.saves)
    ensures Advance(s, rest[0].output).Ok? ==>
      Join(done, Stream(s, rest, raised))
        == Join(TurnLog(done.chunks + [Output(rest[0].node, rest[0].output)], done.saves + [Advance(s, rest[0].output).value]),
                Stream(Advance(s, rest[0].output).value, rest[1..], raised))
  {
    StreamFirstStep(s, rest, raised);
    var o := Output(rest[0].node, rest[0].output);
    if Advance(s, rest[0].output).Ok? {
      var s1 := Advance(s, rest[0].output).value;
      var tail := Stream(s1, rest[1..], raised);
      assert done.chunks + ([o] + tail.chunks) == (done.chunks + [o]) + tail.chunks;
      assert done.saves + ([s1] + tail.saves) == (done.saves + [s1]) + tail.saves;
    } else {
      var e := AgentError(RouterFailed(Advance(s, rest[0].output).error));
      assert done.chunks + [o, e] == done.chunks + [o] + [e];
      assert done.saves + [] == done.saves;
    }
  }

  // ----- What the step loop guarantees -----

  /** The state a save of the loop was computed from: the start, or the previous save. */
  function Previous(s: Record, saves: seq<Record>, k: nat): Record
    requires k <= |saves|
  {
    if k == 0 then s else saves[k - 1]
  }

  /** Save `k` is step `k` merged into the state before it, with the phase the router then gives. */
  predicate SavedAfter(s: Record, steps: seq<Step>, saves: seq<Record>, k: nat)
  {
    k < |saves| && k < |steps| && Advance(Previous(s, saves, k), steps[k].output) == Ok(saves[k])
  }

  /**
   * At most one save per step.  When every step was saved, the chunks are the
   * steps plus one error if the graph raised; otherwise one more step was
   * passed on and one error result follows it.
   */
  lemma {:induction false} StreamCounts(s: Record, steps: seq<Step>, raised: bool)
    ensures |Stream(s, steps, raised).saves| <= |steps|
    ensures |Stream(s, steps, raised).saves| == |steps| ==>
      |Stream(s, steps, raised).chunks| == |steps| + (if raised then 1 else 0)
    ensures |Stream(s, steps, raised).saves| < |steps| ==>
      |Stream(s, steps, raised).chunks| == |Stream(s, steps, raised).saves| + 2
    decreases |steps|
  {
    if steps != [] {
      StreamFirstStep(s, steps, raised);
      if Advance(s, steps[0].output).Ok? {
        StreamCounts(Advance(s, steps[0].output).value, steps[1..], raised);
      }
    }
  }

  /**
   * Each step is passed on, in order, before its save: chunk `k` is step `k`,
   * for every saved step and for the step after which the router failed.
   */
  lemma {:induction false} StreamPassesStepsOn(s: Record, steps: seq<Step>, raised: bool)
    ensures forall k :: 0 <= k <= |Stream(s, steps, raised).saves| && k < |steps| ==>
      k < |Stream(s, steps, raised).chunks| && Stream(s, steps, raised).chunks[k] == Output(steps[k].node, steps[k].output)
    decreases |steps|
  {
    if steps != [] {
      StreamFirstStep(s, steps, raised);
      var log := Stream(s, steps, raised);
      if Advance(s, steps[0].output).Ok? {
        var s1 := Advance(s, steps[0].output).value;
        StreamPassesStepsOn(s1, steps[1..], raised);
        var rest := Stream(s1, steps[1..], raised);
        assert log.chunks == [Output(steps[0].node, steps[0].output)] + rest.chunks;
        assert log.saves == [s1] + rest.saves;
        forall k | 0 <= k <= |log.saves| && k < |steps|
          ensures k < |log.chunks| && log.chunks[k] == Output(steps[k].node, steps[k].output)
        {
          if k > 0 {
            assert steps[1..][k - 1] == steps[k];
          }
        }
      }
    }
  }

  /** Save `k` is step `k` merged into the state before it, with the phase the router then gives. */
  lemma {:induction false} StreamSavesAdvance(s: Record, steps: seq<Step>, raised: bool)
    ensures forall k :: 0 <= k < |Stream(s, steps, raised).saves| ==> SavedAfter(s, steps, Stream(s, steps, raised).saves, k)
    decreases |steps|
  {
    if steps != [] {
      StreamFirstStep(s, steps, raised);
      if Advance(s, steps[0].output).Ok? {
        var s1 := Advance(s, steps[0].output).value;
        StreamSavesAdvance(s1, steps[1..], raised);
        var log := Stream(s, steps, raised);
        var rest := Stream(s1, steps[1..], raised);
        assert log.saves == [s1] + rest.saves;
        forall k | 0 <= k < |log.saves|
          ensures SavedAfter(s, steps, log.saves, k)
        {
          if k > 0 {
            assert SavedAfter(s1, steps[1..], rest.saves, k - 1);
            assert Previous(s, log.saves, k) == Previous(s1, rest.saves, k - 1);
            assert steps[1..][k - 1] == steps[k];
          }
        }
      }
    }
  }

  /**
   * A step that was passed on but not saved is one whose router call failed;
   * it is the last step passed on, and that failure is the turn's last result.
   */
  lemma {:induction false} StreamErrorIsLast(s: Record, steps: seq<Step>, raised: bool)
    ensures var log := Stream(s, steps, raised);
      |log.saves| < |steps| ==>
        && Advance(Previous(s, log.saves, |log.saves|), steps[|log.saves|].output).Err?
        && |log.chunks| > 0
        && log.chunks[|log.chunks| - 1]
           == AgentError(RouterFailed(Advance(Previous(s, log.saves, |log.saves|), steps[|log.saves|].output).error))
    decreases |steps|
  {
    if steps != [] {
      StreamFirstStep(s, steps, raised);
      if Advance(s, steps[0].output).Ok? {
        var s1 := Advance(s, steps[0].output).value;
        StreamErrorIsLast(s1, steps[1..], raised);
        var log := Stream(s, steps, raised);
        var rest := Stream(s1, steps[1..], raised);
        assert log.chunks == [Output(steps[0].node, steps[0].output)] + rest.chunks;
        assert log.saves == [s1] + rest.saves;
        if |log.saves| < |steps| {
          assert Previous(s, log.saves, |log.saves|) == Previous(s1, rest.saves, |rest.saves|);
          assert steps[1..][|rest.saves|] == steps[|log.saves|];
          assert log.chunks[|log.chunks| - 1] == rest.chunks[|rest.chunks| - 1];
        }
      }
    }
  }

  /** When every step was saved, the turn's last result is the agent's error exactly when the graph raised. */
  lemma {:induction false} StreamGraphErrorIsLast(s: Record, steps: seq<Step>, raised: bool)
    ensures var log := Stream(s, steps, raised);
      |log.saves| == |steps| ==> (raised <==> |log.chunks| > 0 && log.chunks[|log.chunks| - 1] == AgentError(GraphFailed))
    decreases |steps|
  {
    if steps != [] {
      StreamFirstStep(s, steps, raised);
      if Advance(s, steps[0].output).Ok? {
        var s1 := Advance(s, steps[0].output).value;
        StreamGraphErrorIsLast(s1, steps[1..], raised);
        var log := Stream(s, steps, raised);
        var rest := Stream(s1, steps[1..], raised);
        assert log.chunks == [Output(steps[0].node, steps[0].output)] + rest.chunks;
        assert log.saves == [s1] + rest.saves;
        if |rest.chunks| > 0 {
          assert log.chunks[|log.chunks| - 1] == rest.chunks[|rest.chunks| - 1];
        }
      }
    }
  }

  /** Every save keeps the discussion id and the command of the turn. */
  lemma {:induction false} StreamKeepsIdentity(s: Record, steps: seq<Step>, raised: bool)
    ensures forall k :: 0 <= k < |Stream(s, steps, raised).saves| ==>
      Stream(s, steps, raised).saves[k].discussionId == s.discussionId &&
      Stream(s, steps, raised).saves[k].userCommand == s.userCommand
    decreases |steps|
  {
    if steps != [] && Advance(s, steps[0].output).Ok? {
      StreamFirstStep(s, steps, raised);
      StreamKeepsIdentity(Advance(s, steps[0].output).value, steps[1..], raised);
    }
  }

  /** Save `k` holds the phase `k + 1` places after position `i`, stopping at the last phase. */
  predicate PhasesAdvanceFrom(saves: seq<Record>, i: nat)
  {
    forall k :: 0 <= k < |saves| ==> saves[k].currentPhase == PhaseNode(Phases[Min(i + k + 1, |Phases| - 1)])
  }

  /**
   * With `[next]` in the command, every step moves the saved phase one phase
   * further, stopping at the last: the phase saved after the `k`-th step is
   * `k + 1` places after the loaded one.  No step fails.
   */
  lemma {:induction false} NextAdvancesSavedPhasePerStep(s: Record, steps: seq<Step>, raised: bool)
    requires Has(s.userCommand, NextToken) && s.currentPhase.PhaseNode?
    ensures |Stream(s, steps, raised).saves| == |steps|
    ensures PhasesAdvanceFrom(Stream(s, steps, raised).saves, Index(s.currentPhase.phase))
    decreases |steps|
  {
    if steps != [] {
      var merged := Merge(s, steps[0].output);
      RouterNext(merged.currentPhase, merged.userCommand);
      StreamFirstStep(s, steps, raised);
      var s1 := Advance(s, steps[0].output).value;
      var i := Index(s.currentPhase.phase);
      var i1 := Index(s1.currentPhase.phase);
      assert i1 == Min(i + 1, |Phases| - 1);
      NextAdvancesSavedPhasePerStep(s1, steps[1..], raised);
      var saves := Stream(s, steps, raised).saves;
      var rest := Stream(s1, steps[1..], raised).saves;
      assert saves == [s1] + rest;
      assert PhasesAdvanceFrom(rest, i1);
      forall k | 0 <= k < |saves|
        ensures saves[k].currentPhase == PhaseNode(Phases[Min(i + k + 1, |Phases| - 1)])
      {
        if k > 0 {
          assert saves[k] == rest[k - 1];
          assert Min(i1 + (k - 1) + 1, |Phases| - 1) == Min(i + k + 1, |Phases| - 1);
        }
      }
    }
  }

  /**
   * When the router answers "end" or the current node for the turn's command,
   * no step fails and every save keeps the loaded phase.
   */
  lemma {:induction false} SettledRouteKeepsSavedPhase(s: Record, steps: seq<Step>, raised: bool)
    requires Router(s.currentPhase, s.userCommand) == Ok(End)
          || Router(s.currentPhase, s.userCommand) == Ok(Goto(s.currentPhase))
    ensures |Stream(s, steps, raised).saves| == |steps|
    ensures forall k :: 0 <= k < |steps| ==> Stream(s, steps, raised).saves[k].currentPhase == s.currentPhase
    decreases |steps|
  {
    if steps != [] {
      StreamFirstStep(s, steps, raised);
      var s1 := Advance(s, steps[0].output).value;
      SettledRouteKeepsSavedPhase(s1, steps[1..], raised);
      assert forall k :: 1 <= k < |steps| ==>
        Stream(s, steps, raised).saves[k] == Stream(s1, steps[1..], raised).saves[k - 1];
    }
  }

  // ----- The graph's edges -----

  /** What the graph yields: its steps, and whether it raises after them. */
  datatype GraphRun = GraphRun(steps: seq<Step>, raised: bool)

  /**
   * The steps of the compiled graph from node `node` on, one model reply per
   * node run.  Each node runs on the graph's own state `g`.  The summary node
   * always ends; after a phase node the router, asked about the merged state,
   * picks the next node or ends.  The router runs inside the node's own step,
   * so when it fails the graph raises without passing that step on.  The run
   * stops early when the replies run out.
   */
  function GraphFrom(g: Record, node: Node, replies: seq<Reply>): (run: GraphRun)
    requires |g.history| > 0
    ensures |run.steps| <= |replies|
    ensures run.steps != [] ==> run.steps[0].node == node
    decreases |replies|
  {
    if replies == [] then GraphRun([], false)
    else
      var out := RunNode(node, g, replies[0]);
      var g1 := Merge(g, out);
      if node == Summarize then GraphRun([Step(node, out)], false)
      else
        match Router(g1.currentPhase, g1.userCommand)
        case Err(_) => GraphRun([], true)
        case Ok(End) => GraphRun([Step(node, out)], false)
        case Ok(Goto(next)) =>
          var rest := GraphFrom(g1, next, replies[1..]);
          GraphRun([Step(node, out)] + rest.steps, rest.raised)
  }

  /** The graph is entered at the first phase, whatever the state's current phase. */
  function Graph(g: Record, replies: seq<Reply>): GraphRun
    requires |g.history| > 0
  {
    GraphFrom(g, PhaseNode(Phases[0]), replies)
  }

  /** Every step of `run` after the first runs the node that `route` goes to. */
  predicate StepsFollow(run: GraphRun, route: Result<Route, Fault>)
  {
    forall k :: 1 <= k < |run.steps| ==> route == Ok(Goto(run.steps[k].node))
  }

  /**
   * Inside the graph the router keeps seeing the state's own phase and command,
   * so after the entry node every step runs the node the router picks for them.
   */
  lemma {:induction false} GraphFollowsLoadedPhase(g: Record, node: Node, replies: seq<Reply>)
    requires |g.history| > 0
    ensures StepsFollow(GraphFrom(g, node, replies), Router(g.currentPhase, g.userCommand))
    decreases |replies|
  {
    if replies != [] && node != Summarize {
      var out := RunNode(node, g, replies[0]);
      var g1 := Merge(g, out);
      MergeKeepsRouting(g, out);
      var route := Router(g1.currentPhase, g1.userCommand);
      assert route == Router(g.currentPhase, g.userCommand);
      if route.Ok? && route.value.Goto? {
        var next := route.value.node;
        var run := GraphFrom(g, node, replies);
        var rest := GraphFrom(g1, next, replies[1..]);
        assert run.steps == [Step(node, out)] + rest.steps;
        GraphFollowsLoadedPhase(g1, next, replies[1..]);
        assert StepsFollow(rest, route);
        forall k | 1 <= k < |run.steps|
          ensures route == Ok(Goto(run.steps[k].node))
        {
          assert run.steps[k] == rest.steps[k - 1];
        }
        assert StepsFollow(run, route);
      }
    }
  }

  /** The summary node is always the last step of a graph run, and a run that reaches it does not raise. */
  predicate SummaryLast(run: GraphRun)
  {
    forall k :: 0 <= k < |run.steps| && run.steps[k].node == Summarize ==> k == |run.steps| - 1 && !run.raised
  }

  /** The summary node's only edge leads to the end of the graph. */
  lemma {:induction false} SummaryStepIsLast(g: Record, node: Node, replies: seq<Reply>)
    requires |g.history| > 0
    ensures SummaryLast(GraphFrom(g, node, replies))
    decreases |replies|
  {
    var run := GraphFrom(g, node, replies);
    if replies != [] && node != Summarize {
      var out := RunNode(node, g, replies[0]);
      var g1 := Merge(g, out);
      var route := Router(g1.currentPhase, g1.userCommand);
      if route.Ok? && route.value.Goto? {
        var rest := GraphFrom(g1, route.value.node, replies[1..]);
        assert run.steps == [Step(node, out)] + rest.steps && run.raised == rest.raised;
        SummaryStepIsLast(g1, route.value.node, replies[1..]);
        forall k | 0 <= k < |run.steps| && run.steps[k].node == Summarize
          ensures k == |run.steps| - 1 && !run.raised
        {
          assert k >= 1;
          assert run.steps[k] == rest.steps[k - 1];
        }
      }
    }
  }

  /**
   * A command the router answers with "summarize" runs the first phase's node,
   * then the summary node, and the turn ends there without raising.
   */
  lemma SummarizeCommandRunsTwoSteps(g: Record, replies: seq<Reply>)
    requires |g.history| > 0 && |replies| >= 2
    requires Router(g.currentPhase, g.userCommand) == Ok(Goto(Summarize))
    ensures |Graph(g, replies).steps| == 2
    ensures Graph(g, replies).steps[0].node == PhaseNode(VisionAndScoping)
    ensures Graph(g, replies).steps[1].node == Summarize
    ensures !Graph(g, replies).raised
  {
    assert Phases[0] == VisionAndScoping;
    var out := RunNode(PhaseNode(Phases[0]), g, replies[0]);
    MergeKeepsRouting(g, out);
    var g1 := Merge(g, out);
    var last := GraphFrom(g1, Summarize, replies[1..]);
    assert last == GraphRun([Step(Summarize, RunNode(Summarize, g1, replies[1]))], false);
    assert Graph(g, replies) == GraphRun([Step(PhaseNode(Phases[0]), out)] + last.steps, last.raised);
  }

  /**
   * When the router keeps the graph on a phase node, the graph never ends by
   * itself: it runs one node per model reply it is given and does not raise.
   */
  lemma {:induction false} GraphFromNeverStops(g: Record, node: Node, replies: seq<Reply>)
    requires |g.history| > 0
    requires node.PhaseNode? && g.currentPhase.PhaseNode?
    requires Router(g.currentPhase, g.userCommand) == Ok(Goto(g.currentPhase))
    ensures |GraphFrom(g, node, replies).steps| == |replies|
    ensures !GraphFrom(g, node, replies).raised
    decreases |replies|
  {
    if replies != [] {
      var out := RunNode(node, g, replies[0]);
      MergeKeepsRouting(g, out);
      GraphFromNeverStops(Merge(g, out), g.currentPhase, replies[1..]);
    }
  }

  /**
   * A command without `[next]`, `[back]`, `[summarize]`, `[end]` or `[exit]`
   * on a saved phase runs the first phase's node and then the saved phase's
   * node again at every further step: the turn ends only when the graph's
   * step budget runs out.
   */
  lemma PlainCommandRepeatsSavedPhase(g: Record, replies: seq<Reply>)
    requires |g.history| > 0 && g.currentPhase.PhaseNode?
    requires !Has(g.userCommand, NextToken) && !Has(g.userCommand, BackToken)
    requires !Has(g.userCommand, SummarizeToken)
    requires !Has(g.userCommand, EndToken) && !Has(g.userCommand, ExitToken)
    ensures |Graph(g, replies).steps| == |replies| && !Graph(g, replies).raised
    ensures forall k :: 1 <= k < |Graph(g, replies).steps| ==> Graph(g, replies).steps[k].node == g.currentPhase
  {
    RouterNoToken(g.currentPhase, g.userCommand);
    GraphFromNeverStops(g, PhaseNode(Phases[0]), replies);
    GraphFollowsLoadedPhase(g, PhaseNode(Phases[0]), replies);
  }

  /**
   * Every turn starts by running the first phase's node, whatever phase was
   * loaded; only when the router fails on the loaded phase does the graph raise
   * instead, before any step is passed on.
   */
  lemma GraphEntersAtFirstPhase(g: Record, replies: seq<Reply>)
    requires |g.history| > 0 && |replies| > 0
    ensures Router(g.currentPhase, g.userCommand).Ok? ==>
      |Graph(g, replies).steps| > 0 &&
      Graph(g, replies).steps[0] == Step(PhaseNode(VisionAndScoping), PhaseOutput(VisionAndScoping, g, replies[0]))
    ensures Router(g.currentPhase, g.userCommand).Err? ==> Graph(g, replies) == GraphRun([], true)
  {
    assert Phases[0] == VisionAndScoping;
    MergeKeepsRouting(g, PhaseOutput(VisionAndScoping, g, replies[0]));
  }

  /** A command the router answers with "end" still runs the first phase's node once, then stops. */
  lemma EndCommandRunsEntryNodeOnce(g: Record, replies: seq<Reply>)
    requires |g.history| > 0 && |replies| > 0
    requires Router(g.currentPhase, g.userCommand) == Ok(End)
    ensures Graph(g, replies) == GraphRun([Step(PhaseNode(VisionAndScoping), PhaseOutput(VisionAndScoping, g, replies[0]))], false)
  {
    assert Phases[0] == VisionAndScoping;
    MergeKeepsRouting(g, PhaseOutput(VisionAndScoping, g, replies[0]));
  }

  /**
   * With "summarize" saved as the phase, `[next]` or `[back]` makes the graph
   * raise before its first step is passed on: the turn yields only the agent's
   * error result and saves nothing.
   */
  lemma MoveFromSummaryYieldsOnlyError(g: Record, replies: seq<Reply>)
    requires |g.history| > 0 && |replies| > 0
    requires g.currentPhase == Summarize
    requires Has(g.userCommand, NextToken) || Has(g.userCommand, BackToken)
    ensures Graph(g, replies) == GraphRun([], true)
    ensures Stream(g, Graph(g, replies).steps, Graph(g, replies).raised) == TurnLog([AgentError(GraphFailed)], [])
  {
    RouterFailsOnlyOffPhase(g.currentPhase, g.userCommand);
    GraphEntersAtFirstPhase(g, replies);
  }

  /** While the router answers for the turn's command, every step is saved: the step loop never fails. */
  lemma {:induction false} StreamSavesEveryStep(s: Record, steps: seq<Step>, raised: bool)
    requires Router(s.currentPhase, s.userCommand).Ok?
    ensures |Stream(s, steps, raised).saves| == |steps|
    decreases |steps|
  {
    if steps != [] {
      StreamFirstStep(s, steps, raised);
      var s1 := Advance(s, steps[0].output).value;
      if Router(s.currentPhase, s.userCommand).value.Goto? {
        RouterAnswerIsRoutable(s.currentPhase, s.userCommand);
      }
      StreamSavesEveryStep(s1, steps[1..], raised);
    }
  }

  /**
   * In a turn driven by the compiled graph, every step that is passed on is
   * also saved: a router failure stops the graph before its step, so the step
   * loop's own router call never fails.
   */
  lemma GraphTurnSavesEveryStep(s0: Record, replies: seq<Reply>)
    requires |s0.history| > 0
    ensures var run := Graph(s0, replies);
      |Stream(s0, run.steps, run.raised).saves| == |run.steps|
  {
    var run := Graph(s0, replies);
    if Router(s0.currentPhase, s0.userCommand).Ok? {
      StreamSavesEveryStep(s0, run.steps, run.raised);
    } else if replies != [] {
      GraphEntersAtFirstPhase(s0, replies);
    }
  }

  /** The caller's state agrees with the graph's on everything but the phase. */
  predicate Mirrors(s: Record, g: Record)
  {
    s.discussionId == g.discussionId && s.history == g.history
    && s.document == g.document && s.userCommand == g.userCommand
  }

  /** `b` is `a` after one node ran: extended by exactly one AI entry, phase keys kept. */
  ghost predicate OneStepOn(a: Record, b: Record)
  {
    && Extends(a, b)
    && |b.history| == |a.history| + 1
    && b.history[|a.history|].speaker == Ai
    && (PhaseKeyed(a.document) ==> PhaseKeyed(b.document))
  }

  /** Save `k` is one node's run on top of the state before it. */
  ghost predicate StepOnAt(s: Record, saves: seq<Record>, k: nat)
  {
    k < |saves| && OneStepOn(Previous(s, saves, k), saves[k])
  }

  /** Every save is one node's run on top of the one before it (the first on top of `s`). */
  ghost predicate ChainedSaves(s: Record, saves: seq<Record>)
  {
    forall k :: 0 <= k < |saves| ==> StepOnAt(s, saves, k)
  }

  /** The caller's save after one node is that node's run on its own state, and still mirrors the graph's. */
  lemma AdvanceStepsOn(s: Record, g: Record, node: Node, reply: Reply)
    requires |g.history| > 0 && Mirrors(s, g)
    requires Advance(s, RunNode(node, g, reply)).Ok?
    ensures OneStepOn(s, Advance(s, RunNode(node, g, reply)).value)
    ensures Mirrors(Advance(s, RunNode(node, g, reply)).value, Merge(g, RunNode(node, g, reply)))
  {
    RunNodeExtends(node, g, reply);
  }

  /** Putting one step in front of a chain of steps gives a chain from the earlier state. */
  lemma StepsOnShift(s: Record, s1: Record, rest: seq<Record>)
    requires OneStepOn(s, s1)
    requires ChainedSaves(s1, rest)
    ensures ChainedSaves(s, [s1] + rest)
  {
    var saves := [s1] + rest;
    forall k | 0 <= k < |saves|
      ensures StepOnAt(s, saves, k)
    {
      if k > 0 {
        assert StepOnAt(s1, rest, k - 1);
        assert Previous(s, saves, k) == Previous(s1, rest, k - 1);
      }
    }
  }

  /** Each save of a graph-driven stream is one node's run on top of the save before it. */
  lemma {:induction false} GraphSavesStepByStep(s: Record, g: Record, node: Node, replies: seq<Reply>)
    requires |g.history| > 0 && Mirrors(s, g)
    ensures ChainedSaves(s, Stream(s, GraphFrom(g, node, replies).steps, GraphFrom(g, node, replies).raised).saves)
    decreases |replies|
  {
    var run := GraphFrom(g, node, replies);
    if run.steps != [] {
      var out := RunNode(node, g, replies[0]);
      var g1 := Merge(g, out);
      assert run.steps[0] == Step(node, out);
      StreamFirstStep(s, run.steps, run.raised);
      if Advance(s, out).Ok? {
        var s1 := Advance(s, out).value;
        AdvanceStepsOn(s, g, node, replies[0]);
        var rest := Stream(s1, run.steps[1..], run.raised);
        var route := Router(g1.currentPhase, g1.userCommand);
        if node != Summarize && route.Ok? && route.value.Goto? {
          var next := route.value.node;
          var after := GraphFrom(g1, next, replies[1..]);
          assert run.steps[1..] == after.steps && run.raised == after.raised;
          GraphSavesStepByStep(s1, g1, next, replies[1..]);
        } else {
          assert run.steps[1..] == [];
          assert rest.saves == [];
        }
        StepsOnShift(s, s1, rest.saves);
      }
    }
  }

  lemma {:induction false} ChainFromStart(s: Record, saves: seq<Record>, k: nat)
    requires k < |saves|
    requires ChainedSaves(s, saves)
    ensures Extends(s, saves[k])
    ensures |saves[k].history| == |s.history| + k + 1
    ensures saves[k].history[|s.history| + k].speaker == Ai
    ensures PhaseKeyed(s.document) ==> PhaseKeyed(saves[k].document)
  {
    assert StepOnAt(s, saves, k);
    if k > 0 {
      ChainFromStart(s, saves, k - 1);
      ExtendsTransitive(s, saves[k - 1], saves[k]);
    }
  }

  lemma {:induction false} ChainBetween(s: Record, saves: seq<Record>, j: nat, k: nat)
    requires j <= k < |saves|
    requires ChainedSaves(s, saves)
    ensures Extends(saves[j], saves[k])
    decreases k - j
  {
    if j < k {
      ChainBetween(s, saves, j, k - 1);
      assert StepOnAt(s, saves, k);
      ExtendsTransitive(saves[j], saves[k - 1], saves[k]);
    } else {
      ExtendsTransitive(saves[j], saves[j], saves[j]);
    }
  }

  /**
   * Over a turn driven by the compiled graph, the transcript is append-only and
   * design-document entries only grow: the `k`-th save extends the start state
   * by exactly `k + 1` AI entries, every save extends every earlier one, the
   * discussion id never changes, and a document keyed by phases stays so.
   */
  lemma GraphTurnOnlyAppends(s0: Record, replies: seq<Reply>)
    requires |s0.history| > 0
    ensures var run := Graph(s0, replies);
      var log := Stream(s0, run.steps, run.raised);
      && (forall k :: 0 <= k < |log.saves| ==> Extends(s0, log.saves[k]))
      && (forall k :: 0 <= k < |log.saves| ==> |log.saves[k].history| == |s0.history| + k + 1)
      && (forall k :: 0 <= k < |log.saves| ==> log.saves[k].history[|s0.history| + k].speaker == Ai)
      && (forall k :: 0 <= k < |log.saves| ==> PhaseKeyed(s0.document) ==> PhaseKeyed(log.saves[k].document))
      && (forall j, k :: 0 <= j <= k < |log.saves| ==> Extends(log.saves[j], log.saves[k]))
  {
    var run := Graph(s0, replies);
    var saves := Stream(s0, run.steps, run.raised).saves;
    assert run == GraphFrom(s0, PhaseNode(Phases[0]), replies);
    GraphSavesStepByStep(s0, s0, PhaseNode(Phases[0]), replies);
    assert Stream(s0, run.steps, run.raised).saves == saves;
    forall k | 0 <= k < |saves|
      ensures Extends(s0, saves[k]) && |saves[k].history| == |s0.history| + k + 1
      ensures saves[k].history[|s0.history| + k].speaker == Ai
      ensures PhaseKeyed(s0.document) ==> PhaseKeyed(saves[k].document)
    {
      ChainFromStart(s0, saves, k);
    }
    forall j, k | 0 <= j <= k < |saves|
      ensures Extends(saves[j], saves[k])
    {
      ChainBetween(s0, saves, j, k);
    }
  }

  /**
   * Every discussion a turn saves has a user message in it, so it is never
   * listed as "New Discussion", and all saves of a graph-driven turn are
   * listed under the title the turn started with.
   */
  lemma SavedDiscussionsKeepTitle(userInput: string, discussionId: Option<string>, loaded: Option<Record>,
                                  newId: string, replies: seq<Reply>)
    requires Begin(userInput, discussionId, loaded, newId).Ok?
    ensures var s0 := Begin(userInput, discussionId, loaded, newId).value;
      var run := Graph(s0, replies);
      && Title(s0.history) != Untitled
      && forall k :: 0 <= k < |Stream(s0, run.steps, run.raised).saves| ==>
           Title(Stream(s0, run.steps, run.raised).saves[k].history) == Title(s0.history)
  {
    var s0 := Begin(userInput, discussionId, loaded, newId).value;
    var run := Graph(s0, replies);
    var saves := Stream(s0, run.steps, run.raised).saves;
    var last := |s0.history| - 1;
    assert s0.history[last] == Entry(User, userInput);
    assert FirstUserText(s0.history).Some?;
    TitleShape(s0.history);
    GraphTurnOnlyAppends(s0, replies);
    assert forall k :: 0 <= k < |Stream(s0, run.steps, run.raised).saves| ==> Extends(s0, Stream(s0, run.steps, run.raised).saves[k]);
    forall k | 0 <= k < |saves|
      ensures Title(saves[k].history) == Title(s0.history)
    {
      assert Extends(s0, saves[k]);
      TitleStable(s0.history, saves[k].history);
    }
  }
}
