/**
  The run service over the mock agent. `RunCell` is everything the service, the agent and
  the goroutines in between know about one run; calls on other runs do not touch it. Each
  step is one critical section, so a run of steps is one interleaving of any number of
  concurrent Create, Start, Stop and input calls with the consumer and the agent.
 */
module Runs {
  import opened Wrappers
  import opened RunStates
  import A = MockAgent
  import opened EventIDs

  // ------------------------------------------- what each section does to a status

  /** `Start` refuses, or sets the run running (again, if it already was). */
  function Started(s: RunState): Option<RunState> {
    if CanMove(s, Running) then Some(Running) else None
  }

  function Consumed(s: RunState): RunState {
    if s == Running then Succeeded else s
  }

  function StopBegun(s: RunState): RunState {
    if s == Running then Stopping else s
  }

  function StopEnded(s: RunState): RunState {
    if s == Stopping then Cancelled else s
  }

  // ----------------------------------------------------------------- the sections

  datatype RunError = MissingID | AlreadyExists | NotFound | BadTransition

  datatype Run = Run(id: string, workspaceID: string, prompt: string, status: RunState)

  class RunService {
    var runs: map<string, Run>
    var outputSeq: map<string, nat>
    var runContexts: set<string>      // the runs whose context has not been cleared
    var cancelled: set<string>        // the runs whose context has been cancelled

    constructor ()
      ensures runs == map[] && outputSeq == map[] && runContexts == {} && cancelled == {}
    {
      runs, outputSeq, runContexts, cancelled := map[], map[], {}, {};
    }

    /** The service's own part of a run's world, as the fields hold it. */
    ghost predicate Shows(c: RunCell, id: string)
      reads this
    {
      && c.status == (if id in runs then Some(runs[id].status) else None)
      && c.outputSeq == (if id in outputSeq then outputSeq[id] else 0)
      && (c.contextLive <==> id in runContexts) && (c.contextCancelled <==> id in cancelled)
    }

    method Create(id: string, workspaceID: string, prompt: string) returns (r: Result<Run, RunError>)
      modifies this`runs, this`runContexts
      ensures r == if id == "" || workspaceID == "" then Err(MissingID)
                   else if id in old(runs) then Err(AlreadyExists) else Ok(Run(id, workspaceID, prompt, Queued))
      ensures runs == if r.Ok? then old(runs)[id := r.value] else old(runs)
      ensures runContexts == if r.Ok? then old(runContexts) + {id} else old(runContexts)
      ensures forall c, a, p :: old(Shows(c, id)) && id != "" && workspaceID != "" ==>
                Shows(Next(c, CreateRun(a, p)), id)
    {
      if id == "" || workspaceID == "" {
        return Err(MissingID);
      }
      if id in runs {
        return Err(AlreadyExists);
      }
      var run := Run(id, workspaceID, prompt, Queued);
      runs := runs[id := run];
      runContexts := runContexts + {id};
      return Ok(run);
    }

    method Start(id: string) returns (r: Result<Run, RunError>)
      modifies this`runs
      ensures id !in old(runs) ==> r == Err(NotFound) && runs == old(runs)
      ensures id in old(runs) ==>
                if old(runs)[id].status in {Queued, Running}
                then r == Ok(old(runs)[id].(status := Running)) && runs == old(runs)[id := r.value]
                else r == Err(BadTransition) && runs == old(runs)
      ensures forall c :: old(Shows(c, id)) ==> Shows(Next(c, StartRun), id)
    {
      if id !in runs {
        return Err(NotFound);
      }
      var run := runs[id];
      if !CanMove(run.status, Running) {
        return Err(BadTransition);
      }
      run := run.(status := Running);
      runs := runs[id := run];
      return Ok(run);
    }

    /** The numbering section of `publishOutput`. */
    method NumberOutput(id: string) returns (sequence: nat)
      modifies this`outputSeq
      ensures sequence == 1 + if id in old(outputSeq) then old(outputSeq)[id] else 0
      ensures outputSeq == old(outputSeq)[id := sequence]
      ensures forall c, i: nat :: old(Shows(c, id)) && i < |c.consumers| && c.consumers[i].Holding? ==>
                var d := Next(c, PublishOutput(i));
                Shows(d, id) && d.published == c.published + [Published(sequence, c.consumers[i].item)]
    {
      sequence := (if id in outputSeq then outputSeq[id] else 0) + 1;
      outputSeq := outputSeq[id := sequence];
    }

    /** The section of `consume` after the channel has been closed and drained. */
    method FinishConsume(id: string)
      modifies this`runs
      ensures runs == if id in old(runs) && old(runs)[id].status == Running
                      then old(runs)[id := old(runs)[id].(status := Succeeded)] else old(runs)
      ensures forall c, i: nat :: old(Shows(c, id)) && i < |c.consumers| && c.consumers[i] == Draining ==>
                Shows(Next(c, Step.FinishConsume(i)), id)
    {
      if id in runs && runs[id].status == Running {
        runs := runs[id := runs[id].(status := Succeeded)];
      }
    }

    method ClearRunContext(id: string)
      modifies this`runContexts, this`cancelled
      ensures runContexts == old(runContexts) - {id}
      ensures cancelled == if id in old(runContexts) then old(cancelled) + {id} else old(cancelled)
      ensures forall c, i: nat :: old(Shows(c, id)) && i < |c.consumers| && c.consumers[i] == Clearing ==>
                Shows(Next(c, ClearContext(i)), id)
    {
      if id in runContexts {
        cancelled := cancelled + {id};
      }
      runContexts := runContexts - {id};
    }

    /** The first section of `Stop`. */
    method BeginStop(id: string) returns (r: Result<Run, RunError>)
      modifies this`runs
      ensures id !in old(runs) ==> r == Err(NotFound) && runs == old(runs)
      ensures id in old(runs) ==>
                && r.Ok? && runs == old(runs)[id := r.value] && r.value == old(runs)[id].(status := r.value.status)
                && r.value.status == if old(runs)[id].status == Running then Stopping else old(runs)[id].status
      ensures forall c :: old(Shows(c, id)) ==> Shows(Next(c, Step.BeginStop), id)
    {
      if id !in runs {
        return Err(NotFound);
      }
      var run := runs[id];
      if run.status == Running {
        run := run.(status := Stopping);
        runs := runs[id := run];
      }
      return Ok(run);
    }

    /** `Stop` cancels the run's context if it has not been cleared. */
    method CancelRun(id: string)
      modifies this`cancelled
      ensures cancelled == if id in runContexts then old(cancelled) + {id} else old(cancelled)
      ensures forall c :: old(Shows(c, id)) && c.stopping > 0 ==> Shows(Next(c, Step.CancelRun), id)
    {
      if id in runContexts {
        cancelled := cancelled + {id};
      }
    }

    /** The last section of `Stop`. */
    method EndStop(id: string) returns (run: Run)
      requires id in runs
      modifies this`runs
      ensures runs == old(runs)[id := run] && run == old(runs)[id].(status := run.status)
      ensures run.status == if old(runs)[id].status == Stopping then Cancelled else old(runs)[id].status
      ensures forall c :: old(Shows(c, id)) && c.ending > 0 ==> Shows(Next(c, Step.EndStop), id)
    {
      run := runs[id];
      if run.status == Stopping {
        run := run.(status := Cancelled);
        runs := runs[id := run];
      }
    }
  }

  // ------------------------------------------------------------ one run's world

  datatype Consumer = Waiting | Holding(item: A.Output) | Draining | Clearing | Gone

  datatype Published = Published(sequence: nat, item: A.Output)

  /**
    `statuses` lists every status written. The counters say how many calls are between two
    of their sections: creates before Spawn, starts before the agent's Run and before
    launching a consumer, stops before cancelling, before the agent's Stop and before their
    last section.
   */
  datatype RunCell = RunCell(
    status: Option<RunState>, statuses: seq<RunState>, hasAgent: bool, prompt: string,
    agent: Option<A.AgentRun>, contextLive: bool, contextCancelled: bool,
    spawning: nat, starting: nat, launching: nat, stopping: nat, halting: nat, ending: nat,
    consumers: seq<Consumer>, outputSeq: nat, published: seq<Published>)

  const UNUSED: RunCell :=
    RunCell(None, [], false, "", None, false, false, 0, 0, 0, 0, 0, 0, [], 0, [])

  datatype Step =
    | CreateRun(hasAgent: bool, prompt: string) | SpawnAgent
    | StartRun | RunAgent | LaunchConsumer
    | ReceiveOutput(i: nat) | PublishOutput(i: nat) | FinishConsume(i: nat) | ClearContext(i: nat)
    | BeginStop | CancelRun | StopAgent | EndStop
    | AgentStep(step: A.Step)

  function SetStatus(c: RunCell, s: RunState): RunCell {
    c.(status := Some(s), statuses := c.statuses + [s])
  }

  function SetAgent(c: RunCell, step: A.Step): RunCell {
    if c.agent.None? then c else c.(agent := Some(A.Apply(c.agent.value, step)))
  }

  function CancelContexts(c: RunCell): RunCell {
    if c.contextLive then SetAgent(c.(contextCancelled := true), A.CancelContext) else c
  }

  function SetConsumer(c: RunCell, i: nat, s: Consumer): RunCell
    requires i < |c.consumers|
  {
    c.(consumers := c.consumers[i := s])
  }

  /** Steps the agent's own goroutine and its input callers take by themselves. */
  predicate Internal(step: A.Step) {
    step.SendCall? || step.SendDeliver? || step.ExecuteLock? || step.ExecuteSend? || step.ExecuteSkip?
    || step.ExecuteClose?
  }

  /** A call on the agent that has to wait for its lock does not happen yet. */
  predicate AgentFree(c: RunCell) {
    c.agent.Some? ==> c.agent.value.holder == A.Free
  }

  function Next(c: RunCell, step: Step): RunCell {
    match step
    case CreateRun(hasAgent, prompt) =>
      if c.status.Some? then c
      else SetStatus(c, Queued).(hasAgent := hasAgent, prompt := prompt, contextLive := true,
                                 spawning := c.spawning + if hasAgent then 1 else 0)
    case SpawnAgent =>
      if c.spawning == 0 then c
      else if c.agent.Some? then c.(spawning := c.spawning - 1)
      else c.(spawning := c.spawning - 1, agent := Some(A.Spawned(c.prompt, c.contextCancelled)))
    case StartRun =>
      if c.status.None? || Started(c.status.value).None? then c
      else SetStatus(c, Started(c.status.value).value).(starting := c.starting + if c.hasAgent then 1 else 0)
    case RunAgent =>
      if c.starting == 0 || !AgentFree(c) then c
      else if c.agent.Some? && A.RunAccepted(c.agent.value)
      then SetAgent(c, A.RunCall).(starting := c.starting - 1, launching := c.launching + 1)
      else c.(starting := c.starting - 1)
    case LaunchConsumer =>
      if c.launching == 0 then c
      else c.(launching := c.launching - 1, consumers := c.consumers + [Waiting])
    case ReceiveOutput(i) =>
      if i >= |c.consumers| || c.consumers[i] != Waiting || c.agent.None? then c
      else if c.agent.value.buffer != []
      then SetConsumer(SetAgent(c, A.Receive), i, Holding(c.agent.value.buffer[0]))
      else if c.agent.value.closed then SetConsumer(c, i, Draining) else c
    case PublishOutput(i) =>
      if i >= |c.consumers| || !c.consumers[i].Holding? then c
      else SetConsumer(c, i, Waiting).(outputSeq := c.outputSeq + 1,
             published := c.published + [Published(c.outputSeq + 1, c.consumers[i].item)])
    case FinishConsume(i) =>
      if i >= |c.consumers| || c.consumers[i] != Draining || c.status.None? then c
      else SetConsumer(SetStatus(c, Consumed(c.status.value)), i, Clearing)
    case ClearContext(i) =>
      if i >= |c.consumers| || c.consumers[i] != Clearing then c
      else SetConsumer(CancelContexts(c).(contextLive := false), i, Gone)
    case BeginStop =>
      if c.status.None? then c
      else SetStatus(c, StopBegun(c.status.value)).(
             stopping := c.stopping + (if c.hasAgent then 1 else 0),
             ending := c.ending + if c.hasAgent then 0 else 1)
    case CancelRun =>
      if c.stopping == 0 then c
      else CancelContexts(c).(stopping := c.stopping - 1, halting := c.halting + 1)
    case StopAgent =>
      if c.halting == 0 || !AgentFree(c) then c
      else SetAgent(c, A.StopCall).(halting := c.halting - 1, ending := c.ending + 1)
    case EndStop =>
      if c.ending == 0 || c.status.None? then c
      else SetStatus(c, StopEnded(c.status.value)).(ending := c.ending - 1)
    case AgentStep(s) => if Internal(s) then SetAgent(c, s) else c
  }

  function RunSteps(c: RunCell, steps: seq<Step>): RunCell
    decreases |steps|
  {
    if steps == [] then c else RunSteps(Next(c, steps[0]), steps[1..])
  }

  // ------------------------------------------------------------ status histories

  ghost predicate StatusInv(c: RunCell) {
    match c.status
    case None => c.statuses == []
    case Some(s) => LegalLog(c.statuses) && c.statuses[|c.statuses| - 1] == s
  }

  predicate WritesStatus(step: Step) {
    step.CreateRun? || step.StartRun? || step.FinishConsume? || step.BeginStop? || step.EndStop?
  }

  /** Steps that may move the agent. */
  predicate MovesAgent(step: Step) {
    step.RunAgent? || step.ReceiveOutput? || step.ClearContext? || step.CancelRun? || step.StopAgent? || step.AgentStep?
  }

  lemma StatusLeftByCancel(c: RunCell, step: Step)
    requires step.ClearContext? || step.CancelRun?
    ensures Next(c, step).status == c.status && Next(c, step).statuses == c.statuses
  {
  }

  lemma StatusLeftByAgent(c: RunCell, step: Step)
    requires MovesAgent(step)
    ensures Next(c, step).status == c.status && Next(c, step).statuses == c.statuses
  {
    if step.ClearContext? || step.CancelRun? {
      StatusLeftByCancel(c, step);
    }
  }

  lemma StatusLeft(c: RunCell, step: Step)
    requires !WritesStatus(step)
    ensures Next(c, step).status == c.status && Next(c, step).statuses == c.statuses
  {
    if MovesAgent(step) {
      StatusLeftByAgent(c, step);
    }
  }

  /** A step writes the first status, or an allowed one, or none. */
  lemma StatusWrites(c: RunCell, step: Step)
    ensures var d := Next(c, step);
            || (d.status == c.status && d.statuses == c.statuses)
            || (c.status.None? && d.status == Some(Queued) && d.statuses == c.statuses + [Queued])
            || (c.status.Some? && d.status.Some? && d.statuses == c.statuses + [d.status.value]
                && CanMove(c.status.value, d.status.value))
  {
    if !WritesStatus(step) {
      StatusLeft(c, step);
    }
  }

  lemma StatusKeeps(c: RunCell, step: Step)
    requires StatusInv(c)
    ensures StatusInv(Next(c, step)) && c.statuses <= Next(c, step).statuses
  {
    var d := Next(c, step);
    StatusWrites(c, step);
    if c.status.Some? && d.statuses != c.statuses {
      A.LegalExtends(c.statuses, d.status.value);
    }
  }

  /** Only cancelling leaves the stopping status. */
  lemma StoppingStep(c: RunCell, step: Step)
    requires c.status == Some(Stopping)
    ensures Next(c, step).status in {Some(Stopping), Some(Cancelled)}
  {
    if !WritesStatus(step) {
      StatusLeft(c, step);
    }
  }

  // --------------------------------------------------- outputs and their consumer

  /** The output the consumer has taken off the channel and not yet published. */
  function InHand(c: RunCell): seq<A.Output> {
    if |c.consumers| == 1 && c.consumers[0].Holding? then [c.consumers[0].item] else []
  }

  function Items(published: seq<Published>): seq<A.Output> {
    seq(|published|, i requires 0 <= i < |published| => published[i].item)
  }

  ghost predicate Numbered(c: RunCell) {
    c.outputSeq == |c.published| && forall i :: 0 <= i < |c.published| ==> c.published[i].sequence == i + 1
  }

  /** Whether the agent's goroutine has been started. */
  predicate Executing(c: RunCell) {
    c.agent.Some? && c.agent.value.phase != A.NotStarted
  }

  /**
    The agent's goroutine and the one consumer, being launched or running, exist together.
    The consumer has published all it took except what it holds, in channel order, and it
    stops only when the channel is closed and empty.
   */
  ghost predicate OutputInv(c: RunCell) {
    && (c.status.None? ==> c == UNUSED)
    && (c.agent.Some? ==> A.PhaseInv(c.agent.value) && |c.agent.value.buffer| <= A.CAPACITY)
    && c.launching + |c.consumers| == (if Executing(c) then 1 else 0)
    && Numbered(c)
    && Items(c.published) + InHand(c) == (if c.agent.Some? then c.agent.value.taken else [])
    && (c.consumers != [] && (c.consumers[0].Draining? || c.consumers[0].Clearing? || c.consumers[0].Gone?) ==>
          c.agent.value.closed && c.agent.value.buffer == [])
    && (c.status == Some(Succeeded) ==> c.consumers == [Clearing] || c.consumers == [Gone])
  }

  lemma ItemsSnoc(published: seq<Published>, p: Published)
    ensures Items(published + [p]) == Items(published) + [p.item]
  {
  }

  lemma PublishKeeps(c: RunCell, i: nat)
    requires OutputInv(c)
    ensures OutputInv(Next(c, PublishOutput(i)))
  {
    if i < |c.consumers| && c.consumers[i].Holding? {
      var p := Published(c.outputSeq + 1, c.consumers[i].item);
      ItemsSnoc(c.published, p);
      assert Items(c.published + [p]) + [] == Items(c.published) + [p.item];
    }
  }

  lemma ReceiveKeeps(c: RunCell, i: nat)
    requires OutputInv(c)
    ensures OutputInv(Next(c, ReceiveOutput(i)))
  {
    if i < |c.consumers| && c.consumers[i] == Waiting {
      A.PhaseKeeps(c.agent.value, A.Receive);
    }
  }

  /** Agent steps other than Receive and RunCall leave the consumer's side alone. */
  lemma AgentStepKeeps(r: A.AgentRun, s: A.Step)
    requires A.PhaseInv(r) && |r.buffer| <= A.CAPACITY
    ensures var t := A.Apply(r, s);
            && A.PhaseInv(t) && |t.buffer| <= A.CAPACITY
            && (s != A.Receive ==> t.taken == r.taken)
            && (s != A.RunCall ==> (t.phase == A.NotStarted <==> r.phase == A.NotStarted))
            && (r.closed && r.buffer == [] ==> t.closed && t.buffer == [])
  {
    A.PhaseKeeps(r, s);
    A.SentGrows(r, s);
  }

  lemma SetAgentKeeps(c: RunCell, s: A.Step)
    requires OutputInv(c) && s != A.Receive && s != A.RunCall
    ensures OutputInv(SetAgent(c, s))
  {
    if c.agent.Some? {
      AgentStepKeeps(c.agent.value, s);
    }
  }

  lemma RunAgentKeeps(c: RunCell)
    requires OutputInv(c)
    ensures OutputInv(Next(c, RunAgent))
  {
    if c.starting > 0 && c.agent.Some? && A.RunAccepted(c.agent.value) {
      AgentStepKeeps(c.agent.value, A.RunCall);
      assert c.consumers == [];
    }
  }

  lemma CreateKeeps(c: RunCell, step: Step)
    requires OutputInv(c) && (step.CreateRun? || (step.SpawnAgent? && c.status.Some?))
    ensures OutputInv(Next(c, step))
  {
  }

  lemma StartKeeps(c: RunCell)
    requires OutputInv(c) && c.status.Some?
    ensures OutputInv(Next(c, StartRun))
  {
    OutputSame(c, Next(c, StartRun));
  }

  lemma StopSectionsKeep(c: RunCell, step: Step)
    requires OutputInv(c) && c.status.Some? && (step.BeginStop? || step.EndStop?)
    ensures OutputInv(Next(c, step))
  {
    OutputSame(c, Next(c, step));
  }

  /** A status change other than to succeeded leaves the consumer's side alone. */
  lemma OutputSame(c: RunCell, d: RunCell)
    requires OutputInv(c) && d.status.Some? && (d.status == Some(Succeeded) ==> c.status == d.status)
    requires d.agent == c.agent && d.launching == c.launching && d.consumers == c.consumers
    requires d.outputSeq == c.outputSeq && d.published == c.published
    ensures OutputInv(d)
  {
  }

  lemma ConsumerKeeps(c: RunCell, step: Step)
    requires OutputInv(c) && c.status.Some? && (step.LaunchConsumer? || step.FinishConsume?)
    ensures OutputInv(Next(c, step))
  {
  }

  lemma CancelKeeps(c: RunCell)
    requires OutputInv(c) && c.status.Some?
    ensures OutputInv(CancelContexts(c)) && CancelContexts(c).consumers == c.consumers
    ensures CancelContexts(c).status == c.status
  {
    SetAgentKeeps(c.(contextCancelled := true), A.CancelContext);
  }

  lemma ClearKeeps(c: RunCell, i: nat)
    requires OutputInv(c) && c.status.Some?
    ensures OutputInv(Next(c, ClearContext(i)))
  {
    CancelKeeps(c);
  }

  lemma CancelRunKeeps(c: RunCell)
    requires OutputInv(c) && c.status.Some?
    ensures OutputInv(Next(c, CancelRun))
  {
    if c.stopping > 0 {
      CancelKeeps(c);
      OutputSame(CancelContexts(c), Next(c, CancelRun));
    }
  }

  lemma StopAgentKeeps(c: RunCell)
    requires OutputInv(c) && c.status.Some?
    ensures OutputInv(Next(c, StopAgent))
  {
    SetAgentKeeps(c, A.StopCall);
  }

  lemma OutputKeeps(c: RunCell, step: Step)
    requires OutputInv(c) && (c.status.Some? || step.CreateRun?)
    ensures OutputInv(Next(c, step))
  {
    match step
    case CreateRun(_, _) => CreateKeeps(c, step);
    case SpawnAgent => CreateKeeps(c, step);
    case StartRun => StartKeeps(c);
    case RunAgent => RunAgentKeeps(c);
    case LaunchConsumer => ConsumerKeeps(c, step);
    case ReceiveOutput(i) => ReceiveKeeps(c, i);
    case PublishOutput(i) => PublishKeeps(c, i);
    case FinishConsume(_) => ConsumerKeeps(c, step);
    case ClearContext(i) => ClearKeeps(c, i);
    case BeginStop => StopSectionsKeep(c, step);
    case CancelRun => CancelRunKeeps(c);
    case StopAgent => StopAgentKeeps(c);
    case EndStop => StopSectionsKeep(c, step);
    case AgentStep(s) => if Internal(s) { SetAgentKeeps(c, s); }
  }

  ghost predicate CellInv(c: RunCell) {
    StatusInv(c) && OutputInv(c)
  }

  lemma UnusedStays(c: RunCell, step: Step)
    requires c == UNUSED && !step.CreateRun?
    ensures Next(c, step) == c
  {
  }

  lemma NextKeeps(c: RunCell, step: Step)
    requires CellInv(c)
    ensures CellInv(Next(c, step)) && c.statuses <= Next(c, step).statuses
  {
    StatusKeeps(c, step);
    if c.status.Some? || step.CreateRun? {
      OutputKeeps(c, step);
    } else {
      UnusedStays(c, step);
    }
  }

  lemma {:induction false} StepsKeep(c: RunCell, steps: seq<Step>)
    requires CellInv(c)
    ensures CellInv(RunSteps(c, steps)) && c.statuses <= RunSteps(c, steps).statuses
    decreases |steps|
  {
    if steps != [] {
      NextKeeps(c, steps[0]);
      StepsKeep(Next(c, steps[0]), steps[1..]);
    }
  }

  // ----------------------------------------------------------------- main results

  /**
    In every interleaving, every status change is allowed by the transition table, there
    are at most three, and a terminal status is final.
   */
  lemma StatusLifecycle(steps: seq<Step>)
    ensures var c := RunSteps(UNUSED, steps);
            c.status.Some? ==>
              && LegalLog(c.statuses) && c.statuses[|c.statuses| - 1] == c.status.value
              && Changes(c.statuses) <= 3
              && forall i :: 0 <= i < |c.statuses| && Terminal(c.statuses[i]) ==> c.status.value == c.statuses[i]
  {
    StepsKeep(UNUSED, steps);
    var c := RunSteps(UNUSED, steps);
    if c.status.Some? {
      LegalLogBounds(c.statuses);
    }
  }

  /** A run that Stop has moved to stopping can only become cancelled: it never succeeds. */
  lemma {:induction false} StoppingNeverSucceeds(c: RunCell, steps: seq<Step>)
    requires c.status in {Some(Stopping), Some(Cancelled)}
    ensures RunSteps(c, steps).status in {Some(Stopping), Some(Cancelled)}
    ensures c.status == Some(Cancelled) ==> RunSteps(c, steps).status == Some(Cancelled)
    decreases |steps|
  {
    if steps != [] {
      if c.status == Some(Stopping) {
        StoppingStep(c, steps[0]);
      } else {
        CancelledStep(c, steps[0]);
      }
      StoppingNeverSucceeds(Next(c, steps[0]), steps[1..]);
    }
  }

  /** A run that is stopping has a stop in progress. */
  ghost predicate StopUnderway(c: RunCell) {
    c.status == Some(Stopping) ==> c.stopping + c.halting + c.ending > 0
  }

  lemma StopUnderwayByAgent(c: RunCell, step: Step)
    requires StopUnderway(c) && MovesAgent(step)
    ensures StopUnderway(Next(c, step))
  {
  }

  lemma StopUnderwayKeeps(c: RunCell, step: Step)
    requires StopUnderway(c)
    ensures StopUnderway(Next(c, step))
  {
    if MovesAgent(step) {
      StopUnderwayByAgent(c, step);
    }
  }

  lemma {:induction false} StopUnderwayRun(c: RunCell, steps: seq<Step>)
    requires StopUnderway(c)
    ensures StopUnderway(RunSteps(c, steps))
    decreases |steps|
  {
    if steps != [] {
      StopUnderwayKeeps(c, steps[0]);
      StopUnderwayRun(Next(c, steps[0]), steps[1..]);
    }
  }

  /**
    A stop ends. In every interleaving, once no stop is in progress no run is left stopping,
    and a run that was stopping at any earlier moment is cancelled.
   */
  lemma StopEnds(before: seq<Step>, after: seq<Step>)
    ensures var c := RunSteps(UNUSED, before); var d := RunSteps(c, after);
            d.stopping + d.halting + d.ending == 0 ==>
              && d.status != Some(Stopping)
              && (c.status == Some(Stopping) ==> d.status == Some(Cancelled))
  {
    var c := RunSteps(UNUSED, before);
    StopUnderwayRun(UNUSED, before);
    StopUnderwayRun(c, after);
    if c.status == Some(Stopping) {
      StoppingNeverSucceeds(c, after);
    }
  }

  // ------------------------------------------------------- what a stop reaches

  /** A run's context that has been cancelled is so for its agent too. */
  ghost predicate ContextInv(c: RunCell) {
    && (c.contextCancelled && c.agent.Some? ==> c.agent.value.cancelled)
    && (c.status.Some? && !c.contextCancelled ==> c.contextLive)
    && (c.halting > 0 ==> c.contextCancelled)
  }

  lemma CancelledAgent(r: A.AgentRun, s: A.Step)
    ensures r.cancelled || s == A.CancelContext ==> A.Apply(r, s).cancelled
  {
  }

  lemma ContextSetAgent(c: RunCell, s: A.Step)
    requires ContextInv(c)
    ensures ContextInv(SetAgent(c, s))
  {
    if c.agent.Some? {
      CancelledAgent(c.agent.value, s);
    }
  }

  lemma ContextCancel(c: RunCell)
    requires ContextInv(c) && c.status.Some?
    ensures ContextInv(CancelContexts(c)) && CancelContexts(c).contextCancelled
    ensures CancelContexts(c).halting == c.halting && CancelContexts(c).status == c.status
  {
    if c.agent.Some? {
      CancelledAgent(c.agent.value, A.CancelContext);
    }
  }

  lemma ContextAgentSteps(c: RunCell, step: Step)
    requires ContextInv(c) && MovesAgent(step) && !step.ClearContext? && !step.CancelRun?
    ensures ContextInv(Next(c, step))
  {
    var s := AgentOf(c, step);
    ContextSetAgent(c, s);
  }

  lemma ContextOtherSteps(c: RunCell, step: Step)
    requires ContextInv(c) && !MovesAgent(step)
    ensures ContextInv(Next(c, step))
  {
  }

  lemma ContextKeeps(c: RunCell, step: Step)
    requires ContextInv(c) && OutputInv(c)
    ensures ContextInv(Next(c, step))
  {
    if step.ClearContext? || step.CancelRun? {
      if c.status.Some? {
        ContextCancel(c);
      }
    } else if MovesAgent(step) {
      ContextAgentSteps(c, step);
    } else {
      ContextOtherSteps(c, step);
    }
  }

  lemma {:induction false} ContextRun(c: RunCell, steps: seq<Step>)
    requires ContextInv(c) && CellInv(c)
    ensures ContextInv(RunSteps(c, steps))
    decreases |steps|
  {
    if steps != [] {
      ContextKeeps(c, steps[0]);
      NextKeeps(c, steps[0]);
      ContextRun(Next(c, steps[0]), steps[1..]);
    }
  }

  /**
    What a stop has done by the time it calls the agent, in every interleaving: the run's
    context is cancelled, and the agent's with it; and the call leaves the agent in a
    terminal state.
   */
  lemma StopReachesAgent(steps: seq<Step>)
    ensures var c := RunSteps(UNUSED, steps);
            c.halting > 0 && c.agent.Some? ==>
              && c.contextCancelled && c.agent.value.cancelled
              && (AgentFree(c) ==> Next(c, StopAgent).agent.Some? && Terminal(Next(c, StopAgent).agent.value.state))
  {
    StepsKeep(UNUSED, steps);
    ContextRun(UNUSED, steps);
    var c := RunSteps(UNUSED, steps);
    if c.agent.Some? && AgentFree(c) {
      A.StopEndsAgent(c.agent.value);
    }
  }

  lemma CancelledStep(c: RunCell, step: Step)
    requires c.status == Some(Cancelled)
    ensures Next(c, step).status == Some(Cancelled)
  {
    StatusWrites(c, step);
  }

  /**
    In every interleaving the published outputs are numbered 1 to n without gaps and are
    the outputs of the agent's channel in order, by at most one consumer; and once the
    status is succeeded they are all the outputs the agent ever put there.
   */
  lemma OutputsInOrder(steps: seq<Step>)
    ensures var c := RunSteps(UNUSED, steps);
            && |c.consumers| <= 1
            && c.outputSeq == |c.published|
            && (forall i :: 0 <= i < |c.published| ==> c.published[i].sequence == i + 1)
            && (c.agent.None? ==> c.published == [])
            && (c.agent.Some? ==> Items(c.published) <= A.Sent(c.agent.value))
            && (c.status == Some(Succeeded) ==>
                  c.agent.Some? && c.agent.value.closed && Items(c.published) == A.Sent(c.agent.value))
            && (c.agent.Some? ==> c.agent.value.closes <= 1 && !c.agent.value.panicked)
  {
    StepsKeep(UNUSED, steps);
    var c := RunSteps(UNUSED, steps);
    if c.agent.Some? {
      assert c.agent.value.taken <= A.Sent(c.agent.value);
      assert Items(c.published) <= c.agent.value.taken;
    }
  }

  /** The events of a run's outputs have distinct IDs. */
  lemma OutputEventsDistinct(steps: seq<Step>, runID: string, i: nat, j: nat)
    requires var c := RunSteps(UNUSED, steps); i < j < |c.published|
    ensures var c := RunSteps(UNUSED, steps);
            EventID(runID, c.published[i].item.kind, c.published[i].sequence)
            != EventID(runID, c.published[j].item.kind, c.published[j].sequence)
  {
    StepsKeep(UNUSED, steps);
    var c := RunSteps(UNUSED, steps);
    EventIDWithinRun(runID, c.published[i].item.kind, c.published[i].sequence,
                     c.published[j].item.kind, c.published[j].sequence);
  }

  // ------------------------------------------- when the two statuses disagree

  /** The step stops a running agent while the run itself still counts as running. */
  predicate Hits(c: RunCell, step: Step) {
    && step.StopAgent? && c.halting > 0 && AgentFree(c) && c.status == Some(Running)
    && c.agent.Some? && c.agent.value.state == Running
  }

  predicate NoHit(c: RunCell, steps: seq<Step>)
    decreases |steps|
  {
    steps != [] ==> !Hits(c, steps[0]) && NoHit(Next(c, steps[0]), steps[1..])
  }

  /** A started agent that has been cancelled. */
  predicate Downed(agent: Option<A.AgentRun>) {
    agent.Some? && agent.value.state == Cancelled && agent.value.phase != A.NotStarted
  }

  /** The agent was cancelled under a run that counts as running, or has succeeded. */
  predicate Undercut(c: RunCell) {
    Downed(c.agent) && c.status in {Some(Running), Some(Succeeded)}
  }

  /** An agent's goroutine starts only after its run has left the queued status. */
  ghost predicate StartedInv(c: RunCell) {
    c.starting > 0 || Executing(c) ==> c.status.Some? && c.status != Some(Queued)
  }

  lemma StatusNotQueued(c: RunCell, step: Step)
    requires c.status.Some? && c.status != Some(Queued)
    ensures Next(c, step).status.Some? && Next(c, step).status != Some(Queued)
  {
    var d := Next(c, step);
    StatusWrites(c, step);
    if d.status.Some? && CanMove(c.status.value, d.status.value) {
      NeverRequeued(c.status.value, d.status.value);
    }
  }

  /** Where a step takes the agent: a step of the agent's own, a spawn, or nowhere. */
  lemma AgentOf(c: RunCell, step: Step) returns (s: A.Step)
    ensures Next(c, step).agent == c.agent || Next(c, step).agent == SetAgent(c, s).agent
            || (c.agent.None? && Next(c, step).agent == Some(A.Spawned(c.prompt, c.contextCancelled)))
    ensures (s == A.StopCall ==> step.StopAgent?) && (s == A.RunCall ==> step.RunAgent?)
  {
    s := match step
         case RunAgent => A.RunCall
         case ReceiveOutput(_) => A.Receive
         case StopAgent => A.StopCall
         case AgentStep(t) => if Internal(t) then t else A.CancelContext
         case _ => A.CancelContext;
  }

  lemma StartingLeft(c: RunCell, step: Step)
    requires !step.StartRun?
    ensures Next(c, step).starting <= c.starting
  {
  }

  lemma NotStartedStays(r: A.AgentRun, s: A.Step)
    requires s != A.RunCall && r.phase == A.NotStarted
    ensures A.Apply(r, s).phase == A.NotStarted
  {
  }

  /** Before a start, nothing gets an agent going. */
  lemma NotYetStarted(c: RunCell, step: Step)
    requires c.starting == 0 && !Executing(c) && !step.StartRun?
    ensures Next(c, step).starting == 0 && !Executing(Next(c, step))
  {
    StartingLeft(c, step);
    if !step.RunAgent? {
      var s := AgentOf(c, step);
      if c.agent.Some? {
        NotStartedStays(c.agent.value, s);
      }
    }
  }

  lemma StartedKeeps(c: RunCell, step: Step)
    requires StartedInv(c)
    ensures StartedInv(Next(c, step))
  {
    if c.status.Some? && c.status != Some(Queued) {
      StatusNotQueued(c, step);
    } else if !step.StartRun? {
      NotYetStarted(c, step);
    }
  }

  /** Only a stop cancels an agent, and that is for good. */
  lemma AgentStateStep(r: A.AgentRun, s: A.Step)
    ensures s != A.StopCall && Downed(Some(A.Apply(r, s))) ==> Downed(Some(r))
    ensures r.state == Cancelled ==> A.Apply(r, s).state == Cancelled
  {
    A.Writes(r, s);
  }

  lemma SetAgentState(c: RunCell, s: A.Step)
    ensures s != A.StopCall && Downed(SetAgent(c, s).agent) ==> Downed(c.agent)
    ensures c.agent.Some? && c.agent.value.state == Cancelled ==> SetAgent(c, s).agent.value.state == Cancelled
  {
    if c.agent.Some? {
      AgentStateStep(c.agent.value, s);
    }
  }

  lemma AgentMoves(c: RunCell, step: Step)
    ensures !step.StopAgent? && Downed(Next(c, step).agent) ==> Downed(c.agent)
    ensures c.agent.Some? && c.agent.value.state == Cancelled ==>
              Next(c, step).agent.Some? && Next(c, step).agent.value.state == Cancelled
  {
    var s := AgentOf(c, step);
    SetAgentState(c, s);
  }

  lemma UndercutByStatus(c: RunCell, step: Step)
    requires CellInv(c) && StartedInv(c) && !Undercut(c) && WritesStatus(step)
    ensures !Undercut(Next(c, step))
  {
  }

  lemma UndercutByStop(c: RunCell)
    requires OutputInv(c) && StartedInv(c) && !Undercut(c) && !Hits(c, StopAgent)
    ensures !Undercut(Next(c, StopAgent))
  {
  }

  lemma UndercutStep(c: RunCell, step: Step)
    requires CellInv(c) && StartedInv(c) && !Undercut(c) && !Hits(c, step)
    ensures !Undercut(Next(c, step))
  {
    if WritesStatus(step) {
      UndercutByStatus(c, step);
    } else if step.StopAgent? {
      UndercutByStop(c);
    } else {
      AgentMoves(c, step);
      StatusLeft(c, step);
    }
  }

  lemma HitCancels(c: RunCell, step: Step)
    requires Hits(c, step)
    ensures Next(c, step).agent.Some? && Next(c, step).agent.value.state == Cancelled
  {
  }

  lemma {:induction false} CancelledForGood(c: RunCell, steps: seq<Step>)
    requires c.agent.Some? && c.agent.value.state == Cancelled
    ensures RunSteps(c, steps).agent.Some? && RunSteps(c, steps).agent.value.state == Cancelled
    decreases |steps|
  {
    if steps != [] {
      AgentMoves(c, steps[0]);
      CancelledForGood(Next(c, steps[0]), steps[1..]);
    }
  }

  lemma {:induction false} HitsDecide(c: RunCell, steps: seq<Step>)
    requires CellInv(c) && StartedInv(c) && !Undercut(c)
    ensures NoHit(c, steps) ==> !Undercut(RunSteps(c, steps))
    ensures !NoHit(c, steps) ==>
              RunSteps(c, steps).agent.Some? && RunSteps(c, steps).agent.value.state == Cancelled
    decreases |steps|
  {
    if steps != [] {
      var next := Next(c, steps[0]);
      if Hits(c, steps[0]) {
        HitCancels(c, steps[0]);
        CancelledForGood(next, steps[1..]);
      } else {
        NextKeeps(c, steps[0]);
        StartedKeeps(c, steps[0]);
        UndercutStep(c, steps[0]);
        HitsDecide(next, steps[1..]);
      }
    }
  }

  /** The agent of a succeeded run has ended. */
  lemma SucceededEnded(c: RunCell)
    requires OutputInv(c) && c.status == Some(Succeeded)
    ensures c.agent.Some? && (c.agent.value.state == Succeeded || Downed(c.agent))
  {
  }

  /**
    A run that ended as succeeded is one whose agent succeeded if and only if no stop
    reached the running agent while the run still counted as running.
   */
  lemma AgentSucceededIff(steps: seq<Step>)
    requires RunSteps(UNUSED, steps).status == Some(Succeeded)
    ensures RunSteps(UNUSED, steps).agent.Some?
    ensures RunSteps(UNUSED, steps).agent.value.state == Succeeded <==> NoHit(UNUSED, steps)
  {
    StepsKeep(UNUSED, steps);
    HitsDecide(UNUSED, steps);
    SucceededEnded(RunSteps(UNUSED, steps));
  }

  /** No stop begins while the run is still queued. */
  ghost predicate NoEarlyStop(c: RunCell, steps: seq<Step>)
    decreases |steps|
  {
    steps != [] ==> (steps[0].BeginStop? ==> c.status != Some(Queued)) && NoEarlyStop(Next(c, steps[0]), steps[1..])
  }

  /** A stop in progress is of a run that is no longer queued or running. */
  ghost predicate StopInv(c: RunCell) {
    c.stopping + c.halting > 0 ==> c.status.Some? && c.status != Some(Queued) && c.status != Some(Running)
  }

  lemma StopCountsByAgent(c: RunCell, step: Step)
    requires MovesAgent(step)
    ensures Next(c, step).stopping + Next(c, step).halting <= c.stopping + c.halting
  {
  }

  lemma StopCounts(c: RunCell, step: Step)
    ensures Next(c, step).stopping + Next(c, step).halting
            <= c.stopping + c.halting + if step.BeginStop? && c.status.Some? then 1 else 0
  {
    if MovesAgent(step) {
      StopCountsByAgent(c, step);
    }
  }

  lemma StopKeeps(c: RunCell, step: Step)
    requires StopInv(c) && (step.BeginStop? ==> c.status != Some(Queued))
    ensures StopInv(Next(c, step)) && !Hits(c, step)
  {
    StopCounts(c, step);
    StatusWrites(c, step);
  }

  lemma {:induction false} NoEarlyStopNoHit(c: RunCell, steps: seq<Step>)
    requires StopInv(c) && NoEarlyStop(c, steps)
    ensures NoHit(c, steps)
    decreases |steps|
  {
    if steps != [] {
      StopKeeps(c, steps[0]);
      NoEarlyStopNoHit(Next(c, steps[0]), steps[1..]);
    }
  }

  /** In particular it is if no stop begins before the run has started. */
  lemma SucceededMeansAgentSucceeded(steps: seq<Step>)
    requires NoEarlyStop(UNUSED, steps) && RunSteps(UNUSED, steps).status == Some(Succeeded)
    ensures var agent := RunSteps(UNUSED, steps).agent; agent.Some? && agent.value.state == Succeeded
  {
    NoEarlyStopNoHit(UNUSED, steps);
    AgentSucceededIff(steps);
  }

  /**
    The other case does occur: a stop that began on a queued run can cancel the agent
    after a concurrent start, and the consumer then records the run as succeeded.
   */
  lemma EarlyStopCanSucceed()
    ensures exists steps ::
              var c := RunSteps(UNUSED, steps);
              c.status == Some(Succeeded) && c.agent.Some? && c.agent.value.state == Cancelled
              && c.published == []
  {
    var s1, c1 := QueuedStop();
    var s2, c2 := StartedAgent(c1);
    var s3, c3 := StoppedAgent(c2);
    var s4, c4 := SkippedOutput(c3, A.Starting, A.Prompting);
    var s5, c5 := SkippedOutput(c4, A.Prompting, A.Finishing);
    var s6, c6 := ClosedAgent(c5);
    var s7, c7 := DrainedRun(c6);
    RunConcat(UNUSED, s1, s2);
    RunConcat(UNUSED, s1 + s2, s3);
    RunConcat(UNUSED, s1 + s2 + s3, s4);
    RunConcat(UNUSED, s1 + s2 + s3 + s4, s5);
    RunConcat(UNUSED, s1 + s2 + s3 + s4 + s5, s6);
    RunConcat(UNUSED, s1 + s2 + s3 + s4 + s5 + s6, s7);
    assert RunSteps(UNUSED, s1 + s2 + s3 + s4 + s5 + s6 + s7) == c7;
  }

  lemma QueuedStop() returns (steps: seq<Step>, c: RunCell)
    ensures c == RunSteps(UNUSED, steps)
    ensures c.status == Some(Running) && c.starting == 1 && c.stopping == 1 && c.contextLive
    ensures c.agent == Some(A.Spawned("", false)) && c.consumers == [] && c.launching == 0 && c.halting == 0
    ensures c.published == []
  {
    RunTwo(UNUSED, CreateRun(true, ""), SpawnAgent);
    c := RunSteps(UNUSED, [CreateRun(true, ""), SpawnAgent]);
    assert c.status == Some(Queued) && c.agent == Some(A.Spawned("", false));
    RunTwo(c, BeginStop, StartRun);
    RunConcat(UNUSED, [CreateRun(true, ""), SpawnAgent], [BeginStop, StartRun]);
    steps := [CreateRun(true, ""), SpawnAgent] + [BeginStop, StartRun];
    c := Next(Next(c, BeginStop), StartRun);
  }

  lemma StartedAgent(from: RunCell) returns (steps: seq<Step>, c: RunCell)
    requires from.status == Some(Running) && from.starting == 1 && from.stopping == 1 && from.contextLive
    requires from.agent == Some(A.Spawned("", false)) && from.consumers == []
    requires from.launching == 0 && from.halting == 0
    ensures c == RunSteps(from, steps) && c.published == from.published
    ensures c.status == Some(Running) && c.stopping == 1 && c.halting == 0 && c.contextLive && c.consumers == [Waiting]
    ensures c.agent == Some(A.Apply(A.Spawned("", false), A.RunCall))
  {
    RunTwo(from, RunAgent, LaunchConsumer);
    steps := [RunAgent, LaunchConsumer];
    c := Next(Next(from, RunAgent), LaunchConsumer);
  }

  lemma StoppedAgent(from: RunCell) returns (steps: seq<Step>, c: RunCell)
    requires from.status == Some(Running) && from.stopping == 1 && from.halting == 0 && from.contextLive
    requires from.agent == Some(A.Apply(A.Spawned("", false), A.RunCall))
    ensures c == RunSteps(from, steps) && c.published == from.published && c.consumers == from.consumers
    ensures c.status == Some(Running) && Halted(c, A.Starting)
  {
    RunTwo(from, CancelRun, StopAgent);
    steps := [CancelRun, StopAgent];
    var c1 := Next(from, CancelRun);
    assert c1.agent.Some? && c1.agent.value.state == Running && c1.agent.value.holder == A.Free && c1.halting == 1;
    c := Next(c1, StopAgent);
  }

  /** The agent has been cancelled, with its goroutine still at some phase. */
  predicate Halted(c: RunCell, phase: A.Phase) {
    c.agent.Some? &&
    var r := c.agent.value;
    r.state == Cancelled && r.phase == phase && r.holder == A.Free && r.cancelled && r.buffer == [] && !r.closed
  }

  lemma SkippedOutput(from: RunCell, phase: A.Phase, next: A.Phase) returns (steps: seq<Step>, c: RunCell)
    requires Halted(from, phase)
    requires (phase == A.Starting && next == A.Prompting) || (phase == A.Prompting && next == A.Finishing)
    ensures c == RunSteps(from, steps) && Halted(c, next)
    ensures c.status == from.status && c.consumers == from.consumers && c.published == from.published
  {
    RunTwo(from, AgentStep(A.ExecuteLock), AgentStep(A.ExecuteSkip));
    steps := [AgentStep(A.ExecuteLock), AgentStep(A.ExecuteSkip)];
    c := Next(Next(from, AgentStep(A.ExecuteLock)), AgentStep(A.ExecuteSkip));
  }

  lemma ClosedAgent(from: RunCell) returns (steps: seq<Step>, c: RunCell)
    requires Halted(from, A.Finishing)
    ensures c == RunSteps(from, steps)
    ensures c.agent.Some? && c.agent.value.closed && c.agent.value.buffer == [] && c.agent.value.state == Cancelled
    ensures c.status == from.status && c.consumers == from.consumers && c.published == from.published
  {
    RunTwo(from, AgentStep(A.ExecuteLock), AgentStep(A.ExecuteClose));
    steps := [AgentStep(A.ExecuteLock), AgentStep(A.ExecuteClose)];
    c := Next(Next(from, AgentStep(A.ExecuteLock)), AgentStep(A.ExecuteClose));
  }

  lemma DrainedRun(from: RunCell) returns (steps: seq<Step>, c: RunCell)
    requires from.status == Some(Running) && from.consumers == [Waiting]
    requires from.agent.Some? && from.agent.value.closed && from.agent.value.buffer == []
    ensures c == RunSteps(from, steps)
    ensures c.status == Some(Succeeded) && c.agent == from.agent && c.published == from.published
  {
    RunTwo(from, ReceiveOutput(0), FinishConsume(0));
    steps := [ReceiveOutput(0), FinishConsume(0)];
    c := Next(Next(from, ReceiveOutput(0)), FinishConsume(0));
  }

  lemma {:induction false} RunConcat(c: RunCell, xs: seq<Step>, ys: seq<Step>)
    ensures RunSteps(c, xs + ys) == RunSteps(RunSteps(c, xs), ys)
    decreases |xs|
  {
    if xs == [] {
      assert xs + ys == ys;
    } else {
      assert (xs + ys)[1..] == xs[1..] + ys;
      RunConcat(Next(c, xs[0]), xs[1..], ys);
    }
  }

  lemma RunTwo(c: RunCell, s0: Step, s1: Step)
    ensures RunSteps(c, [s0, s1]) == Next(Next(c, s0), s1)
  {
    var both, last := [s0, s1], [s1];
    assert both[1..] == last && last[1..] == [];
    assert RunSteps(c, both) == RunSteps(Next(c, s0), last);
    assert RunSteps(Next(c, s0), last) == RunSteps(Next(Next(c, s0), s1), []);
  }
}
