/**
  One run of the mock agent runtime. Its callers and its own goroutine share a lock and
  send on a bounded channel, sometimes while holding the lock; each step below is what
  happens between two points where another goroutine can get in.
 */
module MockAgent {
  import opened Wrappers
  import opened RunStates

  datatype Output = Output(kind: string, text: string)

  /** Who holds the run's lock while waiting for room on the channel. */
  datatype Holder = Free | ByExecute | BySend(text: string)

  /** How far the run's goroutine is. */
  datatype Phase = NotStarted | Starting | Prompting | Finishing | Announcing | Closing | Ended

  const CAPACITY: nat := 16

  /**
    `written` lists every value given to the state, `taken` everything already received
    from the channel, `closes` how often it was closed; `panicked` records a send on, or a close
    of, a closed channel.
   */
  datatype AgentRun = AgentRun(
    prompt: string, state: RunState, buffer: seq<Output>, closed: bool, cancelled: bool,
    holder: Holder, phase: Phase,
    written: seq<RunState>, taken: seq<Output>, closes: nat, panicked: bool)

  function Spawned(prompt: string, cancelled: bool): AgentRun {
    AgentRun(prompt, Queued, [], false, cancelled, Free, NotStarted, [Queued], [], 0, false)
  }

  function Write(r: AgentRun, s: RunState): AgentRun {
    r.(state := s, written := r.written + [s])
  }

  function Put(r: AgentRun, o: Output): AgentRun {
    if r.closed then r.(panicked := true) else r.(buffer := r.buffer + [o])
  }

  function Close(r: AgentRun): AgentRun {
    if r.closed then r.(panicked := true, closes := r.closes + 1) else r.(closed := true, closes := r.closes + 1)
  }

  /** Everything ever put on the channel, in order. */
  function Sent(r: AgentRun): seq<Output> {
    r.taken + r.buffer
  }

  function HasRoom(r: AgentRun): bool {
    r.closed || |r.buffer| < CAPACITY
  }

  datatype Step =
    | RunCall | StopCall | SendCall(text: string) | SendDeliver
    | ExecuteLock | ExecuteSend | ExecuteSkip | ExecuteClose
    | Receive | CancelContext

  predicate RunAccepted(r: AgentRun) {
    r.holder == Free && r.state == Queued
  }

  /** A step that is not possible, or that is refused with an error, changes nothing. */
  function Apply(r: AgentRun, step: Step): AgentRun {
    match step
    case RunCall =>
      if RunAccepted(r) then Write(r, Running).(phase := Starting) else r
    case StopCall =>
      if r.holder != Free then r
      else if r.state == Queued then Close(Write(r, Cancelled))
      else if r.state == Running then Write(Write(r, Stopping).(cancelled := true), Cancelled)
      else r
    case SendCall(text) =>
      if r.holder == Free && text != "" && r.state == Running then r.(holder := BySend(text)) else r
    case SendDeliver =>
      if r.holder.BySend? && HasRoom(r) then Put(r, Output("input", r.holder.text)).(holder := Free) else r
    case ExecuteLock =>
      if r.holder != Free then r
      else if r.phase == Starting || r.phase == Prompting then r.(holder := ByExecute)
      else if r.phase == Finishing then
        if r.state == Running then Write(r, Succeeded).(holder := ByExecute, phase := Announcing)
        else r.(holder := ByExecute, phase := Closing)
      else r
    case ExecuteSend =>
      if r.holder != ByExecute || !HasRoom(r) then r
      else if r.phase == Starting then
        Put(r, Output("status", "agent started")).(holder := Free, phase := Prompting)
      else if r.phase == Prompting then
        Put(r, Output("output", r.prompt)).(holder := Free, phase := Finishing)
      else if r.phase == Announcing then Put(r, Output("status", "agent finished")).(phase := Closing)
      else r
    case ExecuteSkip =>
      if r.holder != ByExecute || !r.cancelled then r
      else if r.phase == Starting then r.(holder := Free, phase := Prompting)
      else if r.phase == Prompting then r.(holder := Free, phase := Finishing)
      else r
    case ExecuteClose =>
      if r.holder == ByExecute && r.phase == Closing then Close(r).(holder := Free, phase := Ended) else r
    case Receive => if r.buffer != [] then r.(buffer := r.buffer[1..], taken := r.taken + [r.buffer[0]]) else r
    case CancelContext => r.(cancelled := true)
  }

  function RunSteps(r: AgentRun, steps: seq<Step>): AgentRun
    decreases |steps|
  {
    if steps == [] then r else RunSteps(Apply(r, steps[0]), steps[1..])
  }

  // ---------------------------------------------------------------- in place

  datatype AgentError = MissingID | AlreadyExists | NotFound | CannotStart(state: RunState) | EmptyInput | NotRunning

  class MockRuntime {
    var runs: map<string, AgentRun>

    constructor ()
      ensures runs == map[]
    {
      runs := map[];
    }

    method Spawn(id: string, prompt: string) returns (error: Option<AgentError>)
      modifies this
      ensures error == if id == "" then Some(MissingID) else if id in old(runs) then Some(AlreadyExists) else None
      ensures runs == if error.None? then old(runs)[id := Spawned(prompt, false)] else old(runs)
    {
      if id == "" {
        return Some(MissingID);
      }
      if id in runs {
        return Some(AlreadyExists);
      }
      runs := runs[id := AgentRun(prompt, Queued, [], false, false, Free, NotStarted, [Queued], [], 0, false)];
      return None;
    }

    /** `Run`, entered while nobody holds the run's lock; it starts the goroutine. */
    method Run(id: string) returns (error: Option<AgentError>)
      requires id in runs ==> runs[id].holder == Free
      modifies this
      ensures id !in old(runs) ==> error == Some(NotFound) && runs == old(runs)
      ensures id in old(runs) ==> runs == old(runs)[id := Apply(old(runs)[id], RunCall)]
      ensures id in old(runs) ==>
                error == if old(runs)[id].state == Queued then None else Some(CannotStart(old(runs)[id].state))
      ensures error.None? ==> runs[id].state == Running && runs[id].phase == Starting
      ensures error.Some? ==> runs == old(runs)
    {
      if id !in runs {
        return Some(NotFound);
      }
      var r := runs[id];
      if r.state != Queued {
        return Some(CannotStart(r.state));
      }
      r := Write(r, Running);
      r := r.(phase := Starting);
      runs := runs[id := r];
      return None;
    }

    method Stop(id: string) returns (error: Option<AgentError>)
      requires id in runs ==> runs[id].holder == Free
      modifies this
      ensures error == if id in old(runs) then None else Some(NotFound)
      ensures runs == if id in old(runs) then old(runs)[id := Apply(old(runs)[id], StopCall)] else old(runs)
      ensures id in runs ==>
                var was, now := old(runs)[id], runs[id];
                && now.state == (if was.state in {Queued, Running} then Cancelled else was.state)
                && now.closed == (was.closed || was.state == Queued)
                && now.cancelled == (was.cancelled || was.state == Running)
                && now.buffer == was.buffer && now.phase == was.phase
    {
      if id !in runs {
        return Some(NotFound);
      }
      var r := runs[id];
      if r.state == Queued {
        r := Write(r, Cancelled);
        r := Close(r);
        runs := runs[id := r];
        return None;
      }
      if r.state != Running {
        return None;
      }
      r := Write(r, Stopping);
      r := r.(cancelled := true);
      r := Write(r, Cancelled);
      runs := runs[id := r];
      return None;
    }

    /** `Send` up to the point where it holds the lock and waits for room. */
    method BeginSend(id: string, text: string) returns (error: Option<AgentError>)
      requires id in runs ==> runs[id].holder == Free
      modifies this
      ensures error == if id !in old(runs) then Some(NotFound) else if text == "" then Some(EmptyInput)
                       else if old(runs)[id].state != Running then Some(NotRunning) else None
      ensures runs == if id in old(runs) then old(runs)[id := Apply(old(runs)[id], SendCall(text))] else old(runs)
      ensures runs == if error.None? then old(runs)[id := old(runs)[id].(holder := BySend(text))] else old(runs)
    {
      if id !in runs {
        return Some(NotFound);
      }
      if text == "" {
        return Some(EmptyInput);
      }
      if runs[id].state != Running {
        return Some(NotRunning);
      }
      runs := runs[id := runs[id].(holder := BySend(text))];
      return None;
    }

    /** The rest of `Send`, once the channel has room. */
    method EndSend(id: string)
      requires id in runs && runs[id].holder.BySend? && HasRoom(runs[id])
      modifies this
      ensures runs == old(runs)[id := Apply(old(runs)[id], SendDeliver)]
      ensures var was, now := old(runs)[id], runs[id];
              && now.holder == Free && now.state == was.state && now.closed == was.closed
              && now.panicked == (was.panicked || was.closed)
              && (!was.closed ==> now.buffer == was.buffer + [Output("input", was.holder.text)])
    {
      var r := Put(runs[id], Output("input", runs[id].holder.text));
      runs := runs[id := r.(holder := Free)];
    }

    /** `execute` takes the lock, for an emit or for its last section. */
    method ExecuteLock(id: string)
      requires id in runs && runs[id].holder == Free && runs[id].phase in {Starting, Prompting, Finishing}
      modifies this
      ensures runs == old(runs)[id := Apply(old(runs)[id], Step.ExecuteLock)]
      ensures var was, now := old(runs)[id], runs[id];
              && now.holder == ByExecute && now.buffer == was.buffer && now.closed == was.closed
              && (was.phase != Finishing ==> now.phase == was.phase && now.state == was.state)
              && (was.phase == Finishing ==>
                    && now.phase == (if was.state == Running then Announcing else Closing)
                    && now.state == (if was.state == Running then Succeeded else was.state))
    {
      var r := runs[id];
      r := r.(holder := ByExecute);
      if r.phase == Finishing {
        if r.state == Running {
          r := Write(r, Succeeded);
          r := r.(phase := Announcing);
        } else {
          r := r.(phase := Closing);
        }
      }
      runs := runs[id := r];
    }

    /** An emit ends: with a send if there is room, or without one if the context is done. */
    method ExecuteEmit(id: string, send: bool)
      requires id in runs && runs[id].holder == ByExecute && runs[id].phase in {Starting, Prompting}
      requires if send then HasRoom(runs[id]) else runs[id].cancelled
      modifies this
      ensures runs == old(runs)[id := Apply(old(runs)[id], if send then ExecuteSend else ExecuteSkip)]
      ensures var was, now := old(runs)[id], runs[id];
              && now.holder == Free && now.state == was.state && now.closed == was.closed
              && now.phase == (if was.phase == Starting then Prompting else Finishing)
              && (!send || was.closed ==> now.buffer == was.buffer)
              && (send && !was.closed ==>
                    now.buffer == was.buffer + [if was.phase == Starting then Output("status", "agent started")
                                                else Output("output", was.prompt)])
    {
      var r := runs[id];
      if send {
        r := Put(r, if r.phase == Starting then Output("status", "agent started") else Output("output", r.prompt));
      }
      r := r.(holder := Free, phase := if r.phase == Starting then Prompting else Finishing);
      runs := runs[id := r];
    }

    method ExecuteClose(id: string)
      requires id in runs && runs[id].holder == ByExecute && runs[id].phase == Closing
      modifies this
      ensures runs == old(runs)[id := Apply(old(runs)[id], Step.ExecuteClose)]
      ensures var was, now := old(runs)[id], runs[id];
              && now.closed && now.panicked == (was.panicked || was.closed)
              && now.holder == Free && now.phase == Ended && now.state == was.state
    {
      var r := Close(runs[id]);
      runs := runs[id := r.(holder := Free, phase := Ended)];
    }
  }

  // ----------------------------------------------------------- what stays true

  /** The states written so far, of which the current one is the last. */
  ghost predicate LogInv(r: AgentRun) {
    LegalLog(r.written) && r.written[|r.written| - 1] == r.state
  }

  /** Which states, lock holders and channel states go with each phase of the goroutine. */
  ghost predicate PhaseInv(r: AgentRun) {
    && !r.panicked && r.closes == (if r.closed then 1 else 0)
    && (match r.phase
        case NotStarted => r.holder == Free && (r.state == Queued || r.state == Cancelled)
        case Starting => r.state == Running || r.state == Cancelled
        case Prompting => r.state == Running || r.state == Cancelled
        case Finishing => r.holder != ByExecute && (r.state == Running || r.state == Cancelled)
        case Announcing => r.holder == ByExecute && r.state == Succeeded
        case Closing => r.holder == ByExecute && (r.state == Succeeded || r.state == Cancelled)
        case Ended => r.holder == Free && (r.state == Succeeded || r.state == Cancelled))
    && (r.closed <==> r.phase == Ended || (r.phase == NotStarted && r.state == Cancelled))
    && (r.holder.BySend? ==> r.state == Running)
  }

  /** A run that succeeded said so last. */
  ghost predicate FinalInv(r: AgentRun) {
    r.state == Succeeded && r.phase != Announcing ==>
      Sent(r) != [] && Sent(r)[|Sent(r)| - 1] == Output("status", "agent finished")
  }

  ghost predicate AgentInv(r: AgentRun) {
    LogInv(r) && |r.buffer| <= CAPACITY && PhaseInv(r) && FinalInv(r)
  }

  lemma LegalExtends(log: seq<RunState>, s: RunState)
    requires LegalLog(log) && CanMove(log[|log| - 1], s)
    ensures LegalLog(log + [s])
  {
  }

  predicate WritesState(step: Step) {
    step.RunCall? || step.StopCall? || step.ExecuteLock?
  }

  lemma StateLeft(r: AgentRun, step: Step)
    requires !WritesState(step)
    ensures Apply(r, step).state == r.state && Apply(r, step).written == r.written
  {
  }

  /** A step writes nothing, or one allowed state, or when stopping a running run, two. */
  lemma Writes(r: AgentRun, step: Step)
    ensures var t := Apply(r, step);
            || (t.written == r.written && t.state == r.state)
            || (t.written == r.written + [t.state] && CanMove(r.state, t.state))
            || (t.written == r.written + [Stopping] + [Cancelled] && t.state == Cancelled && r.state == Running)
  {
    if !WritesState(step) {
      StateLeft(r, step);
    }
  }

  /** Every step writes only states the transition table allows. */
  lemma LogKeeps(r: AgentRun, step: Step)
    requires LogInv(r)
    ensures LogInv(Apply(r, step)) && r.written <= Apply(r, step).written
  {
    var t := Apply(r, step);
    Writes(r, step);
    if t.written == r.written + [Stopping] + [Cancelled] && r.state == Running {
      LegalExtends(r.written, Stopping);
      LegalExtends(r.written + [Stopping], Cancelled);
    } else if t.written != r.written {
      LegalExtends(r.written, t.state);
    }
  }

  lemma PhaseKeeps(r: AgentRun, step: Step)
    requires PhaseInv(r) && |r.buffer| <= CAPACITY
    ensures PhaseInv(Apply(r, step)) && |Apply(r, step).buffer| <= CAPACITY
    ensures r.closed ==> Apply(r, step).closed
  {
  }

  /** What a step puts on the channel: at most one output, and none once it is closed. */
  lemma SentGrows(r: AgentRun, step: Step)
    requires PhaseInv(r)
    ensures Sent(r) <= Sent(Apply(r, step))
    ensures r.closed || step == Receive ==> Sent(Apply(r, step)) == Sent(r)
  {
    var t := Apply(r, step);
    if t.buffer != r.buffer && t.taken == r.taken {
      assert Sent(t) == Sent(r) + [t.buffer[|r.buffer|]];
    }
  }

  lemma FinalKeeps(r: AgentRun, step: Step)
    requires FinalInv(r) && PhaseInv(r)
    ensures FinalInv(Apply(r, step))
  {
    SentGrows(r, step);
  }

  lemma ApplyKeeps(r: AgentRun, step: Step)
    requires AgentInv(r)
    ensures AgentInv(Apply(r, step))
    ensures Sent(r) <= Sent(Apply(r, step)) && r.written <= Apply(r, step).written
    ensures r.closed ==> Apply(r, step).closed && Sent(Apply(r, step)) == Sent(r)
  {
    LogKeeps(r, step);
    PhaseKeeps(r, step);
    SentGrows(r, step);
    FinalKeeps(r, step);
  }

  /**
    In every interleaving of calls, goroutine steps, receives and cancellations, the
    output channel is closed at most once and never sent on after that, and the state
    moves only along the transition table.
   */
  lemma {:induction false} AgentSafe(r: AgentRun, steps: seq<Step>)
    requires AgentInv(r)
    ensures var t := RunSteps(r, steps);
            && AgentInv(t) && t.closes <= 1 && !t.panicked && LegalLog(t.written)
            && Sent(r) <= Sent(t) && (r.closed ==> Sent(t) == Sent(r))
    decreases |steps|
  {
    if steps != [] {
      ApplyKeeps(r, steps[0]);
      AgentSafe(Apply(r, steps[0]), steps[1..]);
    }
  }

  /** From its spawn a run changes state at most three times and ends as it first terminates. */
  lemma SpawnedSafe(prompt: string, cancelled: bool, steps: seq<Step>)
    ensures var t := RunSteps(Spawned(prompt, cancelled), steps);
            && AgentInv(t) && t.closes <= 1 && !t.panicked
            && Changes(t.written) <= 3
            && forall i :: 0 <= i < |t.written| && Terminal(t.written[i]) ==> t.state == t.written[i]
  {
    AgentSafe(Spawned(prompt, cancelled), steps);
    LegalLogBounds(RunSteps(Spawned(prompt, cancelled), steps).written);
  }

  /** A stop leaves the agent in a terminal state: a queued one closed, a running one with its context cancelled. */
  lemma StopEndsAgent(r: AgentRun)
    requires PhaseInv(r) && r.holder == Free
    ensures var t := Apply(r, StopCall);
            && Terminal(t.state)
            && (r.state == Queued ==> t.state == Cancelled && t.closed)
            && (r.state == Running ==> t.state == Cancelled && t.cancelled && t.closed == r.closed)
            && (Terminal(r.state) ==> t == r)
  {
  }

  // ------------------------------------------------------------------ its input

  /** The texts of the inputs among some outputs. */
  function Inputs(outputs: seq<Output>): seq<string> {
    if outputs == [] then []
    else Inputs(outputs[..|outputs| - 1])
         + if outputs[|outputs| - 1].kind == "input" then [outputs[|outputs| - 1].text] else []
  }

  /** The texts a run's callers sent while it could take them. */
  function Accepted(r: AgentRun, steps: seq<Step>): seq<string>
    decreases |steps|
  {
    if steps == [] then []
    else
      var step := steps[0];
      (if step.SendCall? && r.holder == Free && r.state == Running && step.text != "" then [step.text] else [])
      + Accepted(Apply(r, step), steps[1..])
  }

  /** The text a caller holds the lock with. */
  function Held(r: AgentRun): seq<string> {
    if r.holder.BySend? then [r.holder.text] else []
  }

  lemma PutInputs(r: AgentRun, o: Output)
    requires !r.closed
    ensures Inputs(Sent(Put(r, o))) == Inputs(Sent(r)) + if o.kind == "input" then [o.text] else []
  {
    PutSent(r, o);
    assert Sent(Put(r, o))[..|Sent(r)|] == Sent(r);
  }

  lemma ExecuteSendInputs(r: AgentRun)
    requires PhaseInv(r)
    ensures Inputs(Sent(Apply(r, ExecuteSend))) == Inputs(Sent(r))
  {
    if r.holder == ByExecute && HasRoom(r) && r.phase in {Starting, Prompting, Announcing} {
      var o := if r.phase == Starting then Output("status", "agent started")
               else if r.phase == Prompting then Output("output", r.prompt) else Output("status", "agent finished");
      PutInputs(r, o);
      assert Sent(Apply(r, ExecuteSend)) == Sent(Put(r, o));
    }
  }

  lemma AcceptedOne(r: AgentRun, step: Step)
    ensures Accepted(r, [step]) ==
            if step.SendCall? && r.holder == Free && r.state == Running && step.text != "" then [step.text] else []
  {
    assert [step][1..] == [];
  }

  lemma DeliverInputs(r: AgentRun)
    requires PhaseInv(r)
    ensures var t := Apply(r, SendDeliver); Inputs(Sent(t)) + Held(t) == Inputs(Sent(r)) + Held(r)
  {
    if r.holder.BySend? && HasRoom(r) {
      PutInputs(r, Output("input", r.holder.text));
    }
  }

  /** Who waits with a text changes only when a call is accepted or delivered. */
  lemma HeldStep(r: AgentRun, step: Step)
    requires PhaseInv(r) && step != SendDeliver
    ensures Held(Apply(r, step)) == Held(r) + Accepted(r, [step])
  {
    AcceptedOne(r, step);
  }

  lemma SentStep(r: AgentRun, step: Step)
    requires PhaseInv(r) && step != SendDeliver
    ensures Inputs(Sent(Apply(r, step))) == Inputs(Sent(r))
  {
    if step == ExecuteSend {
      ExecuteSendInputs(r);
    } else if step == Receive {
      SentGrows(r, step);
    } else {
      SentLeft(r, step);
    }
  }

  lemma StepInputs(r: AgentRun, step: Step)
    requires PhaseInv(r)
    ensures Inputs(Sent(Apply(r, step))) + Held(Apply(r, step))
            == Inputs(Sent(r)) + Held(r) + Accepted(r, [step])
  {
    AcceptedOne(r, step);
    if step == SendDeliver {
      DeliverInputs(r);
    } else {
      HeldStep(r, step);
      SentStep(r, step);
      Regroup(Inputs(Sent(r)), Held(r), Accepted(r, [step]));
    }
  }

  lemma SentLeft(r: AgentRun, step: Step)
    requires step != ExecuteSend && step != Receive
    requires step == SendDeliver ==> !r.holder.BySend? || !HasRoom(r)
    ensures Apply(r, step).taken == r.taken && Apply(r, step).buffer == r.buffer
  {
  }

  lemma {:induction false} RunInputs(r: AgentRun, steps: seq<Step>)
    requires AgentInv(r)
    ensures var t := RunSteps(r, steps);
            Inputs(Sent(t)) + Held(t) == Inputs(Sent(r)) + Held(r) + Accepted(r, steps)
    decreases |steps|
  {
    if steps != [] {
      ApplyKeeps(r, steps[0]);
      StepInputs(r, steps[0]);
      RunInputs(Apply(r, steps[0]), steps[1..]);
      AcceptedFirst(r, steps);
      Regroup(Inputs(Sent(r)) + Held(r), Accepted(r, [steps[0]]), Accepted(Apply(r, steps[0]), steps[1..]));
    }
  }

  lemma AcceptedFirst(r: AgentRun, steps: seq<Step>)
    requires steps != []
    ensures Accepted(r, steps) == Accepted(r, [steps[0]]) + Accepted(Apply(r, steps[0]), steps[1..])
  {
    assert [steps[0]][1..] == [];
  }

  lemma Regroup(xs: seq<string>, ys: seq<string>, zs: seq<string>)
    ensures xs + ys + zs == xs + (ys + zs)
  {
  }

  /**
    In every interleaving the inputs on the channel are exactly the texts that callers sent
    while the run was running, each once and in order, but for one that may still wait for
    room.
   */
  lemma InputsArrive(prompt: string, cancelled: bool, steps: seq<Step>)
    ensures var t := RunSteps(Spawned(prompt, cancelled), steps);
            Inputs(Sent(t)) + Held(t) == Accepted(Spawned(prompt, cancelled), steps)
  {
    var r := Spawned(prompt, cancelled);
    RunInputs(r, steps);
    assert Inputs(Sent(r)) + Held(r) + Accepted(r, steps) == Accepted(r, steps);
  }

  // -------------------------------------------------------- an undisturbed run

  /** What a run's goroutine announces, in order. */
  function Script(prompt: string): seq<Output> {
    [Output("status", "agent started"), Output("output", prompt), Output("status", "agent finished")]
  }

  /** How much of the script has been sent at each phase. */
  function SoFar(prompt: string, phase: Phase): seq<Output> {
    match phase
    case NotStarted | Starting => []
    case Prompting => [Output("status", "agent started")]
    case Finishing | Announcing => [Output("status", "agent started"), Output("output", prompt)]
    case Closing | Ended => Script(prompt)
  }

  predicate Disturbs(step: Step) {
    step.StopCall? || step.SendCall? || step.CancelContext?
  }

  ghost predicate OnScript(r: AgentRun) {
    && PhaseInv(r) && |r.buffer| <= CAPACITY
    && !r.cancelled && !r.holder.BySend? && r.state != Cancelled
    && Sent(r) == SoFar(r.prompt, r.phase)
  }

  lemma PutSent(r: AgentRun, o: Output)
    requires !r.closed
    ensures Sent(Put(r, o)) == Sent(r) + [o]
  {
  }

  lemma ScriptSends(r: AgentRun)
    requires OnScript(r) && r.holder == ByExecute
    ensures Sent(Apply(r, ExecuteSend)) == SoFar(r.prompt, Apply(r, ExecuteSend).phase)
  {
    if HasRoom(r) && r.phase != Closing {
      PutSent(r, if r.phase == Starting then Output("status", "agent started")
                 else if r.phase == Prompting then Output("output", r.prompt) else Output("status", "agent finished"));
    }
  }

  lemma ScriptKeeps(r: AgentRun, step: Step)
    requires OnScript(r) && !Disturbs(step)
    ensures OnScript(Apply(r, step)) && Apply(r, step).prompt == r.prompt
  {
    PhaseKeeps(r, step);
    if step == ExecuteSend && r.holder == ByExecute {
      ScriptSends(r);
    } else {
      SentGrows(r, step);
      assert step != Receive ==> Apply(r, step).taken == r.taken && Apply(r, step).buffer == r.buffer;
    }
  }

  lemma {:induction false} ScriptRun(r: AgentRun, steps: seq<Step>)
    requires OnScript(r) && forall i :: 0 <= i < |steps| ==> !Disturbs(steps[i])
    ensures OnScript(RunSteps(r, steps)) && RunSteps(r, steps).prompt == r.prompt
    decreases |steps|
  {
    if steps != [] {
      ScriptKeeps(r, steps[0]);
      ScriptRun(Apply(r, steps[0]), steps[1..]);
    }
  }

  /**
    A run that nobody stops, cancels or sends input to puts the start, the prompt and the
    finish on its channel, in that order and nothing else, and once it has ended it has
    succeeded and put all three there.
   */
  lemma UndisturbedRun(prompt: string, steps: seq<Step>)
    requires forall i :: 0 <= i < |steps| ==> !Disturbs(steps[i])
    ensures var t := RunSteps(Spawned(prompt, false), steps);
            && Sent(t) <= Script(prompt)
            && (t.phase == Ended ==> t.state == Succeeded && Sent(t) == Script(prompt))
  {
    ScriptRun(Spawned(prompt, false), steps);
    SoFarIsPrefix(prompt, RunSteps(Spawned(prompt, false), steps).phase);
  }

  lemma SoFarIsPrefix(prompt: string, phase: Phase)
    ensures SoFar(prompt, phase) <= Script(prompt) && (phase == Ended ==> SoFar(prompt, phase) == Script(prompt))
  {
  }
}
