/** The browser's reconnecting socket: the cursor it keeps, and when it connects again. */
module RealtimeClient {
  import opened Wrappers
  import opened HubModel
  import Delivery

  /**
    Sockets are numbered as they are made. A live one has not been told to close; one that
    is closing has, but its close event has not come yet. `current` is the last one made,
    unless the client has been stopped since. `queries` has the cursor each one asked with.
   */
  datatype Client = Client(
    cursor: string, stopped: bool, retryAttempt: nat, reconnecting: bool, current: Option<nat>,
    live: set<nat>, closing: set<nat>, made: nat, queries: seq<string>)

  const NEW: Client := Client("", true, 0, false, None, {}, {}, 0, [])

  function Connected(c: Client): Client {
    if c.stopped then c
    else c.(current := Some(c.made), live := c.live + {c.made}, made := c.made + 1, queries := c.queries + [c.cursor])
  }

  function Started(c: Client): Client {
    if c.stopped then Connected(c.(stopped := false)) else c
  }

  /** The live socket `i` is told to close. */
  function ToldToClose(c: Client, i: nat): Client {
    if i in c.live then c.(live := c.live - {i}, closing := c.closing + {i}) else c
  }

  function Stopped(c: Client): Client {
    var told := if c.current.Some? then ToldToClose(c, c.current.value) else c;
    told.(stopped := true, reconnecting := false, current := None)
  }

  function Scheduled(c: Client): Client {
    if c.stopped || c.reconnecting then c else c.(retryAttempt := c.retryAttempt + 1, reconnecting := true)
  }

  /** The close event of socket `i`, whichever side closed it. */
  function Closed(c: Client, i: nat): Client {
    if i in c.live + c.closing then Scheduled(c.(live := c.live - {i}, closing := c.closing - {i})) else c
  }

  function Fired(c: Client): Client {
    if c.reconnecting then Connected(c.(reconnecting := false)) else c
  }

  class ReconnectingRealtimeSocket {
    var cursor: string             // "" stands for undefined
    var stopped: bool
    var retryAttempt: nat
    var reconnecting: bool
    var current: Option<nat>
    var live: set<nat>
    var closing: set<nat>
    var made: nat
    var queries: seq<string>       // the last_event_id sent with each connection, "" for none

    ghost function State(): Client
      reads this
    {
      Client(cursor, stopped, retryAttempt, reconnecting, current, live, closing, made, queries)
    }

    constructor ()
      ensures State() == NEW
    {
      cursor, stopped, retryAttempt, reconnecting := "", true, 0, false;
      current, live, closing, made, queries := None, {}, {}, 0, [];
    }

    method Start()
      modifies this
      ensures State() == Started(old(State()))
      ensures !stopped && if old(stopped) then queries == old(queries) + [cursor] && current == Some(old(made))
                          else State() == old(State())
    {
      if !stopped {
        return;
      }
      stopped := false;
      ConnectSocket();
    }

    method Stop()
      modifies this
      ensures State() == Stopped(old(State()))
      ensures stopped && !reconnecting && current == None && queries == old(queries) && cursor == old(cursor)
      ensures old(current).Some? ==> old(current).value !in live
      ensures live + closing == old(live) + old(closing)
    {
      stopped, reconnecting := true, false;
      if current.Some? {
        CloseSocket(current.value);
      }
      current := None;
    }

    method ConnectSocket()
      modifies this`queries, this`current, this`live, this`made
      ensures State() == Connected(old(State()))
      ensures queries == if stopped then old(queries) else old(queries) + [cursor]
    {
      if stopped {
        return;
      }
      queries := queries + [cursor];
      current, live, made := Some(made), live + {made}, made + 1;
    }

    /** `close()` on a socket, which an error calls as well. */
    method CloseSocket(i: nat)
      modifies this`live, this`closing
      ensures State() == ToldToClose(old(State()), i)
    {
      if i in live {
        live, closing := live - {i}, closing + {i};
      }
    }

    method Opened()
      modifies this`retryAttempt
      ensures State() == old(State()).(retryAttempt := 0)
    {
      retryAttempt := 0;
    }

    /** `None` is a frame that does not parse or carries no event; both leave the cursor alone. */
    method Receive(event: Option<Event>)
      modifies this`cursor
      ensures cursor == if event.Some? then Delivery.NextCursor(old(cursor), event.value) else old(cursor)
    {
      if event.Some? && event.value.id != "" {
        cursor := event.value.id;
      }
    }

    method SocketClosed(i: nat)
      requires i in live + closing
      modifies this`live, this`closing, this`retryAttempt, this`reconnecting
      ensures State() == Closed(old(State()), i)
      ensures live == old(live) - {i} && closing == old(closing) - {i} && (stopped || reconnecting)
    {
      live, closing := live - {i}, closing - {i};
      ScheduleReconnect();
    }

    method ScheduleReconnect()
      modifies this`retryAttempt, this`reconnecting
      ensures State() == Scheduled(old(State()))
      ensures stopped || reconnecting
      ensures retryAttempt == if stopped || old(reconnecting) then old(retryAttempt) else old(retryAttempt) + 1
    {
      if stopped || reconnecting {
        return;
      }
      retryAttempt := retryAttempt + 1;
      reconnecting := true;
    }

    method TimerFired()
      requires reconnecting
      modifies this
      ensures State() == Fired(old(State()))
      ensures !reconnecting && queries == if stopped then old(queries) else old(queries) + [cursor]
    {
      reconnecting := false;
      ConnectSocket();
    }
  }

  // --------------------------------------------------------- over all runs

  datatype Step =
    | StartStep | StopStep | ClosedStep(i: nat) | CloseStep(i: nat) | TimerStep
    | FrameStep(event: Event) | OpenStep

  function Apply(c: Client, step: Step): Client {
    match step
    case StartStep => Started(c)
    case StopStep => Stopped(c)
    case ClosedStep(i) => Closed(c, i)
    case CloseStep(i) => ToldToClose(c, i)
    case TimerStep => Fired(c)
    case FrameStep(e) => c.(cursor := Delivery.NextCursor(c.cursor, e))
    case OpenStep => c.(retryAttempt := 0)
  }

  function Run(c: Client, steps: seq<Step>): Client
    decreases |steps|
  {
    if steps == [] then c else Run(Apply(c, steps[0]), steps[1..])
  }

  ghost predicate AtMostOneLive(c: Client) {
    forall i, j :: i in c.live && j in c.live ==> i == j
  }

  ghost predicate AlwaysOneLive(c: Client, steps: seq<Step>)
    decreases |steps|
  {
    AtMostOneLive(c) && (steps != [] ==> AlwaysOneLive(Apply(c, steps[0]), steps[1..]))
  }

  /** The pending reconnect comes due while a socket is live. */
  predicate Doubles(c: Client, step: Step) {
    step.TimerStep? && c.reconnecting && !c.stopped && c.live != {}
  }

  predicate NeverDoubles(c: Client, steps: seq<Step>)
    decreases |steps|
  {
    steps != [] ==> !Doubles(c, steps[0]) && NeverDoubles(Apply(c, steps[0]), steps[1..])
  }

  /** A live socket is the current one, and a stopped client has none and no reconnect pending. */
  ghost predicate Sound(c: Client) {
    && (forall i :: i in c.live ==> c.current == Some(i) && i < c.made)
    && (c.stopped ==> c.live == {} && !c.reconnecting)
  }

  lemma SoundStep(c: Client, step: Step)
    requires Sound(c)
    ensures !Doubles(c, step) ==> Sound(Apply(c, step))
    ensures Doubles(c, step) ==> !AtMostOneLive(Apply(c, step))
  {
    if Doubles(c, step) {
      var i :| i in c.live;
      assert i in Apply(c, step).live && c.made in Apply(c, step).live;
    }
  }

  /**
    Through a whole run at most one socket is live if and only if the reconnect timer never
    fires while a socket is live.
   */
  lemma {:induction false} OneLiveIff(c: Client, steps: seq<Step>)
    requires Sound(c)
    ensures AlwaysOneLive(c, steps) <==> NeverDoubles(c, steps)
    decreases |steps|
  {
    if steps != [] {
      SoundStep(c, steps[0]);
      if !Doubles(c, steps[0]) {
        OneLiveIff(Apply(c, steps[0]), steps[1..]);
      }
    }
  }

  /** Moreover no reconnect is pending while a socket is live: there is nothing that could double it. */
  ghost predicate OneConnection(c: Client) {
    && (forall i :: i in c.live ==> c.current == Some(i))
    && (c.reconnecting ==> c.live == {})
    && (c.stopped ==> c.live == {} && !c.reconnecting)
  }

  /** The close event of one socket finds another one live, in a client that has not been stopped. */
  predicate LateClose(c: Client, step: Step) {
    && step.ClosedStep? && step.i in c.live + c.closing && !c.stopped && !c.reconnecting
    && c.live - {step.i} != {}
  }

  predicate NoLateClose(c: Client, steps: seq<Step>)
    decreases |steps|
  {
    steps != [] ==> !LateClose(c, steps[0]) && NoLateClose(Apply(c, steps[0]), steps[1..])
  }

  ghost predicate AlwaysOne(c: Client, steps: seq<Step>)
    decreases |steps|
  {
    OneConnection(c) && (steps != [] ==> AlwaysOne(Apply(c, steps[0]), steps[1..]))
  }

  lemma StepOneIff(c: Client, step: Step)
    requires OneConnection(c)
    ensures OneConnection(Apply(c, step)) <==> !LateClose(c, step)
  {
    if LateClose(c, step) {
      assert Apply(c, step).reconnecting && Apply(c, step).live == c.live - {step.i};
    }
  }

  /**
    How a run gets there: through a whole run no reconnect is pending beside a live socket if
    and only if no socket's close event comes while another one is live.
   */
  lemma {:induction false} OneConnectionIff(c: Client, steps: seq<Step>)
    requires OneConnection(c)
    ensures AlwaysOne(c, steps) <==> NoLateClose(c, steps)
    decreases |steps|
  {
    if steps != [] {
      StepOneIff(c, steps[0]);
      if OneConnection(Apply(c, steps[0])) {
        OneConnectionIff(Apply(c, steps[0]), steps[1..]);
      }
    }
  }

  /** So without late close events at most one socket is live, from a new client on. */
  lemma {:induction false} NoLateCloseSuffices(c: Client, steps: seq<Step>)
    requires OneConnection(c) && Sound(c) && NoLateClose(c, steps)
    ensures AlwaysOneLive(c, steps)
    decreases |steps|
  {
    if steps != [] {
      StepOneIff(c, steps[0]);
      SoundStep(c, steps[0]);
      NoLateCloseSuffices(Apply(c, steps[0]), steps[1..]);
    }
  }

  /**
    The other case occurs: stopping and starting again before the first socket's close event
    leads to two live sockets, of which a stop then closes only one.
   */
  lemma StopStartLeavesTwo()
    ensures var c := Run(NEW, [StartStep, StopStep, StartStep, ClosedStep(0), TimerStep]);
            && c.live == {1, 2} && Stopped(c).live == {1}
  {
    var c1 := Started(NEW);
    var c2 := Stopped(c1);
    var c3 := Started(c2);
    var c4 := Closed(c3, 0);
    RunFirst(NEW, StartStep, [StopStep, StartStep, ClosedStep(0), TimerStep]);
    RunFirst(c1, StopStep, [StartStep, ClosedStep(0), TimerStep]);
    RunFirst(c2, StartStep, [ClosedStep(0), TimerStep]);
    RunFirst(c3, ClosedStep(0), [TimerStep]);
    RunFirst(c4, TimerStep, []);
    assert c1.live == {0} && c2.live == {} && c2.closing == {0} && c3.live == {1} && c3.closing == {0};
    assert c4.live == {1} && c4.reconnecting;
  }

  lemma RunFirst(c: Client, step: Step, rest: seq<Step>)
    ensures Run(c, [step] + rest) == Run(Apply(c, step), rest)
  {
    assert ([step] + rest)[1..] == rest;
  }

  /** A running client has a socket, or one whose close event is to come, or a reconnect pending. */
  ghost predicate Trying(c: Client) {
    !c.stopped ==> c.live + c.closing != {} || c.reconnecting
  }

  lemma TryingStep(c: Client, step: Step)
    requires Trying(c)
    ensures Trying(Apply(c, step))
  {
    if step.ClosedStep? && !c.stopped {
      assert step.i !in c.live + c.closing || Apply(c, step).reconnecting;
    } else if step.CloseStep? {
      assert Apply(c, step).live + Apply(c, step).closing == c.live + c.closing;
    } else if (step.StartStep? && c.stopped) || (step.TimerStep? && c.reconnecting && !c.stopped) {
      assert c.made in Apply(c, step).live + Apply(c, step).closing;
    }
  }

  /** So no run leaves a running client without a connection that nothing will replace. */
  lemma {:induction false} NeverStranded(c: Client, steps: seq<Step>)
    requires Trying(c)
    ensures Trying(Run(c, steps))
    decreases |steps|
  {
    if steps != [] {
      TryingStep(c, steps[0]);
      NeverStranded(Apply(c, steps[0]), steps[1..]);
    }
  }

  // -------------------------------------------------------------- the cursor

  /** The events a run receives, in order. */
  function Frames(steps: seq<Step>): seq<Event> {
    if steps == [] then []
    else (if steps[0].FrameStep? then [steps[0].event] else []) + Frames(steps[1..])
  }

  /** Whatever else happens in between, the cursor is the ID of the last event received. */
  lemma {:induction false} CursorIsLastID(c: Client, steps: seq<Step>)
    requires forall i :: 0 <= i < |steps| && steps[i].FrameStep? ==> steps[i].event.id != ""
    ensures Run(c, steps).cursor == Delivery.LastID(Frames(steps), c.cursor)
    decreases |steps|
  {
    if steps != [] {
      CursorIsLastID(Apply(c, steps[0]), steps[1..]);
    }
  }

  /** Each new connection is made for a running client and asks with the cursor of that moment. */
  lemma QueriesAsk(c: Client, step: Step)
    ensures var d := Apply(c, step);
            || (d.made == c.made && d.queries == c.queries)
            || (d.made == c.made + 1 && d.queries == c.queries + [c.cursor] && d.current == Some(c.made) && !d.stopped)
  {
  }
}
