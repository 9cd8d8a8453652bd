/**
  What a slow client recovers. A full channel drops an event; here the client goes on
  through drops, reading and reconnecting, with the other premises of delivery kept.
 */
module Recovery {
  import opened Wrappers
  import opened Strings
  import opened HubModel
  import opened Delivery

  ghost predicate AllTame(w: World, moves: seq<Move>)
    decreases |moves|
  {
    moves != [] ==> Tame(w, moves[0]) && AllTame(Next(w, moves[0]), moves[1..])
  }

  /** The client closes its connection, if it has one, and opens another. */
  function Reconnected(w: World): World {
    Next(Next(w, Disconnect), Connect)
  }

  predicate Got(w: World, id: string) {
    Contains(w.received, id)
  }

  /** Where a history has an event, or -1. */
  function Position(history: seq<Event>, e: Event): int {
    if Contains(history, e.id) then FirstIndex(history, e.id) else -1
  }

  /** The events are in the history from `from` on, in its order and without repeats. */
  ghost predicate InOrder(stream: seq<Event>, history: seq<Event>, from: nat) {
    && (forall i :: 0 <= i < |stream| ==>
          from <= Position(history, stream[i]) && history[Position(history, stream[i])] == stream[i])
    && (forall i, j :: 0 <= i < j < |stream| ==> Position(history, stream[i]) < Position(history, stream[j]))
  }

  predicate Linked(w: World) {
    w.link.Online? ==> w.link.k < |w.hub.channels| && w.hub.channels[w.link.k].workspaceID == w.ws
  }

  ghost predicate TrackInv(w: World, from: nat) {
    && Inv(w.hub) && CleanIDs(History(w.hub, w.ws)) && Linked(w)
    && w.cursor == LastID(w.received, w.start)
    && PointsAt(History(w.hub, w.ws), w.start, from)
    && InOrder(InFlight(w), History(w.hub, w.ws), from)
  }

  /** The index in the history of the first event the client is to be sent next. */
  function Ahead(received: seq<Event>, history: seq<Event>, from: nat): int {
    if received == [] then from else Position(history, received[|received| - 1]) + 1
  }

  // ------------------------------------------------------ about one history

  lemma PositionAt(history: seq<Event>, i: nat)
    requires DistinctIDs(history) && i < |history|
    ensures Position(history, history[i]) == i
  {
    FirstIndexAt(history, history[i].id, i);
  }

  lemma PositionSnoc(history: seq<Event>, e: Event, x: Event)
    requires Contains(history, x.id)
    ensures Position(history + [e], x) == Position(history, x)
  {
    var i := FirstIndex(history, x.id);
    assert (history + [e])[i] == history[i];
    FirstIndexAt(history + [e], x.id, i);
  }

  lemma PositionNew(history: seq<Event>, e: Event)
    requires !Contains(history, e.id)
    ensures Position(history + [e], e) == |history|
  {
    FirstIndexAt(history + [e], e.id, |history|);
  }

  lemma OrderSnoc(stream: seq<Event>, history: seq<Event>, from: nat, e: Event)
    requires InOrder(stream, history, from) && from <= |history| && !Contains(history, e.id)
    ensures InOrder(stream, history + [e], from) && InOrder(stream + [e], history + [e], from)
  {
    forall i | 0 <= i < |stream|
      ensures Position(history + [e], stream[i]) == Position(history, stream[i]) < |history|
    {
      PositionSnoc(history, e, stream[i]);
    }
    PositionNew(history, e);
  }

  lemma SuffixInOrder(history: seq<Event>, at: nat)
    requires DistinctIDs(history) && at <= |history|
    ensures InOrder(history[at..], history, at)
  {
    forall i | 0 <= i < |history| - at ensures Position(history, history[at..][i]) == at + i {
      PositionAt(history, at + i);
    }
  }

  lemma AheadBounds(received: seq<Event>, history: seq<Event>, from: nat)
    requires InOrder(received, history, from) && from <= |history|
    ensures from <= Ahead(received, history, from) <= |history|
    ensures forall i :: 0 <= i < |received| ==> Position(history, received[i]) < Ahead(received, history, from)
  {
  }

  lemma OrderJoin(xs: seq<Event>, ys: seq<Event>, history: seq<Event>, from: nat, at: nat)
    requires InOrder(xs, history, from) && InOrder(ys, history, at) && from <= at
    requires forall i :: 0 <= i < |xs| ==> Position(history, xs[i]) < at
    ensures InOrder(xs + ys, history, from)
  {
    var all := xs + ys;
    assert forall i :: 0 <= i < |xs| ==> all[i] == xs[i];
    assert forall i :: |xs| <= i < |all| ==> all[i] == ys[i - |xs|];
  }

  lemma OrderConcat(received: seq<Event>, history: seq<Event>, from: nat)
    requires DistinctIDs(history) && InOrder(received, history, from) && from <= |history|
    ensures from <= Ahead(received, history, from) <= |history|
    ensures InOrder(received + history[Ahead(received, history, from)..], history, from)
  {
    var at := Ahead(received, history, from);
    AheadBounds(received, history, from);
    SuffixInOrder(history, at);
    OrderJoin(received, history[at..], history, from, at);
  }

  lemma OrderPrefix(stream: seq<Event>, shorter: seq<Event>, history: seq<Event>, from: nat)
    requires InOrder(stream, history, from) && shorter <= stream
    ensures InOrder(shorter, history, from)
  {
    assert forall i :: 0 <= i < |shorter| ==> shorter[i] == stream[i];
  }

  /** The cursor points at what comes next, wherever the drops have left the client. */
  lemma CursorAhead(history: seq<Event>, start: string, from: nat, received: seq<Event>)
    requires DistinctIDs(history) && CleanIDs(history) && PointsAt(history, start, from) && from <= |history|
    requires InOrder(received, history, from)
    ensures from <= Ahead(received, history, from) <= |history|
    ensures PointsAt(history, LastID(received, start), Ahead(received, history, from))
    ensures IsTrimmed(LastID(received, start))
  {
    if received == [] {
      LastPoints(history, start, from, []);
    }
  }

  // ----------------------------------------------------------- about one move

  lemma PublishMove(w: World, e: Event)
    requires Inv(w.hub) && Linked(w) && ForClient(w, e) && Tame(w, Env(PublishStep(e)))
    ensures var r := Next(w, Env(PublishStep(e)));
            && Inv(r.hub) && Linked(r) && Attached(r) == Attached(w)
            && History(r.hub, w.ws) == History(w.hub, w.ws) + [e]
            && r.received == w.received && r.ws == w.ws
            && InFlight(r) == (if Attached(w) && !WouldDrop(w) then InFlight(w) + [e] else InFlight(w))
  {
    PublishInv(w.hub, e);
    PublishEffect(w.hub, e);
    PublishHistory(w.hub, e, w.ws);
    var r := Next(w, Env(PublishStep(e)));
    if w.link.Online? {
      var c := w.hub.channels[w.link.k];
      assert r.hub.channels[w.link.k] == Offered(c, e);
      assert w.received + (w.link.wire + (c.buffer + [e])) == w.received + (w.link.wire + c.buffer) + [e];
    }
  }

  /** A move that neither publishes for the client nor opens or closes its connection. */
  predicate Quiet(w: World, m: Move) {
    match m
    case Env(step) => !(step.PublishStep? && ForClient(w, step.event))
    case Forward => true
    case Deliver => true
    case _ => false
  }

  lemma EnvQuiet(w: World, step: Step)
    requires Inv(w.hub) && Linked(w) && Tame(w, Env(step)) && Quiet(w, Env(step))
    ensures var r := Next(w, Env(step));
            && Inv(r.hub) && Linked(r) && (Attached(r) ==> Attached(w))
            && History(r.hub, w.ws) == History(w.hub, w.ws) && InFlight(r) == InFlight(w)
  {
    ApplyInv(w.hub, step);
    if w.link.Online? {
      ApplyChannel(w.hub, step, w.link.k);
    }
    if step.PublishStep? {
      PublishHistory(w.hub, step.event, w.ws);
    } else if step.AddHistoryStep? {
      NothingNew(w.hub, step.events, w.ws);
    }
  }

  /** A quiet move leaves the history and the stream as they are. */
  lemma QuietView(w: World, m: Move)
    requires Inv(w.hub) && Linked(w) && Tame(w, m) && Quiet(w, m)
    ensures var r := Next(w, m);
            && Inv(r.hub) && Linked(r) && (Attached(r) ==> Attached(w))
            && History(r.hub, w.ws) == History(w.hub, w.ws) && InFlight(r) == InFlight(w)
            && r.ws == w.ws && r.start == w.start
  {
    match m
    case Env(step) => EnvQuiet(w, step);
    case Forward =>
      if w.link.Online? && w.hub.channels[w.link.k].buffer != [] {
        ForwardView(w);
      }
    case Deliver =>
      if w.link.Online? && w.link.wire != [] {
        DeliverView(w);
      }
  }

  lemma CursorKeeps(w: World, from: nat, m: Move)
    requires TrackInv(w, from)
    ensures Next(w, m).cursor == LastID(Next(w, m).received, w.start)
    ensures w.received <= Next(w, m).received
  {
    if m == Deliver && w.link.Online? && w.link.wire != [] {
      DeliverView(w);
      assert InFlight(w)[|w.received|].id != "";
    }
  }

  lemma ConnectEffect(w: World)
    requires Inv(w.hub) && w.link.Offline?
    ensures var r := Next(w, Connect);
            && Inv(r.hub) && Linked(r) && Attached(r) && History(r.hub, w.ws) == History(w.hub, w.ws)
            && r.received == w.received && r.link.wire == []
            && r.hub.channels[r.link.k].buffer == After(History(w.hub, w.ws), Trim(w.cursor))
            && r.hub.channels[r.link.k].capacity > 0
  {
    SubscribeView(w.hub, w.ws, Trim(w.cursor));
  }

  /** A reconnect sends what the history has from where the cursor points. */
  lemma ConnectView(w: World, from: nat)
    requires TrackInv(w, from) && w.link.Offline? && from <= |History(w.hub, w.ws)|
    ensures var r := Next(w, Connect); var history := History(w.hub, w.ws);
            var at := Ahead(w.received, history, from);
            && from <= at <= |history|
            && Inv(r.hub) && Linked(r) && Attached(r) && History(r.hub, w.ws) == history
            && InFlight(r) == w.received + history[at..] && r.received == w.received
  {
    var history := History(w.hub, w.ws);
    OrderPrefix(InFlight(w), w.received, history, from);
    CursorAhead(history, w.start, from, w.received);
    TrimSame(w.cursor);
    AfterPoint(history, w.cursor, Ahead(w.received, history, from));
    ConnectEffect(w);
    assert [] + history[Ahead(w.received, history, from)..] == history[Ahead(w.received, history, from)..];
  }

  lemma ConnectTracked(w: World, from: nat)
    requires TrackInv(w, from) && w.link.Offline?
    ensures TrackInv(Next(w, Connect), from)
    ensures History(Next(w, Connect).hub, w.ws) == History(w.hub, w.ws)
  {
    ConnectView(w, from);
    OrderPrefix(InFlight(w), w.received, History(w.hub, w.ws), from);
    OrderConcat(w.received, History(w.hub, w.ws), from);
  }

  lemma PublishOrder(w: World, r: World, from: nat, e: Event)
    requires InOrder(InFlight(w), History(w.hub, w.ws), from) && from <= |History(w.hub, w.ws)|
    requires !Contains(History(w.hub, w.ws), e.id)
    requires History(r.hub, w.ws) == History(w.hub, w.ws) + [e]
    requires InFlight(r) == InFlight(w) || InFlight(r) == InFlight(w) + [e]
    ensures InOrder(InFlight(r), History(r.hub, w.ws), from)
  {
    OrderSnoc(InFlight(w), History(w.hub, w.ws), from, e);
  }

  lemma PublishClean(history: seq<Event>, start: string, from: nat, e: Event)
    requires CleanIDs(history) && PointsAt(history, start, from) && e.id != "" && IsTrimmed(e.id)
    ensures CleanIDs(history + [e]) && PointsAt(history + [e], start, from)
  {
  }

  lemma PublishTracked(w: World, from: nat, e: Event)
    requires TrackInv(w, from) && ForClient(w, e) && Tame(w, Env(PublishStep(e)))
    ensures TrackInv(Next(w, Env(PublishStep(e))), from)
    ensures History(w.hub, w.ws) <= History(Next(w, Env(PublishStep(e))).hub, w.ws)
  {
    PublishMove(w, e);
    PublishOrder(w, Next(w, Env(PublishStep(e))), from, e);
    PublishClean(History(w.hub, w.ws), w.start, from, e);
  }

  lemma TrackNext(w: World, from: nat, m: Move)
    requires TrackInv(w, from) && Tame(w, m)
    ensures TrackInv(Next(w, m), from) && w.received <= Next(w, m).received
    ensures Next(w, m).ws == w.ws && Next(w, m).start == w.start
    ensures History(w.hub, w.ws) <= History(Next(w, m).hub, w.ws)
  {
    CursorKeeps(w, from, m);
    if m.Connect? && w.link.Offline? {
      ConnectTracked(w, from);
    } else if m.Disconnect? {
      OrderPrefix(InFlight(w), w.received, History(w.hub, w.ws), from);
    } else if Quiet(w, m) {
      QuietView(w, m);
    } else if m.Env? {
      PublishTracked(w, from, m.step.event);
    }
  }

  lemma {:induction false} TrackRun(w: World, from: nat, moves: seq<Move>)
    requires TrackInv(w, from) && AllTame(w, moves)
    ensures var r := RunWorld(w, moves);
            && TrackInv(r, from) && w.received <= r.received && r.ws == w.ws && r.start == w.start
            && History(w.hub, w.ws) <= History(r.hub, w.ws)
    decreases |moves|
  {
    if moves != [] {
      TrackNext(w, from, moves[0]);
      TrackRun(Next(w, moves[0]), from, moves[1..]);
    }
  }

  /** Where the first cursor of a fresh client points. */
  function Origin(w: World): nat
    requires w.start == "" || Contains(History(w.hub, w.ws), w.start)
  {
    if w.start == "" then 0 else FirstIndex(History(w.hub, w.ws), w.start) + 1
  }

  lemma FreshTracked(w: World)
    requires Fresh(w)
    ensures TrackInv(w, Origin(w)) && Origin(w) <= |History(w.hub, w.ws)|
  {
    assert InFlight(w) == [];
  }

  // ------------------------------------------------------------ order and loss

  /**
    Whatever is dropped, the client is never sent an event twice or out of order, over
    any number of sessions.
   */
  lemma NeverReordered(w: World, moves: seq<Move>)
    requires Fresh(w) && AllTame(w, moves)
    ensures var r := RunWorld(w, moves); InOrder(r.received, History(r.hub, w.ws), Origin(w))
  {
    FreshTracked(w);
    TrackRun(w, Origin(w), moves);
    var r := RunWorld(w, moves);
    OrderPrefix(InFlight(r), r.received, History(r.hub, w.ws), Origin(w));
  }

  /** What is received later comes later in the history. */
  lemma LaterOnly(received: seq<Event>, longer: seq<Event>, history: seq<Event>, from: nat, i: nat)
    requires DistinctIDs(history) && InOrder(longer, history, from) && received <= longer
    requires i < |history| && i < Ahead(received, history, from) && received != []
    requires !Contains(received, history[i].id)
    ensures !Contains(longer, history[i].id)
  {
    forall j | 0 <= j < |longer| ensures longer[j].id != history[i].id {
      PositionAt(history, i);
      if j < |received| {
        assert longer[j] == received[j];
      } else {
        assert longer[|received| - 1] == received[|received| - 1];
        assert Position(history, longer[|received| - 1]) < Position(history, longer[j]);
      }
    }
  }

  lemma AheadLasts(received: seq<Event>, history: seq<Event>, longer: seq<Event>, from: nat)
    requires DistinctIDs(longer) && history <= longer && InOrder(received, history, from)
    ensures Ahead(received, longer, from) == Ahead(received, history, from)
  {
    if received != [] {
      var i := Position(history, received[|received| - 1]);
      assert longer[i] == history[i];
      PositionAt(longer, i);
    }
  }

  /**
    Loss is for good. Once the client has received a later event, an event of the history
    that it has not received never reaches it, whatever happens next: its cursor is past it
    in this session and in every later one.
   */
  lemma LostForever(w: World, from: nat, moves: seq<Move>, i: nat)
    requires TrackInv(w, from) && AllTame(w, moves)
    requires i < |History(w.hub, w.ws)| && w.received != [] && i < Ahead(w.received, History(w.hub, w.ws), from)
    requires !Got(w, History(w.hub, w.ws)[i].id)
    ensures !Got(RunWorld(w, moves), History(w.hub, w.ws)[i].id)
  {
    var history := History(w.hub, w.ws);
    TrackRun(w, from, moves);
    var r := RunWorld(w, moves);
    var longer := History(r.hub, w.ws);
    OrderPrefix(InFlight(w), w.received, history, from);
    OrderPrefix(InFlight(r), r.received, longer, from);
    AheadLasts(w.received, history, longer, from);
    assert longer[i] == history[i];
    LaterOnly(w.received, r.received, longer, from, i);
  }

  lemma MissingIn(received: seq<Event>, history: seq<Event>, at: nat, i: nat)
    requires DistinctIDs(history) && at <= |history| && i < |history| && !Contains(received, history[i].id)
    ensures Contains(received + history[at..], history[i].id) <==> at <= i
  {
    var stream := received + history[at..];
    assert forall j :: 0 <= j < |received| ==> stream[j] == received[j];
    assert forall j :: |received| <= j < |stream| ==> stream[j] == history[at + (j - |received|)];
    if at <= i {
      assert stream[|received| + (i - at)] == history[i];
    }
  }

  /** A reconnect sends an event the client still misses if and only if no later one has been received. */
  lemma ReconnectSendsIff(w: World, from: nat, i: nat)
    requires TrackInv(w, from) && from <= i < |History(w.hub, w.ws)|
    requires !Got(w, History(w.hub, w.ws)[i].id)
    ensures Contains(InFlight(Reconnected(w)), History(w.hub, w.ws)[i].id)
            <==> Ahead(w.received, History(w.hub, w.ws), from) <= i
  {
    TrackNext(w, from, Disconnect);
    ConnectView(Next(w, Disconnect), from);
    MissingIn(w.received, History(w.hub, w.ws), Ahead(w.received, History(w.hub, w.ws), from), i);
  }

  // ------------------------------------------ when a reconnect makes it whole

  /** Of the current connection: whether its channel was found full, and what found room after that. */
  datatype Mark = Mark(full: bool, late: set<string>)

  const CLEAR: Mark := Mark(false, {})

  function Published(mark: Mark, e: Event, attached: bool, room: bool): Mark {
    if !attached then mark
    else if !room then mark.(full := true)
    else if mark.full then mark.(late := mark.late + {e.id})
    else mark
  }

  function NextMark(w: World, mark: Mark, m: Move): Mark {
    if m.Connect? then (if w.link.Online? then mark else CLEAR)
    else if m.Disconnect? then CLEAR
    else if m.Env? && m.step.PublishStep? && ForClient(w, m.step.event)
    then Published(mark, m.step.event, Attached(w), !WouldDrop(w))
    else mark
  }

  /** The move delivers an event that found room after one had found the channel full. */
  predicate Skips(w: World, mark: Mark, m: Move) {
    m == Deliver && w.link.Online? && w.link.wire != [] && w.link.wire[0].id in mark.late
  }

  predicate SkipFree(w: World, mark: Mark, moves: seq<Move>)
    decreases |moves|
  {
    moves != [] ==> !Skips(w, mark, moves[0]) && SkipFree(Next(w, moves[0]), NextMark(w, mark, moves[0]), moves[1..])
  }

  /**
    The first `clean` events of a stream are the history's; if an event was dropped it is
    the next one, and what follows in the stream are the late events, from further on.
   */
  ghost predicate Gap(stream: seq<Event>, history: seq<Event>, from: nat, mark: Mark, clean: nat, attached: bool) {
    && clean <= |stream| && from + clean <= |history| && stream[..clean] == history[from..from + clean]
    && (forall i :: 0 <= i < |stream| ==> (stream[i].id in mark.late <==> clean <= i))
    && (forall i :: clean <= i < |stream| ==> Position(history, stream[i]) > from + clean)
    && (if mark.full then from + clean < |history|
        else clean == |stream| && mark.late == {} && (attached ==> from + clean == |history|))
  }

  ghost predicate GapAt(w: World, from: nat, mark: Mark, clean: nat) {
    |w.received| <= clean && Gap(InFlight(w), History(w.hub, w.ws), from, mark, clean, Attached(w))
  }

  ghost predicate GapInv(w: World, from: nat, mark: Mark) {
    exists clean: nat :: GapAt(w, from, mark, clean)
  }

  /** Something received is not what the history has there. */
  ghost predicate Skipped(received: seq<Event>, history: seq<Event>, from: nat) {
    exists i :: 0 <= i < |received| && from + i < |history| && received[i] != history[from + i]
  }

  lemma GapSnoc(stream: seq<Event>, history: seq<Event>, from: nat, mark: Mark, clean: nat, e: Event, attached: bool)
    requires InOrder(stream, history, from) && Gap(stream, history, from, mark, clean, attached)
    requires !Contains(history, e.id)
    ensures forall i :: 0 <= i < |stream| ==>
              Position(history + [e], stream[i]) == Position(history, stream[i]) && stream[i].id != e.id
    ensures Position(history + [e], e) == |history|
    ensures (history + [e])[from..from + clean] == history[from..from + clean]
  {
    forall i | 0 <= i < |stream|
      ensures Position(history + [e], stream[i]) == Position(history, stream[i]) && stream[i].id != e.id
    {
      PositionSnoc(history, e, stream[i]);
    }
    PositionNew(history, e);
  }

  /** An event the stream does not gain, because it is dropped or nobody is attached. */
  lemma GapMissed(stream: seq<Event>, history: seq<Event>, from: nat, mark: Mark, clean: nat, e: Event, attached: bool)
    requires InOrder(stream, history, from) && Gap(stream, history, from, mark, clean, attached)
    requires !Contains(history, e.id)
    ensures Gap(stream, history + [e], from, if attached then mark.(full := true) else mark, clean, attached)
  {
    GapSnoc(stream, history, from, mark, clean, e, attached);
  }

  lemma GapLate(stream: seq<Event>, history: seq<Event>, from: nat, mark: Mark, clean: nat, e: Event)
    requires InOrder(stream, history, from) && Gap(stream, history, from, mark, clean, true)
    requires !Contains(history, e.id) && mark.full
    ensures Gap(stream + [e], history + [e], from, mark.(late := mark.late + {e.id}), clean, true)
  {
    GapSnoc(stream, history, from, mark, clean, e, true);
    assert (stream + [e])[..clean] == stream[..clean];
  }

  lemma GapGrown(stream: seq<Event>, history: seq<Event>, from: nat, mark: Mark, clean: nat, e: Event)
    requires InOrder(stream, history, from) && Gap(stream, history, from, mark, clean, true)
    requires !Contains(history, e.id) && !mark.full
    ensures Gap(stream + [e], history + [e], from, mark, clean + 1, true)
  {
    assert (stream + [e])[..clean + 1] == stream[..clean] + [e];
    assert (history + [e])[from..from + clean + 1] == history[from..from + clean] + [e];
  }

  lemma GapCarried(r: World, from: nat, mark: Mark, clean: nat, stream: seq<Event>, history: seq<Event>, attached: bool)
    requires InFlight(r) == stream && History(r.hub, r.ws) == history && Attached(r) == attached
    requires |r.received| <= clean && Gap(stream, history, from, mark, clean, attached)
    ensures GapInv(r, from, mark)
  {
    assert GapAt(r, from, mark, clean);
  }

  /** What a stream and its mark become when an event is published to it. */
  lemma GapMoves(stream: seq<Event>, history: seq<Event>, from: nat, mark: Mark, clean: nat, e: Event,
                 attached: bool, room: bool) returns (after: nat)
    requires InOrder(stream, history, from) && Gap(stream, history, from, mark, clean, attached)
    requires !Contains(history, e.id)
    ensures clean <= after
    ensures Gap(if attached && room then stream + [e] else stream, history + [e], from,
                Published(mark, e, attached, room), after, attached)
  {
    after := clean;
    if !attached || !room {
      GapMissed(stream, history, from, mark, clean, e, attached);
    } else if mark.full {
      GapLate(stream, history, from, mark, clean, e);
    } else {
      after := clean + 1;
      GapGrown(stream, history, from, mark, clean, e);
    }
  }

  lemma GapFollows(w: World, r: World, from: nat, mark: Mark, e: Event)
    requires InOrder(InFlight(w), History(w.hub, w.ws), from) && GapInv(w, from, mark)
    requires !Contains(History(w.hub, w.ws), e.id)
    requires r.ws == w.ws && r.received == w.received && Attached(r) == Attached(w)
    requires History(r.hub, r.ws) == History(w.hub, w.ws) + [e]
    requires InFlight(r) == if Attached(w) && !WouldDrop(w) then InFlight(w) + [e] else InFlight(w)
    ensures GapInv(r, from, Published(mark, e, Attached(w), !WouldDrop(w)))
  {
    var clean: nat :| GapAt(w, from, mark, clean);
    var after := GapMoves(InFlight(w), History(w.hub, w.ws), from, mark, clean, e, Attached(w), !WouldDrop(w));
    var next := Published(mark, e, Attached(w), !WouldDrop(w));
    GapCarried(r, from, next, after, InFlight(r), History(r.hub, r.ws), Attached(w));
  }

  lemma GapPublished(w: World, from: nat, mark: Mark, e: Event)
    requires TrackInv(w, from) && GapInv(w, from, mark) && ForClient(w, e) && Tame(w, Env(PublishStep(e)))
    ensures GapInv(Next(w, Env(PublishStep(e))), from, NextMark(w, mark, Env(PublishStep(e))))
  {
    PublishMove(w, e);
    GapFollows(w, Next(w, Env(PublishStep(e))), from, mark, e);
  }

  /** A stream that is the history's, with nothing dropped. */
  lemma GapNone(w: World, from: nat)
    requires from <= |History(w.hub, w.ws)| && InFlight(w) <= History(w.hub, w.ws)[from..]
    requires Attached(w) ==> from + |InFlight(w)| == |History(w.hub, w.ws)|
    ensures |w.received| <= |InFlight(w)| && GapInv(w, from, CLEAR)
  {
    var stream, history := InFlight(w), History(w.hub, w.ws);
    assert stream[..|stream|] == history[from..from + |stream|];
    assert GapAt(w, from, CLEAR, |stream|);
  }

  lemma ReceivedIsPrefix(w: World, from: nat, mark: Mark)
    requires from <= |History(w.hub, w.ws)| && GapInv(w, from, mark)
    ensures w.received <= History(w.hub, w.ws)[from..]
  {
    var clean: nat :| GapAt(w, from, mark, clean);
    assert w.received == InFlight(w)[..clean][..|w.received|];
  }

  /** When the client has received a prefix, a reconnect sends the rest. */
  lemma AheadOfPrefix(received: seq<Event>, history: seq<Event>, from: nat)
    requires DistinctIDs(history) && from <= |history| && received <= history[from..]
    ensures Ahead(received, history, from) == from + |received|
    ensures received + history[from + |received|..] == history[from..]
  {
    if received != [] {
      LastReceived(received, history, from);
      PositionAt(history, from + |received| - 1);
    }
  }

  /** A reconnect makes the client's stream whole if and only if it has received a prefix. */
  lemma ConnectWholeIff(w: World, from: nat)
    requires TrackInv(w, from) && w.link.Offline? && from <= |History(w.hub, w.ws)|
    ensures InFlight(Next(w, Connect)) == History(w.hub, w.ws)[from..] <==> w.received <= History(w.hub, w.ws)[from..]
  {
    ConnectView(w, from);
    WholeIffPrefix(w.received, History(w.hub, w.ws), from);
  }

  lemma WholeIffPrefix(received: seq<Event>, history: seq<Event>, from: nat)
    requires DistinctIDs(history) && from <= |history| && 0 <= Ahead(received, history, from) <= |history|
    ensures received + history[Ahead(received, history, from)..] == history[from..] <==> received <= history[from..]
  {
    if received <= history[from..] {
      AheadOfPrefix(received, history, from);
    }
  }

  lemma GapConnect(w: World, from: nat, mark: Mark)
    requires TrackInv(w, from) && w.link.Offline? && from <= |History(w.hub, w.ws)| && GapInv(w, from, mark)
    ensures GapInv(Next(w, Connect), from, CLEAR)
  {
    ReceivedIsPrefix(w, from, mark);
    ConnectWholeIff(w, from);
    ConnectView(w, from);
    GapNone(Next(w, Connect), from);
  }

  lemma GapDisconnect(w: World, from: nat, mark: Mark)
    requires from <= |History(w.hub, w.ws)| && GapInv(w, from, mark)
    ensures GapInv(Next(w, Disconnect), from, CLEAR)
  {
    ReceivedIsPrefix(w, from, mark);
    GapNone(Next(w, Disconnect), from);
  }

  lemma DeliveredIsClean(w: World, from: nat, mark: Mark, clean: nat, m: Move)
    requires TrackInv(w, from) && GapAt(w, from, mark, clean) && !Skips(w, mark, m) && Quiet(w, m)
    ensures |Next(w, m).received| <= clean
  {
    if m == Deliver && w.link.Online? && w.link.wire != [] {
      DeliverView(w);
    }
  }

  lemma GapQuiet(w: World, from: nat, mark: Mark, m: Move)
    requires TrackInv(w, from) && Tame(w, m) && Quiet(w, m) && GapInv(w, from, mark) && !Skips(w, mark, m)
    ensures GapInv(Next(w, m), from, mark)
  {
    var clean: nat :| GapAt(w, from, mark, clean);
    QuietView(w, m);
    DeliveredIsClean(w, from, mark, clean, m);
    assert GapAt(Next(w, m), from, mark, clean);
  }

  lemma GapNext(w: World, from: nat, mark: Mark, m: Move)
    requires TrackInv(w, from) && from <= |History(w.hub, w.ws)| && Tame(w, m)
    requires GapInv(w, from, mark) && !Skips(w, mark, m)
    ensures GapInv(Next(w, m), from, NextMark(w, mark, m))
  {
    if m.Connect? && w.link.Offline? {
      GapConnect(w, from, mark);
    } else if m.Disconnect? {
      GapDisconnect(w, from, mark);
    } else if Quiet(w, m) {
      GapQuiet(w, from, mark, m);
    } else if m.Env? {
      GapPublished(w, from, mark, m.step.event);
    }
  }

  lemma LateIsElsewhere(stream: seq<Event>, history: seq<Event>, from: nat, mark: Mark, clean: nat,
                        attached: bool, n: nat)
    requires DistinctIDs(history) && Gap(stream, history, from, mark, clean, attached)
    requires n <= clean && n < |stream| && stream[n].id in mark.late
    ensures from + n < |history| && stream[n] != history[from + n]
  {
    assert n == clean;
    PositionAt(history, from + n);
  }

  /** Delivering a late event leaves a hole in what the client has received. */
  lemma SkipLeavesHole(w: World, from: nat, mark: Mark, m: Move)
    requires TrackInv(w, from) && GapInv(w, from, mark) && Skips(w, mark, m)
    ensures Skipped(Next(w, m).received, History(Next(w, m).hub, w.ws), from)
  {
    var clean: nat :| GapAt(w, from, mark, clean);
    DeliverView(w);
    LateIsElsewhere(InFlight(w), History(w.hub, w.ws), from, mark, clean, Attached(w), |w.received|);
    assert Next(w, m).received[|w.received|] != History(w.hub, w.ws)[from + |w.received|];
  }

  lemma SkippedNotPrefix(received: seq<Event>, history: seq<Event>, from: nat)
    requires Skipped(received, history, from) && from <= |history|
    ensures !(received <= history[from..])
  {
    var i :| 0 <= i < |received| && from + i < |history| && received[i] != history[from + i];
    assert history[from..][i] != received[i];
  }

  lemma SkippedStays(received: seq<Event>, history: seq<Event>, longer: seq<Event>, more: seq<Event>, from: nat)
    requires Skipped(received, history, from) && received <= longer && history <= more
    ensures Skipped(longer, more, from)
  {
    var i :| 0 <= i < |received| && from + i < |history| && received[i] != history[from + i];
    assert longer[i] != more[from + i];
  }

  lemma {:induction false} SkipsDecide(w: World, from: nat, mark: Mark, moves: seq<Move>)
    requires TrackInv(w, from) && from <= |History(w.hub, w.ws)| && AllTame(w, moves) && GapInv(w, from, mark)
    ensures var r := RunWorld(w, moves); var history := History(r.hub, w.ws);
            && from <= |history|
            && (SkipFree(w, mark, moves) ==> r.received <= history[from..])
            && (!SkipFree(w, mark, moves) ==> Skipped(r.received, history, from))
    decreases |moves|
  {
    if moves == [] {
      ReceivedIsPrefix(w, from, mark);
    } else {
      var next := Next(w, moves[0]);
      TrackNext(w, from, moves[0]);
      if Skips(w, mark, moves[0]) {
        SkipLeavesHole(w, from, mark, moves[0]);
        TrackRun(next, from, moves[1..]);
        var r := RunWorld(next, moves[1..]);
        SkippedStays(next.received, History(next.hub, w.ws), r.received, History(r.hub, w.ws), from);
      } else {
        GapNext(w, from, mark, moves[0]);
        SkipsDecide(next, from, NextMark(w, mark, moves[0]), moves[1..]);
      }
    }
  }

  /**
    When the comment in `Publish` is right. At the end of any run in which channels may be
    full, closing the connection and opening another makes the client's stream whole, all
    of the history after its first cursor, if and only if no event that found room in a
    channel after another had found it full was delivered from that channel.
   */
  lemma RecoversIff(w: World, moves: seq<Move>)
    requires Fresh(w) && AllTame(w, moves)
    ensures var back := Reconnected(RunWorld(w, moves));
            && back.received == RunWorld(w, moves).received
            && (InFlight(back) == After(History(back.hub, w.ws), w.start) <==> SkipFree(w, CLEAR, moves))
  {
    var from, r := Origin(w), RunWorld(w, moves);
    FreshTracked(w);
    GapNone(w, from);
    SkipsDecide(w, from, CLEAR, moves);
    TrackRun(w, from, moves);
    ReconnectedWholeIff(r, from);
    if Skipped(r.received, History(r.hub, w.ws), from) {
      SkippedNotPrefix(r.received, History(r.hub, w.ws), from);
    }
  }

  lemma ReconnectedWholeIff(w: World, from: nat)
    requires TrackInv(w, from) && from <= |History(w.hub, w.ws)|
    ensures var back := Reconnected(w);
            && back.received == w.received
            && (InFlight(back) == After(History(back.hub, w.ws), w.start)
                <==> w.received <= History(w.hub, w.ws)[from..])
  {
    TrackNext(w, from, Disconnect);
    ConnectWholeIff(Next(w, Disconnect), from);
    ConnectView(Next(w, Disconnect), from);
    AfterPoint(History(w.hub, w.ws), w.start, from);
  }

  // ------------------------------------------------ full channels are reachable

  /** An ID longer than any other so far. */
  function LongID(n: nat): string {
    seq(n, _ => 'x')
  }

  function Filler(ws: string, n: nat): Event {
    Event(LongID(n), "tick", 1, ws, "a", "user", Some(0), Json(""))
  }

  ghost predicate Shorter(history: seq<Event>, n: nat) {
    forall i :: 0 <= i < |history| ==> |history[i].id| < n
  }

  lemma {:induction false} SomeLonger(history: seq<Event>) returns (n: nat)
    ensures n > 0 && Shorter(history, n)
    decreases |history|
  {
    n := 1;
    if history != [] {
      var init, last := history[..|history| - 1], history[|history| - 1];
      n := SomeLonger(init);
      n := if n > |last.id| then n else |last.id| + 1;
      assert history == init + [last];
    }
  }

  lemma FillerIsNew(history: seq<Event>, ws: string, n: nat)
    requires Shorter(history, n) && n > 0 && ws != ""
    ensures ValidEvent(Filler(ws, n)) && IsTrimmed(Filler(ws, n).id) && !Contains(history, Filler(ws, n).id)
    ensures Shorter(history + [Filler(ws, n)], n + 1)
  {
  }

  /** How many more events the client's channel has room for. */
  function Room(w: World): int
    requires Attached(w)
  {
    w.hub.channels[w.link.k].capacity - |w.hub.channels[w.link.k].buffer|
  }

  function Capacity(w: World): nat
    requires Attached(w)
  {
    w.hub.channels[w.link.k].capacity
  }

  lemma FillOne(w: World, from: nat, n: nat)
    requires SessionInv(w, from) && Attached(w) && w.ws != "" && Room(w) > 0
    requires n > 0 && Shorter(History(w.hub, w.ws), n)
    ensures var m := Env(PublishStep(Filler(w.ws, n))); var r := Next(w, m);
            && Benign(w, m) && SessionInv(r, from) && Attached(r) && r.ws == w.ws
            && Room(r) == Room(w) - 1 && Capacity(r) == Capacity(w) && Shorter(History(r.hub, w.ws), n + 1)
  {
    var e := Filler(w.ws, n);
    FillerIsNew(History(w.hub, w.ws), w.ws, n);
    PublishKeeps(w, from, e);
    PublishEffect(w.hub, e);
    PublishHistory(w.hub, e, w.ws);
    assert Next(w, Env(PublishStep(e))).hub.channels[w.link.k] == Offered(w.hub.channels[w.link.k], e);
  }

  lemma {:induction false} FillUp(w: World, from: nat, n: nat) returns (moves: seq<Move>)
    requires SessionInv(w, from) && Attached(w) && w.ws != "" && n > 0 && Shorter(History(w.hub, w.ws), n)
    ensures AllBenign(w, moves) && SessionInv(RunWorld(w, moves), from) && WouldDrop(RunWorld(w, moves))
    ensures RunWorld(w, moves).ws == w.ws && Capacity(RunWorld(w, moves)) == Capacity(w)
    decreases Room(w)
  {
    moves := [];
    if Room(w) > 0 {
      var m := Env(PublishStep(Filler(w.ws, n)));
      FillOne(w, from, n);
      var rest := FillUp(Next(w, m), from, n + 1);
      moves := [m] + rest;
      assert moves[1..] == rest;
    }
  }

  lemma FillFresh(w: World) returns (moves: seq<Move>)
    requires Fresh(w) && w.ws != ""
    ensures AllBenign(w, moves) && WouldDrop(RunWorld(w, moves))
    ensures SessionInv(RunWorld(w, moves), Origin(w)) && RunWorld(w, moves).ws == w.ws
    ensures Capacity(RunWorld(w, moves)) > 0
  {
    var next := Next(w, Connect);
    assert InFlight(w) == [];
    ConnectKeeps(w, Origin(w));
    ConnectEffect(w);
    var n := SomeLonger(History(w.hub, w.ws));
    var rest := FillUp(next, Origin(w), n);
    moves := [Connect] + rest;
    assert moves[1..] == rest;
  }

  /** Any fresh client that connects and does not read can be left with a full channel. */
  lemma FullIsReachable(w: World)
    requires Fresh(w) && w.ws != ""
    ensures exists moves :: AllBenign(w, moves) && WouldDrop(RunWorld(w, moves))
  {
    var moves := FillFresh(w);
  }

  // ------------------------------------------------------ one loss, in detail

  lemma SessionTracked(w: World, from: nat)
    requires SessionInv(w, from)
    ensures TrackInv(w, from) && from <= |History(w.hub, w.ws)|
  {
    SuffixInOrder(History(w.hub, w.ws), from);
    OrderPrefix(History(w.hub, w.ws)[from..], InFlight(w), History(w.hub, w.ws), from);
  }

  /** What a drop, a read and an accepted publish lead to. */
  function DropThenAccept(w: World, dropped: Event, accepted: Event): World {
    Next(Next(Next(w, Env(PublishStep(dropped))), Forward), Env(PublishStep(accepted)))
  }

  lemma DropOnly(w: World, e: Event)
    requires Inv(w.hub) && Linked(w) && WouldDrop(w)
    requires ForClient(w, e) && IsTrimmed(e.id) && !Contains(History(w.hub, w.ws), e.id)
    ensures var r := Next(w, Env(PublishStep(e)));
            && Inv(r.hub) && r.ws == w.ws && r.link == w.link && r.received == w.received
            && History(r.hub, w.ws) == History(w.hub, w.ws) + [e]
            && w.link.k < |r.hub.channels| && r.hub.channels[w.link.k] == w.hub.channels[w.link.k]
  {
    PublishMove(w, e);
    PublishEffect(w.hub, e);
  }

  lemma ForwardMakesRoom(w: World)
    requires Inv(w.hub) && Linked(w) && Attached(w) && w.hub.channels[w.link.k].buffer != []
    ensures var r := Next(w, Forward);
            && Inv(r.hub) && Linked(r) && Attached(r) && !WouldDrop(r)
            && History(r.hub, w.ws) == History(w.hub, w.ws) && InFlight(r) == InFlight(w)
  {
    ForwardView(w);
    assert |w.hub.channels[w.link.k].buffer| <= w.hub.channels[w.link.k].capacity;
  }

  lemma DropMove(w: World, e: Event)
    requires Inv(w.hub) && Linked(w) && WouldDrop(w) && w.hub.channels[w.link.k].capacity > 0
    requires ForClient(w, e) && IsTrimmed(e.id) && !Contains(History(w.hub, w.ws), e.id)
    ensures var r := Next(Next(w, Env(PublishStep(e))), Forward);
            && Inv(r.hub) && Linked(r) && Attached(r) && !WouldDrop(r)
            && History(r.hub, w.ws) == History(w.hub, w.ws) + [e] && InFlight(r) == InFlight(w)
  {
    DropOnly(w, e);
    ForwardMakesRoom(Next(w, Env(PublishStep(e))));
  }

  lemma DropTracked(w: World, from: nat, e: Event)
    requires TrackInv(w, from) && WouldDrop(w) && w.hub.channels[w.link.k].capacity > 0
    requires ForClient(w, e) && IsTrimmed(e.id) && !Contains(History(w.hub, w.ws), e.id)
    ensures var r := Next(Next(w, Env(PublishStep(e))), Forward); TrackInv(r, from) && r.ws == w.ws
  {
    TrackNext(w, from, Env(PublishStep(e)));
    TrackNext(Next(w, Env(PublishStep(e))), from, Forward);
  }

  lemma AcceptMove(w: World, from: nat, e: Event)
    requires TrackInv(w, from) && Attached(w) && !WouldDrop(w)
    requires ForClient(w, e) && IsTrimmed(e.id) && !Contains(History(w.hub, w.ws), e.id)
    ensures var r := Next(w, Env(PublishStep(e)));
            && TrackInv(r, from) && r.ws == w.ws && r.link.Online?
            && History(r.hub, w.ws) == History(w.hub, w.ws) + [e] && InFlight(r) == InFlight(w) + [e]
  {
    PublishMove(w, e);
    PublishTracked(w, from, e);
  }

  lemma AppendTwice(history: seq<Event>, e: Event, f: Event)
    requires e.id != f.id && !Contains(history, f.id)
    ensures history + [e] + [f] == history + [e, f] && !Contains(history + [e], f.id)
  {
    assert forall i :: 0 <= i < |history| ==> (history + [e])[i] == history[i];
  }

  /** The dropped event is missing from the stream, between what was there and the accepted event. */
  lemma DropThenAcceptView(w: World, from: nat, dropped: Event, accepted: Event)
    requires TrackInv(w, from) && WouldDrop(w) && w.hub.channels[w.link.k].capacity > 0
    requires ForClient(w, dropped) && ForClient(w, accepted) && dropped.id != accepted.id
    requires IsTrimmed(dropped.id) && IsTrimmed(accepted.id)
    requires !Contains(History(w.hub, w.ws), dropped.id) && !Contains(History(w.hub, w.ws), accepted.id)
    ensures var r := DropThenAccept(w, dropped, accepted);
            && TrackInv(r, from) && r.ws == w.ws && r.link.Online?
            && History(r.hub, w.ws) == History(w.hub, w.ws) + [dropped, accepted]
            && InFlight(r) == InFlight(w) + [accepted]
  {
    DropMove(w, dropped);
    DropTracked(w, from, dropped);
    AppendTwice(History(w.hub, w.ws), dropped, accepted);
    AcceptMove(Next(Next(w, Env(PublishStep(dropped))), Forward), from, accepted);
  }

  /** So the stream has a hole, and a reconnect from the accepted event would replay nothing. */
  lemma DropLeavesHole(w: World, from: nat, dropped: Event, accepted: Event)
    requires SessionInv(w, from) && WouldDrop(w) && w.hub.channels[w.link.k].capacity > 0
    requires ForClient(w, dropped) && ForClient(w, accepted) && dropped.id != accepted.id
    requires IsTrimmed(dropped.id) && IsTrimmed(accepted.id)
    requires !Contains(History(w.hub, w.ws), dropped.id) && !Contains(History(w.hub, w.ws), accepted.id)
    ensures var r := DropThenAccept(w, dropped, accepted);
            && !(InFlight(r) <= After(History(r.hub, w.ws), w.start))
            && After(History(r.hub, w.ws), accepted.id) == []
  {
    var longer := History(w.hub, w.ws) + [dropped, accepted];
    SessionTracked(w, from);
    DropThenAcceptView(w, from, dropped, accepted);
    AfterPoint(longer, w.start, from);
    AfterPoint(longer, accepted.id, |longer|);
    HoleAfter(InFlight(w), History(w.hub, w.ws), from, dropped, accepted);
  }

  lemma HoleAfter(stream: seq<Event>, history: seq<Event>, from: nat, dropped: Event, accepted: Event)
    requires from <= |history| && stream == history[from..] && dropped != accepted
    ensures !(stream + [accepted] <= (history + [dropped, accepted])[from..])
  {
    assert (history + [dropped, accepted])[from..][|stream|] == dropped;
    assert (stream + [accepted])[|stream|] == accepted;
  }

  /** As long as the connection lasts, its stream only grows at the end. */
  lemma {:induction false} StreamGrows(w: World, from: nat, moves: seq<Move>)
    requires TrackInv(w, from) && AllTame(w, moves) && w.link.Online?
    requires forall i :: 0 <= i < |moves| ==> moves[i] != Disconnect
    ensures InFlight(w) <= InFlight(RunWorld(w, moves))
    decreases |moves|
  {
    if moves != [] {
      var m := moves[0];
      TrackNext(w, from, m);
      if Quiet(w, m) {
        QuietView(w, m);
      } else if m.Env? {
        PublishMove(w, m.step.event);
      }
      StreamGrows(Next(w, m), from, moves[1..]);
    }
  }

  lemma GotIsBehind(received: seq<Event>, history: seq<Event>, from: nat, i: nat)
    requires DistinctIDs(history) && InOrder(received, history, from) && i < |history|
    requires Contains(received, history[i].id)
    ensures i < Ahead(received, history, from)
  {
    PositionAt(history, i);
    var j := FirstIndex(received, history[i].id);
    assert Position(history, received[j]) == i;
  }

  /**
    A dropped event is not always recovered by reconnecting, although the comment in
    `Publish` says so. A full channel drops one event, is read once and accepts the next.
    If the client receives the accepted event from that connection, then through all later
    moves and sessions it never receives the dropped one.
   */
  lemma DropThenAcceptLosesForever(w: World, from: nat, dropped: Event, accepted: Event,
                                   moves: seq<Move>, more: seq<Move>)
    requires TrackInv(w, from) && WouldDrop(w) && w.hub.channels[w.link.k].capacity > 0
    requires ForClient(w, dropped) && ForClient(w, accepted) && dropped.id != accepted.id
    requires IsTrimmed(dropped.id) && IsTrimmed(accepted.id)
    requires !Contains(History(w.hub, w.ws), dropped.id) && !Contains(History(w.hub, w.ws), accepted.id)
    requires AllTame(DropThenAccept(w, dropped, accepted), moves)
    requires forall i :: 0 <= i < |moves| ==> moves[i] != Disconnect
    requires var r := RunWorld(DropThenAccept(w, dropped, accepted), moves);
             Got(r, accepted.id) && AllTame(r, more)
    ensures !Got(RunWorld(RunWorld(DropThenAccept(w, dropped, accepted), moves), more), dropped.id)
  {
    var r0 := DropThenAccept(w, dropped, accepted);
    DropThenAcceptView(w, from, dropped, accepted);
    TrackRun(r0, from, moves);
    StreamGrows(r0, from, moves);
    NewNotSent(InFlight(w), History(w.hub, w.ws), from, dropped.id);
    PassedOver(RunWorld(r0, moves), from, more, InFlight(w), History(w.hub, w.ws), dropped, accepted);
  }

  lemma PassedOver(w: World, from: nat, more: seq<Move>, stream: seq<Event>, history: seq<Event>,
                   dropped: Event, accepted: Event)
    requires TrackInv(w, from) && AllTame(w, more)
    requires history + [dropped, accepted] <= History(w.hub, w.ws) && stream + [accepted] <= InFlight(w)
    requires !Contains(stream, dropped.id) && Got(w, accepted.id)
    ensures !Got(RunWorld(w, more), dropped.id)
  {
    DroppedMissing(stream, InFlight(w), history, History(w.hub, w.ws), from, dropped, accepted);
    NotReceived(w.received, InFlight(w), dropped.id);
    OrderPrefix(InFlight(w), w.received, History(w.hub, w.ws), from);
    GotIsBehind(w.received, History(w.hub, w.ws), from, |history| + 1);
    LostForever(w, from, more, |history|);
  }

  lemma NewNotSent(stream: seq<Event>, history: seq<Event>, from: nat, id: string)
    requires InOrder(stream, history, from) && !Contains(history, id)
    ensures !Contains(stream, id)
  {
    forall i | 0 <= i < |stream| ensures stream[i].id != id {
      assert history[Position(history, stream[i])] == stream[i];
    }
  }

  lemma NotReceived(received: seq<Event>, stream: seq<Event>, id: string)
    requires received <= stream && !Contains(stream, id)
    ensures !Contains(received, id)
  {
    assert forall i :: 0 <= i < |received| ==> received[i] == stream[i];
  }

  lemma DroppedMissing(stream: seq<Event>, longer: seq<Event>, history: seq<Event>, more: seq<Event>, from: nat,
                       dropped: Event, accepted: Event)
    requires DistinctIDs(more) && history + [dropped, accepted] <= more && InOrder(longer, more, from)
    requires stream + [accepted] <= longer
    requires !Contains(stream, dropped.id)
    ensures more[|history|] == dropped && more[|history| + 1] == accepted && !Contains(longer, dropped.id)
  {
    var both := history + [dropped, accepted];
    assert both[|history|] == dropped && both[|history| + 1] == accepted;
    PositionAt(more, |history| + 1);
    assert Ahead(stream + [accepted], more, from) == |history| + 2;
    LaterOnly(stream + [accepted], longer, more, from, |history|);
  }

  function RunMark(w: World, mark: Mark, moves: seq<Move>): Mark
    decreases |moves|
  {
    if moves == [] then mark else RunMark(Next(w, moves[0]), NextMark(w, mark, moves[0]), moves[1..])
  }

  lemma {:induction false} RunsJoin(w: World, mark: Mark, xs: seq<Move>, ys: seq<Move>)
    ensures RunWorld(w, xs + ys) == RunWorld(RunWorld(w, xs), ys)
    ensures AllTame(w, xs + ys) <==> AllTame(w, xs) && AllTame(RunWorld(w, xs), ys)
    ensures SkipFree(w, mark, xs + ys) <==>
              SkipFree(w, mark, xs) && SkipFree(RunWorld(w, xs), RunMark(w, mark, xs), ys)
    decreases |xs|
  {
    if xs == [] {
      assert xs + ys == ys;
    } else {
      assert (xs + ys)[1..] == xs[1..] + ys;
      RunsJoin(Next(w, xs[0]), NextMark(w, mark, xs[0]), xs[1..], ys);
    }
  }

  lemma {:induction false} BenignIsTame(w: World, moves: seq<Move>)
    requires AllBenign(w, moves)
    ensures AllTame(w, moves)
    decreases |moves|
  {
    if moves != [] {
      BenignIsTame(Next(w, moves[0]), moves[1..]);
    }
  }

  /** What is between the hub and the client. */
  function Transit(w: World): seq<Event>
    requires Linked(w) && w.link.Online?
  {
    w.link.wire + w.hub.channels[w.link.k].buffer
  }

  lemma ForwardTransit(w: World)
    requires Inv(w.hub) && Linked(w) && w.link.Online? && w.hub.channels[w.link.k].buffer != []
    ensures var r := Next(w, Forward);
            && Inv(r.hub) && Linked(r) && r.link.Online? && r.link.wire != [] && Transit(r) == Transit(w)
  {
    ForwardView(w);
    var buffer := w.hub.channels[w.link.k].buffer;
    assert w.link.wire + [buffer[0]] + buffer[1..] == w.link.wire + buffer;
  }

  lemma DeliverTransit(w: World)
    requires Inv(w.hub) && Linked(w) && w.link.Online? && w.link.wire != []
    ensures var r := Next(w, Deliver);
            r.hub == w.hub && Linked(r) && r.link.Online? && r.link.k == w.link.k && Transit(r) == Transit(w)[1..]
  {
    TailOfBoth(w.link.wire, w.hub.channels[w.link.k].buffer);
  }

  lemma TailOfBoth(wire: seq<Event>, buffer: seq<Event>)
    requires wire != []
    ensures wire[1..] + buffer == (wire + buffer)[1..]
  {
  }

  /** Reading on delivers all that is in transit, so it comes to a late event if there is one. */
  lemma {:induction false} ReadOn(w: World, mark: Mark) returns (moves: seq<Move>)
    requires Inv(w.hub) && Linked(w) && w.link.Online?
    requires Transit(w) != [] && Transit(w)[|Transit(w)| - 1].id in mark.late
    ensures AllTame(w, moves) && !SkipFree(w, mark, moves)
    decreases |Transit(w)|, |w.hub.channels[w.link.k].buffer|
  {
    var rest: seq<Move> := [];
    var m := if w.link.wire == [] then Forward else Deliver;
    if w.link.wire == [] {
      ForwardTransit(w);
      ForwardView(w);
      rest := ReadOn(Next(w, m), mark);
    } else if !Skips(w, mark, Deliver) {
      DeliverTransit(w);
      rest := ReadOn(Next(w, m), mark);
    }
    moves := [m] + rest;
    MoveFirst(w, mark, m, rest);
  }

  /** The three moves of a drop, a read and an accepted publish, and what they leave behind. */
  lemma DropThenAcceptMarks(w: World, from: nat, mark: Mark, dropped: Event, accepted: Event) returns (moves: seq<Move>)
    requires TrackInv(w, from) && WouldDrop(w) && Capacity(w) > 0
    requires ForClient(w, dropped) && ForClient(w, accepted) && dropped.id != accepted.id
    requires IsTrimmed(dropped.id) && IsTrimmed(accepted.id)
    requires !Contains(History(w.hub, w.ws), dropped.id) && !Contains(History(w.hub, w.ws), accepted.id)
    ensures AllTame(w, moves) && RunWorld(w, moves) == DropThenAccept(w, dropped, accepted)
    ensures accepted.id in RunMark(w, mark, moves).late
  {
    var d, a := Env(PublishStep(dropped)), Env(PublishStep(accepted));
    var w1, w2 := Next(w, d), Next(Next(w, d), Forward);
    DropMove(w, dropped);
    AppendTwice(History(w.hub, w.ws), dropped, accepted);
    var m1, m2 := NextMark(w, mark, d), NextMark(w1, NextMark(w, mark, d), Forward);
    MoveFirst(w, mark, d, [Forward] + ([a] + []));
    MoveFirst(w1, m1, Forward, [a] + []);
    MoveFirst(w2, m2, a, []);
    moves := [d] + ([Forward] + ([a] + []));
    assert m1.full && m2 == m1;
  }

  lemma MoveFirst(w: World, mark: Mark, m: Move, rest: seq<Move>)
    ensures RunWorld(w, [m] + rest) == RunWorld(Next(w, m), rest)
    ensures RunMark(w, mark, [m] + rest) == RunMark(Next(w, m), NextMark(w, mark, m), rest)
    ensures AllTame(w, [m] + rest) <==> Tame(w, m) && AllTame(Next(w, m), rest)
    ensures SkipFree(w, mark, [m] + rest) <==> !Skips(w, mark, m) && SkipFree(Next(w, m), NextMark(w, mark, m), rest)
  {
    assert ([m] + rest)[1..] == rest;
  }

  lemma LastInTransit(w: World, from: nat, dropped: Event, accepted: Event)
    requires TrackInv(w, from) && WouldDrop(w) && Capacity(w) > 0
    requires ForClient(w, dropped) && ForClient(w, accepted) && dropped.id != accepted.id
    requires IsTrimmed(dropped.id) && IsTrimmed(accepted.id)
    requires !Contains(History(w.hub, w.ws), dropped.id) && !Contains(History(w.hub, w.ws), accepted.id)
    ensures var r := DropThenAccept(w, dropped, accepted);
            && Inv(r.hub) && Linked(r) && r.link.Online?
            && Transit(r) != [] && Transit(r)[|Transit(r)| - 1] == accepted
  {
    DropThenAcceptView(w, from, dropped, accepted);
    var r := DropThenAccept(w, dropped, accepted);
    assert r.received == w.received && InFlight(r) == r.received + Transit(r);
    assert InFlight(w) == w.received + Transit(w);
    assert |InFlight(r)| == |InFlight(w)| + 1;
    assert Transit(r)[|Transit(r)| - 1] == InFlight(r)[|InFlight(r)| - 1];
  }

  /** Any fresh client can come to have received past a dropped event, so that no reconnect makes it whole. */
  lemma LossIsReachable(w: World)
    requires Fresh(w) && w.ws != ""
    ensures exists moves :: AllTame(w, moves) &&
              var back := Reconnected(RunWorld(w, moves));
              InFlight(back) != After(History(back.hub, w.ws), w.start)
  {
    var moves := LossRun(w);
    RecoversIff(w, moves);
  }

  lemma LossRun(w: World) returns (moves: seq<Move>)
    requires Fresh(w) && w.ws != ""
    ensures AllTame(w, moves) && !SkipFree(w, CLEAR, moves)
  {
    var fill := FillFresh(w);
    var r, mark := RunWorld(w, fill), RunMark(w, CLEAR, fill);
    SessionTracked(r, Origin(w));
    var n := SomeLonger(History(r.hub, r.ws));
    var dropped, accepted := Filler(r.ws, n), Filler(r.ws, n + 1);
    FillerIsNew(History(r.hub, r.ws), r.ws, n);
    FillerIsNew(History(r.hub, r.ws), r.ws, n + 1);
    var loss := DropThenAcceptMarks(r, Origin(w), mark, dropped, accepted);
    LastInTransit(r, Origin(w), dropped, accepted);
    var read := ReadOn(RunWorld(r, loss), RunMark(r, mark, loss));
    BenignIsTame(w, fill);
    RunsJoin(r, mark, loss, read);
    RunsJoin(w, CLEAR, fill, loss + read);
    moves := fill + (loss + read);
  }
}
