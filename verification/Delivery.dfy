/**
  One browser client reading a workspace through the hub, over any number of
  connections. Between its own moves anything else can happen to the hub: other
  publishers, other subscribers, history refreshes, even the close of its channel.
 */
module Delivery {
  import opened Wrappers
  import opened Strings
  import opened HubModel

  /** While online, `wire` holds what the server has written and the browser has not yet received. */
  datatype Link = Offline | Online(k: nat, wire: seq<Event>)

  datatype World = World(
    hub: Hub, ws: string, start: string, cursor: string, link: Link, received: seq<Event>)

  datatype Move = Env(step: Step) | Connect | Forward | Deliver | Disconnect

  /** The cursor kept by the client: the last received ID, unless that is empty. */
  function NextCursor(cursor: string, e: Event): string {
    if e.id != "" then e.id else cursor
  }

  function Next(w: World, m: Move): World {
    match m
    case Env(step) => w.(hub := Apply(w.hub, step))
    case Connect =>
      if w.link.Online? then w
      else w.(hub := Subscribe(w.hub, w.ws, Trim(w.cursor)), link := Online(|w.hub.channels|, []))
    case Forward =>
      if w.link.Offline? || w.link.k >= |w.hub.channels| || w.hub.channels[w.link.k].buffer == [] then w
      else w.(hub := Take(w.hub, w.link.k),
              link := w.link.(wire := w.link.wire + [w.hub.channels[w.link.k].buffer[0]]))
    case Deliver =>
      if w.link.Offline? || w.link.wire == [] then w
      else w.(cursor := NextCursor(w.cursor, w.link.wire[0]), received := w.received + [w.link.wire[0]],
              link := w.link.(wire := w.link.wire[1..]))
    case Disconnect => w.(link := Offline)
  }

  function RunWorld(w: World, moves: seq<Move>): World
    decreases |moves|
  {
    if moves == [] then w else RunWorld(Next(w, moves[0]), moves[1..])
  }

  /** The client's channel is open and full, so a publish to it takes the default branch. */
  predicate WouldDrop(w: World) {
    && w.link.Online? && w.link.k < |w.hub.channels|
    && var c := w.hub.channels[w.link.k]; !c.closed && |c.buffer| >= c.capacity
  }

  /**
    The premises about the other parties: published IDs are new and have no outer white
    space, history refreshes add nothing new to this workspace, and nobody else reads the
    client's channel.
   */
  ghost predicate Tame(w: World, m: Move) {
    match m
    case Env(PublishStep(e)) =>
      ForClient(w, e) ==> IsTrimmed(e.id) && !Contains(History(w.hub, w.ws), e.id)
    case Env(AddHistoryStep(es)) =>
      forall e :: e in es && e.workspaceID == w.ws ==> Contains(History(w.hub, w.ws), e.id)
    case Env(TakeStep(j)) => w.link.Online? ==> j != w.link.k
    case _ => true
  }

  predicate ForClient(w: World, e: Event) {
    ValidEvent(e) && e.workspaceID == w.ws
  }

  /** The move publishes an event that the client's full channel drops. */
  predicate Drops(w: World, m: Move) {
    m.Env? && m.step.PublishStep? && ForClient(w, m.step.event) && WouldDrop(w)
  }

  /** The premises of exact delivery: those, and nothing is dropped. */
  ghost predicate Benign(w: World, m: Move) {
    Tame(w, m) && !Drops(w, m)
  }

  ghost predicate AllBenign(w: World, moves: seq<Move>)
    decreases |moves|
  {
    moves != [] ==> Benign(w, moves[0]) && AllBenign(Next(w, moves[0]), moves[1..])
  }

  /** Received, on the wire, and still buffered. */
  function InFlight(w: World): seq<Event> {
    w.received +
    if w.link.Online? && w.link.k < |w.hub.channels| then w.link.wire + w.hub.channels[w.link.k].buffer else []
  }

  predicate Attached(w: World) {
    w.link.Online? && w.link.k < |w.hub.channels| && !w.hub.channels[w.link.k].closed
  }

  ghost predicate CleanIDs(history: seq<Event>) {
    forall i :: 0 <= i < |history| ==> history[i].id != "" && IsTrimmed(history[i].id)
  }

  /** `stream` is what the client gets of a history it follows from index `from`. */
  ghost predicate Follows(stream: seq<Event>, history: seq<Event>, from: nat, attached: bool) {
    from <= |history| && stream <= history[from..] && (attached ==> stream == history[from..])
  }

  function LastID(received: seq<Event>, start: string): string {
    if received == [] then start else received[|received| - 1].id
  }

  /** The client follows its workspace from index `from`, where its first cursor points. */
  ghost predicate SessionInv(w: World, from: nat) {
    && Inv(w.hub)
    && CleanIDs(History(w.hub, w.ws))
    && (w.link.Online? ==> w.link.k < |w.hub.channels| && w.hub.channels[w.link.k].workspaceID == w.ws)
    && w.cursor == LastID(w.received, w.start)
    && Follows(InFlight(w), History(w.hub, w.ws), from, Attached(w))
    && PointsAt(History(w.hub, w.ws), w.start, from)
  }

  /** An empty cursor points at the first event, any other just after the event it names. */
  ghost predicate PointsAt(history: seq<Event>, cursor: string, from: nat) {
    if cursor == "" then from == 0
    else 0 < from <= |history| && history[from - 1].id == cursor
  }

  // ------------------------------------------------------ about one history

  /** With distinct IDs, replaying after a cursor starts where the cursor points. */
  lemma AfterPoint(history: seq<Event>, cursor: string, from: nat)
    requires DistinctIDs(history) && PointsAt(history, cursor, from)
    ensures from <= |history| && After(history, cursor) == history[from..]
  {
    if cursor != "" {
      FirstIndexAt(history, cursor, from - 1);
    }
  }

  /** The last received ID points just after what has been received. */
  lemma LastPoints(history: seq<Event>, start: string, from: nat, received: seq<Event>)
    requires CleanIDs(history) && PointsAt(history, start, from)
    requires from <= |history| && received <= history[from..]
    ensures PointsAt(history, LastID(received, start), from + |received|)
    ensures start == "" || IsTrimmed(start)
    ensures IsTrimmed(LastID(received, start))
  {
    if received != [] {
      assert received[|received| - 1] == history[from..][|received| - 1];
    }
  }

  lemma FollowsAppend(stream: seq<Event>, history: seq<Event>, from: nat, attached: bool, e: Event)
    requires Follows(stream, history, from, attached)
    ensures attached ==> Follows(stream + [e], history + [e], from, true)
    ensures !attached ==> Follows(stream, history + [e], from, false)
  {
    assert (history + [e])[from..] == history[from..] + [e];
  }

  // ----------------------------------------------------------- about one move

  lemma SubscribeView(h: Hub, ws: string, last: string)
    requires Inv(h)
    ensures var r := Subscribe(h, ws, last);
            && Inv(r) && History(r, ws) == History(h, ws) && |r.channels| == |h.channels| + 1
            && var c := r.channels[|h.channels|];
               c.workspaceID == ws && !c.closed && c.buffer == After(History(h, ws), last)
  {
    SubscribeInv(h, ws, last);
  }

  /** The session that a connection with backlog `backlog` starts. */
  lemma Joins(w: World, r: World, from: nat)
    requires SessionInv(w, from) && w.link.Offline?
    requires r.ws == w.ws && r.start == w.start && r.cursor == w.cursor && r.received == w.received
    requires Inv(r.hub) && History(r.hub, r.ws) == History(w.hub, w.ws)
    requires Attached(r) && r.link.wire == [] && r.hub.channels[r.link.k].workspaceID == w.ws
    requires from + |w.received| <= |History(w.hub, w.ws)|
    requires r.hub.channels[r.link.k].buffer == History(w.hub, w.ws)[from + |w.received|..]
    ensures SessionInv(r, from)
  {
    var history := History(w.hub, w.ws);
    assert w.received + history[from + |w.received|..] == history[from..];
  }

  lemma ConnectKeeps(w: World, from: nat)
    requires SessionInv(w, from) && w.link.Offline?
    ensures SessionInv(Next(w, Connect), from)
  {
    LastPoints(History(w.hub, w.ws), w.start, from, w.received);
    assert Trim(w.cursor) == w.cursor by {
      TrimCuts(w.cursor);
    }
    SubscribeView(w.hub, w.ws, w.cursor);
    AfterPoint(History(w.hub, w.ws), w.cursor, from + |w.received|);
    Joins(w, Next(w, Connect), from);
  }

  lemma {:induction false} NothingNew(h: Hub, es: seq<Event>, ws: string)
    requires forall e :: e in es && e.workspaceID == ws ==> Contains(History(h, ws), e.id)
    ensures History(AddHistory(h, es), ws) == History(h, ws)
    decreases |es|
  {
    if es != [] {
      assert es[0] in es;
      NothingNew(AddOne(h, es[0]), es[1..], ws);
    }
  }

  /** What a valid new event does to the histories. */
  lemma PublishHistory(h: Hub, e: Event, ws: string)
    requires Inv(h)
    requires ValidEvent(e) && e.workspaceID == ws ==> !Contains(History(h, ws), e.id)
    ensures History(Publish(h, e), ws) ==
            if ValidEvent(e) && e.workspaceID == ws then History(h, ws) + [e] else History(h, ws)
  {
    if ValidEvent(e) {
      PublishEffect(h, e);
    }
  }

  /** A session goes on when its history and its channel, if attached, both gain the event. */
  lemma Gains(w: World, r: World, from: nat, e: Event)
    requires SessionInv(w, from)
    requires r.ws == w.ws && r.start == w.start && r.cursor == w.cursor && r.received == w.received && r.link == w.link
    requires Inv(r.hub) && |r.hub.channels| == |w.hub.channels|
    requires e.id != "" && IsTrimmed(e.id)
    requires History(r.hub, w.ws) == History(w.hub, w.ws) + [e]
    requires w.link.Online? ==>
               var c := w.hub.channels[w.link.k];
               r.hub.channels[w.link.k] == if c.closed then c else c.(buffer := c.buffer + [e])
    ensures SessionInv(r, from)
  {
    FollowsAppend(InFlight(w), History(w.hub, w.ws), from, Attached(w), e);
    if Attached(w) {
      assert InFlight(r) == InFlight(w) + [e];
    }
  }

  lemma PublishKeeps(w: World, from: nat, e: Event)
    requires SessionInv(w, from) && Benign(w, Env(PublishStep(e)))
    ensures SessionInv(Next(w, Env(PublishStep(e))), from)
  {
    var r := Next(w, Env(PublishStep(e)));
    PublishInv(w.hub, e);
    if ValidEvent(e) {
      PublishEffect(w.hub, e);
      PublishHistory(w.hub, e, w.ws);
      if e.workspaceID == w.ws {
        Gains(w, r, from, e);
      } else {
        Unmoved(w, r, from);
      }
    }
  }

  /** A session goes on when its stream and its history are left alone. */
  lemma Unmoved(w: World, r: World, from: nat)
    requires SessionInv(w, from)
    requires r.ws == w.ws && r.start == w.start && Inv(r.hub) && History(r.hub, w.ws) == History(w.hub, w.ws)
    requires r.cursor == LastID(r.received, r.start)
    requires r.link.Online? ==> r.link.k < |r.hub.channels| && r.hub.channels[r.link.k].workspaceID == r.ws
    requires InFlight(r) == InFlight(w) && (Attached(r) ==> Attached(w))
    ensures SessionInv(r, from)
  {
  }

  lemma EnvKeeps(w: World, from: nat, step: Step)
    requires SessionInv(w, from) && Benign(w, Env(step))
    ensures SessionInv(Next(w, Env(step)), from)
  {
    if step.PublishStep? {
      PublishKeeps(w, from, step.event);
    } else {
      ApplyInv(w.hub, step);
      if w.link.Online? {
        ApplyChannel(w.hub, step, w.link.k);
      }
      if step.AddHistoryStep? {
        NothingNew(w.hub, step.events, w.ws);
      }
      Unmoved(w, Next(w, Env(step)), from);
    }
  }

  /** Forwarding moves one event from the channel to the wire. */
  lemma ForwardView(w: World)
    requires Inv(w.hub) && w.link.Online? && w.link.k < |w.hub.channels| && w.hub.channels[w.link.k].buffer != []
    ensures var r := Next(w, Forward);
            && Inv(r.hub) && r.hub.history == w.hub.history && |r.hub.channels| == |w.hub.channels|
            && InFlight(r) == InFlight(w)
            && var c := w.hub.channels[w.link.k];
               r.hub.channels[w.link.k] == c.(buffer := c.buffer[1..])
  {
    var buffer := w.hub.channels[w.link.k].buffer;
    assert w.link.wire + [buffer[0]] + buffer[1..] == w.link.wire + buffer;
    ApplyInv(w.hub, TakeStep(w.link.k));
  }

  lemma ForwardKeeps(w: World, from: nat)
    requires SessionInv(w, from)
    ensures SessionInv(Next(w, Forward), from)
  {
    if w.link.Online? && w.hub.channels[w.link.k].buffer != [] {
      ForwardView(w);
      Unmoved(w, Next(w, Forward), from);
    }
  }

  /** Delivering moves the next event from the wire to the client. */
  lemma DeliverView(w: World)
    requires w.link.Online? && w.link.k < |w.hub.channels| && w.link.wire != []
    ensures var r := Next(w, Deliver);
            && r.hub == w.hub && r.ws == w.ws && r.start == w.start
            && InFlight(r) == InFlight(w) && Attached(r) == Attached(w)
            && r.link.Online? && r.link.k == w.link.k
            && r.received == w.received + [w.link.wire[0]]
            && |w.received| < |InFlight(w)| && InFlight(w)[|w.received|] == w.link.wire[0]
  {
    Shift(w.received, w.link.wire, w.hub.channels[w.link.k].buffer);
  }

  lemma Shift(before: seq<Event>, wire: seq<Event>, after: seq<Event>)
    requires wire != []
    ensures (before + [wire[0]]) + (wire[1..] + after) == before + (wire + after)
    ensures |before| < |before + (wire + after)| && (before + (wire + after))[|before|] == wire[0]
  {
  }

  /** The next event of a stream that is followed is a history event, with an ID. */
  lemma FollowedIsClean(stream: seq<Event>, history: seq<Event>, from: nat, attached: bool, i: nat)
    requires CleanIDs(history) && Follows(stream, history, from, attached) && i < |stream|
    ensures stream[i].id != ""
  {
    assert stream[i] == history[from + i];
  }

  lemma DeliverKeeps(w: World, from: nat)
    requires SessionInv(w, from)
    ensures SessionInv(Next(w, Deliver), from)
  {
    if w.link.Online? && w.link.wire != [] {
      DeliverView(w);
      FollowedIsClean(InFlight(w), History(w.hub, w.ws), from, Attached(w), |w.received|);
      Unmoved(w, Next(w, Deliver), from);
    }
  }

  lemma NextKeeps(w: World, from: nat, m: Move)
    requires SessionInv(w, from) && Benign(w, m)
    ensures SessionInv(Next(w, m), from)
    ensures Next(w, m).ws == w.ws && Next(w, m).start == w.start
  {
    match m
    case Env(step) => EnvKeeps(w, from, step);
    case Connect => if w.link.Offline? { ConnectKeeps(w, from); }
    case Forward => ForwardKeeps(w, from);
    case Deliver => DeliverKeeps(w, from);
    case Disconnect => assert w.received <= InFlight(w);
  }

  lemma {:induction false} RunKeeps(w: World, from: nat, moves: seq<Move>)
    requires SessionInv(w, from) && AllBenign(w, moves)
    ensures SessionInv(RunWorld(w, moves), from)
    ensures RunWorld(w, moves).start == w.start && RunWorld(w, moves).ws == w.ws
    decreases |moves|
  {
    if moves != [] {
      NextKeeps(w, from, moves[0]);
      RunKeeps(Next(w, moves[0]), from, moves[1..]);
    }
  }

  // ------------------------------------------------------------ main results

  /** A client that has not connected yet, with an empty cursor or one found in the history. */
  ghost predicate Fresh(w: World) {
    && Inv(w.hub) && CleanIDs(History(w.hub, w.ws))
    && w.link.Offline? && w.received == [] && w.cursor == w.start
    && (w.start == "" || Contains(History(w.hub, w.ws), w.start))
  }

  /**
    Exact delivery. Over any number of sessions, what the client received is a prefix
    of the current history after its first cursor: no gap, no repeat, no reordering.
    Whenever it is attached with nothing in transit, it has received all of it.
   */
  lemma ExactDelivery(w: World, moves: seq<Move>)
    requires Fresh(w) && AllBenign(w, moves)
    ensures var r := RunWorld(w, moves);
            && r.received <= After(History(r.hub, w.ws), w.start)
            && (Attached(r) && r.link.wire == [] && r.hub.channels[r.link.k].buffer == [] ==>
                  r.received == After(History(r.hub, w.ws), w.start))
  {
    var from := if w.start == "" then 0 else FirstIndex(History(w.hub, w.ws), w.start) + 1;
    assert InFlight(w) == [];
    RunKeeps(w, from, moves);
    var r := RunWorld(w, moves);
    AfterPoint(History(r.hub, w.ws), w.start, from);
    assert r.received <= InFlight(r);
    if Attached(r) && r.link.wire == [] && r.hub.channels[r.link.k].buffer == [] {
      assert InFlight(r) == r.received;
    }
  }

  /** Publishing a new event to the client's workspace: the history gains it, the channel if it has room. */
  lemma PublishView(w: World, from: nat, e: Event)
    requires SessionInv(w, from) && Attached(w)
    requires ValidEvent(e) && e.workspaceID == w.ws && !Contains(History(w.hub, w.ws), e.id)
    ensures var r := Next(w, Env(PublishStep(e)));
            && Inv(r.hub) && r.link == w.link && r.received == w.received
            && History(r.hub, w.ws) == History(w.hub, w.ws) + [e]
            && |r.hub.channels| == |w.hub.channels|
            && InFlight(r) == (if WouldDrop(w) then InFlight(w) else InFlight(w) + [e])
            && (WouldDrop(w) ==> r.hub.channels[w.link.k] == w.hub.channels[w.link.k])
  {
    PublishInv(w.hub, e);
    PublishEffect(w.hub, e);
    PublishHistory(w.hub, e, w.ws);
    if !WouldDrop(w) {
      assert InFlight(Next(w, Env(PublishStep(e)))) == InFlight(w) + [e];
    }
  }

  /**
    The server trims the cursor it is given. A client that reconnects is sent exactly
    what it has not received yet if and only if the last ID it received has no outer
    white space: any other ID makes the hub replay from the wrong place.
   */
  lemma ReconnectExactIffTrimmed(w: World, from: nat)
    requires Inv(w.hub) && w.link.Offline?
    requires forall i :: 0 <= i < |History(w.hub, w.ws)| ==> History(w.hub, w.ws)[i].id != ""
    requires PointsAt(History(w.hub, w.ws), w.start, from)
    requires w.received != [] && from <= |History(w.hub, w.ws)| && w.received <= History(w.hub, w.ws)[from..]
    requires w.cursor == LastID(w.received, w.start)
    ensures var r := Next(w, Connect);
            Attached(r) &&
            (r.hub.channels[r.link.k].buffer == History(w.hub, w.ws)[from + |w.received|..] <==> IsTrimmed(w.cursor))
  {
    LastReceived(w.received, History(w.hub, w.ws), from);
    TrimSame(w.cursor);
    SubscribeView(w.hub, w.ws, Trim(w.cursor));
    ReplayStart(History(w.hub, w.ws), Trim(w.cursor), from + |w.received|);
  }

  function Tick(id: string): Event {
    Event(id, "tick", 1, "w", "a", "user", Some(0), Json(""))
  }

  /** A client whose last event is called "x " and that asks for what follows is sent that event again. */
  lemma ResentAfterUntrimmed()
    ensures var hub := Hub(map["w" := [Tick("x "), Tick("y")]], map[], [], false);
            var w := World(hub, "w", "", "x ", Offline, [Tick("x ")]);
            var r := Next(w, Connect);
            Inv(hub) && Attached(r) && r.hub.channels[r.link.k].buffer == [Tick("x "), Tick("y")]
  {
    var hub := Hub(map["w" := [Tick("x "), Tick("y")]], map[], [], false);
    var history := [Tick("x "), Tick("y")];
    assert Trim("x ") == "x" by {
      assert "x "[..1] == "x" && !IsSpace('x') && IsSpace(' ');
      assert TrimLeft("x ") == "x ";
      assert TrimRight("x ") == TrimRight("x") == "x";
    }
    assert |"x "| == 2 && |"x"| == 1 && |"y"| == 1 && "x"[0] != "y"[0];
    assert History(hub, "w") == history && !Contains(history, "x");
    assert Inv(hub);
    SubscribeView(hub, "w", "x");
  }

  lemma TrimSame(s: string)
    ensures Trim(s) == s <==> IsTrimmed(s)
  {
    TrimCuts(s);
  }

  lemma LastReceived(received: seq<Event>, history: seq<Event>, from: nat)
    requires received != [] && from <= |history| && received <= history[from..]
    ensures from + |received| <= |history| && received[|received| - 1] == history[from + |received| - 1]
  {
    assert received[|received| - 1] == history[from..][|received| - 1];
  }

  /** A replay starts at `at` exactly when its cursor names the event before. */
  lemma ReplayStart(history: seq<Event>, cursor: string, at: nat)
    requires DistinctIDs(history) && 0 < at <= |history| && history[at - 1].id != ""
    ensures After(history, cursor) == history[at..] <==> cursor == history[at - 1].id
  {
    if cursor == history[at - 1].id {
      FirstIndexAt(history, cursor, at - 1);
    } else if cursor != "" && Contains(history, cursor) {
      assert |After(history, cursor)| == |history| - FirstIndex(history, cursor) - 1;
    }
  }

  lemma KnownHistory(h: Hub, e: Event)
    requires Inv(h) && ValidEvent(e) && Contains(History(h, e.workspaceID), e.id)
    ensures Publish(h, e).history == h.history
  {
    PublishEffect(h, e);
  }

  lemma GainsAtEnd(received: seq<Event>, wire: seq<Event>, buffer: seq<Event>, e: Event)
    ensures received + (wire + (buffer + [e])) == received + (wire + buffer) + [e]
  {
  }

  /** An event whose ID the history has is not added to it, and is sent all the same. */
  lemma KnownView(w: World, e: Event)
    requires Inv(w.hub) && Attached(w) && w.hub.channels[w.link.k].workspaceID == w.ws
    requires ForClient(w, e) && Contains(History(w.hub, w.ws), e.id)
    ensures var r := Next(w, Env(PublishStep(e)));
            && History(r.hub, w.ws) == History(w.hub, w.ws)
            && InFlight(r) == (if WouldDrop(w) then InFlight(w) else InFlight(w) + [e])
  {
    KnownHistory(w.hub, e);
    PublishEffect(w.hub, e);
    GainsAtEnd(w.received, w.link.wire, w.hub.channels[w.link.k].buffer, e);
    assert Next(w, Env(PublishStep(e))).hub.channels[w.link.k] == Offered(w.hub.channels[w.link.k], e);
  }

  /**
    After any event published to an attached client's workspace, the client's stream is
    still its history after the first cursor if and only if the event was new and its
    channel had room, or the event was known already and its channel was full. A known
    event that finds room is sent again, though the history does not have it twice.
   */
  lemma PublishExactIff(w: World, from: nat, e: Event)
    requires SessionInv(w, from) && Attached(w) && ForClient(w, e)
    ensures var r := Next(w, Env(PublishStep(e)));
            InFlight(r) == After(History(r.hub, w.ws), w.start)
            <==> (WouldDrop(w) <==> Contains(History(w.hub, w.ws), e.id))
  {
    var history := History(w.hub, w.ws);
    if Contains(history, e.id) {
      KnownView(w, e);
      AfterPoint(history, w.start, from);
      assert |InFlight(w) + [e]| == |InFlight(w)| + 1;
    } else {
      PublishView(w, from, e);
      AfterPoint(history + [e], w.start, from);
      SnocExact(InFlight(w), history, from, e);
    }
  }

  lemma SnocExact(stream: seq<Event>, history: seq<Event>, from: nat, e: Event)
    requires from <= |history| && stream == history[from..]
    ensures stream + [e] == (history + [e])[from..] && stream != (history + [e])[from..]
  {
    assert |(history + [e])[from..]| == |stream| + 1;
  }
}
