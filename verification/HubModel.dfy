/**
  The in-memory realtime hub: a per-workspace history, the subscribers of each
  workspace, and one bounded channel per subscription. Every operation runs under
  the hub's lock, so each is one function from hub to hub here. Class `MemoryHub`
  below performs the same operations in place.
 */
module HubModel {
  import opened Wrappers

  datatype Payload = Absent | Null | Malformed | Json(text: string)

  datatype Event = Event(
    id: string, eventType: string, version: int, workspaceID: string,
    actorID: string, actorType: string, occurredAt: Option<int>, payload: Payload)

  predicate ValidEvent(e: Event) {
    && e.id != "" && e.eventType != "" && e.version >= 1 && e.workspaceID != ""
    && e.actorID != "" && e.actorType != "" && e.occurredAt.Some? && e.payload.Json?
  }

  datatype Field = EventID | EventType | Version | WorkspaceID | ActorID | ActorType | OccurredAt | PayloadJSON

  /** What an event is refused for. */
  predicate Lacks(e: Event, f: Field) {
    match f
    case EventID => e.id == ""
    case EventType => e.eventType == ""
    case Version => e.version <= 0
    case WorkspaceID => e.workspaceID == ""
    case ActorID => e.actorID == ""
    case ActorType => e.actorType == ""
    case OccurredAt => e.occurredAt == None
    case PayloadJSON => e.payload.Absent? || e.payload.Null? || e.payload.Malformed?
  }

  lemma ValidIff(e: Event)
    ensures ValidEvent(e) <==> forall f: Field :: !Lacks(e, f)
  {
    if forall f: Field :: !Lacks(e, f) {
      assert !Lacks(e, EventID) && !Lacks(e, EventType) && !Lacks(e, Version) && !Lacks(e, WorkspaceID);
      assert !Lacks(e, ActorID) && !Lacks(e, ActorType) && !Lacks(e, OccurredAt) && !Lacks(e, PayloadJSON);
    }
  }

  /** A Go channel held by one subscription, with the `sync.Once` of its close function. */
  datatype Channel = Channel(
    workspaceID: string, capacity: nat, buffer: seq<Event>, closed: bool, once: bool)

  /** `panicked` records a send on, or a close of, a closed channel: a run-time panic in Go. */
  datatype Hub = Hub(
    history: map<string, seq<Event>>, subscribers: map<string, seq<nat>>,
    channels: seq<Channel>, panicked: bool)

  const EMPTY: Hub := Hub(map[], map[], [], false)

  const SLACK: nat := 32

  function History(h: Hub, workspaceID: string): seq<Event> {
    if workspaceID in h.history then h.history[workspaceID] else []
  }

  function Listed(h: Hub, workspaceID: string): seq<nat> {
    if workspaceID in h.subscribers then h.subscribers[workspaceID] else []
  }

  predicate Contains(history: seq<Event>, id: string) {
    exists i :: 0 <= i < |history| && history[i].id == id
  }

  /** The history after the first event called `lastID`; all of it for an empty or unknown cursor. */
  function After(history: seq<Event>, lastID: string): seq<Event> {
    if lastID != "" && Contains(history, lastID) then history[FirstIndex(history, lastID) + 1..] else history
  }

  function FirstIndex(history: seq<Event>, id: string): (i: nat)
    requires Contains(history, id)
    ensures i < |history| && history[i].id == id
    ensures forall j :: 0 <= j < i ==> history[j].id != id
  {
    if history[0].id == id then 0 else 1 + FirstIndex(history[1..], id)
  }

  lemma FirstIndexAt(history: seq<Event>, id: string, i: nat)
    requires i < |history| && history[i].id == id
    requires forall j :: 0 <= j < i ==> history[j].id != id
    ensures Contains(history, id) && FirstIndex(history, id) == i
  {
  }

  function AddOne(h: Hub, e: Event): Hub {
    if Contains(History(h, e.workspaceID), e.id) then h
    else h.(history := h.history[e.workspaceID := History(h, e.workspaceID) + [e]])
  }

  function AddHistory(h: Hub, events: seq<Event>): Hub
    decreases |events|
  {
    if events == [] then h else AddHistory(AddOne(h, events[0]), events[1..])
  }

  /** `select { case channel <- event: default: }` */
  function Offer(h: Hub, k: nat, e: Event): Hub {
    if k >= |h.channels| then h
    else if h.channels[k].closed then h.(panicked := true)
    else if |h.channels[k].buffer| < h.channels[k].capacity
    then h.(channels := h.channels[k := h.channels[k].(buffer := h.channels[k].buffer + [e])])
    else h
  }

  function OfferAll(h: Hub, ks: seq<nat>, e: Event): Hub
    decreases |ks|
  {
    if ks == [] then h else OfferAll(Offer(h, ks[0], e), ks[1..], e)
  }

  function Publish(h: Hub, e: Event): Hub {
    if !ValidEvent(e) then h else OfferAll(AddOne(h, e), Listed(h, e.workspaceID), e)
  }

  function Subscribe(h: Hub, workspaceID: string, lastID: string): Hub {
    var backlog := After(History(h, workspaceID), lastID);
    h.(channels := h.channels + [Channel(workspaceID, |backlog| + SLACK, backlog, false, false)],
       subscribers := h.subscribers[workspaceID := Listed(h, workspaceID) + [|h.channels|]])
  }

  /** Removes the first occurrence of `k`. */
  function Without(ks: seq<nat>, k: nat): (r: seq<nat>)
  {
    if ks == [] then [] else if ks[0] == k then ks[1..] else [ks[0]] + Without(ks[1..], k)
  }

  /** The close function returned with subscription `k`. */
  function Unsubscribe(h: Hub, k: nat): Hub {
    if k >= |h.channels| || h.channels[k].once then h
    else
      var c := h.channels[k];
      if k !in Listed(h, c.workspaceID) then h.(channels := h.channels[k := c.(once := true)])
      else h.(subscribers := h.subscribers[c.workspaceID := Without(Listed(h, c.workspaceID), k)],
              channels := h.channels[k := c.(once := true, closed := true)],
              panicked := h.panicked || c.closed)
  }

  /** The reader of channel `k` takes the next buffered event, which a closed channel still hands out. */
  function Take(h: Hub, k: nat): Hub {
    if k >= |h.channels| || h.channels[k].buffer == [] then h
    else h.(channels := h.channels[k := h.channels[k].(buffer := h.channels[k].buffer[1..])])
  }

  datatype Step =
    | PublishStep(event: Event)
    | AddHistoryStep(events: seq<Event>)
    | SubscribeStep(workspaceID: string, lastID: string)
    | UnsubscribeStep(k: nat)
    | TakeStep(k: nat)

  function Apply(h: Hub, step: Step): Hub {
    match step
    case PublishStep(e) => Publish(h, e)
    case AddHistoryStep(es) => AddHistory(h, es)
    case SubscribeStep(ws, last) => Subscribe(h, ws, last)
    case UnsubscribeStep(k) => Unsubscribe(h, k)
    case TakeStep(k) => Take(h, k)
  }

  function Run(h: Hub, steps: seq<Step>): Hub
    decreases |steps|
  {
    if steps == [] then h else Run(Apply(h, steps[0]), steps[1..])
  }

  // ---------------------------------------------------------------- invariant

  ghost predicate DistinctIDs(history: seq<Event>) {
    forall i, j :: 0 <= i < j < |history| ==> history[i].id != history[j].id
  }

  ghost predicate HistoryInv(h: Hub) {
    forall ws :: ws in h.history ==>
      DistinctIDs(h.history[ws]) && forall e :: e in h.history[ws] ==> e.workspaceID == ws
  }

  ghost predicate NoRepeats(ks: seq<nat>) {
    forall i, j :: 0 <= i < j < |ks| ==> ks[i] != ks[j]
  }

  ghost predicate IsOpen(h: Hub, ws: string, k: nat) {
    k < |h.channels| && h.channels[k].workspaceID == ws && !h.channels[k].closed
  }

  /** A channel is listed, once and under its own workspace, exactly while it is open. */
  ghost predicate ChannelInv(h: Hub) {
    && !h.panicked
    && (forall ws :: ws in h.subscribers ==> NoRepeats(h.subscribers[ws]))
    && (forall ws, i :: ws in h.subscribers && 0 <= i < |h.subscribers[ws]| ==>
          IsOpen(h, ws, h.subscribers[ws][i]))
    && (forall k :: 0 <= k < |h.channels| ==>
          && (!h.channels[k].closed ==> k in Listed(h, h.channels[k].workspaceID))
          && h.channels[k].once == h.channels[k].closed
          && |h.channels[k].buffer| <= h.channels[k].capacity)
  }

  ghost predicate Inv(h: Hub) {
    HistoryInv(h) && ChannelInv(h)
  }

  lemma {:induction false} AddOneInv(h: Hub, e: Event)
    requires Inv(h)
    ensures Inv(AddOne(h, e))
    ensures forall ws :: History(h, ws) <= History(AddOne(h, e), ws)
  {
  }

  lemma {:induction false} AddHistoryInv(h: Hub, events: seq<Event>)
    requires Inv(h)
    ensures Inv(AddHistory(h, events))
    ensures AddHistory(h, events).channels == h.channels && AddHistory(h, events).subscribers == h.subscribers
    ensures forall ws :: History(h, ws) <= History(AddHistory(h, events), ws)
    decreases |events|
  {
    if events != [] {
      AddOneInv(h, events[0]);
      AddHistoryInv(AddOne(h, events[0]), events[1..]);
    }
  }

  /** What `Offer` leaves alone, and that it never panics on an open channel. */
  lemma OfferFrame(h: Hub, k: nat, e: Event)
    requires k < |h.channels| && !h.channels[k].closed
    requires forall j :: 0 <= j < |h.channels| ==> |h.channels[j].buffer| <= h.channels[j].capacity
    ensures var r := Offer(h, k, e);
            && r.history == h.history && r.subscribers == h.subscribers && r.panicked == h.panicked
            && |r.channels| == |h.channels|
            && (forall j :: 0 <= j < |h.channels| && j != k ==> r.channels[j] == h.channels[j])
            && r.channels[k] == h.channels[k].(buffer := r.channels[k].buffer)
            && |r.channels[k].buffer| <= r.channels[k].capacity
            && r.channels[k].buffer == (if |h.channels[k].buffer| < h.channels[k].capacity
                                        then h.channels[k].buffer + [e] else h.channels[k].buffer)
  {
  }

  /** Each listed channel is offered the event exactly once, and no other channel is touched. */
  lemma {:induction false} OfferAllEffect(h: Hub, ks: seq<nat>, e: Event)
    requires NoRepeats(ks)
    requires forall i :: 0 <= i < |ks| ==> ks[i] < |h.channels| && !h.channels[ks[i]].closed
    requires forall j :: 0 <= j < |h.channels| ==> |h.channels[j].buffer| <= h.channels[j].capacity
    ensures var r := OfferAll(h, ks, e);
            && r.history == h.history && r.subscribers == h.subscribers && r.panicked == h.panicked
            && |r.channels| == |h.channels|
            && (forall j :: 0 <= j < |h.channels| ==>
                  r.channels[j] == if j in ks then Offer(h, j, e).channels[j] else h.channels[j])
    decreases |ks|
  {
    if ks != [] {
      OfferFrame(h, ks[0], e);
      var h1 := Offer(h, ks[0], e);
      assert ks == [ks[0]] + ks[1..];
      assert ks[0] !in ks[1..];
      OfferAllEffect(h1, ks[1..], e);
    }
  }

  lemma ListedIffOpen(h: Hub, ws: string, k: nat)
    requires ChannelInv(h) && k < |h.channels|
    ensures k in Listed(h, ws) <==> IsOpen(h, ws, k)
  {
    if k in Listed(h, ws) {
      var i :| 0 <= i < |h.subscribers[ws]| && h.subscribers[ws][i] == k;
      assert IsOpen(h, ws, h.subscribers[ws][i]);
    }
  }

  /** What a valid event does to one channel: an open channel of its workspace with room gains it. */
  function Offered(c: Channel, e: Event): Channel {
    if !c.closed && c.workspaceID == e.workspaceID && |c.buffer| < c.capacity
    then c.(buffer := c.buffer + [e]) else c
  }

  lemma OfferIsOffered(h: Hub, k: nat, e: Event)
    requires ChannelInv(h) && k < |h.channels|
    ensures Offered(h.channels[k], e) ==
            if k in Listed(h, e.workspaceID) then Offer(h, k, e).channels[k] else h.channels[k]
  {
    ListedIffOpen(h, e.workspaceID, k);
  }

  /** Publishing extends one history and offers the event once to every open channel of the workspace. */
  lemma PublishEffect(h: Hub, e: Event)
    requires Inv(h) && ValidEvent(e)
    ensures var r := Publish(h, e);
            && r.history == AddOne(h, e).history && r.subscribers == h.subscribers && !r.panicked
            && |r.channels| == |h.channels|
            && forall k :: 0 <= k < |h.channels| ==> r.channels[k] == Offered(h.channels[k], e)
  {
    var h1 := AddOne(h, e);
    assert ChannelInv(h1) by {
      AddOneInv(h, e);
    }
    var ks := Listed(h1, e.workspaceID);
    forall i | 0 <= i < |ks| ensures ks[i] < |h1.channels| && !h1.channels[ks[i]].closed {
      assert IsOpen(h1, e.workspaceID, h1.subscribers[e.workspaceID][i]);
    }
    OfferAllEffect(h1, ks, e);
    forall k | 0 <= k < |h.channels| ensures Publish(h, e).channels[k] == Offered(h.channels[k], e) {
      OfferIsOffered(h1, k, e);
    }
  }

  lemma ChannelsKept(h: Hub, r: Hub)
    requires ChannelInv(h)
    requires r.subscribers == h.subscribers && !r.panicked && |r.channels| == |h.channels|
    requires forall k :: 0 <= k < |h.channels| ==>
               && r.channels[k].workspaceID == h.channels[k].workspaceID
               && r.channels[k].closed == h.channels[k].closed && r.channels[k].once == h.channels[k].once
               && |r.channels[k].buffer| <= r.channels[k].capacity
    ensures ChannelInv(r)
  {
    forall ws, i | ws in r.subscribers && 0 <= i < |r.subscribers[ws]| ensures IsOpen(r, ws, r.subscribers[ws][i]) {
      assert IsOpen(h, ws, h.subscribers[ws][i]);
    }
  }

  lemma {:induction false} PublishInv(h: Hub, e: Event)
    requires Inv(h)
    ensures Inv(Publish(h, e))
    ensures forall ws :: History(h, ws) <= History(Publish(h, e), ws)
  {
    if ValidEvent(e) {
      PublishEffect(h, e);
      ChannelsKept(h, Publish(h, e));
      AddOneInv(h, e);
      assert forall ws :: History(Publish(h, e), ws) == History(AddOne(h, e), ws);
    }
  }

  lemma {:induction false} WithoutKeeps(ks: seq<nat>, k: nat)
    requires NoRepeats(ks)
    ensures NoRepeats(Without(ks, k))
    ensures forall j :: j in Without(ks, k) <==> j in ks && j != k
    decreases |ks|
  {
    if ks != [] {
      WithoutKeeps(ks[1..], k);
      assert ks == [ks[0]] + ks[1..];
      assert ks[0] !in ks[1..];
    }
  }

  lemma UnsubscribeInv(h: Hub, k: nat)
    requires Inv(h)
    ensures Inv(Unsubscribe(h, k))
  {
    if k < |h.channels| && !h.channels[k].once {
      WithoutKeeps(Listed(h, h.channels[k].workspaceID), k);
      var r := Unsubscribe(h, k);
      forall ws, i | ws in r.subscribers && 0 <= i < |r.subscribers[ws]|
        ensures IsOpen(r, ws, r.subscribers[ws][i])
      {
        var j := r.subscribers[ws][i];
        assert j in Listed(r, ws);
        assert j in Listed(h, ws);
        assert IsOpen(h, ws, j);
      }
    }
  }

  lemma SubscribeInv(h: Hub, ws: string, last: string)
    requires Inv(h)
    ensures Inv(Subscribe(h, ws, last))
  {
    var r := Subscribe(h, ws, last);
    assert r.subscribers[ws][|Listed(h, ws)|] == |h.channels|;
    forall k | 0 <= k < |h.channels| && !h.channels[k].closed
      ensures k in Listed(r, h.channels[k].workspaceID)
    {
      assert k in Listed(h, h.channels[k].workspaceID);
    }
  }

  lemma ApplyInv(h: Hub, step: Step)
    requires Inv(h)
    ensures Inv(Apply(h, step))
    ensures forall ws :: History(h, ws) <= History(Apply(h, step), ws)
  {
    match step
    case PublishStep(e) => PublishInv(h, e);
    case AddHistoryStep(es) => AddHistoryInv(h, es);
    case SubscribeStep(ws, last) => SubscribeInv(h, ws, last);
    case UnsubscribeStep(k) => UnsubscribeInv(h, k);
    case TakeStep(k) =>
  }

  /**
    In every state of every run history IDs are distinct per workspace and history only
    grows at its end; a channel is listed exactly while open; and nothing ever sends on
    or closes a closed channel.
   */
  lemma {:induction false} RunInv(h: Hub, steps: seq<Step>)
    requires Inv(h)
    ensures Inv(Run(h, steps))
    ensures !Run(h, steps).panicked
    ensures forall ws :: History(h, ws) <= History(Run(h, steps), ws)
    decreases |steps|
  {
    if steps != [] {
      ApplyInv(h, steps[0]);
      RunInv(Apply(h, steps[0]), steps[1..]);
    }
  }

  lemma ReachableInv(steps: seq<Step>)
    ensures Inv(Run(EMPTY, steps)) && !Run(EMPTY, steps).panicked
  {
    RunInv(EMPTY, steps);
  }

  /** A closed channel stays closed and is never listed again, whatever happens next. */
  lemma {:induction false} ClosedForever(h: Hub, steps: seq<Step>, k: nat)
    requires Inv(h) && k < |h.channels| && h.channels[k].closed
    ensures var r := Run(h, steps);
            && k < |r.channels| && r.channels[k].closed
            && forall ws :: k !in Listed(r, ws)
    decreases |steps|
  {
    if steps != [] {
      ApplyInv(h, steps[0]);
      ApplyChannel(h, steps[0], k);
      ClosedForever(Apply(h, steps[0]), steps[1..], k);
    }
  }

  /** What one step can do to one existing channel. */
  lemma ApplyChannel(h: Hub, step: Step, k: nat)
    requires Inv(h) && k < |h.channels|
    ensures var r := Apply(h, step); var c := h.channels[k];
            && k < |r.channels|
            && r.channels[k].workspaceID == c.workspaceID && r.channels[k].capacity == c.capacity
            && r.channels[k].closed == (c.closed || step == UnsubscribeStep(k))
            && r.channels[k].buffer ==
                 (if step.PublishStep? && ValidEvent(step.event) && step.event.workspaceID == c.workspaceID
                     && !c.closed && |c.buffer| < c.capacity then c.buffer + [step.event]
                  else if step == TakeStep(k) && c.buffer != [] then c.buffer[1..]
                  else c.buffer)
  {
    match step
    case PublishStep(e) => if ValidEvent(e) { PublishEffect(h, e); }
    case AddHistoryStep(es) => AddHistoryInv(h, es);
    case SubscribeStep(ws, last) =>
    case UnsubscribeStep(j) =>
    case TakeStep(j) =>
  }

  // ------------------------------------------------------- slack of a channel

  /** Valid publishes to a workspace among some steps. */
  function Publishes(steps: seq<Step>, ws: string): nat {
    if steps == [] then 0
    else (if steps[0].PublishStep? && ValidEvent(steps[0].event) && steps[0].event.workspaceID == ws then 1 else 0)
         + Publishes(steps[1..], ws)
  }

  /** No publish of the run finds channel `k` full. */
  ghost predicate DropFree(h: Hub, steps: seq<Step>, k: nat)
    decreases |steps|
  {
    steps != [] ==>
      && (steps[0].PublishStep? && k < |h.channels| && steps[0].event.workspaceID == h.channels[k].workspaceID ==>
            ValidEvent(steps[0].event) ==> |h.channels[k].buffer| < h.channels[k].capacity)
      && DropFree(Apply(h, steps[0]), steps[1..], k)
  }

  lemma {:induction false} RoomLasts(h: Hub, steps: seq<Step>, k: nat)
    requires Inv(h) && k < |h.channels|
    requires |h.channels[k].buffer| + Publishes(steps, h.channels[k].workspaceID) <= h.channels[k].capacity
    ensures DropFree(h, steps, k)
    decreases |steps|
  {
    if steps != [] {
      ApplyInv(h, steps[0]);
      ApplyChannel(h, steps[0], k);
      RoomLasts(Apply(h, steps[0]), steps[1..], k);
    }
  }

  /**
    Filling the backlog never blocks, and the first 32 events published to the workspace
    after a subscription are never dropped for it, even if its reader never reads.
   */
  lemma FirstEventsNeverDropped(h: Hub, ws: string, last: string, steps: seq<Step>)
    requires Inv(h)
    requires Publishes(steps, ws) <= 32
    ensures var c := Subscribe(h, ws, last).channels[|h.channels|];
            c.buffer == After(History(h, ws), last) && c.capacity == |c.buffer| + 32
    ensures DropFree(Subscribe(h, ws, last), steps, |h.channels|)
  {
    SubscribeInv(h, ws, last);
    RoomLasts(Subscribe(h, ws, last), steps, |h.channels|);
  }
}
