/** The hub as the source writes it: an object whose maps and channels change in place. */
module HubService {
  import opened Wrappers
  import opened HubModel

  datatype PublishError = Cancelled | InvalidEvent

  method ContainsEvent(history: seq<Event>, id: string) returns (found: bool)
    ensures found == exists i :: 0 <= i < |history| && history[i].id == id
  {
    for i := 0 to |history|
      invariant forall j :: 0 <= j < i ==> history[j].id != id
    {
      if history[i].id == id {
        return true;
      }
    }
    return false;
  }

  method ReplayAfter(history: seq<Event>, lastID: string) returns (events: seq<Event>)
    ensures events == After(history, lastID)
  {
    if lastID == "" {
      return history;
    }
    for i := 0 to |history|
      invariant forall j :: 0 <= j < i ==> history[j].id != lastID
    {
      if history[i].id == lastID {
        assert Contains(history, lastID);
        assert FirstIndex(history, lastID) == i;
        return history[i + 1..];
      }
    }
    return history;
  }

  /** Makes a channel with room to spare and sends the backlog on it, never blocking. */
  method OpenChannel(workspaceID: string, backlog: seq<Event>) returns (c: Channel)
    ensures c == Channel(workspaceID, |backlog| + SLACK, backlog, false, false)
  {
    c := Channel(workspaceID, |backlog| + SLACK, [], false, false);
    for i := 0 to |backlog|
      invariant c == Channel(workspaceID, |backlog| + SLACK, backlog[..i], false, false)
    {
      assert |c.buffer| < c.capacity;  // the send, made while holding the lock, has room
      c := c.(buffer := c.buffer + [backlog[i]]);
    }
  }

  class MemoryHub {
    var history: map<string, seq<Event>>
    var subscribers: map<string, seq<nat>>
    var channels: seq<Channel>
    var panicked: bool

    ghost function State(): Hub
      reads this
    {
      Hub(history, subscribers, channels, panicked)
    }

    ghost predicate Valid()
      reads this
    {
      Inv(State())
    }

    constructor ()
      ensures Valid() && State() == EMPTY
    {
      history, subscribers, channels, panicked := map[], map[], [], false;
    }

    method AddHistory(events: seq<Event>)
      requires Valid()
      modifies this
      ensures State() == HubModel.AddHistory(old(State()), events)
      ensures Valid()
    {
      ghost var before := State();
      AddHistoryInv(before, events);
      for i := 0 to |events|
        invariant HubModel.AddHistory(State(), events[i..]) == HubModel.AddHistory(before, events)
      {
        assert events[i..][0] == events[i] && events[i..][1..] == events[i + 1..];
        AddUnlessFound(events[i]);
      }
    }

    /** `None` is the error of a cancelled context; otherwise the new channel. */
    method SubscribeSince(cancelled: bool, workspaceID: string, lastEventID: string) returns (channel: Option<nat>)
      requires Valid()
      modifies this
      ensures cancelled ==> channel == None && State() == old(State())
      ensures !cancelled ==> channel == Some(old(|channels|))
      ensures !cancelled ==> State() == HubModel.Subscribe(old(State()), workspaceID, lastEventID)
      ensures Valid()
    {
      if cancelled {
        return None;
      }
      ghost var before := State();
      var backlog := ReplayAfter(if workspaceID in history then history[workspaceID] else [], lastEventID);
      var c := OpenChannel(workspaceID, backlog);
      channel := Some(|channels|);
      var listed := if workspaceID in subscribers then subscribers[workspaceID] else [];
      subscribers := subscribers[workspaceID := listed + [|channels|]];
      channels := channels + [c];
      assert State() == HubModel.Subscribe(before, workspaceID, lastEventID);
      SubscribeInv(before, workspaceID, lastEventID);
    }

    /** The close function of subscription `k`; calling it again does nothing. */
    method Close(k: nat)
      requires Valid() && k < |channels|
      modifies this
      ensures State() == HubModel.Unsubscribe(old(State()), k)
      ensures Valid()
    {
      UnsubscribeInv(State(), k);
      if !channels[k].once {
        CloseOnce(k);
      }
    }

    /** The body guarded by the `sync.Once`. */
    method CloseOnce(k: nat)
      requires k < |channels| && !channels[k].once
      modifies this
      ensures State() == HubModel.Unsubscribe(old(State()), k)
    {
      var c := channels[k];
      var items := if c.workspaceID in subscribers then subscribers[c.workspaceID] else [];
      var i := IndexOf(items, k);
      WithoutAt(items, k, i);
      if i < |items| {
        subscribers := subscribers[c.workspaceID := items[..i] + items[i + 1..]];
        panicked := panicked || c.closed;
        channels := channels[k := c.(once := true, closed := true)];
      } else {
        channels := channels[k := c.(once := true)];
      }
    }

    method Publish(cancelled: bool, event: Event) returns (error: Option<PublishError>)
      requires Valid()
      modifies this
      ensures error == if cancelled then Some(Cancelled) else if !ValidEvent(event) then Some(InvalidEvent) else None
      ensures error == Some(InvalidEvent) <==> !cancelled && exists f: Field :: Lacks(event, f)
      ensures State() == if cancelled then old(State()) else HubModel.Publish(old(State()), event)
      ensures error.Some? ==> State() == old(State())
      ensures Valid()
    {
      ValidIff(event);
      if cancelled {
        return Some(Cancelled);
      }
      if !ValidEvent(event) {
        return Some(InvalidEvent);
      }
      PublishInv(State(), event);
      AddUnlessFound(event);
      Offer(event, if event.workspaceID in subscribers then subscribers[event.workspaceID] else []);
      return None;
    }

    method AddUnlessFound(event: Event)
      modifies this`history
      ensures State() == AddOne(old(State()), event)
    {
      var current := if event.workspaceID in history then history[event.workspaceID] else [];
      var found := ContainsEvent(current, event.id);
      if !found {
        history := history[event.workspaceID := current + [event]];
      }
    }

    /** Sends the event to each subscriber that has room, skipping the others. */
    method Offer(event: Event, items: seq<nat>)
      modifies this`channels, this`panicked
      ensures State() == OfferAll(old(State()), items, event)
    {
      ghost var before := State();
      for i := 0 to |items|
        invariant OfferAll(State(), items[i..], event) == OfferAll(before, items, event)
      {
        assert items[i..][0] == items[i] && items[i..][1..] == items[i + 1..];
        OfferTo(items[i], event);
      }
    }

    /** `select { case channel <- event: default: }` */
    method OfferTo(k: nat, event: Event)
      modifies this`channels, this`panicked
      ensures State() == HubModel.Offer(old(State()), k, event)
    {
      if k < |channels| {
        var c := channels[k];
        if c.closed {
          panicked := true;
        } else if |c.buffer| < c.capacity {
          channels := channels[k := c.(buffer := c.buffer + [event])];
        }
      }
    }
  }

  /** Where `k` first is, or the length of the list. */
  method IndexOf(items: seq<nat>, k: nat) returns (i: nat)
    ensures i <= |items| && (i < |items| ==> items[i] == k)
    ensures forall j :: 0 <= j < i ==> items[j] != k
  {
    i := 0;
    while i < |items| && items[i] != k
      invariant i <= |items|
      invariant forall j :: 0 <= j < i ==> items[j] != k
    {
      i := i + 1;
    }
  }

  lemma {:induction false} WithoutAt(ks: seq<nat>, k: nat, i: nat)
    requires i <= |ks| && (i < |ks| ==> ks[i] == k)
    requires forall j :: 0 <= j < i ==> ks[j] != k
    ensures i < |ks| ==> k in ks && Without(ks, k) == ks[..i] + ks[i + 1..]
    ensures i == |ks| ==> k !in ks
    decreases |ks|
  {
    if 0 < i < |ks| {
      WithoutAt(ks[1..], k, i - 1);
      assert [ks[0]] + (ks[1..][..i - 1] + ks[1..][i..]) == ks[..i] + ks[i + 1..];
    }
  }
}
