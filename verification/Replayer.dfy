/**
  The durable event stream, its one-pass replay scan, and the path of a connecting
  client: replay from the stream, add to the hub's history, subscribe.
 */
module Replayer {
  import opened Wrappers
  import opened Strings
  import opened HubModel
  import HubService

  datatype ReplayError = Cancelled | StreamFailed

  /** The events of one workspace in stream order; `None` stands for a message that does not decode. */
  function WorkspaceEvents(messages: seq<Option<Event>>, ws: string): seq<Event>
    decreases |messages|
  {
    if messages == [] then []
    else
      var last := messages[|messages| - 1];
      WorkspaceEvents(messages[..|messages| - 1], ws)
      + if last.Some? && last.value.workspaceID == ws then [last.value] else []
  }

  function EffectiveCursor(lastEventID: string): string {
    if Trim(lastEventID) == "" then "" else lastEventID
  }

  /** A new last event adds to the replay once the cursor has been seen, and ends the wait if it is the cursor. */
  lemma AfterSnoc(history: seq<Event>, cursor: string, e: Event)
    ensures cursor == "" || Contains(history, cursor) ==>
              After(history + [e], cursor) == After(history, cursor) + [e]
    ensures cursor == "" || Contains(history + [e], cursor) <==>
              cursor == "" || Contains(history, cursor) || e.id == cursor
    ensures cursor != "" && !Contains(history, cursor) && e.id == cursor ==> After(history + [e], cursor) == []
  {
    var longer := history + [e];
    assert forall j :: 0 <= j < |history| ==> longer[j] == history[j];
    assert longer[|history|] == e;
    if Contains(history, cursor) {
      var i := FirstIndex(history, cursor);
      FirstIndexAt(longer, cursor, i);
      assert longer[i + 1..] == history[i + 1..] + [e];
    } else if e.id == cursor {
      FirstIndexAt(longer, cursor, |history|);
      assert longer[|history| + 1..] == [];
    } else {
      assert !Contains(longer, cursor);
    }
  }

  // --------------------------------------------- what an answer is, by message

  predicate OfWorkspace(m: Option<Event>, ws: string) {
    m.Some? && m.value.workspaceID == ws
  }

  /** Message `i` is the workspace's event called `id`. */
  predicate Names(messages: seq<Option<Event>>, ws: string, id: string, i: nat)
    requires i < |messages|
  {
    OfWorkspace(messages[i], ws) && messages[i].value.id == id
  }

  predicate FirstNamed(messages: seq<Option<Event>>, ws: string, id: string, i: nat)
    requires i < |messages|
  {
    Names(messages, ws, id, i) && forall j :: 0 <= j < i ==> !Names(messages, ws, id, j)
  }

  /** `events` are those of the workspace in the messages from number `from` on, all of them and in order. */
  ghost predicate Picks(events: seq<Event>, messages: seq<Option<Event>>, ws: string, from: nat) {
    exists at: seq<nat> :: PicksAt(events, messages, ws, from, at)
  }

  ghost predicate PicksAt(events: seq<Event>, messages: seq<Option<Event>>, ws: string, from: nat, at: seq<nat>) {
    Rising(at) && Points(events, messages, ws, from, at) && Reaches(messages, ws, from, at)
  }

  ghost predicate Rising(at: seq<nat>) {
    forall j, k :: 0 <= j < k < |at| ==> at[j] < at[k]
  }

  ghost predicate Points(events: seq<Event>, messages: seq<Option<Event>>, ws: string, from: nat, at: seq<nat>) {
    |at| == |events| && forall j :: 0 <= j < |at| ==> PointsAt(events[j], messages, ws, from, at[j])
  }

  predicate PointsAt(e: Event, messages: seq<Option<Event>>, ws: string, from: nat, i: nat) {
    from <= i < |messages| && OfWorkspace(messages[i], ws) && messages[i].value == e
  }

  ghost predicate Reaches(messages: seq<Option<Event>>, ws: string, from: nat, at: seq<nat>) {
    forall i :: from <= i < |messages| && OfWorkspace(messages[i], ws) ==> Hit(at, i)
  }

  predicate Hit(at: seq<nat>, i: nat) {
    exists j :: 0 <= j < |at| && at[j] == i
  }

  /**
    What a client with cursor `last` is owed: the workspace's events after the first one
    called `last`, or all of them if the cursor is blank or there is none.
   */
  ghost predicate IsAnswer(events: seq<Event>, messages: seq<Option<Event>>, ws: string, last: string) {
    if Trim(last) != "" && SomeNamed(messages, ws, last)
    then exists i :: 0 <= i < |messages| && FirstNamed(messages, ws, last, i) && Picks(events, messages, ws, i + 1)
    else Picks(events, messages, ws, 0)
  }

  lemma HitLonger(at: seq<nat>, n: nat, i: nat)
    ensures Hit(at + [n], i) <==> Hit(at, i) || i == n
  {
    var more := at + [n];
    assert more[|at|] == n;
    assert forall j :: 0 <= j < |at| ==> more[j] == at[j];
    if Hit(at, i) {
      var j :| 0 <= j < |at| && at[j] == i;
      assert more[j] == i;
    }
  }

  /** One more message that is not the workspace's. */
  lemma PicksSkips(events: seq<Event>, messages: seq<Option<Event>>, ws: string, from: nat,
                   m: Option<Event>, at: seq<nat>)
    requires PicksAt(events, messages, ws, from, at) && !OfWorkspace(m, ws)
    ensures PicksAt(events, messages + [m], ws, from, at)
  {
    var longer := messages + [m];
    forall j | 0 <= j < |at| ensures PointsAt(events[j], longer, ws, from, at[j]) {
      assert PointsAt(events[j], messages, ws, from, at[j]);
    }
    forall i | from <= i < |longer| && OfWorkspace(longer[i], ws) ensures Hit(at, i) {
      assert longer[i] == messages[i];
    }
  }

  /** One more event of the workspace. */
  lemma PicksTakes(events: seq<Event>, messages: seq<Option<Event>>, ws: string, from: nat,
                   m: Option<Event>, at: seq<nat>)
    requires PicksAt(events, messages, ws, from, at) && OfWorkspace(m, ws) && from <= |messages|
    ensures PicksAt(events + [m.value], messages + [m], ws, from, at + [|messages|])
  {
    var longer, more, all := messages + [m], at + [|messages|], events + [m.value];
    forall j | 0 <= j < |more| ensures PointsAt(all[j], longer, ws, from, more[j]) {
      if j < |at| {
        assert PointsAt(events[j], messages, ws, from, at[j]);
      }
    }
    forall j, k | 0 <= j < k < |more| ensures more[j] < more[k] {
      assert PointsAt(events[j], messages, ws, from, at[j]);
    }
    forall i | from <= i < |longer| && OfWorkspace(longer[i], ws) ensures Hit(more, i) {
      HitLonger(at, |messages|, i);
      if i < |messages| {
        assert longer[i] == messages[i];
      }
    }
  }

  lemma PicksOne(events: seq<Event>, messages: seq<Option<Event>>, ws: string, from: nat, m: Option<Event>)
    requires Picks(events, messages, ws, from) && from <= |messages|
    ensures Picks(events + if OfWorkspace(m, ws) then [m.value] else [], messages + [m], ws, from)
  {
    var at: seq<nat> :| PicksAt(events, messages, ws, from, at);
    if OfWorkspace(m, ws) {
      PicksTakes(events, messages, ws, from, m, at);
    } else {
      PicksSkips(events, messages, ws, from, m, at);
      assert events + [] == events;
    }
  }

  lemma PicksNone(messages: seq<Option<Event>>, ws: string)
    ensures Picks([], messages, ws, |messages|)
  {
    assert PicksAt([], messages, ws, |messages|, []);
  }

  lemma WorkspaceSnoc(init: seq<Option<Event>>, last: Option<Event>, ws: string, from: nat)
    requires from <= |init|
    ensures WorkspaceEvents((init + [last])[from..], ws)
            == WorkspaceEvents(init[from..], ws) + if OfWorkspace(last, ws) then [last.value] else []
  {
    var longer := (init + [last])[from..];
    assert longer == init[from..] + [last];
    assert longer[..|longer| - 1] == init[from..];
  }

  lemma WorkspaceStep(init: seq<Option<Event>>, last: Option<Event>, ws: string, from: nat)
    requires from <= |init| && Picks(WorkspaceEvents(init[from..], ws), init, ws, from)
    ensures Picks(WorkspaceEvents((init + [last])[from..], ws), init + [last], ws, from)
  {
    WorkspaceSnoc(init, last, ws, from);
    PicksOne(WorkspaceEvents(init[from..], ws), init, ws, from, last);
  }

  lemma {:induction false} WorkspacePicks(messages: seq<Option<Event>>, ws: string, from: nat)
    requires from <= |messages|
    ensures Picks(WorkspaceEvents(messages[from..], ws), messages, ws, from)
    decreases |messages|
  {
    if from == |messages| {
      PicksNone(messages, ws);
    } else {
      var init, last := messages[..|messages| - 1], messages[|messages| - 1];
      assert init + [last] == messages;
      WorkspacePicks(init, ws, from);
      WorkspaceStep(init, last, ws, from);
    }
  }

  lemma {:induction false} WorkspaceSplit(xs: seq<Option<Event>>, ys: seq<Option<Event>>, ws: string)
    ensures WorkspaceEvents(xs + ys, ws) == WorkspaceEvents(xs, ws) + WorkspaceEvents(ys, ws)
    decreases |ys|
  {
    if ys == [] {
      assert xs + ys == xs;
    } else {
      var init := ys[..|ys| - 1];
      WorkspaceSplit(xs, init, ws);
      assert (xs + ys)[..|xs + ys| - 1] == xs + init;
    }
  }

  predicate SomeNamed(messages: seq<Option<Event>>, ws: string, id: string) {
    exists i :: 0 <= i < |messages| && Names(messages, ws, id, i)
  }

  lemma NamedSnoc(init: seq<Option<Event>>, last: Option<Event>, ws: string, id: string)
    ensures SomeNamed(init + [last], ws, id)
            <==> SomeNamed(init, ws, id) || (OfWorkspace(last, ws) && last.value.id == id)
  {
    var all := init + [last];
    assert forall i :: 0 <= i < |init| ==> (Names(all, ws, id, i) <==> Names(init, ws, id, i));
    assert Names(all, ws, id, |init|) <==> OfWorkspace(last, ws) && last.value.id == id;
  }

  lemma ContainsConcat(xs: seq<Event>, ys: seq<Event>, id: string)
    ensures Contains(xs + ys, id) <==> Contains(xs, id) || Contains(ys, id)
  {
    var all := xs + ys;
    assert forall i :: 0 <= i < |xs| ==> all[i] == xs[i];
    assert forall i :: 0 <= i < |ys| ==> all[|xs| + i] == ys[i];
    if Contains(all, id) {
      var i := FirstIndex(all, id);
      assert i >= |xs| ==> ys[i - |xs|].id == id;
    }
  }

  lemma ContainsOne(m: Option<Event>, ws: string, id: string)
    ensures Contains(if OfWorkspace(m, ws) then [m.value] else [], id) <==> OfWorkspace(m, ws) && m.value.id == id
  {
    if OfWorkspace(m, ws) {
      assert [m.value][0] == m.value;
    }
  }

  /** The events have an ID if and only if a message of the workspace does. */
  lemma {:induction false} NamedIff(messages: seq<Option<Event>>, ws: string, id: string)
    ensures Contains(WorkspaceEvents(messages, ws), id) <==> SomeNamed(messages, ws, id)
    decreases |messages|
  {
    if messages != [] {
      var init, last := messages[..|messages| - 1], messages[|messages| - 1];
      NamedIff(init, ws, id);
      assert messages == init + [last];
      NamedSnoc(init, last, ws, id);
      ContainsConcat(WorkspaceEvents(init, ws), if OfWorkspace(last, ws) then [last.value] else [], id);
      ContainsOne(last, ws, id);
    }
  }

  lemma {:induction false} FirstNamedExists(messages: seq<Option<Event>>, ws: string, id: string, i: nat)
    returns (first: nat)
    requires i < |messages| && Names(messages, ws, id, i)
    ensures first <= i && FirstNamed(messages, ws, id, first)
    decreases i
  {
    if j :| 0 <= j < i && Names(messages, ws, id, j) {
      first := FirstNamedExists(messages, ws, id, j);
    } else {
      first := i;
    }
  }

  /** The events after a cursor are those of the messages after its message. */
  lemma AfterNamed(messages: seq<Option<Event>>, ws: string, id: string, i: nat)
    requires i < |messages| && FirstNamed(messages, ws, id, i) && id != ""
    ensures After(WorkspaceEvents(messages, ws), id) == WorkspaceEvents(messages[i + 1..], ws)
  {
    var pre, e, post := messages[..i], messages[i].value, messages[i + 1..];
    assert messages == pre + ([messages[i]] + post);
    WorkspaceSplit(pre, [messages[i]] + post, ws);
    WorkspaceSplit([messages[i]], post, ws);
    WorkspaceOne(messages[i], ws);
    NoneNamed(messages, ws, id, i);
    NamedIff(pre, ws, id);
    AfterFirst(WorkspaceEvents(pre, ws), e, WorkspaceEvents(post, ws));
  }

  lemma WorkspaceOne(m: Option<Event>, ws: string)
    ensures WorkspaceEvents([m], ws) == if OfWorkspace(m, ws) then [m.value] else []
  {
    assert [m][..0] == [];
  }

  lemma NoneNamed(messages: seq<Option<Event>>, ws: string, id: string, i: nat)
    requires i < |messages| && FirstNamed(messages, ws, id, i)
    ensures !SomeNamed(messages[..i], ws, id)
  {
    forall j | 0 <= j < i ensures !Names(messages[..i], ws, id, j) {
      assert !Names(messages, ws, id, j);
    }
  }

  lemma AfterFirst(before: seq<Event>, e: Event, rest: seq<Event>)
    requires !Contains(before, e.id) && e.id != ""
    ensures After(before + ([e] + rest), e.id) == rest
  {
    var all := before + ([e] + rest);
    assert forall j :: 0 <= j < |before| ==> all[j] == before[j];
    FirstIndexAt(all, e.id, |before|);
    assert all[|before| + 1..] == rest;
  }

  lemma AfterPicks(messages: seq<Option<Event>>, ws: string, last: string, i: nat)
    requires i < |messages| && FirstNamed(messages, ws, last, i) && last != ""
    ensures Picks(After(WorkspaceEvents(messages, ws), last), messages, ws, i + 1)
  {
    AfterNamed(messages, ws, last, i);
    WorkspacePicks(messages, ws, i + 1);
  }

  lemma AllPicks(messages: seq<Option<Event>>, ws: string)
    ensures Picks(WorkspaceEvents(messages, ws), messages, ws, 0)
  {
    assert messages[0..] == messages;
    WorkspacePicks(messages, ws, 0);
  }

  lemma FirstOf(messages: seq<Option<Event>>, ws: string, id: string) returns (first: nat)
    requires SomeNamed(messages, ws, id)
    ensures first < |messages| && FirstNamed(messages, ws, id, first)
  {
    var i: nat :| i < |messages| && Names(messages, ws, id, i);
    first := FirstNamedExists(messages, ws, id, i);
  }

  lemma AfterIsAnswer(messages: seq<Option<Event>>, ws: string, last: string)
    ensures IsAnswer(After(WorkspaceEvents(messages, ws), EffectiveCursor(last)), messages, ws, last)
  {
    if Trim(last) != "" && SomeNamed(messages, ws, last) {
      var first := FirstOf(messages, ws, last);
      BlankEmpty(last);
      AfterPicks(messages, ws, last, first);
    } else {
      NamedIff(messages, ws, last);
      AllPicks(messages, ws);
    }
  }

  lemma BlankEmpty(s: string)
    requires Trim(s) != ""
    ensures s != ""
  {
  }

  /** Message `i` is an event that the scan sends on: one of the workspace, after the cursor. */
  predicate Relayed(messages: seq<Option<Event>>, ws: string, last: string, i: nat)
    requires i < |messages|
  {
    OfWorkspace(messages[i], ws) && (Trim(last) == "" || exists j :: 0 <= j < i && Names(messages, ws, last, j))
  }

  /**
    The replay scan. `failed` says how the stream ended (with a time-out, or with an
    error), and `cancelled[i]` whether the context is done when message `i` is handled.
   */
  method Replay(messages: seq<Option<Event>>, failed: bool, cancelled: seq<bool>, ws: string, lastEventID: string)
    returns (r: Result<seq<Event>, ReplayError>)
    requires |cancelled| == |messages|
    ensures r.Ok? ==> IsAnswer(r.value, messages, ws, lastEventID)
    ensures r == Err(Cancelled) <==>
              exists i :: 0 <= i < |messages| && cancelled[i] && Relayed(messages, ws, lastEventID, i)
    ensures r == Err(StreamFailed) <==> r != Err(Cancelled) && failed
  {
    var result, all := [], [];
    var seenCursor := Trim(lastEventID) == "";
    ghost var cursor := EffectiveCursor(lastEventID);
    for i := 0 to |messages|
      invariant all == WorkspaceEvents(messages[..i], ws)
      invariant seenCursor <==> cursor == "" || Contains(all, cursor)
      invariant result == if seenCursor then After(all, cursor) else []
      invariant forall j :: 0 <= j < i ==> !(cancelled[j] && Relayed(messages, ws, lastEventID, j))
    {
      assert messages[..i + 1][..i] == messages[..i];
      RelayedIff(messages, ws, lastEventID, i);
      if messages[i].None? || messages[i].value.workspaceID != ws {
        continue;
      }
      var event := messages[i].value;
      AfterSnoc(all, cursor, event);
      all := all + [event];
      if !seenCursor {
        seenCursor := event.id == lastEventID;
        continue;
      }
      result := result + [event];
      if cancelled[i] {
        return Err(Cancelled);
      }
    }
    assert messages[..|messages|] == messages;
    if failed {
      return Err(StreamFailed);
    }
    AfterIsAnswer(messages, ws, lastEventID);
    return Ok(if !seenCursor then all else result);
  }

  lemma RelayedIff(messages: seq<Option<Event>>, ws: string, last: string, i: nat)
    requires i < |messages|
    ensures Relayed(messages, ws, last, i) <==>
              && OfWorkspace(messages[i], ws)
              && (EffectiveCursor(last) == "" || Contains(WorkspaceEvents(messages[..i], ws), EffectiveCursor(last)))
  {
    NamedIff(messages[..i], ws, last);
    forall j | 0 <= j < i ensures Names(messages[..i], ws, last, j) <==> Names(messages, ws, last, j) {
      assert messages[..i][j] == messages[j];
    }
  }

  // ------------------------------------- replay, add to history, subscribe

  /** The events whose ID a history does not have yet, in order. */
  function Unknown(events: seq<Event>, history: seq<Event>): seq<Event>
    decreases |events|
  {
    if events == [] then []
    else (if Contains(history, events[0].id) then [] else [events[0]]) + Unknown(events[1..], history)
  }

  lemma {:induction false} UnknownIgnores(events: seq<Event>, history: seq<Event>, e: Event)
    requires forall i :: 0 <= i < |events| ==> events[i].id != e.id
    ensures Unknown(events, history + [e]) == Unknown(events, history)
    decreases |events|
  {
    if events != [] {
      var id := events[0].id;
      if Contains(history, id) {
        var i := FirstIndex(history, id);
        assert (history + [e])[i].id == id;
      } else {
        forall j | 0 <= j < |history + [e]| ensures (history + [e])[j].id != id {}
      }
      UnknownIgnores(events[1..], history, e);
    }
  }

  lemma OneAppends(history: seq<Event>, e: Event, more: seq<Event>)
    ensures (if Contains(history, e.id) then history else history + [e]) + more
            == history + ((if Contains(history, e.id) then [] else [e]) + more)
  {
  }

  /** Adding distinct events to a history appends the unknown ones, in order. */
  lemma {:induction false} AddHistoryAppends(h: Hub, events: seq<Event>, ws: string)
    requires DistinctIDs(events) && forall e :: e in events ==> e.workspaceID == ws
    ensures History(AddHistory(h, events), ws) == History(h, ws) + Unknown(events, History(h, ws))
    decreases |events|
  {
    if events != [] {
      var e, rest, history := events[0], events[1..], History(h, ws);
      assert e in events;
      forall i | 0 <= i < |rest| ensures rest[i].id != e.id {
        assert rest[i] == events[i + 1];
      }
      assert DistinctIDs(rest);
      var h1 := AddOne(h, e);
      AddHistoryAppends(h1, rest, ws);
      if !Contains(history, e.id) {
        UnknownIgnores(rest, history, e);
      }
      OneAppends(history, e, Unknown(rest, history));
    }
  }

  /** The hub after a client with cursor `last` has connected, with `answer` from the stream. */
  function Serve(h: Hub, ws: string, answer: seq<Event>, last: string): Hub {
    Subscribe(AddHistory(h, answer), ws, last)
  }

  /** What a connecting client meets at the stream. */
  datatype Stream = Stream(messages: seq<Option<Event>>, failed: bool, cancelled: seq<bool>)

  /** The context is done when some event is sent on. */
  predicate Interrupted(stream: Stream, ws: string, last: string)
    requires |stream.cancelled| == |stream.messages|
  {
    exists i :: 0 <= i < |stream.messages| && stream.cancelled[i] && Relayed(stream.messages, ws, last, i)
  }

  /**
    The path of a connecting client with query cursor `query`: replay, refresh the history,
    subscribe. `None` means that the replay failed and nothing has changed.
   */
  method Connect(hub: HubService.MemoryHub, stream: Stream, ws: string, query: string)
    returns (channel: Option<nat>, ghost answer: seq<Event>)
    requires hub.Valid() && |stream.cancelled| == |stream.messages|
    modifies hub
    ensures channel.None? <==> stream.failed || Interrupted(stream, ws, Trim(query))
    ensures channel.None? ==> hub.State() == old(hub.State())
    ensures channel.Some? ==>
              && channel.value == old(|hub.channels|) && IsAnswer(answer, stream.messages, ws, Trim(query))
              && hub.State() == Serve(old(hub.State()), ws, answer, Trim(query))
    ensures hub.Valid()
  {
    var last := Trim(query);
    answer := [];
    var replayed := Replay(stream.messages, stream.failed, stream.cancelled, ws, last);
    if replayed.Err? {
      assert replayed.error.Cancelled? || replayed.error.StreamFailed?;
      return None, [];
    }
    answer := replayed.value;
    AddHistoryInv(hub.State(), answer);
    hub.AddHistory(replayed.value);
    channel := hub.SubscribeSince(false, ws, last);
  }

  /** The hub's history up to and including the cursor. */
  function Before(history: seq<Event>, cursor: string): seq<Event> {
    history[..|history| - |After(history, cursor)|]
  }

  ghost predicate Apart(xs: seq<Event>, ys: seq<Event>) {
    forall i, j :: 0 <= i < |xs| && 0 <= j < |ys| ==> xs[i].id != ys[j].id
  }

  lemma {:induction false} UnknownOnly(events: seq<Event>, history: seq<Event>)
    ensures var more := Unknown(events, history);
            forall i :: 0 <= i < |more| ==> more[i] in events && !Contains(history, more[i].id)
    ensures Apart(events, history) ==> Unknown(events, history) == events
    decreases |events|
  {
    if events != [] {
      UnknownOnly(events[1..], history);
      if Apart(events, history) {
        forall j | 0 <= j < |history| ensures history[j].id != events[0].id {}
      }
    }
  }

  lemma UnknownLacks(events: seq<Event>, history: seq<Event>, id: string)
    requires !Contains(events, id)
    ensures !Contains(Unknown(events, history), id)
  {
    var more := Unknown(events, history);
    UnknownOnly(events, history);
    forall i | 0 <= i < |more| ensures more[i].id != id {
      var j :| 0 <= j < |events| && events[j] == more[i];
    }
  }

  lemma {:induction false} UnknownConcat(xs: seq<Event>, ys: seq<Event>, history: seq<Event>)
    ensures Unknown(xs + ys, history) == Unknown(xs, history) + Unknown(ys, history)
    decreases |xs|
  {
    if xs == [] {
      assert xs + ys == ys;
    } else {
      assert (xs + ys)[1..] == xs[1..] + ys;
      UnknownConcat(xs[1..], ys, history);
    }
  }

  lemma {:induction false} UnknownNone(events: seq<Event>, history: seq<Event>)
    requires forall i :: 0 <= i < |events| ==> Contains(history, events[i].id)
    ensures Unknown(events, history) == []
    decreases |events|
  {
    if events != [] {
      UnknownNone(events[1..], history);
    }
  }

  /** The cursor is found in the longer history just where it was in the shorter one. */
  lemma AfterConcat(history: seq<Event>, more: seq<Event>, cursor: string)
    requires !Contains(more, cursor) || Contains(history, cursor)
    ensures After(history + more, cursor) == After(history, cursor) + more
  {
    var all := history + more;
    if cursor != "" && Contains(history, cursor) {
      var i := FirstIndex(history, cursor);
      assert all[i] == history[i];
      FirstIndexAt(all, cursor, i);
    } else if Contains(all, cursor) {
      var i := FirstIndex(all, cursor);
      if i < |history| {
        assert history[i] == all[i];
      } else {
        assert more[i - |history|] == all[i];
      }
    }
  }

  /** No two messages of the workspace have the same ID. */
  ghost predicate DistinctStream(messages: seq<Option<Event>>, ws: string) {
    forall i, j :: 0 <= i < j < |messages| && OfWorkspace(messages[i], ws) && OfWorkspace(messages[j], ws) ==>
      messages[i].value.id != messages[j].value.id
  }

  /** Distinct events of one workspace, none of them the cursor's. */
  ghost predicate Owed(answer: seq<Event>, ws: string, last: string) {
    && DistinctIDs(answer) && (forall i :: 0 <= i < |answer| ==> answer[i].workspaceID == ws)
    && (last != "" ==> !Contains(answer, last))
  }

  lemma PicksOwed(events: seq<Event>, messages: seq<Option<Event>>, ws: string, from: nat, last: string)
    requires Picks(events, messages, ws, from) && DistinctStream(messages, ws)
    requires last != "" ==> forall i :: from <= i < |messages| ==> !Names(messages, ws, last, i)
    ensures Owed(events, ws, last)
  {
    var at: seq<nat> :| PicksAt(events, messages, ws, from, at);
    forall j | 0 <= j < |events| ensures PointsAt(events[j], messages, ws, from, at[j]) {}
    forall j, k | 0 <= j < k < |events| ensures events[j].id != events[k].id {
      assert at[j] < at[k];
    }
    forall j | 0 <= j < |events| && last != "" ensures events[j].id != last {
      assert !Names(messages, ws, last, at[j]);
    }
  }

  lemma AnswerOwed(answer: seq<Event>, messages: seq<Option<Event>>, ws: string, last: string)
    requires IsAnswer(answer, messages, ws, last) && DistinctStream(messages, ws) && (Trim(last) == "" ==> last == "")
    ensures Owed(answer, ws, last)
  {
    if Trim(last) != "" && SomeNamed(messages, ws, last) {
      var i :| 0 <= i < |messages| && FirstNamed(messages, ws, last, i) && Picks(answer, messages, ws, i + 1);
      forall j | i < j < |messages| ensures !Names(messages, ws, last, j) {
        assert Names(messages, ws, last, i);
      }
      PicksOwed(answer, messages, ws, i + 1, last);
    } else {
      PicksOwed(answer, messages, ws, 0, last);
    }
  }

  /** What a connecting client finds in its channel. */
  lemma ServedBacklog(h: Hub, ws: string, answer: seq<Event>, last: string)
    requires Inv(h) && Owed(answer, ws, last)
    ensures var history := History(h, ws); var r := Serve(h, ws, answer, last);
            && |r.channels| == |h.channels| + 1
            && r.channels[|h.channels|].buffer == After(history, last) + Unknown(answer, history)
  {
    var history := History(h, ws);
    AddHistoryAppends(h, answer, ws);
    AddHistoryInv(h, answer);
    if last != "" {
      UnknownLacks(answer, history, last);
      AfterConcat(history, Unknown(answer, history), last);
    }
  }

  /** Exactly when a connecting client is sent the answer: see `BacklogExactIff`. */
  lemma OwedExactIff(h: Hub, ws: string, answer: seq<Event>, last: string)
    requires Inv(h) && Owed(answer, ws, last)
    ensures var r := Serve(h, ws, answer, last);
            && |r.channels| == |h.channels| + 1
            && (r.channels[|h.channels|].buffer == answer
                <==> After(History(h, ws), last) <= answer && Apart(Before(History(h, ws), last), answer))
  {
    var history := History(h, ws);
    ServedBacklog(h, ws, answer, last);
    HistorySplits(history, last);
    SplitExactIff(history, answer, |Before(history, last)|);
  }

  lemma HistorySplits(history: seq<Event>, cursor: string)
    ensures var n := |Before(history, cursor)|;
            n <= |history| && history[..n] == Before(history, cursor) && history[n..] == After(history, cursor)
  {
  }

  lemma TrimmedBlank(query: string)
    ensures Trim(Trim(query)) == Trim(query)
  {
    TrimCuts(query);
    TrimCuts(Trim(query));
  }

  /**
    When a connecting client is sent exactly what the stream owes it, the workspace's events
    after its cursor: if and only if what the hub already has after that cursor is the
    beginning of it, and nothing the hub has up to the cursor belongs to it. In the other
    cases events come out of order, twice, or not at all, because refreshed events are
    appended at the end of the history.
   */
  lemma BacklogExactIff(h: Hub, ws: string, messages: seq<Option<Event>>, query: string, answer: seq<Event>)
    requires Inv(h) && DistinctStream(messages, ws) && IsAnswer(answer, messages, ws, Trim(query))
    ensures var last := Trim(query); var r := Serve(h, ws, answer, last);
            && |r.channels| == |h.channels| + 1
            && (r.channels[|h.channels|].buffer == answer
                <==> After(History(h, ws), last) <= answer && Apart(Before(History(h, ws), last), answer))
  {
    TrimmedBlank(query);
    AnswerOwed(answer, messages, ws, Trim(query));
    OwedExactIff(h, ws, answer, Trim(query));
  }

  lemma SplitExactIff(history: seq<Event>, owed: seq<Event>, at: nat)
    requires at <= |history| && DistinctIDs(history) && DistinctIDs(owed)
    ensures history[at..] + Unknown(owed, history) == owed
            <==> history[at..] <= owed && Apart(history[..at], owed)
  {
    var head, tail := history[..at], history[at..];
    assert head + tail == history;
    if tail + Unknown(owed, history) == owed {
      ApartBefore(head, tail, owed);
    }
    if tail <= owed && Apart(head, owed) {
      assert owed == tail + owed[|tail|..];
      UnknownRest(head, tail, owed[|tail|..]);
    }
  }

  lemma ApartBefore(head: seq<Event>, tail: seq<Event>, owed: seq<Event>)
    requires DistinctIDs(head + tail)
    requires owed == tail + Unknown(owed, head + tail)
    ensures Apart(head, owed)
  {
    var history, more := head + tail, Unknown(owed, head + tail);
    UnknownOnly(owed, history);
    forall i, j | 0 <= i < |head| && 0 <= j < |owed| ensures head[i].id != owed[j].id {
      assert history[i] == head[i];
      if j < |tail| {
        assert history[|head| + j] == owed[j];
      } else {
        assert more[j - |tail|] == owed[j];
      }
    }
  }

  lemma UnknownRest(head: seq<Event>, tail: seq<Event>, rest: seq<Event>)
    requires DistinctIDs(tail + rest) && Apart(head, tail + rest)
    ensures Unknown(tail + rest, head + tail) == rest
  {
    var history := head + tail;
    assert Unknown(rest, history) == rest by {
      RestApart(head, tail, rest);
      UnknownOnly(rest, history);
    }
    assert Unknown(tail, history) == [] by {
      NothingUnknown(head, tail);
    }
    UnknownConcat(tail, rest, history);
  }

  lemma NothingUnknown(head: seq<Event>, tail: seq<Event>)
    ensures Unknown(tail, head + tail) == []
  {
    forall i | 0 <= i < |tail| ensures Contains(head + tail, tail[i].id) {
      assert (head + tail)[|head| + i] == tail[i];
    }
    UnknownNone(tail, head + tail);
  }

  lemma RestApart(head: seq<Event>, tail: seq<Event>, rest: seq<Event>)
    requires DistinctIDs(tail + rest) && Apart(head, tail + rest)
    ensures Apart(rest, head + tail)
  {
    forall i, j | 0 <= i < |rest| && 0 <= j < |head + tail| ensures rest[i].id != (head + tail)[j].id {
      assert rest[i] == (tail + rest)[|tail| + i];
      if j >= |head| {
        assert (head + tail)[j] == (tail + rest)[j - |head|];
      }
    }
  }

  /** On a hub with no history for the workspace, every client is sent what the stream owes it. */
  lemma EmptyHubServesStream(h: Hub, ws: string, messages: seq<Option<Event>>, query: string, answer: seq<Event>)
    requires Inv(h) && History(h, ws) == []
    requires DistinctStream(messages, ws) && IsAnswer(answer, messages, ws, Trim(query))
    ensures var r := Serve(h, ws, answer, Trim(query));
            |r.channels| == |h.channels| + 1 && r.channels[|h.channels|].buffer == answer
  {
    BacklogExactIff(h, ws, messages, query, answer);
  }

  lemma UnknownOfTwo(a: Event, b: Event)
    requires a.id != b.id
    ensures Unknown([b], []) == [b] && Unknown([a, b], [b]) == [a]
  {
    assert [b][1..] == [] && [a, b][1..] == [b];
    assert [b][0].id == b.id;
    assert Contains([b], b.id) && !Contains([b], a.id);
    assert Unknown([b], [b]) == [] + Unknown([], [b]);
  }

  lemma HubOfOne(e: Event)
    ensures var h := AddHistory(EMPTY, [e]); Inv(h) && History(h, e.workspaceID) == [e] && h.channels == []
  {
    AddHistoryInv(EMPTY, [e]);
    assert [e][1..] == [];
  }

  /** A hub that has only the second of two stream events sends a new client both in the wrong order. */
  lemma ServedOutOfOrder(a: Event, b: Event)
    requires a.id != b.id && a.workspaceID == b.workspaceID
    ensures var r := Serve(AddHistory(EMPTY, [b]), a.workspaceID, [a, b], "");
            |r.channels| == 1 && r.channels[0].buffer == [b, a] && [b, a] != After([a, b], "")
  {
    UnknownOfTwo(a, b);
    HubOfOne(b);
    ServedBacklog(AddHistory(EMPTY, [b]), a.workspaceID, [a, b], "");
    assert [b] + [a] == [b, a];
    assert [b, a][0] != [a, b][0];
  }

  /**
    A client that connects between the moment an event is in the stream and the moment the
    gateway's consumer hands it to `Publish` is sent the event twice: from the replay, and
    from the publish, which the history then does not show.
   */
  lemma ServedTwice(a: Event)
    requires ValidEvent(a)
    ensures var r := Publish(Serve(EMPTY, a.workspaceID, [a], ""), a);
            |r.channels| == 1 && r.channels[0].buffer == [a, a] && History(r, a.workspaceID) == [a]
  {
    var h := Serve(EMPTY, a.workspaceID, [a], "");
    assert EMPTY == Run(EMPTY, []);
    HubOfOne(a);
    SubscribeInv(AddHistory(EMPTY, [a]), a.workspaceID, "");
    assert History(h, a.workspaceID)[0].id == a.id;
    PublishEffect(h, a);
    assert [a] + [a] == [a, a];
  }
}
