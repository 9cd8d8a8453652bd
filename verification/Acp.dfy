/**
  JSON-RPC correlation over a child process's standard streams: any number of concurrent
  requesters share a map of pending replies with the one goroutine that reads lines. Each
  step below is one critical section, channel operation or line.
 */
module Acp {
  import opened Wrappers

  const MAX_INT64: int := 0x7FFF_FFFF_FFFF_FFFF

  /** Addition of one on Go's int64. */
  function Increment(n: int): int {
    if n == MAX_INT64 then -MAX_INT64 - 1 else n + 1
  }

  datatype PermissionOption = PermissionOption(optionID: string, kind: string)

  /** One line of output, decoded; `id` is absent for notifications. */
  datatype Message = Message(
    id: Option<int>, rpcMethod: string, result: string, error: Option<string>,
    sessionID: string, update: string, text: string, options: seq<PermissionOption>)

  datatype Reply = Reply(id: int, result: string, error: Option<string>)

  datatype Notification = Notification(sessionID: string, kind: string, text: string)

  datatype Outcome = DeclinedOutcome | Selected(optionID: string)

  datatype Caller = Waiting | Answered(reply: Reply) | Left

  /** A request's reply channel, of capacity one; `got` is every reply ever sent on it. */
  datatype Slot = Slot(id: int, buffer: seq<Reply>, caller: Caller, got: seq<Reply>)

  datatype Reader = Reading | Delivering(k: nat, reply: Reply) | Ended

  /** `wire` lists the request IDs written so far, `notifications` those not yet taken. */
  datatype Client = Client(
    nextID: int, pending: map<int, nat>, slots: seq<Slot>, wire: seq<int>, reader: Reader,
    notifications: seq<Notification>, notificationsClosed: bool, permissions: seq<(int, Outcome)>)

  const EMPTY: Client := Client(0, map[], [], [], Reading, [], false, [])

  const NOTIFICATIONS: nat := 32

  // ------------------------------------------------------ permission requests

  function FirstOfKind(options: seq<PermissionOption>, kind: string): Option<string> {
    if options == [] then None
    else if options[0].kind == kind then Some(options[0].optionID)
    else FirstOfKind(options[1..], kind)
  }

  /** Without the "yolo" mode permission is declined; with it the widest offered consent is chosen. */
  function Permit(yolo: bool, options: seq<PermissionOption>): Outcome {
    if !yolo then DeclinedOutcome
    else match FirstOfKind(options, "allow_always")
         case Some(o) => Selected(o)
         case None =>
           match FirstOfKind(options, "allow_once")
           case Some(o) => Selected(o)
           case None => DeclinedOutcome
  }

  lemma {:induction false} FirstOfKindOffered(options: seq<PermissionOption>, kind: string)
    ensures match FirstOfKind(options, kind)
            case None => forall o :: o in options ==> o.kind != kind
            case Some(id) => PermissionOption(id, kind) in options
  {
    if options != [] {
      FirstOfKindOffered(options[1..], kind);
      assert options == [options[0]] + options[1..];
    }
  }

  /**
    Permission is granted only in the "yolo" mode and only by an option that was offered;
    a one-time consent is chosen only when no lasting one was offered, and permission is
    declined only when neither was.
   */
  lemma PermitIsOffered(yolo: bool, options: seq<PermissionOption>)
    ensures match Permit(yolo, options)
            case DeclinedOutcome =>
              yolo ==> forall o :: o in options ==> o.kind != "allow_always" && o.kind != "allow_once"
            case Selected(id) =>
              yolo && (PermissionOption(id, "allow_always") in options
                       || (PermissionOption(id, "allow_once") in options
                           && forall o :: o in options ==> o.kind != "allow_always"))
  {
    FirstOfKindOffered(options, "allow_always");
    FirstOfKindOffered(options, "allow_once");
  }

  method FindKind(options: seq<PermissionOption>, kind: string) returns (found: Option<string>)
    ensures found == FirstOfKind(options, kind)
  {
    for i := 0 to |options|
      invariant FirstOfKind(options, kind) == FirstOfKind(options[i..], kind)
    {
      if options[i].kind == kind {
        return Some(options[i].optionID);
      }
    }
    return None;
  }

  method ChooseOutcome(yolo: bool, options: seq<PermissionOption>) returns (outcome: Outcome)
    ensures outcome == Permit(yolo, options)
  {
    if yolo {
      var kinds := ["allow_always", "allow_once"];
      for k := 0 to |kinds|
        invariant forall j :: 0 <= j < k ==> FirstOfKind(options, kinds[j]).None?
      {
        var found := FindKind(options, kinds[k]);
        if found.Some? {
          assert k == 1 ==> FirstOfKind(options, kinds[0]).None?;
          return Selected(found.value);
        }
      }
      assert FirstOfKind(options, kinds[0]).None? && FirstOfKind(options, kinds[1]).None?;
    }
    return DeclinedOutcome;
  }

  // ------------------------------------------------------------------- steps

  datatype Step =
    | Request(written: bool) | TakeReply(k: nat) | CancelRequest(k: nat)
    | ReadLine(line: Option<Message>, yolo: bool) | DeliverReply | EndRead | TakeNotification

  function ReadMessage(c: Client, m: Message, yolo: bool): Client {
    if m.id.Some? then
      if m.rpcMethod == "session/request_permission" then
        c.(permissions := c.permissions + [(m.id.value, Permit(yolo, m.options))])
      else if m.id.value in c.pending then
        c.(pending := c.pending - {m.id.value},
           reader := Delivering(c.pending[m.id.value], Reply(m.id.value, m.result, m.error)))
      else c
    else if m.rpcMethod == "session/update" && m.sessionID != "" && |c.notifications| < NOTIFICATIONS then
      c.(notifications := c.notifications + [Notification(m.sessionID, m.update, m.text)])
    else c
  }

  /** Whether the reader, holding a reply, would have to wait for room in its slot. */
  predicate ReaderBlocked(c: Client) {
    c.reader.Delivering? && c.reader.k < |c.slots| && |c.slots[c.reader.k].buffer| >= 1
  }

  function Apply(c: Client, step: Step): Client {
    match step
    case Request(written) =>
      var id := Increment(c.nextID);
      c.(nextID := id, pending := c.pending[id := |c.slots|],
         slots := c.slots + [Slot(id, [], if written then Waiting else Left, [])],
         wire := if written then c.wire + [id] else c.wire)
    case TakeReply(k) =>
      if k < |c.slots| && c.slots[k].caller == Waiting && c.slots[k].buffer != []
      then var s := c.slots[k];
           c.(slots := c.slots[k := s.(caller := Answered(s.buffer[0]), buffer := s.buffer[1..])])
      else c
    case CancelRequest(k) =>
      if k < |c.slots| && c.slots[k].caller == Waiting
      then c.(slots := c.slots[k := c.slots[k].(caller := Left)])
      else c
    case ReadLine(line, yolo) =>
      if c.reader != Reading || line.None? then c else ReadMessage(c, line.value, yolo)
    case DeliverReply =>
      if !c.reader.Delivering? || c.reader.k >= |c.slots| || ReaderBlocked(c) then c
      else var k, r := c.reader.k, c.reader.reply;
           c.(reader := Reading,
              slots := c.slots[k := c.slots[k].(buffer := c.slots[k].buffer + [r], got := c.slots[k].got + [r])])
    case EndRead => if c.reader == Reading then c.(reader := Ended, notificationsClosed := true) else c
    case TakeNotification => if c.notifications != [] then c.(notifications := c.notifications[1..]) else c
  }

  function Run(c: Client, steps: seq<Step>): Client
    decreases |steps|
  {
    if steps == [] then c else Run(Apply(c, steps[0]), steps[1..])
  }

  // ---------------------------------------------------------------- in place

  class StdioAcp {
    var nextID: int
    var pending: map<int, nat>
    var slots: seq<Slot>
    var wire: seq<int>
    var reader: Reader
    var notifications: seq<Notification>
    var notificationsClosed: bool
    var permissions: seq<(int, Outcome)>
    const yolo: bool

    ghost function State(): Client
      reads this
    {
      Client(nextID, pending, slots, wire, reader, notifications, notificationsClosed, permissions)
    }

    constructor (yolo: bool)
      ensures State() == EMPTY && this.yolo == yolo
    {
      nextID, pending, slots, wire, reader := 0, map[], [], [], Reading;
      notifications, notificationsClosed, permissions := [], false, [];
      this.yolo := yolo;
    }

    /** The locked part of `request`; `written` is whether the line could be encoded and written. */
    method BeginRequest(written: bool) returns (k: nat)
      modifies this
      ensures State() == Apply(old(State()), Request(written)) && k == old(|slots|)
      ensures wire == if written then old(wire) + [nextID] else old(wire)
      ensures slots[..k] == old(slots) && slots[k].caller == if written then Waiting else Left
    {
      nextID := Increment(nextID);
      var id := nextID;
      k := |slots|;
      pending := pending[id := k];
      slots := slots + [Slot(id, [], if written then Waiting else Left, [])];
      if written {
        wire := wire + [id];
      }
    }

    /** A line from the process; the lock is held only while the pending reply is looked up and removed. */
    method HandleLine(line: Option<Message>)
      requires reader == Reading
      modifies this
      ensures State() == Apply(old(State()), ReadLine(line, yolo))
    {
      if line.None? {
        return;
      }
      var m := line.value;
      if m.id.Some? {
        if m.rpcMethod == "session/request_permission" {
          var outcome := ChooseOutcome(yolo, m.options);
          permissions := permissions + [(m.id.value, outcome)];
          return;
        }
        if m.id.value in pending {
          reader := Delivering(pending[m.id.value], Reply(m.id.value, m.result, m.error));
        }
        pending := pending - {m.id.value};
        return;
      }
      if m.rpcMethod == "session/update" && m.sessionID != "" {
        if |notifications| < NOTIFICATIONS {
          notifications := notifications + [Notification(m.sessionID, m.update, m.text)];
        }
      }
    }

    /** The reader's send on the reply channel, once it has room. */
    method Deliver()
      requires reader.Delivering? && reader.k < |slots| && |slots[reader.k].buffer| < 1
      modifies this
      ensures State() == Apply(old(State()), DeliverReply)
      ensures reader == Reading && old(reader).Delivering? && old(reader).k < |old(slots)| == |slots|
      ensures slots[old(reader).k].buffer == [old(reader).reply]
      ensures slots[old(reader).k].caller == old(slots)[old(reader).k].caller
      ensures forall i :: 0 <= i < |slots| && i != old(reader).k ==> slots[i] == old(slots)[i]
    {
      var s := slots[reader.k];
      s := s.(buffer := s.buffer + [reader.reply], got := s.got + [reader.reply]);
      slots := slots[reader.k := s];
      reader := Reading;
    }

    /** The output has ended. */
    method EndReading()
      requires reader == Reading
      modifies this
      ensures State() == Apply(old(State()), EndRead)
      ensures reader == Ended && notificationsClosed
      ensures slots == old(slots) && pending == old(pending) && notifications == old(notifications)
    {
      reader, notificationsClosed := Ended, true;
    }

    /** The requester's `select`: a reply if there is one, or else the end of its context. */
    method Await(k: nat, cancelled: bool) returns (reply: Option<Reply>)
      requires k < |slots| && slots[k].caller == Waiting && (slots[k].buffer != [] || cancelled)
      modifies this
      ensures old(slots)[k].buffer != [] && !cancelled ==>
                reply == Some(old(slots)[k].buffer[0]) && State() == Apply(old(State()), TakeReply(k))
      ensures old(slots)[k].buffer == [] ==> reply == None && State() == Apply(old(State()), CancelRequest(k))
      ensures cancelled ==> State() == Apply(old(State()), if reply.Some? then TakeReply(k) else CancelRequest(k))
      ensures slots[k].caller == if reply.Some? then Answered(reply.value) else Left
    {
      var s := slots[k];
      var chooseReply: bool := *;  // when both cases are ready, `select` may take either
      if s.buffer != [] && (!cancelled || chooseReply) {
        reply := Some(s.buffer[0]);
        slots := slots[k := s.(caller := Answered(s.buffer[0]), buffer := s.buffer[1..])];
      } else {
        reply := None;
        slots := slots[k := s.(caller := Left)];
      }
    }
  }

  // --------------------------------------------------------- what stays true

  /** A slot nobody has sent a reply to. */
  predicate Untouched(s: Slot) {
    s.buffer == [] && s.got == [] && !s.caller.Answered?
  }

  /** At most one reply ever reaches a slot, and it carries the slot's ID. */
  ghost predicate SlotInv(s: Slot) {
    && |s.got| <= 1 && (forall r :: r in s.got ==> r.id == s.id)
    && (s.buffer == [] || s.buffer == s.got)
    && (s.caller.Answered? ==> s.got == [s.caller.reply] && s.buffer == [])
  }

  ghost predicate Increasing(ids: seq<int>) {
    forall i, j :: 0 <= i < j < |ids| ==> ids[i] < ids[j]
  }

  /** Slots are numbered by the IDs of their requests, from 1. */
  ghost predicate SlotsInv(slots: seq<Slot>) {
    forall k :: 0 <= k < |slots| ==> slots[k].id == k + 1 && SlotInv(slots[k])
  }

  /** A pending ID leads to its own slot, which has had no reply and is getting none. */
  ghost predicate PendingInv(pending: map<int, nat>, slots: seq<Slot>, reader: Reader) {
    forall id :: id in pending ==>
      && 1 <= id <= |slots| && pending[id] == id - 1 && Untouched(slots[id - 1])
      && (reader.Delivering? ==> reader.k != id - 1)
  }

  ghost predicate ReaderInv(reader: Reader, slots: seq<Slot>) {
    reader.Delivering? ==>
      reader.k < |slots| && Untouched(slots[reader.k]) && reader.reply.id == slots[reader.k].id
  }

  ghost predicate WireInv(wire: seq<int>, nextID: int) {
    Increasing(wire) && forall i :: 0 <= i < |wire| ==> 1 <= wire[i] <= nextID
  }

  ghost predicate Inv(c: Client) {
    && c.nextID == |c.slots| && SlotsInv(c.slots) && PendingInv(c.pending, c.slots, c.reader)
    && ReaderInv(c.reader, c.slots) && WireInv(c.wire, c.nextID)
    && |c.notifications| <= NOTIFICATIONS && c.notificationsClosed == c.reader.Ended?
  }

  lemma PendingAdded(pending: map<int, nat>, slots: seq<Slot>, reader: Reader, s: Slot)
    requires PendingInv(pending, slots, reader) && ReaderInv(reader, slots) && Untouched(s)
    ensures PendingInv(pending[|slots| + 1 := |slots|], slots + [s], reader)
  {
    var more := pending[|slots| + 1 := |slots|];
    forall id | id in more
      ensures 1 <= id <= |slots| + 1 && more[id] == id - 1 && Untouched((slots + [s])[id - 1])
      ensures reader.Delivering? ==> reader.k != id - 1
    {
      assert id != |slots| + 1 ==> id in pending;
    }
  }

  lemma RequestKeeps(c: Client, written: bool)
    requires Inv(c) && |c.slots| < MAX_INT64
    ensures Inv(Apply(c, Request(written)))
  {
    PendingAdded(c.pending, c.slots, c.reader, Slot(c.nextID + 1, [], if written then Waiting else Left, []));
  }

  lemma CallerKeeps(c: Client, step: Step)
    requires Inv(c) && (step.TakeReply? || step.CancelRequest? || step.TakeNotification? || step.EndRead?)
    ensures Inv(Apply(c, step))
  {
    if step.TakeReply? {
      TakeKeeps(c, step.k);
    }
  }

  lemma TakeKeeps(c: Client, k: nat)
    requires Inv(c)
    ensures Inv(Apply(c, TakeReply(k)))
  {
  }

  lemma ReaderKeeps(c: Client, step: Step)
    requires Inv(c) && (step.ReadLine? || step.DeliverReply?)
    ensures Inv(Apply(c, step))
  {
  }

  lemma ApplyKeeps(c: Client, step: Step)
    requires Inv(c) && |Apply(c, step).slots| <= MAX_INT64
    ensures Inv(Apply(c, step))
  {
    match step
    case Request(written) => RequestKeeps(c, written);
    case ReadLine(_, _) => ReaderKeeps(c, step);
    case DeliverReply => ReaderKeeps(c, step);
    case _ => CallerKeeps(c, step);
  }

  lemma {:induction false} SlotsGrow(c: Client, steps: seq<Step>)
    ensures |c.slots| <= |Run(c, steps).slots|
    decreases |steps|
  {
    if steps != [] {
      SlotsGrow(Apply(c, steps[0]), steps[1..]);
    }
  }

  lemma {:induction false} RunKeeps(c: Client, steps: seq<Step>)
    requires Inv(c) && |Run(c, steps).slots| <= MAX_INT64
    ensures Inv(Run(c, steps))
    decreases |steps|
  {
    if steps != [] {
      SlotsGrow(Apply(c, steps[0]), steps[1..]);
      ApplyKeeps(c, steps[0]);
      RunKeeps(Apply(c, steps[0]), steps[1..]);
    }
  }

  /**
    Correlation. In every interleaving with at most 2^63 - 1 requests, request IDs on the
    wire strictly increase; each request gets at most one reply, carrying its own ID; and
    the reader's send on a reply channel never waits, even for a requester that has left.
   */
  lemma Correlation(steps: seq<Step>)
    requires |Run(EMPTY, steps).slots| <= MAX_INT64
    ensures var c := Run(EMPTY, steps);
            && Increasing(c.wire)
            && (forall k :: 0 <= k < |c.slots| ==>
                  |c.slots[k].got| <= 1 && forall r :: r in c.slots[k].got ==> r.id == c.slots[k].id)
            && (forall k :: 0 <= k < |c.slots| && c.slots[k].caller.Answered? ==>
                  c.slots[k].caller.reply.id == c.slots[k].id)
            && (forall j, k :: 0 <= j < k < |c.slots| ==> c.slots[j].id != c.slots[k].id)
            && !ReaderBlocked(c)
  {
    RunKeeps(EMPTY, steps);
  }

  /** Every request that has had no reply, and is getting none, is pending. */
  ghost predicate WaitingInv(c: Client) {
    forall k :: 0 <= k < |c.slots| && c.slots[k].got == [] && !(c.reader.Delivering? && c.reader.k == k) ==>
      k + 1 in c.pending
  }

  lemma WaitingReads(c: Client, line: Option<Message>, yolo: bool)
    requires Inv(c) && WaitingInv(c)
    ensures WaitingInv(Apply(c, ReadLine(line, yolo)))
  {
    var d := Apply(c, ReadLine(line, yolo));
    forall k | 0 <= k < |d.slots| && d.slots[k].got == [] && !(d.reader.Delivering? && d.reader.k == k)
      ensures k + 1 in d.pending
    {
      assert k + 1 in c.pending && c.pending[k + 1] == k;
    }
  }

  lemma WaitingKeeps(c: Client, step: Step)
    requires Inv(c) && WaitingInv(c) && |Apply(c, step).slots| <= MAX_INT64
    ensures WaitingInv(Apply(c, step))
  {
    if step.ReadLine? {
      WaitingReads(c, step.line, step.yolo);
    }
  }

  lemma {:induction false} WaitingRun(c: Client, steps: seq<Step>)
    requires Inv(c) && WaitingInv(c) && |Run(c, steps).slots| <= MAX_INT64
    ensures WaitingInv(Run(c, steps))
    decreases |steps|
  {
    if steps != [] {
      SlotsGrow(Apply(c, steps[0]), steps[1..]);
      ApplyKeeps(c, steps[0]);
      WaitingKeeps(c, steps[0]);
      WaitingRun(Apply(c, steps[0]), steps[1..]);
    }
  }

  /** The request with this ID has been made and has had no reply. */
  predicate Unanswered(c: Client, id: int) {
    1 <= id <= |c.slots| && c.slots[id - 1].got == []
  }

  /**
    In every reachable state a reply is ignored if and only if it answers no request that
    has had no reply: second replies and replies to unknown IDs change nothing, and every
    other reply is handed to its own request, even one whose caller has left.
   */
  lemma ReplyIgnoredIff(steps: seq<Step>, m: Message, yolo: bool)
    requires |Run(EMPTY, steps).slots| <= MAX_INT64 && Run(EMPTY, steps).reader == Reading
    requires m.id.Some? && m.rpcMethod != "session/request_permission"
    ensures var c := Run(EMPTY, steps); var d := Apply(c, ReadLine(Some(m), yolo));
            && (d == c <==> !Unanswered(c, m.id.value))
            && (Unanswered(c, m.id.value) ==>
                  d.reader == Delivering(m.id.value - 1, Reply(m.id.value, m.result, m.error)))
  {
    RunKeeps(EMPTY, steps);
    WaitingRun(EMPTY, steps);
    PendingIff(Run(EMPTY, steps), m.id.value);
  }

  lemma PendingIff(c: Client, id: int)
    requires Inv(c) && WaitingInv(c) && c.reader == Reading
    ensures id in c.pending <==> Unanswered(c, id)
    ensures id in c.pending ==> c.pending[id] == id - 1
  {
    if Unanswered(c, id) {
      assert c.slots[id - 1].got == [];
    }
  }

  /** Once an ID has been used and answered or never sent, no later request makes it pending again. */
  lemma {:induction false} IDsNotReused(c: Client, steps: seq<Step>, id: int)
    requires Inv(c) && 1 <= id <= c.nextID && id !in c.pending
    requires |Run(c, steps).slots| <= MAX_INT64
    ensures id <= |Run(c, steps).slots|
    ensures id !in Run(c, steps).pending && c.slots[id - 1].got <= Run(c, steps).slots[id - 1].got
    ensures !c.reader.Delivering? || c.reader.k != id - 1 ==> Run(c, steps).slots[id - 1].got == c.slots[id - 1].got
    decreases |steps|
  {
    if steps != [] {
      SlotsGrow(Apply(c, steps[0]), steps[1..]);
      ApplyKeeps(c, steps[0]);
      StepKeepsUsed(c, steps[0], id);
      IDsNotReused(Apply(c, steps[0]), steps[1..], id);
    }
  }

  lemma UsedStays(c: Client, step: Step, id: int)
    requires Inv(c) && 1 <= id <= c.nextID && id !in c.pending
    requires |Apply(c, step).slots| <= MAX_INT64
    ensures var d := Apply(c, step); id <= d.nextID && id !in d.pending && id <= |d.slots|
  {
  }

  lemma StepKeepsUsed(c: Client, step: Step, id: int)
    requires Inv(c) && 1 <= id <= c.nextID && id !in c.pending
    requires |Apply(c, step).slots| <= MAX_INT64
    ensures var d := Apply(c, step);
            && id <= d.nextID && id !in d.pending && id <= |d.slots|
            && c.slots[id - 1].got <= d.slots[id - 1].got
            && (!c.reader.Delivering? || c.reader.k != id - 1 ==>
                  d.slots[id - 1].got == c.slots[id - 1].got && (d.reader.Delivering? ==> d.reader.k != id - 1))
  {
    UsedStays(c, step, id);
    if step.DeliverReply? || step.ReadLine? {
      UsedByReader(c, step, id);
    }
  }

  lemma UsedByReader(c: Client, step: Step, id: int)
    requires Inv(c) && 1 <= id <= c.nextID && id !in c.pending && (step.DeliverReply? || step.ReadLine?)
    ensures var d := Apply(c, step);
            && |d.slots| == |c.slots| && c.slots[id - 1].got <= d.slots[id - 1].got
            && (!c.reader.Delivering? || c.reader.k != id - 1 ==>
                  d.slots[id - 1].got == c.slots[id - 1].got && (d.reader.Delivering? ==> d.reader.k != id - 1))
  {
  }

  // ------------------------------------------------------ which reply arrives

  /** The reply that a step reads, if it is one to the request with this ID. */
  function ReplyRead(c: Client, step: Step, id: int): seq<Reply> {
    if step.ReadLine? && c.reader == Reading && step.line.Some? && step.line.value.id == Some(id)
       && step.line.value.rpcMethod != "session/request_permission"
    then [Reply(id, step.line.value.result, step.line.value.error)] else []
  }

  function RepliesRead(c: Client, steps: seq<Step>, id: int): seq<Reply>
    decreases |steps|
  {
    if steps == [] then [] else ReplyRead(c, steps[0], id) + RepliesRead(Apply(c, steps[0]), steps[1..], id)
  }

  function First(replies: seq<Reply>): seq<Reply> {
    if replies == [] then [] else [replies[0]]
  }

  /** What has been sent to a request, or is about to be. */
  function Received(c: Client, k: nat): seq<Reply>
    requires k < |c.slots|
  {
    c.slots[k].got + if c.reader.Delivering? && c.reader.k == k then [c.reader.reply] else []
  }

  lemma StepReceives(c: Client, step: Step, k: nat)
    requires Inv(c) && WaitingInv(c) && k < |c.slots|
    ensures k < |Apply(c, step).slots|
    ensures Received(Apply(c, step), k) == if Received(c, k) != [] then Received(c, k) else ReplyRead(c, step, k + 1)
  {
    if step.ReadLine? {
      ReadReceives(c, step.line, step.yolo, k);
    } else if step.DeliverReply? {
      DeliverReceives(c, k);
    }
  }

  lemma ReadReceives(c: Client, line: Option<Message>, yolo: bool, k: nat)
    requires Inv(c) && WaitingInv(c) && k < |c.slots|
    ensures var d, read := Apply(c, ReadLine(line, yolo)), ReplyRead(c, ReadLine(line, yolo), k + 1);
            d.slots == c.slots && Received(d, k) == if Received(c, k) != [] then Received(c, k) else read
  {
    assert c.slots[k].got == [] && c.reader == Reading ==> c.pending[k + 1] == k;
  }

  lemma DeliverReceives(c: Client, k: nat)
    requires Inv(c) && k < |c.slots|
    ensures |Apply(c, DeliverReply).slots| == |c.slots| && Received(Apply(c, DeliverReply), k) == Received(c, k)
  {
  }

  lemma {:induction false} RunReceives(c: Client, steps: seq<Step>, k: nat)
    requires Inv(c) && WaitingInv(c) && k < |c.slots| && |Run(c, steps).slots| <= MAX_INT64
    ensures k < |Run(c, steps).slots|
    ensures Received(Run(c, steps), k)
         == if Received(c, k) != [] then Received(c, k) else First(RepliesRead(c, steps, k + 1))
    decreases |steps|
  {
    if steps != [] {
      var d := Apply(c, steps[0]);
      SlotsGrow(d, steps[1..]);
      ApplyKeeps(c, steps[0]);
      WaitingKeeps(c, steps[0]);
      StepReceives(c, steps[0], k);
      RunReceives(d, steps[1..], k);
    }
  }

  lemma NothingYet(b: Client, written: bool)
    requires Inv(b) && WaitingInv(b) && |b.slots| < MAX_INT64
    ensures var c := Apply(b, Request(written)); |c.slots| == |b.slots| + 1 && Received(c, |b.slots|) == []
  {
  }

  lemma RequestReceives(b: Client, written: bool, after: seq<Step>)
    requires Inv(b) && WaitingInv(b) && |Run(Apply(b, Request(written)), after).slots| <= MAX_INT64
    ensures var c, k := Apply(b, Request(written)), |b.slots|;
            && k < |Run(c, after).slots|
            && Received(Run(c, after), k) == First(RepliesRead(c, after, k + 1))
  {
    SlotsGrow(Apply(b, Request(written)), after);
    NothingYet(b, written);
    ApplyKeeps(b, Request(written));
    WaitingKeeps(b, Request(written));
    RunReceives(Apply(b, Request(written)), after, |b.slots|);
  }

  lemma RunFirst(c: Client, step: Step, rest: seq<Step>)
    ensures Run(c, [step] + rest) == Run(Apply(c, step), rest)
  {
    assert ([step] + rest)[1..] == rest;
  }

  /**
    In every interleaving a request is sent the first reply read with its ID after it was
    made, with that reply's result and error, and nothing else.
   */
  lemma FirstReplyArrives(before: seq<Step>, written: bool, after: seq<Step>)
    requires |Run(Apply(Run(EMPTY, before), Request(written)), after).slots| <= MAX_INT64
    ensures var c, k := Apply(Run(EMPTY, before), Request(written)), |Run(EMPTY, before).slots|;
            && k < |Run(c, after).slots|
            && Received(Run(c, after), k) == First(RepliesRead(c, after, k + 1))
  {
    var b := Run(EMPTY, before);
    SlotsGrow(b, [Request(written)] + after);
    RunFirst(b, Request(written), after);
    RunKeeps(EMPTY, before);
    WaitingRun(EMPTY, before);
    RequestReceives(b, written, after);
  }

  // -------------------------------------------------- what else reaches the wire

  /** A permission request as it is read, and whether the client is in the "yolo" mode. */
  datatype Ask = Ask(m: Message, yolo: bool)

  predicate IsAsk(c: Client, step: Step) {
    && step.ReadLine? && c.reader == Reading && step.line.Some?
    && step.line.value.id.Some? && step.line.value.rpcMethod == "session/request_permission"
  }

  function AskOf(c: Client, step: Step): seq<Ask> {
    if IsAsk(c, step) then [Ask(step.line.value, step.yolo)] else []
  }

  /** The permission requests that a run reads, in order. */
  function Asked(c: Client, steps: seq<Step>): seq<Ask>
    decreases |steps|
  {
    if steps == [] then [] else AskOf(c, steps[0]) + Asked(Apply(c, steps[0]), steps[1..])
  }

  ghost predicate Offered(m: Message, optionID: string, kind: string) {
    PermissionOption(optionID, kind) in m.options
  }

  ghost predicate Offers(m: Message, kind: string) {
    exists o :: o in m.options && o.kind == kind
  }

  /** An answer goes to its own request, and consents only in the "yolo" mode and by an option of that request. */
  ghost predicate Answers(ask: Ask, answer: (int, Outcome)) {
    && ask.m.id == Some(answer.0)
    && match answer.1
       case DeclinedOutcome => ask.yolo ==> !Offers(ask.m, "allow_always") && !Offers(ask.m, "allow_once")
       case Selected(o) =>
         ask.yolo && (|| Offered(ask.m, o, "allow_always")
                      || (Offered(ask.m, o, "allow_once") && !Offers(ask.m, "allow_always")))
  }

  ghost predicate AllAnswered(asks: seq<Ask>, answers: seq<(int, Outcome)>) {
    |asks| == |answers| && forall i :: 0 <= i < |asks| ==> Answers(asks[i], answers[i])
  }

  lemma StepAnswers(c: Client, step: Step)
    ensures c.permissions <= Apply(c, step).permissions
    ensures AllAnswered(AskOf(c, step), Apply(c, step).permissions[|c.permissions|..])
  {
    if IsAsk(c, step) {
      var m := step.line.value;
      PermitIsOffered(step.yolo, m.options);
      assert Apply(c, step).permissions == c.permissions + [(m.id.value, Permit(step.yolo, m.options))];
      assert Answers(Ask(m, step.yolo), (m.id.value, Permit(step.yolo, m.options)));
    } else {
      assert Apply(c, step).permissions == c.permissions;
    }
  }

  lemma AnsweredConcat(xs: seq<Ask>, ys: seq<Ask>, a: seq<(int, Outcome)>, b: seq<(int, Outcome)>)
    requires AllAnswered(xs, a) && AllAnswered(ys, b)
    ensures AllAnswered(xs + ys, a + b)
  {
  }

  lemma {:induction false} RunAnswers(c: Client, steps: seq<Step>)
    ensures c.permissions <= Run(c, steps).permissions
    ensures AllAnswered(Asked(c, steps), Run(c, steps).permissions[|c.permissions|..])
    decreases |steps|
  {
    if steps != [] {
      var d, r := Apply(c, steps[0]), Run(c, steps);
      StepAnswers(c, steps[0]);
      RunAnswers(d, steps[1..]);
      AnsweredConcat(AskOf(c, steps[0]), Asked(d, steps[1..]),
                     d.permissions[|c.permissions|..], r.permissions[|d.permissions|..]);
      assert r.permissions[|c.permissions|..] == d.permissions[|c.permissions|..] + r.permissions[|d.permissions|..];
    }
  }

  /**
    Every permission request gets exactly one answer, with its own ID and in order. Without
    the "yolo" mode it is declined; with it, it is granted by an option of that very request,
    a lasting one if there is any.
   */
  lemma PermissionsAnswered(steps: seq<Step>)
    ensures AllAnswered(Asked(EMPTY, steps), Run(EMPTY, steps).permissions)
  {
    RunAnswers(EMPTY, steps);
    assert Run(EMPTY, steps).permissions[0..] == Run(EMPTY, steps).permissions;
  }

  /** The IDs of the requests that could be written, numbered from `n` on. */
  function Written(steps: seq<Step>, n: nat): seq<int> {
    if steps == [] then []
    else if steps[0].Request? then (if steps[0].written then [n + 1] else []) + Written(steps[1..], n + 1)
    else Written(steps[1..], n)
  }

  lemma {:induction false} RunWrites(c: Client, steps: seq<Step>)
    requires c.nextID == |c.slots| && |Run(c, steps).slots| <= MAX_INT64
    ensures Run(c, steps).wire == c.wire + Written(steps, |c.slots|)
    decreases |steps|
  {
    if steps != [] {
      var d := Apply(c, steps[0]);
      SlotsGrow(d, steps[1..]);
      WireStep(c, steps[0]);
      RunWrites(d, steps[1..]);
      WrittenFirst(steps, |c.slots|);
      Rejoin(c.wire, WrittenBy(steps[0], |c.slots|), Written(steps[1..], |d.slots|));
    }
  }

  function WrittenBy(step: Step, n: nat): seq<int> {
    if step.Request? && step.written then [n + 1] else []
  }

  lemma WrittenFirst(steps: seq<Step>, n: nat)
    requires steps != []
    ensures Written(steps, n) == WrittenBy(steps[0], n) + Written(steps[1..], if steps[0].Request? then n + 1 else n)
  {
  }

  lemma Rejoin(xs: seq<int>, ys: seq<int>, zs: seq<int>)
    ensures xs + ys + zs == xs + (ys + zs)
  {
  }

  lemma WireStep(c: Client, step: Step)
    requires c.nextID == |c.slots| && |Apply(c, step).slots| <= MAX_INT64
    ensures var d := Apply(c, step);
            && d.nextID == |d.slots| && d.wire == c.wire + WrittenBy(step, |c.slots|)
            && |d.slots| == if step.Request? then |c.slots| + 1 else |c.slots|
  {
  }

  /** The wire carries the IDs of exactly the requests that could be written, in the order they were made. */
  lemma WireIsWritten(steps: seq<Step>)
    requires |Run(EMPTY, steps).slots| <= MAX_INT64
    ensures Run(EMPTY, steps).wire == Written(steps, 0)
  {
    RunWrites(EMPTY, steps);
  }

  // ---------------------------------------------------------------- notifications

  /** What a step notifies of: the session, kind and text of an update that finds room. */
  function Notified(c: Client, step: Step): seq<Notification> {
    if step.ReadLine? && c.reader == Reading && step.line.Some? && step.line.value.id.None?
       && step.line.value.rpcMethod == "session/update" && step.line.value.sessionID != ""
       && |c.notifications| < 32
    then [Notification(step.line.value.sessionID, step.line.value.update, step.line.value.text)] else []
  }

  function Taken(c: Client, step: Step): seq<Notification> {
    if step.TakeNotification? && c.notifications != [] then [c.notifications[0]] else []
  }

  function AllNotified(c: Client, steps: seq<Step>): seq<Notification>
    decreases |steps|
  {
    if steps == [] then [] else Notified(c, steps[0]) + AllNotified(Apply(c, steps[0]), steps[1..])
  }

  function AllTaken(c: Client, steps: seq<Step>): seq<Notification>
    decreases |steps|
  {
    if steps == [] then [] else Taken(c, steps[0]) + AllTaken(Apply(c, steps[0]), steps[1..])
  }

  lemma NotifyStep(c: Client, step: Step)
    ensures Taken(c, step) + Apply(c, step).notifications == c.notifications + Notified(c, step)
  {
  }

  lemma {:induction false} NotifyRun(c: Client, steps: seq<Step>)
    ensures AllTaken(c, steps) + Run(c, steps).notifications == c.notifications + AllNotified(c, steps)
    decreases |steps|
  {
    if steps != [] {
      var d := Apply(c, steps[0]);
      NotifyStep(c, steps[0]);
      NotifyRun(d, steps[1..]);
      Exchange(Taken(c, steps[0]), d.notifications, c.notifications, Notified(c, steps[0]),
               AllTaken(d, steps[1..]), Run(c, steps).notifications, AllNotified(d, steps[1..]));
    }
  }

  lemma Exchange(t: seq<Notification>, d: seq<Notification>, c: seq<Notification>, n: seq<Notification>,
                 ts: seq<Notification>, r: seq<Notification>, ns: seq<Notification>)
    requires t + d == c + n && ts + r == d + ns
    ensures t + ts + r == c + (n + ns)
  {
    assert t + ts + r == t + (ts + r) == t + (d + ns) == t + d + ns == c + n + ns;
  }

  /**
    What has been taken from the notification channel, with what is still there, is what
    arrived while it had room, in order.
   */
  lemma NotificationsInOrder(steps: seq<Step>)
    ensures AllTaken(EMPTY, steps) + Run(EMPTY, steps).notifications == AllNotified(EMPTY, steps)
  {
    NotifyRun(EMPTY, steps);
    assert [] + AllNotified(EMPTY, steps) == AllNotified(EMPTY, steps);
  }
}
