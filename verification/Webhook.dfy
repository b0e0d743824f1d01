/** Inbound webhook events and their retries (src/modules/whatsapp/whatsapp.service.js:146-226,
    252-273), with a failure possible at each step. */
module Webhook {
  import opened Data

  datatype EventStatus = Received | Processed | Failed

  /** A stored event: its status and the message its raw payload carries, if any. */
  datatype Stored = Stored(status: EventStatus, message: Option<nat>)

  /** A delivery: its event id and the provider id of the message it carries. */
  datatype Payload = Payload(eventId: nat, message: Option<nat>)

  /** Where one delivery fails. CrashBeforeBot stops between storing the message and starting
      the bot; AtBothMarks also loses the write that would mark the event failed. */
  datatype Fault =
    | Flawless | AtCreateEvent | AtCreateMessage | CrashBeforeBot | AtStatuses | AtMarkProcessed | AtBothMarks

  datatype Answer = Success | Duplicate | Failure | Thrown

  /** `order` lists the event ids as they were stored, `messages` the stored inbound provider
      ids, `started` the messages the bot was started for. */
  datatype Store = Store(events: map<nat, Stored>, order: seq<nat>, messages: seq<nat>, started: seq<nat>)

  function Mark(s: Store, id: nat, status: EventStatus): Store {
    if id in s.events then s.(events := s.events[id := s.events[id].(status := status)]) else s
  }

  /** The event row, created on its first delivery. */
  function Record(s: Store, p: Payload): Store {
    if p.eventId in s.events then s
    else s.(events := s.events[p.eventId := Stored(Received, p.message)], order := s.order + [p.eventId])
  }

  predicate IsNew(s: Store, p: Payload) {
    p.message.Some? && p.message.value !in s.messages
  }

  function Process(s: Store, p: Payload, f: Fault): (Store, Answer) {
    if IsNew(s, p) && f.AtCreateMessage? then (Mark(s, p.eventId, Failed), Failure)
    else
      var kept := if IsNew(s, p) then s.(messages := s.messages + [p.message.value]) else s;
      if IsNew(s, p) && f.CrashBeforeBot? then (kept, Thrown)
      else
        var taken := if IsNew(s, p) then kept.(started := s.started + [p.message.value]) else kept;
        if f.AtBothMarks? then (taken, Thrown)
        else if f.AtStatuses? || f.AtMarkProcessed? then (Mark(taken, p.eventId, Failed), Failure)
        else (Mark(taken, p.eventId, Processed), Success)
  }

  /** handleInboundWebhook */
  function Deliver(s: Store, p: Payload, f: Fault): (Store, Answer) {
    if p.eventId in s.events && s.events[p.eventId].status.Processed? then (s, Duplicate)
    else if f.AtCreateEvent? && p.eventId !in s.events then (s, Thrown)
    else Process(Record(s, p), p, f)
  }

  // ---- At most once ----

  ghost predicate Distinct(ids: seq<nat>) {
    forall i, j :: 0 <= i < j < |ids| ==> ids[i] != ids[j]
  }

  /** Each message is stored once, and the bot was started at most once for each, and only for
      stored ones. */
  ghost predicate OnceOnly(s: Store) {
    Distinct(s.messages) && Distinct(s.started) && forall i :: 0 <= i < |s.started| ==> s.started[i] in s.messages
  }

  ghost predicate EventsKnown(s: Store) {
    && Distinct(s.order)
    && forall id :: id in s.events <==> id in s.order
  }

  /** A processed event's message is stored. */
  ghost predicate ProcessedStored(s: Store) {
    forall id :: id in s.events && s.events[id].status.Processed? && s.events[id].message.Some? ==>
      s.events[id].message.value in s.messages
  }

  /** A delivery that reuses an event id carries that event's message, as it does when the id is
      the provider's message id or comes from the stored payload of a retry. */
  predicate SameMessage(s: Store, p: Payload) {
    p.eventId in s.events ==> s.events[p.eventId].message == p.message
  }

  lemma DeliverMessages(s: Store, p: Payload, f: Fault)
    ensures var s' := Deliver(s, p, f).0;
            && (s'.messages == s.messages || (IsNew(s, p) && s'.messages == s.messages + [p.message.value]))
            && (s'.started == s.started || (s'.messages != s.messages && s'.started == s.started + [p.message.value]))
  {
  }

  lemma DeliverEvents(s: Store, p: Payload, f: Fault)
    ensures var s' := Deliver(s, p, f).0;
            && (s'.order == s.order || (p.eventId !in s.events && s'.order == s.order + [p.eventId]))
            && (p.eventId in s'.events <==> p.eventId in s.events || s'.order != s.order)
            && (forall id :: id != p.eventId ==> (id in s'.events <==> id in s.events))
            && (forall id :: id in s.events && id != p.eventId ==> s'.events[id] == s.events[id])
            && (p.eventId in s'.events ==> s'.events[p.eventId].message == EventMessage(s, p))
  {
    hide IsNew;
  }

  /** What a delivery may change: at most its own message and its own event. */
  lemma DeliverChanges(s: Store, p: Payload, f: Fault)
    ensures var s' := Deliver(s, p, f).0;
            && (s'.messages == s.messages || (IsNew(s, p) && s'.messages == s.messages + [p.message.value]))
            && (s'.started == s.started || (s'.messages != s.messages && s'.started == s.started + [p.message.value]))
            && (s'.order == s.order || (p.eventId !in s.events && s'.order == s.order + [p.eventId]))
            && (p.eventId in s'.events <==> p.eventId in s.events || s'.order != s.order)
            && (forall id :: id != p.eventId ==> (id in s'.events <==> id in s.events))
            && (forall id :: id in s.events && id != p.eventId ==> s'.events[id] == s.events[id])
            && (p.eventId in s'.events ==> s'.events[p.eventId].message == EventMessage(s, p))
  {
    hide Deliver, IsNew, EventMessage;
    DeliverMessages(s, p, f);
    DeliverEvents(s, p, f);
  }

  lemma DeliverMarks(s: Store, p: Payload, f: Fault)
    ensures var s' := Deliver(s, p, f).0;
            p.eventId in s'.events && s'.events[p.eventId].status.Processed? ==>
              || (p.eventId in s.events && s.events[p.eventId].status.Processed?)
              || (p.message.Some? ==> p.message.value in s'.messages)
    ensures p.eventId in s.events && s.events[p.eventId].status.Processed? ==> Deliver(s, p, f).0 == s
  {
  }

  lemma DeliverOnce(s: Store, p: Payload, f: Fault)
    requires OnceOnly(s) && EventsKnown(s)
    ensures OnceOnly(Deliver(s, p, f).0) && EventsKnown(Deliver(s, p, f).0)
    ensures s.messages <= Deliver(s, p, f).0.messages
  {
    hide Deliver;
    DeliverChanges(s, p, f);
  }

  lemma DeliverKeepsProcessed(s: Store, p: Payload, f: Fault)
    requires ProcessedStored(s) && SameMessage(s, p)
    ensures ProcessedStored(Deliver(s, p, f).0)
  {
    hide Deliver;
    DeliverChanges(s, p, f);
    DeliverMarks(s, p, f);
  }

  /** The message of the event a delivery is about. */
  function EventMessage(s: Store, p: Payload): Option<nat> {
    if p.eventId in s.events then s.events[p.eventId].message else p.message
  }

  /** Exactly when a successful delivery leaves its event's message stored: the event has none,
      it is the one delivered, or it was stored before. Otherwise a second payload under the id
      of a failed event marks that event processed without its message. */
  lemma SuccessStoresIff(s: Store, p: Payload, f: Fault)
    requires OnceOnly(s) && EventsKnown(s) && Deliver(s, p, f).1.Success?
    ensures p.eventId in Deliver(s, p, f).0.events && Deliver(s, p, f).0.events[p.eventId].status.Processed?
    ensures (EventMessage(s, p).Some? ==> EventMessage(s, p).value in Deliver(s, p, f).0.messages)
       <==> EventMessage(s, p).None? || EventMessage(s, p) == p.message || EventMessage(s, p).value in s.messages
  {
  }

  /** Whether the message of a delivery gets as far as the bot: it is new, and no failure comes
      before. */
  lemma BotStartsIff(s: Store, p: Payload, f: Fault)
    ensures var s' := Deliver(s, p, f).0;
            && (s'.started != s.started
                <==> && p.message.Some? && p.message.value !in s.messages
                     && (p.eventId in s.events ==> !s.events[p.eventId].status.Processed?)
                     && (f.AtCreateEvent? ==> p.eventId in s.events)
                     && !f.AtCreateMessage? && !f.CrashBeforeBot?)
            && (s'.started != s.started ==> s'.started == s.started + [p.message.value])
  {
  }

  /** A delivery without a failure, of an event that was not processed before, succeeds: the event is
      processed and its message is stored. */
  lemma FlawlessDelivers(s: Store, p: Payload)
    requires p.eventId in s.events ==> !s.events[p.eventId].status.Processed?
    ensures var (s', a) := Deliver(s, p, Flawless);
            && a.Success? && p.eventId in s'.events && s'.events[p.eventId].status.Processed?
            && (p.message.Some? ==> p.message.value in s'.messages)
            && (p.message.Some? && p.message.value !in s.messages ==> s'.started == s.started + [p.message.value])
  {
  }

  /** What the answer says of the event: processed after a success, failed after a failure, and
      nothing at all has changed after a duplicate. */
  lemma AnswerMeans(s: Store, p: Payload, f: Fault)
    ensures var (s', a) := Deliver(s, p, f);
            && (a.Success? ==> p.eventId in s'.events && s'.events[p.eventId].status.Processed?)
            && (a.Failure? ==> p.eventId in s'.events && s'.events[p.eventId].status.Failed?)
            && (a.Duplicate? <==> p.eventId in s.events && s.events[p.eventId].status.Processed?)
            && (a.Duplicate? ==> s' == s)
  {
  }

  datatype Delivery = Delivery(payload: Payload, fault: Fault)

  function DeliverAll(s: Store, ds: seq<Delivery>): Store
    decreases |ds|
  {
    if ds == [] then s else DeliverAll(Deliver(s, ds[0].payload, ds[0].fault).0, ds[1..])
  }

  ghost predicate SameMessages(s: Store, ds: seq<Delivery>)
    decreases |ds|
  {
    ds == [] || (SameMessage(s, ds[0].payload) && SameMessages(Deliver(s, ds[0].payload, ds[0].fault).0, ds[1..]))
  }

  /** Over any sequence of deliveries and retries each message is stored at most once and starts
      the bot at most once; and if event ids are used consistently, a processed event's message
      is stored. */
  lemma {:induction false} RunIsAtMostOnce(s: Store, ds: seq<Delivery>)
    requires OnceOnly(s) && EventsKnown(s)
    ensures OnceOnly(DeliverAll(s, ds)) && EventsKnown(DeliverAll(s, ds))
    ensures ProcessedStored(s) && SameMessages(s, ds) ==> ProcessedStored(DeliverAll(s, ds))
    decreases |ds|
  {
    hide OnceOnly, EventsKnown, ProcessedStored, SameMessage, Deliver;
    if ds != [] {
      DeliverOnce(s, ds[0].payload, ds[0].fault);
      if ProcessedStored(s) && SameMessage(s, ds[0].payload) {
        DeliverKeepsProcessed(s, ds[0].payload, ds[0].fault);
      }
      RunIsAtMostOnce(Deliver(s, ds[0].payload, ds[0].fault).0, ds[1..]);
    }
  }

  /** The rows of one restaurant, updated step by step. */
  class Inbox {
    var events: map<nat, Stored>
    var order: seq<nat>
    var messages: seq<nat>
    var started: seq<nat>

    function Value(): Store
      reads this
    {
      Store(events, order, messages, started)
    }

    constructor ()
      ensures Value() == Store(map[], [], [], [])
    {
      events, order, messages, started := map[], [], [], [];
    }

    method MarkEvent(id: nat, status: EventStatus)
      modifies this`events
      ensures Value() == Mark(old(Value()), id, status)
    {
      if id in events {
        events := events[id := events[id].(status := status)];
      }
    }

    method HandleInbound(p: Payload, f: Fault) returns (a: Answer)
      modifies this
      ensures (Value(), a) == Deliver(old(Value()), p, f)
    {
      if p.eventId in events && events[p.eventId].status.Processed? {
        return Duplicate;
      }
      if p.eventId !in events {
        if f.AtCreateEvent? {
          return Thrown;
        }
        events := events[p.eventId := Stored(Received, p.message)];
        order := order + [p.eventId];
      }
      if p.message.Some? && p.message.value !in messages {
        if f.AtCreateMessage? {
          MarkEvent(p.eventId, Failed);
          return Failure;
        }
        messages := messages + [p.message.value];
        if f.CrashBeforeBot? {
          return Thrown;
        }
        started := started + [p.message.value];
      }
      if f.AtBothMarks? {
        return Thrown;
      }
      if f.AtStatuses? || f.AtMarkProcessed? {
        MarkEvent(p.eventId, Failed);
        return Failure;
      }
      MarkEvent(p.eventId, Processed);
      a := Success;
    }

    /** The failed events, oldest first. */
    function FailedEvents(): seq<nat>
      reads this
    {
      FailedAmong(events, order)
    }

    /** retryFailedWebhookEvents: every failed event is delivered again with the payload that was
        stored. `faults[i]` is where the i-th retry fails; a throw ends the loop. The count is
        the number of events that went from failed to processed. */
    method RetryFailed(faults: seq<Fault>) returns (retried: nat, total: nat)
      requires OnceOnly(Value()) && EventsKnown(Value()) && ProcessedStored(Value())
      requires |faults| == |FailedEvents()|
      modifies this
      ensures OnceOnly(Value()) && EventsKnown(Value()) && ProcessedStored(Value())
      ensures old(messages) <= messages && total == |old(FailedEvents())| && retried <= total
      ensures AllFlawless(faults, |faults|) ==>
                retried == total && forall id :: id in events ==> !events[id].status.Failed?
    {
      var failed := FailedEvents();
      FailedAreKnown(events, order);
      total := |failed|;
      retried := 0;
      var i := 0;
      ghost var before := Value();
      while i < |failed|
        invariant 0 <= i <= |failed| && retried <= i
        invariant OnceOnly(Value()) && EventsKnown(Value()) && ProcessedStored(Value())
        invariant before.messages <= messages
        invariant Waiting(events, failed, i)
        invariant forall id :: id in events && id !in failed ==> !events[id].status.Failed?
        invariant AllFlawless(faults, i) ==> retried == i && AllProcessed(events, failed, i)
      {
        var p := Payload(failed[i], events[failed[i]].message);
        DeliverOnce(Value(), p, faults[i]);
        DeliverKeepsProcessed(Value(), p, faults[i]);
        DeliverTouchesOne(Value(), p, faults[i]);
        RetriedOne(Value(), p, faults[i], failed, i);
        var a := HandleInbound(p, faults[i]);
        if a.Thrown? {
          return;
        }
        if a.Success? {
          retried := retried + 1;
        }
        i := i + 1;
      }
    }
  }

  ghost predicate AllFlawless(faults: seq<Fault>, n: nat) {
    forall i :: 0 <= i < n && i < |faults| ==> faults[i].Flawless?
  }

  /** The events from position `i` on are known and still failed. */
  ghost predicate Waiting(events: map<nat, Stored>, failed: seq<nat>, i: nat) {
    forall j :: i <= j < |failed| ==> failed[j] in events && events[failed[j]].status.Failed?
  }

  ghost predicate AllProcessed(events: map<nat, Stored>, failed: seq<nat>, i: nat) {
    forall j :: 0 <= j < i && j < |failed| ==> failed[j] in events && events[failed[j]].status.Processed?
  }

  lemma RetriedOne(s: Store, p: Payload, f: Fault, failed: seq<nat>, i: nat)
    requires Distinct(failed) && i < |failed| && p.eventId == failed[i]
    requires Waiting(s.events, failed, i)
    ensures Waiting(Deliver(s, p, f).0.events, failed, i + 1)
    ensures f.Flawless? && AllProcessed(s.events, failed, i) ==> AllProcessed(Deliver(s, p, f).0.events, failed, i + 1)
  {
    hide Deliver;
    DeliverTouchesOne(s, p, f);
  }

  function FailedAmong(events: map<nat, Stored>, order: seq<nat>): seq<nat> {
    if order == [] then []
    else
      var last := order[|order| - 1];
      FailedAmong(events, order[..|order| - 1]) + if last in events && events[last].status.Failed? then [last] else []
  }

  lemma {:induction false} FailedAreKnown(events: map<nat, Stored>, order: seq<nat>)
    ensures forall id :: id in FailedAmong(events, order) <==> id in order && id in events && events[id].status.Failed?
    ensures Distinct(order) ==> Distinct(FailedAmong(events, order))
  {
    if order != [] {
      FailedAreKnown(events, order[..|order| - 1]);
    }
  }

  lemma DeliverTouchesOne(s: Store, p: Payload, f: Fault)
    requires p.eventId in s.events
    ensures var s' := Deliver(s, p, f).0;
            && s'.order == s.order
            && (forall id :: id in s'.events <==> id in s.events)
            && (forall id :: id in s.events && id != p.eventId ==> s'.events[id] == s.events[id])
    ensures f.Flawless? && !s.events[p.eventId].status.Processed? ==>
              Deliver(s, p, f).1.Success? && Deliver(s, p, f).0.events[p.eventId].status.Processed?
  {
  }
}
