/**
 * The inbound channel adapter of the Consul binder: a scheduled poll that takes the
 * events returned by the event service's `watch()`, Base64-decodes each payload and sends
 * one message per event to the output channel; and the start/stop lifecycle of that poll.
 */
module InboundMessageProducer {
  import opened Wrappers
  import opened Base64

  /** A Consul event as the adapter reads it: only its payload, the Base64 text
      (`None` for a `null` payload) — the other fields are never read. */
  datatype Event = Event(payload: Option<string>)

  /** A message built with `withPayload` and no headers. The payload is kept as the
      decoded bytes (the platform charset of `new String(bytes)` is not modelled). */
  datatype Message = Message(payload: seq<byte>)

  /** What one call of `watch()` did: returned a list of events, or threw. */
  datatype WatchResult = Events(events: seq<Event>) | WatchFailed

  /** The decoding of one event's payload; `None` where `decode` throws, or where the
      payload is `null` and reading it throws a `NullPointerException`. */
  function DecodePayload(e: Event): (r: Option<seq<byte>>)
    ensures e.payload.None? ==> r.None?
    ensures r.Some? ==> |e.payload.value| % 4 != 1
    ensures r.Some? && |e.payload.value| > 0 ==> |r.value| > 0
  {
    if e.payload.None? then None else Decode(e.payload.value)
  }

  /** The messages one poll sends for a batch: one per event, in order, stopping at the
      first event whose payload does not decode. */
  function Deliveries(events: seq<Event>): (r: seq<Message>)
    ensures |r| <= |events|
    ensures |r| < |events| ==> DecodePayload(events[|r|]).None?
    decreases |events|
  {
    if |events| == 0 then []
    else
      match DecodePayload(events[0])
      case None => []
      case Some(body) =>
        var rest := Deliveries(events[1..]);
        assert |rest| < |events| - 1 ==> events[1..][|rest|] == events[1 + |rest|];
        [Message(body)] + rest
  }

  /** The messages one poll sends: none when `watch()` throws. */
  function Delivered(w: WatchResult): seq<Message> {
    match w
    case WatchFailed => []
    case Events(events) => Deliveries(events)
  }

  /** The index of the first event whose payload does not decode, or the number of
      events when all of them do. */
  function FirstFailure(events: seq<Event>): (k: nat)
    ensures k <= |events|
    ensures forall j :: 0 <= j < k ==> DecodePayload(events[j]).Some?
    ensures k < |events| ==> DecodePayload(events[k]).None?
    decreases |events|
  {
    if |events| == 0 || DecodePayload(events[0]).None? then 0
    else 1 + FirstFailure(events[1..])
  }

  /** A poll sends exactly the events before the first failing one, message j carrying
      the decoding of event j's payload, and nothing from the failing event on. */
  lemma {:induction false} DeliveriesUpToFirstFailure(events: seq<Event>)
    ensures |Deliveries(events)| == FirstFailure(events)
    ensures forall j :: 0 <= j < FirstFailure(events) ==>
      Deliveries(events)[j] == Message(DecodePayload(events[j]).value)
    decreases |events|
  {
    if |events| > 0 && DecodePayload(events[0]).Some? {
      DeliveriesUpToFirstFailure(events[1..]);
      var rest := Deliveries(events[1..]);
      forall j | 0 <= j < FirstFailure(events)
        ensures Deliveries(events)[j] == Message(DecodePayload(events[j]).value)
      {
        if j > 0 {
          assert Deliveries(events)[j] == rest[j - 1];
          assert events[1..][j - 1] == events[j];
        }
      }
    }
  }

  /** When every payload decodes, one message goes out per event, in the order
      `watch()` returned them. */
  lemma AllDelivered(events: seq<Event>)
    requires forall j :: 0 <= j < |events| ==> DecodePayload(events[j]).Some?
    ensures |Deliveries(events)| == |events|
    ensures forall j :: 0 <= j < |events| ==> Deliveries(events)[j] == Message(DecodePayload(events[j]).value)
  {
    DeliveriesUpToFirstFailure(events);
  }

  /** When event k is the first that fails to decode, exactly events 0..k-1 have been
      sent. */
  lemma PartialDelivery(events: seq<Event>, k: nat)
    requires k < |events| && DecodePayload(events[k]).None?
    requires forall j :: 0 <= j < k ==> DecodePayload(events[j]).Some?
    ensures |Deliveries(events)| == k
    ensures forall j :: 0 <= j < k ==> Deliveries(events)[j] == Message(DecodePayload(events[j]).value)
  {
    DeliveriesUpToFirstFailure(events);
  }

  /** Events whose payloads were produced by Base64-encoding some bodies are delivered as
      exactly those bodies, in order. */
  lemma EncodedBatchDelivered(bodies: seq<seq<byte>>)
    ensures Deliveries(seq(|bodies|, i requires 0 <= i < |bodies| => Event(Some(Encode(bodies[i])))))
         == seq(|bodies|, i requires 0 <= i < |bodies| => Message(bodies[i]))
  {
    var events := seq(|bodies|, i requires 0 <= i < |bodies| => Event(Some(Encode(bodies[i]))));
    forall j | 0 <= j < |events| ensures DecodePayload(events[j]) == Some(bodies[j]) {
      DecodeEncode(bodies[j]);
    }
    AllDelivered(events);
  }

  /** The fixed delay, in milliseconds, of the poll: both its initial delay and the delay
      between the end of one run and the start of the next. */
  const POLL_DELAY_MS: nat := 500

  /** A call on the producer's single-thread scheduled executor; `task` names the
      future that `scheduleWithFixedDelay` returned. */
  /** Why `doStart` can fail: the executor was shut down and rejects the schedule. */
  datatype StartError = RejectedExecution

  datatype SchedulerCall =
    | ScheduleWithFixedDelay(task: nat, initialDelayMs: nat, delayMs: nat)
    | Cancel(task: nat, mayInterruptIfRunning: bool)
    | Shutdown

  class ConsulInboundMessageProducer {
    /** Everything sent to the output channel so far. */
    var sent: seq<Message>
    /** The future of the scheduled poll; `None` is `null`, before `doStart`. */
    var eventsHandle: Option<nat>
    /** Every call made on the scheduler, in order. */
    var schedulerCalls: seq<SchedulerCall>
    /** The name the scheduler will give its next future. */
    var nextTask: nat
    /** Whether the scheduler has been shut down. */
    var shutDown: bool

    /** The handle, once set, names a poll that was scheduled with the fixed delay. */
    ghost predicate Valid()
      reads this
    {
      eventsHandle.Some? ==>
        && eventsHandle.value < nextTask
        && ScheduleWithFixedDelay(eventsHandle.value, POLL_DELAY_MS, POLL_DELAY_MS) in schedulerCalls
    }

    constructor ()
      ensures Valid()
      ensures sent == [] && eventsHandle == None && schedulerCalls == [] && nextTask == 0 && !shutDown
    {
      sent := [];
      eventsHandle := None;
      schedulerCalls := [];
      nextTask := 0;
      shutDown := false;
    }

    /** `doStart`: schedules the poll with a fixed delay and keeps its future. Once the
        scheduler is shut down it rejects the schedule, the exception propagates and
        nothing changes. */
    method DoStart() returns (r: Outcome<StartError>)
      requires Valid()
      modifies this`eventsHandle, this`schedulerCalls, this`nextTask
      ensures Valid()
      ensures old(shutDown) ==>
        && r == Fail(RejectedExecution)
        && eventsHandle == old(eventsHandle) && nextTask == old(nextTask) && schedulerCalls == old(schedulerCalls)
      ensures !old(shutDown) ==>
        && r == Pass
        && eventsHandle == Some(old(nextTask)) && nextTask == old(nextTask) + 1
        && schedulerCalls == old(schedulerCalls) + [ScheduleWithFixedDelay(old(nextTask), POLL_DELAY_MS, POLL_DELAY_MS)]
    {
      if shutDown {
        return Fail(RejectedExecution);
      }
      var task := nextTask;
      schedulerCalls := schedulerCalls + [ScheduleWithFixedDelay(task, POLL_DELAY_MS, POLL_DELAY_MS)];
      nextTask := nextTask + 1;
      eventsHandle := Some(task);
      r := Pass;
    }

    /** `doStop`: cancels the poll only if one was scheduled, then always shuts the
        scheduler down. */
    method DoStop()
      requires Valid()
      modifies this`schedulerCalls, this`shutDown
      ensures Valid() && shutDown
      ensures old(eventsHandle).None? ==> schedulerCalls == old(schedulerCalls) + [Shutdown]
      ensures old(eventsHandle).Some? ==>
        schedulerCalls == old(schedulerCalls) + [Cancel(old(eventsHandle).value, true), Shutdown]
    {
      if eventsHandle.Some? {
        schedulerCalls := schedulerCalls + [Cancel(eventsHandle.value, true)];
      }
      schedulerCalls := schedulerCalls + [Shutdown];
      shutDown := true;
    }

    /** `getEvents`: one run of the poll. The sink is only appended to, and what is
        appended is `Delivered(watch)`: nothing when `watch()` throws, otherwise the
        messages of the events before the first one that fails to decode. No failure
        escapes. */
    method GetEvents(watch: WatchResult)
      modifies this`sent
      ensures sent == old(sent) + Delivered(watch)
    {
      match watch {
        case WatchFailed =>
        case Events(events) =>
          var i := 0;
          while i < |events|
            invariant 0 <= i <= |events|
            invariant old(sent) + Deliveries(events) == sent + Deliveries(events[i..])
          {
            assert events[i..][1..] == events[i + 1..];
            var body := DecodePayload(events[i]);
            if body.None? {
              break;
            }
            sent := sent + [Message(body.value)];
            i := i + 1;
          }
      }
    }
  }

  /** A start followed by a stop on a producer that was not stopped before cancels
      exactly the poll that the start scheduled, then shuts the scheduler down; nothing
      is sent. */
  method StartThenStop(p: ConsulInboundMessageProducer)
    requires p.Valid() && !p.shutDown
    modifies p`eventsHandle, p`schedulerCalls, p`nextTask, p`shutDown
    ensures p.Valid() && p.shutDown
    ensures p.eventsHandle == Some(old(p.nextTask)) && p.nextTask == old(p.nextTask) + 1
    ensures p.sent == old(p.sent)
    ensures p.schedulerCalls == old(p.schedulerCalls) + [
      ScheduleWithFixedDelay(old(p.nextTask), POLL_DELAY_MS, POLL_DELAY_MS),
      Cancel(old(p.nextTask), true),
      Shutdown]
  {
    var _ := p.DoStart();
    p.DoStop();
  }

  /** Starting again after a stop is rejected and schedules nothing more. */
  method StopThenStart(p: ConsulInboundMessageProducer) returns (r: Outcome<StartError>)
    requires p.Valid()
    modifies p`eventsHandle, p`schedulerCalls, p`nextTask, p`shutDown
    ensures p.Valid() && p.shutDown && r == Fail(RejectedExecution)
    ensures p.eventsHandle == old(p.eventsHandle) && p.nextTask == old(p.nextTask)
    ensures |p.schedulerCalls| > |old(p.schedulerCalls)| && p.schedulerCalls[|p.schedulerCalls| - 1] == Shutdown
  {
    p.DoStop();
    r := p.DoStart();
  }
}
