/** The fields and loops of the producer behind ProducerShutdown. Each method takes the state it
    represents to the state after the steps it implements. */
module ProducerFields {
  import opened Options
  import opened ProducerShutdown

  /** What one turn of the enqueue loop meets. */
  datatype Attempt = ContextEnded | Rejected | Taken

  /** What arrives on the delivery channel for one accepted record. */
  datatype Delivery = Delivered(id: nat) | Failed(id: nat) | Unexpected

  datatype Failure = NoFailure | Cancelled | EnqueueFailed | DeliveryFailed | UnexpectedEvent

  function Leading(attempts: seq<Attempt>): nat {
    if attempts != [] && attempts[0].Taken? then 1 + Leading(attempts[1..]) else 0
  }

  lemma {:induction false} LeadingIs(attempts: seq<Attempt>, n: nat)
    requires n <= |attempts| && (forall i :: 0 <= i < n ==> attempts[i].Taken?)
    requires n < |attempts| ==> !attempts[n].Taken?
    ensures Leading(attempts) == n
  {
    if n > 0 {
      LeadingIs(attempts[1..], n - 1);
    }
  }

  /** The state after `n` records of call `c` were accepted and counted. */
  function Enqueued(config: Config, s: State, c: nat, n: nat): State
    requires InStage(s, c, Enqueuing) && s.calls[c].counted == s.calls[c].accepted &&
      s.calls[c].accepted + n <= s.calls[c].total
    ensures var t := Enqueued(config, s, c, n);
      && InStage(t, c, Enqueuing) && t.calls[c].accepted == t.calls[c].counted == s.calls[c].accepted + n
      && t.calls[c].total == s.calls[c].total && t.pendingReports == s.pendingReports + n
      && t == s.(calls := t.calls, pendingReports := t.pendingReports)
  {
    if n == 0 then s
    else
      var t := Enqueued(config, s, c, n - 1);
      Apply(config, Apply(config, t, Accept(c)), Count(c))
  }

  /** The state after `n` reports of call `c` were consumed. */
  function Drained(config: Config, s: State, c: nat, n: nat): State
    requires InStage(s, c, Draining) && s.calls[c].consumed + n <= s.calls[c].delivered
    ensures var t := Drained(config, s, c, n);
      && InStage(t, c, Draining) && t.calls[c].consumed == s.calls[c].consumed + n &&
        t.calls[c].delivered == s.calls[c].delivered
      && t.calls[c].accepted == s.calls[c].accepted && t.pendingReports == s.pendingReports - n
      && t == s.(calls := t.calls, pendingReports := t.pendingReports)
  {
    if n == 0 then s else Apply(config, Drained(config, s, c, n - 1), Consume(c))
  }

  function Messages(deliveries: seq<Delivery>): seq<Delivery> {
    if deliveries == [] then []
    else Messages(deliveries[..|deliveries| - 1]) + if deliveries[|deliveries| - 1].Unexpected? then []
      else [deliveries[|deliveries| - 1]]
  }

  predicate Faulty(d: Delivery) {
    !d.Delivered?
  }

  function FailureOf(d: Delivery): Failure {
    if d.Failed? then DeliveryFailed else if d.Unexpected? then UnexpectedEvent else NoFailure
  }

  /** The first failure wins: the enqueue loop's, or else that of the earliest faulty report. */
  ghost predicate FirstFailure(initial: Failure, deliveries: seq<Delivery>, failure: Failure) {
    if initial != NoFailure then failure == initial
    else if forall i :: 0 <= i < |deliveries| ==> !Faulty(deliveries[i]) then failure == NoFailure
    else exists i ::
      0 <= i < |deliveries| && failure == FailureOf(deliveries[i]) && Faulty(deliveries[i]) && forall j ::
        0 <= j < i ==> !Faulty(deliveries[j])
  }

  lemma NextDelivery(initial: Failure, seen: seq<Delivery>, event: Delivery, failure: Failure)
    requires FirstFailure(initial, seen, failure)
    ensures Messages(seen + [event]) == Messages(seen) + if event.Unexpected? then [] else [event]
    ensures FirstFailure(initial, seen + [event], if failure == NoFailure then FailureOf(event) else failure)
  {
    var all := seen + [event];
    assert all[..|seen|] == seen && all[|seen|] == event;
    if initial == NoFailure {
      NextFailure(seen, event, failure);
    }
  }

  lemma NextFailure(seen: seq<Delivery>, event: Delivery, failure: Failure)
    requires FirstFailure(NoFailure, seen, failure)
    ensures FirstFailure(NoFailure, seen + [event], if failure == NoFailure then FailureOf(event) else failure)
  {
    var all := seen + [event];
    assert forall j :: 0 <= j < |seen| ==> all[j] == seen[j];
    if failure != NoFailure {
      var i :| 0 <= i < |seen| && failure == FailureOf(seen[i]) && Faulty(seen[i]) && forall j ::
        0 <= j < i ==> !Faulty(seen[j]);
      assert all[i] == seen[i];
    } else {
      assert all[|seen|] == event;
    }
  }

  /** The state when CloseDriver has been taken for every collected driver. */
  function AllClosed(s: State): State
    requires s.closer.Closing?
  {
    s.(closes := seq(|s.closes|, d requires 0 <= d < |s.closes| => s.closes[d] + if d in s.closer.left then 1 else 0),
       closer := Closing(s.closer.unique, {}))
  }

  lemma {:induction false} AllClosedIsReached(config: Config, s: State) returns (events: seq<Event>, states: seq<State>)
    requires s.closer.Closing? && forall d :: d in s.closer.left ==> d < |s.closes|
    ensures |states| == |events| + 1 && states[0] == s && states[|events|] == AllClosed(s)
    ensures forall i ::
      0 <= i < |events| ==> events[i].CloseDriver? && Step(config, states[i], events[i], states[i + 1])
    decreases |s.closer.left|
  {
    if s.closer.left == {} {
      events, states := [], [s];
      assert AllClosed(s).closes == s.closes;
    } else {
      var d :| d in s.closer.left;
      var t := Apply(config, s, CloseDriver(d));
      var events', states' := AllClosedIsReached(config, t);
      events, states := [CloseDriver(d)] + events', [s] + states';
      assert AllClosed(t).closes == AllClosed(s).closes;
    }
  }

  /** What the drainer makes of one event. */
  method TakeReport(deliveries: seq<Delivery>, err: Failure, event: Delivery)
    returns (taken: seq<Delivery>, failure: Failure)
    ensures taken == deliveries + if event.Unexpected? then [] else [event]
    ensures failure == if err == NoFailure then FailureOf(event) else err
  {
    taken, failure := deliveries, err;
    if event.Unexpected? {
      if err == NoFailure {
        failure := UnexpectedEvent;
      }
    } else {
      taken := deliveries + [event];
      if event.Failed? && err == NoFailure {
        failure := DeliveryFailed;
      }
    }
  }

  class Producer {
    var closed: bool
    var producer: Option<nat>
    var producers: map<int, nat>
    var closes: seq<nat>
    var inFlight: int
    var pendingReports: int

    ghost predicate Represents(s: State)
      reads this
    {
      && closed == s.closed && producer == s.producer && producers == s.producers && closes == s.closes
      && inFlight == s.inFlight && pendingReports == s.pendingReports
    }

    constructor ()
      ensures Represents(INITIAL)
    {
      closed, producer, producers, closes, inFlight, pendingReports := false, None, map[], [], 0, 0;
    }

    method Connect(config: Config, creates: bool, brokerAnswers: bool, ghost s: State) returns (ok: bool)
      requires Represents(s)
      modifies this
      ensures Represents(Apply(config, s, ProducerShutdown.Connect(creates, brokerAnswers)))
      ensures ok <==> !closed && producer.Some?
    {
      if closed {
        return false;
      }
      if producer.Some? {
        return true;
      }
      if !creates {
        return false;
      }
      var driver := |closes|;
      closes := closes + [0];
      if !brokerAnswers {
        closes := closes[driver := 1];
        return false;
      }
      producer, producers := Some(driver), producers[config.configuredAcks := driver];
      ok := true;
    }

    /** beginProduce: a refusal changes nothing; otherwise the call is counted in the same critical
        section that granted it. */
    method BeginProduce(config: Config, acks: int, creates: bool, total: nat, ghost s: State)
      returns (granted: Option<nat>)
      requires Represents(s)
      modifies this
      ensures Represents(Apply(config, s, Begin(acks, creates, total)))
      ensures granted == match Admit(config, s, acks, creates) case Refused =>
        None case Existing(d) => Some(d) case Fresh(d) => Some(d)
    {
      if closed || producer.None? || (config.idempotent && acks != -1) {
        return None;
      }
      if acks in producers {
        inFlight := inFlight + 1;
        return Some(producers[acks]);
      }
      if !SupportedAcks(acks) || !creates {
        return None;
      }
      var driver := |closes|;
      closes, producers := closes + [0], producers[acks := driver];
      inFlight := inFlight + 1;
      granted := Some(driver);
    }

    /** The enqueue loop of produceAndDrain: it stops at the first record that the context or the
        driver refuses, and the accepted records are exactly those before it. */
    method EnqueueRecords(config: Config, attempts: seq<Attempt>, ghost s: State, ghost c: nat)
      returns (accepted: nat, firstErr: Failure)
      requires Represents(s) && InStage(s, c, Enqueuing)
      requires s.calls[c].accepted == s.calls[c].counted == 0 && s.calls[c].total == |attempts|
      modifies this
      ensures accepted == Leading(attempts) <= |attempts|
      ensures Represents(Enqueued(config, s, c, accepted))
      ensures firstErr == if accepted == |attempts| then NoFailure
        else if attempts[accepted].ContextEnded? then Cancelled else EnqueueFailed
    {
      accepted, firstErr := 0, NoFailure;
      while accepted < |attempts| && firstErr == NoFailure
        invariant accepted <= |attempts|
        invariant Represents(Enqueued(config, s, c, accepted))
        invariant forall i :: 0 <= i < accepted ==> attempts[i].Taken?
        invariant firstErr != NoFailure ==>
            accepted < |attempts| && !attempts[accepted].Taken? &&
              firstErr == if attempts[accepted].ContextEnded? then Cancelled else EnqueueFailed
        decreases |attempts| - accepted, firstErr == NoFailure
      {
        match attempts[accepted]
        case ContextEnded => firstErr := Cancelled;
        case Rejected => firstErr := EnqueueFailed;
        case Taken =>
          accepted := accepted + 1;
          pendingReports := pendingReports + 1;
      }
      LeadingIs(attempts, accepted);
    }

    /** The drainer: it consumes exactly one event for each accepted record, keeps the messages in
        order of arrival, and returns the first failure met. */
    method Drain(config: Config, events: seq<Delivery>, initial: Failure, ghost s: State, ghost c: nat)
      returns (deliveries: seq<Delivery>, err: Failure)
      requires Represents(s) && InStage(s, c, Draining)
      requires s.calls[c].consumed == 0 && s.calls[c].delivered == s.calls[c].accepted == |events|
      modifies this
      ensures Represents(Apply(config, Drained(config, s, c, |events|), EndDrain(c)))
      ensures deliveries == Messages(events) && FirstFailure(initial, events, err)
    {
      deliveries, err := [], initial;
      var i := 0;
      while i < |events|
        invariant 0 <= i <= |events|
        invariant Represents(s.(pendingReports := s.pendingReports - i))
        invariant deliveries == Messages(events[..i]) && FirstFailure(initial, events[..i], err)
      {
        var event := events[i];
        assert events[..i + 1] == events[..i] + [event];
        NextDelivery(initial, events[..i], event, err);
        pendingReports := pendingReports - 1;
        deliveries, err := TakeReport(deliveries, err, event);
        i := i + 1;
      }
      assert events[..i] == events;
      inFlight := inFlight - 1;
    }

    /** The driver loop of finishClose and finishKafkaJSAwaitedDelivery, after Wait has returned:
        every collected driver is closed once and the producer forgets them. */
    method CloseDrivers(config: Config, unique: seq<nat>, ghost s: State)
      requires Represents(s) && s.closer.Closing? && s.closer.left == s.closer.unique
      requires forall d :: d in s.closer.unique ==> d < |s.closes|
      requires (forall i, j :: 0 <= i < j < |unique| ==> unique[i] != unique[j]) && forall d ::
        d in unique <==> d in s.closer.unique
      modifies this
      ensures Represents(Apply(config, AllClosed(s), Finish))
    {
      var i := 0;
      while i < |unique|
        invariant 0 <= i <= |unique| && |closes| == |s.closes|
        invariant forall d :: 0 <= d < |closes| ==> closes[d] == s.closes[d] + if d in unique[..i] then 1 else 0
        invariant closed == s.closed && inFlight == s.inFlight && pendingReports == s.pendingReports
      {
        var d := unique[i];
        assert d in s.closer.unique && d !in unique[..i];
        assert unique[..i + 1] == unique[..i] + [d];
        closes := closes[d := closes[d] + 1];
        i := i + 1;
      }
      assert unique[..i] == unique;
      assert closes == AllClosed(s).closes;
      producer, producers := None, map[];
    }
  }
}
