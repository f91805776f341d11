/** How long a stale edge may keep a snapshot ready (the stale timer of feature/flags.go), as timed
    runs. A timer that fires hands its callback to another goroutine, which runs later. */
module StaleRetention {
  import opened Options

  const MAX_RETAINED: real := 30.0     // seconds

  datatype Timer = Timer(generation: nat, deadline: real)

  datatype State = State(
    now: real,
    ready: bool,
    timer: Option<Timer>,              // staleTimer, armed and not fired
    fired: bool,                       // staleTimer is set but its timer has fired
    callbacks: set<nat>,               // generations whose callbacks are on their way
    generation: nat,                   // staleGeneration
    since: Option<real>,               // the first stale notice since the last accepted event
    published: nat)                    // the generation when the last full set was accepted

  const START := State(0.0, false, None, false, {}, 0, None, 0)

  datatype Event =
    | Pass(until: real)
    | StaleNotice                      // the stream ended with edge.stale
    | OtherFailure                     // or otherwise, or the context changed
    | FullSet
    | OtherFeatureEvent
    | TimerFires
    | CallbackRuns(generation: nat)

  /** A window of zero or less, or longer than the maximum, means the maximum. */
  function WindowOf(configured: real): (window: real)
    ensures 0.0 < window <= MAX_RETAINED
  {
    if configured <= 0.0 || configured > MAX_RETAINED then MAX_RETAINED else configured
  }

  /** Callbacks are timely: time does not pass a deadline before the timer has fired, nor while a
      callback is on its way. */
  predicate Enabled(s: State, e: Event) {
    match e
    case Pass(until) => s.now <= until && s.callbacks == {} && (s.timer.Some? ==> until <= s.timer.value.deadline)
    case TimerFires => s.timer.Some? && s.timer.value.deadline <= s.now
    case CallbackRuns(g) => g in s.callbacks
    case _ => true
  }

  /** clearStaleRetention. */
  function Cleared(s: State): State {
    s.(generation := s.generation + 1, timer := None, fired := false, since := None)
  }

  /** retainReadyDuringStaleWindow: nothing if a timer is set already. */
  function Retained(s: State, window: real): State {
    var noticed := s.(since := if s.since.Some? then s.since else Some(s.now));
    if s.timer.Some? || s.fired then noticed
    else noticed.(generation := s.generation + 1, timer := Some(Timer(s.generation + 1, s.now + window)))
  }

  function Apply(window: real, s: State, e: Event): State
    requires Enabled(s, e)
  {
    match e
    case Pass(until) => s.(now := until)
    case StaleNotice => if s.ready then Retained(s, window) else s
    case OtherFailure => s.(ready := false)
    case FullSet => var c := Cleared(s); c.(ready := true, published := c.generation)
    case OtherFeatureEvent => Cleared(s)
    case TimerFires => s.(callbacks := s.callbacks + {s.timer.value.generation}, timer := None, fired := true)
    case CallbackRuns(g) =>
      var t := s.(callbacks := s.callbacks - {g});
      if g != s.generation then t else t.(fired := false, ready := false)
  }

  predicate Step(window: real, s: State, e: Event, s': State) {
    Enabled(s, e) && s' == Apply(window, s, e)
  }

  predicate IsRun(window: real, states: seq<State>, events: seq<Event>) {
    && |states| == |events| + 1 && states[0] == START
    && forall i :: 0 <= i < |events| ==> Step(window, states[i], events[i], states[i + 1])
  }

  predicate Invariant(window: real, s: State) {
    && (s.timer.Some? ==> s.timer.value.generation == s.generation > s.published && !s.fired)
    && (s.fired ==> s.generation in s.callbacks && s.generation > s.published)
    && (s.timer.Some? || s.fired ==> s.since.Some?)
    && (forall g :: g in s.callbacks ==> g <= s.generation)
    && s.published <= s.generation
    // A retained snapshot is on a timer that was armed by the first notice.
    && (s.ready && s.since.Some? ==> s.timer.Some? || s.fired)
    && (s.timer.Some? ==> s.now <= s.timer.value.deadline <= s.since.value + window)
    && (s.fired ==> s.now <= s.since.value + window)
  }

  lemma StepKeeps(window: real, s: State, e: Event)
    requires 0.0 < window && Invariant(window, s) && Enabled(s, e)
    ensures Invariant(window, Apply(window, s, e))
  {
  }

  lemma {:induction false} RunKeeps(window: real, states: seq<State>, events: seq<Event>, n: nat)
    requires 0.0 < window && IsRun(window, states, events) && n < |states|
    ensures Invariant(window, states[n])
  {
    if n > 0 {
      RunKeeps(window, states, events, n - 1);
      assert Step(window, states[n - 1], events[n - 1], states[n]);
      StepKeeps(window, states[n - 1], events[n - 1]);
    }
  }

  /** However many stale replies follow, a snapshot is ready for at most the window after the first
      stale notice since the last accepted feature event, and so for at most 30 seconds. */
  lemma RetentionIsBounded(configured: real, states: seq<State>, events: seq<Event>, n: nat)
    requires IsRun(WindowOf(configured), states, events) && n < |states|
    requires states[n].ready && states[n].since.Some?
    ensures states[n].now <= states[n].since.value + WindowOf(configured) <= states[n].since.value + MAX_RETAINED
  {
    RunKeeps(WindowOf(configured), states, events, n);
  }

  lemma {:induction false} PublishedGrows(window: real, states: seq<State>, events: seq<Event>, m: nat, n: nat)
    requires 0.0 < window && IsRun(window, states, events) && m < n < |states| && events[m] == FullSet
    ensures states[n].published > states[m].generation
  {
    assert Step(window, states[n - 1], events[n - 1], states[n]);
    if m + 1 < n {
      PublishedGrows(window, states, events, m, n - 1);
      RunKeeps(window, states, events, n - 1);
    }
  }

  /** A timer armed before a full set was accepted never clears the readiness that set published,
      even if its callback was already on its way. */
  lemma OldTimersAreHarmless(configured: real, states: seq<State>, events: seq<Event>, m: nat, n: nat, g: nat)
    requires IsRun(WindowOf(configured), states, events) && m < n < |events|
    requires events[m] == FullSet && g <= states[m].generation && events[n] == CallbackRuns(g)
    ensures states[n + 1].ready == states[n].ready && states[n + 1].timer == states[n].timer
  {
    RunKeeps(WindowOf(configured), states, events, n);
    PublishedGrows(WindowOf(configured), states, events, m, n);
    assert Step(WindowOf(configured), states[n], events[n], states[n + 1]);
  }

  /** Every timer in existence when a full set is accepted is such an old one. */
  lemma TimersAreNumbered(configured: real, states: seq<State>, events: seq<Event>, m: nat)
    requires IsRun(WindowOf(configured), states, events) && m < |states|
    ensures states[m].timer.Some? ==> states[m].timer.value.generation <= states[m].generation
    ensures forall g :: g in states[m].callbacks ==> g <= states[m].generation
  {
    RunKeeps(WindowOf(configured), states, events, m);
  }
}
