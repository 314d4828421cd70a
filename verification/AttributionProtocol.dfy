/** User attribution under concurrency.  A call changes the active set under one lock and
    appends its events one by one under another; a debounce timer is a third actor. */
module AttributionProtocol {
  import opened Options
  import opened UserAttribution

  /** An event computed by goroutine `t` and not yet appended to the buffer. */
  datatype Flight = Flight(t: nat, e: Event)

  /** `posted` is false for a drain that found nothing or an unconfigured SDK. */
  datatype Drain = Drain(events: seq<Event>, posted: bool)

  /** `computed` and `emitted` log the events in the order the active set changed and in the
      order they reached the buffer.  A timer is pending until it fires; its goroutine is
      late until it has drained. */
  datatype State = State(
    active: Intervals, computed: seq<Event>, flight: seq<Flight>,
    buffer: seq<Event>, emitted: seq<Event>, drains: seq<Drain>,
    timer: Option<nat>, pending: set<nat>, late: set<nat>, timers: nat, configured: bool)

  datatype Step =
    | Call(t: nat, op: Op, now: int, events: seq<Event>)
    | Emit(i: nat)
    | Configure
    | Flush
    | TimerFires(k: nat)
    | LateFlush(k: nat)

  function Init(configured: bool): State {
    State(map[], [], [], [], [], [], None, {}, {}, 0, configured)
  }

  function Flights(t: nat, events: seq<Event>): seq<Flight> {
    seq(|events|, i requires 0 <= i < |events| => Flight(t, events[i]))
  }

  function InFlight(fs: seq<Flight>): seq<Event> {
    seq(|fs|, i requires 0 <= i < |fs| => fs[i].e)
  }

  /** The i-th computed event is the next one of its goroutine. */
  predicate NextOfThread(fs: seq<Flight>, i: nat) {
    i < |fs| && forall j :: 0 <= j < i ==> fs[j].t != fs[i].t
  }

  function Called(s: State, t: nat, op: Op, now: int, events: seq<Event>): State {
    s.(active := Outcome(s.active, op, now), computed := s.computed + events,
       flight := s.flight + Flights(t, events))
  }

  /** Event i leaves its goroutine for the buffer. */
  function Landed(s: State, i: nat): State
    requires i < |s.flight|
  {
    Emitted(s.(flight := s.flight[..i] + s.flight[i + 1..]), s.flight[i].e)
  }

  function Emitted(s: State, e: Event): State {
    var s1 := s.(buffer := s.buffer + [e], emitted := s.emitted + [e]);
    if s.timer.None? && s.configured then
      s1.(timer := Some(s.timers), pending := s.pending + {s.timers}, timers := s.timers + 1)
    else s1
  }

  /** Stops the timer held in the variable, if any, and takes the whole buffer. */
  function Drained(s: State): State {
    s.(timer := None,
       pending := if s.timer.Some? then s.pending - {s.timer.value} else s.pending,
       buffer := [],
       drains := s.drains + [Drain(s.buffer, s.buffer != [] && s.configured)])
  }

  /** A step that is not enabled changes nothing. */
  ghost function Apply(s: State, step: Step): State {
    match step
    case Call(t, op, now, events) =>
      if (forall f :: f in s.flight ==> f.t != t) && Diff(s.active, op, now, events) then
        Called(s, t, op, now, events)
      else s
    case Emit(i) => if NextOfThread(s.flight, i) then Landed(s, i) else s
    case Configure => s.(configured := true)
    case Flush => Drained(s)
    case TimerFires(k) => if k in s.pending then s.(pending := s.pending - {k}, late := s.late + {k}) else s
    case LateFlush(k) => if k in s.late then Drained(s.(late := s.late - {k})) else s
  }

  ghost function Run(configured: bool, steps: seq<Step>): State {
    if steps == [] then Init(configured)
    else Apply(Run(configured, steps[..|steps| - 1]), steps[|steps| - 1])
  }

  // ---- The log of changes ----

  ghost predicate Logged(s: State) {
    Replay(map[], s.computed) == s.active && Toggles(map[], s.computed)
  }

  /** Nothing computed is lost or invented on its way to the buffer. */
  predicate Accounted(s: State, k: Key, add: bool) {
    Count(s.computed, k, add) == Count(s.emitted, k, add) + Count(InFlight(s.flight), k, add)
  }

  lemma StepLogged(s: State, step: Step)
    requires Logged(s)
    ensures Logged(Apply(s, step))
  {
    if step.Call? && Diff(s.active, step.op, step.now, step.events) {
      DiffReplays(s.active, step.op, step.now, step.events);
      DiffToggles(s.active, step.op, step.now, step.events);
      ReplayConcat(map[], s.computed, step.events);
      TogglesConcat(map[], s.computed, step.events);
    }
  }

  lemma CountWithout(fs: seq<Flight>, i: nat, k: Key, add: bool)
    requires i < |fs|
    ensures Count(InFlight(fs), k, add) == Count(InFlight(fs[..i] + fs[i + 1..]), k, add) + Count([fs[i].e], k, add)
  {
    var a, x, b := InFlight(fs[..i]), [fs[i].e], InFlight(fs[i + 1..]);
    assert InFlight(fs) == (a + x) + b;
    assert InFlight(fs[..i] + fs[i + 1..]) == a + b;
    CountConcat(a + x, b, k, add);
    CountConcat(a, x, k, add);
    CountConcat(a, b, k, add);
  }

  lemma CallAccounted(s: State, t: nat, op: Op, now: int, events: seq<Event>, k: Key, add: bool)
    requires Accounted(s, k, add)
    ensures Accounted(Called(s, t, op, now, events), k, add)
  {
    assert InFlight(s.flight + Flights(t, events)) == InFlight(s.flight) + events;
    CountConcat(s.computed, events, k, add);
    CountConcat(InFlight(s.flight), events, k, add);
  }

  lemma EmitAccounted(s: State, i: nat, k: Key, add: bool)
    requires Accounted(s, k, add) && i < |s.flight|
    ensures Accounted(Landed(s, i), k, add)
  {
    CountWithout(s.flight, i, k, add);
    CountConcat(s.emitted, [s.flight[i].e], k, add);
  }

  lemma StepAccounted(s: State, step: Step, k: Key, add: bool)
    requires Accounted(s, k, add)
    ensures Accounted(Apply(s, step), k, add)
  {
    match step
    case Call(t, op, now, events) => CallAccounted(s, t, op, now, events, k, add);
    case Emit(i) => if i < |s.flight| { EmitAccounted(s, i, k, add); }
    case _ =>
  }

  lemma {:induction false} LoggedAlways(configured: bool, steps: seq<Step>)
    ensures Logged(Run(configured, steps))
  {
    if steps != [] {
      LoggedAlways(configured, steps[..|steps| - 1]);
      StepLogged(Run(configured, steps[..|steps| - 1]), steps[|steps| - 1]);
    }
  }

  lemma {:induction false} AccountedAlways(configured: bool, steps: seq<Step>, k: Key, add: bool)
    ensures Accounted(Run(configured, steps), k, add)
  {
    if steps != [] {
      AccountedAlways(configured, steps[..|steps| - 1], k, add);
      StepAccounted(Run(configured, steps[..|steps| - 1]), steps[|steps| - 1], k, add);
    }
  }

  // ---- Draining ----

  function DrainedEvents(ds: seq<Drain>): seq<Event> {
    if ds == [] then [] else DrainedEvents(ds[..|ds| - 1]) + ds[|ds| - 1].events
  }

  /** Each event that reached the buffer is still there or went to exactly one drain, in the
      order of emission. */
  ghost predicate DrainedInOrder(s: State) {
    s.emitted == DrainedEvents(s.drains) + s.buffer
  }

  ghost predicate TimersSound(s: State) {
    && (s.timer.Some? ==> s.timer.value in s.pending || s.timer.value in s.late)
    && (forall k :: k in s.pending ==> s.timer == Some(k) && k < s.timers && k !in s.late)
    && (forall k :: k in s.late ==> k < s.timers)
  }

  /** The buffer is empty or a flush of it is on its way. */
  predicate Covered(s: State) {
    s.buffer != [] ==> s.pending != {} || s.late != {}
  }

  predicate HeldByTimer(s: State) {
    s.buffer != [] ==> s.timer.Some?
  }

  predicate AllPosted(s: State) {
    forall i :: 0 <= i < |s.drains| && s.drains[i].events != [] ==> s.drains[i].posted
  }

  lemma DrainInOrder(s: State)
    requires DrainedInOrder(s)
    ensures DrainedInOrder(Drained(s))
  {
    assert Drained(s).drains[..|s.drains|] == s.drains;
  }

  lemma LandedInOrder(s: State, i: nat)
    requires DrainedInOrder(s) && i < |s.flight|
    ensures DrainedInOrder(Landed(s, i))
  {
    assert Landed(s, i).emitted == DrainedEvents(s.drains) + (s.buffer + [s.flight[i].e]);
  }

  lemma StepDrainedInOrder(s: State, step: Step)
    requires DrainedInOrder(s)
    ensures DrainedInOrder(Apply(s, step))
  {
    match step
    case Emit(i) => if i < |s.flight| { LandedInOrder(s, i); }
    case Flush => DrainInOrder(s);
    case LateFlush(k) => DrainInOrder(s.(late := s.late - {k}));
    case _ =>
  }

  lemma StepTimersSound(s: State, step: Step)
    requires TimersSound(s)
    ensures TimersSound(Apply(s, step))
  {}

  /** Configured, held by a timer whenever the buffer is not empty, and posting every drain. */
  predicate Serviced(s: State) {
    s.configured && HeldByTimer(s) && AllPosted(s)
  }

  lemma DrainServiced(s: State)
    requires s.configured && AllPosted(s)
    ensures Serviced(Drained(s))
  {}

  lemma StepServiced(s: State, step: Step)
    requires Serviced(s)
    ensures Serviced(Apply(s, step))
  {
    match step
    case Flush => DrainServiced(s);
    case LateFlush(k) => DrainServiced(s.(late := s.late - {k}));
    case _ =>
  }

  lemma {:induction false} DrainsAlways(configured: bool, steps: seq<Step>)
    ensures DrainedInOrder(Run(configured, steps)) && TimersSound(Run(configured, steps))
    ensures configured ==> Serviced(Run(configured, steps))
  {
    if steps != [] {
      var s, step := Run(configured, steps[..|steps| - 1]), steps[|steps| - 1];
      DrainsAlways(configured, steps[..|steps| - 1]);
      StepDrainedInOrder(s, step);
      StepTimersSound(s, step);
      if configured {
        StepServiced(s, step);
      }
    }
  }

  // ---- Main theorems ----

  /** In every interleaving, the events computed so far replay to the active set, starts
      included, and for each user of each session adds minus ends over drained, buffered and
      in-flight events is 1 if the user is active and 0 otherwise. */
  lemma AttributionBalance(configured: bool, steps: seq<Step>, k: Key)
    ensures var s := Run(configured, steps);
            && Replay(map[], s.computed) == s.active
            && var all := DrainedEvents(s.drains) + s.buffer + InFlight(s.flight);
               Count(all, k, true) - Count(all, k, false) == if k in s.active then 1 else 0
  {
    var s := Run(configured, steps);
    LoggedAlways(configured, steps);
    DrainsAlways(configured, steps);
    TogglesBalance(s.computed, k);
    AccountedAlways(configured, steps, k, true);
    AccountedAlways(configured, steps, k, false);
    CountConcat(s.emitted, InFlight(s.flight), k, true);
    CountConcat(s.emitted, InFlight(s.flight), k, false);
  }

  /** No call starts while another has events still to emit. */
  ghost predicate Serial(configured: bool, steps: seq<Step>) {
    steps != [] ==>
      var before, last := steps[..|steps| - 1], steps[|steps| - 1];
      Serial(configured, before) && (last.Call? ==> Run(configured, before).flight == [])
  }

  predicate OneThread(fs: seq<Flight>) {
    forall i :: 0 <= i < |fs| ==> fs[i].t == fs[0].t
  }

  ghost predicate EmittedInOrder(s: State) {
    s.emitted + InFlight(s.flight) == s.computed && OneThread(s.flight)
  }

  /** With one goroutine emitting, only the oldest computed event can be next. */
  lemma NextIsFirst(fs: seq<Flight>, i: nat)
    requires OneThread(fs)
    ensures NextOfThread(fs, i) <==> i == 0 && fs != []
    ensures fs != [] ==> OneThread(fs[..0] + fs[1..]) && InFlight(fs) == [fs[0].e] + InFlight(fs[..0] + fs[1..])
  {
    if 0 < i < |fs| {
      assert fs[0].t == fs[i].t;
    }
    if fs != [] {
      assert fs[..0] + fs[1..] == fs[1..];
      assert forall j :: 0 <= j < |fs[1..]| ==> fs[1..][j] == fs[j + 1];
    }
  }

  lemma FlightsInOrder(fs: seq<Flight>, t: nat, events: seq<Event>)
    requires fs == []
    ensures InFlight(fs) == [] && InFlight(fs + Flights(t, events)) == events && OneThread(fs + Flights(t, events))
  {
    assert fs + Flights(t, events) == Flights(t, events);
    assert InFlight(Flights(t, events)) == events;
  }

  lemma StepInOrder(s: State, step: Step)
    requires EmittedInOrder(s) && (step.Call? ==> s.flight == [])
    ensures EmittedInOrder(Apply(s, step))
  {
    if step.Call? {
      FlightsInOrder(s.flight, step.t, step.events);
    } else if step.Emit? {
      NextIsFirst(s.flight, step.i);
    }
  }

  lemma {:induction false} SerialInOrder(configured: bool, steps: seq<Step>)
    requires Serial(configured, steps)
    ensures EmittedInOrder(Run(configured, steps))
  {
    if steps != [] {
      SerialInOrder(configured, steps[..|steps| - 1]);
      StepInOrder(Run(configured, steps[..|steps| - 1]), steps[|steps| - 1]);
    }
  }

  /** When calls do not overlap and have emitted their events, each user's log strictly
      alternates add and end, and replaying the whole log gives the active set. */
  lemma SerialLogReplays(configured: bool, steps: seq<Step>, k: Key)
    requires Serial(configured, steps) && Run(configured, steps).flight == []
    ensures var s := Run(configured, steps);
            var log := DrainedEvents(s.drains) + s.buffer;
            && Replay(map[], log) == s.active
            && Alternating(Actions(log, k))
            && (k in s.active <==> |Actions(log, k)| % 2 == 1)
  {
    var s := Run(configured, steps);
    LoggedAlways(configured, steps);
    DrainsAlways(configured, steps);
    SerialInOrder(configured, steps);
    assert s.emitted == s.computed;
    TogglesAlternate(s.computed, k);
  }

  /** With the SDK configured throughout, in every interleaving of calls, flushes, timer
      firings and late timer goroutines, a non-empty buffer has a flush on its way; at most
      one timer is pending; and the drains so far took exactly the emitted events that are no
      longer buffered, each once and in order, and posted them. */
  lemma NoLostFlush(steps: seq<Step>)
    ensures var s := Run(true, steps);
            && Covered(s) && |s.pending| <= 1
            && s.emitted == DrainedEvents(s.drains) + s.buffer && AllPosted(s)
  {
    var s := Run(true, steps);
    DrainsAlways(true, steps);
    if s.pending != {} {
      var k :| k in s.pending;
      assert s.pending == {k};
    }
  }

  /** A call that may start changes the active set to its outcome and has its events to emit. */
  lemma CallTakesEffect(s: State, t: nat, op: Op, now: int, events: seq<Event>)
    requires (forall f :: f in s.flight ==> f.t != t) && Diff(s.active, op, now, events)
    ensures var s' := Apply(s, Call(t, op, now, events));
            && s'.active == Outcome(s.active, op, now) && s'.computed == s.computed + events
            && InFlight(s'.flight) == InFlight(s.flight) + events && s'.buffer == s.buffer
  {
    assert InFlight(s.flight + Flights(t, events)) == InFlight(s.flight) + events;
  }

  /** An emit moves its event to the end of the buffer, and a drain, by hand or by a late timer,
      takes the whole buffer, posting it if there is any and the SDK is configured. */
  lemma EmitsAndDrains(s: State, i: nat, k: nat)
    ensures NextOfThread(s.flight, i) ==>
              var s' := Apply(s, Emit(i));
              s'.buffer == s.buffer + [s.flight[i].e] && |s'.flight| == |s.flight| - 1
    ensures var s' := Apply(s, Flush);
            s'.buffer == [] && s'.drains == s.drains + [Drain(s.buffer, s.buffer != [] && s.configured)]
    ensures k in s.late ==>
              var s' := Apply(s, LateFlush(k));
              && s'.buffer == [] && k !in s'.late
              && s'.drains == s.drains + [Drain(s.buffer, s.buffer != [] && s.configured)]
    ensures k in s.pending ==> k in Apply(s, TimerFires(k)).late && k !in Apply(s, TimerFires(k)).pending
  {}

  /** Before configuration an emit leaves the buffer without a flush; exactly then. */
  lemma EmitHeldIff(s: State, i: nat)
    requires NextOfThread(s.flight, i)
    ensures HeldByTimer(Apply(s, Emit(i))) <==> s.configured || s.timer.Some?
  {}
}
