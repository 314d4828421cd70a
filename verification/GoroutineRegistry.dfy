/** Request traces registered by goroutine: the middleware around a handler as it runs, and any
    number of goroutines serving requests at once, nested middleware included. */
module GoroutineRegistry {
  import opened Collections
  import opened Options

  // ---- The registry ----

  type Traces = map<int, string>

  function WithTrace(m: Traces, gid: int, trace: string): Traces {
    if gid == 0 || trace == "" then m else m[gid := trace]
  }

  function WithoutTrace(m: Traces, gid: int): Traces {
    if gid == 0 then m else m - {gid}
  }

  /** What context-less telemetry finds on goroutine `gid`; 0 is an id that could not be read. */
  function TraceAt(m: Traces, gid: int): string {
    if gid != 0 && gid in m then m[gid] else ""
  }

  /** The incoming header, else the trace the context already holds, else a new one. */
  function TraceFor(incoming: string, held: string, apiKey: string, uuid: string): (trace: string)
    ensures trace != ""
    ensures incoming != "" ==> trace == incoming
    ensures incoming == "" && held != "" ==> trace == held
    ensures incoming == held == "" ==> trace == "nonsession-applogs-v3/" + apiKey + "/" + uuid
  {
    if incoming != "" then incoming
    else if held != "" then held
    else "nonsession-applogs-v3/" + apiKey + "/" + uuid
  }

  // ---- The middleware around a handler, as it runs ----

  /** What a handler does that matters here: telemetry without a context, and calls of other
      handlers wrapped in the middleware; it may panic at its end. */
  datatype Act = Look | Through(req: Request, next: Handler)
  datatype Handler = Handler(acts: seq<Act>, panics: bool)

  predicate OnlyLooks(h: Handler) {
    forall i :: 0 <= i < |h.acts| ==> h.acts[i].Look?
  }

  datatype Request = Request(routeDisabled: bool, incoming: string, held: string, uuid: string)

  // ---- What serving a handler comes to ----

  /** How the server is set up, and whether the goroutine's id can be read. */
  datatype Site = Site(configured: bool, apiKey: string, readable: bool)

  /** Whether a panic comes out, what the goroutine's entry is then ("" for none), and what
      telemetry without a context found, which hops were posted and which panics caught, in order. */
  datatype Account = Account(panicked: bool, entry: string, looks: seq<string>, hops: seq<string>, caught: seq<string>)

  /** A handler from its act i on. */
  function Handled(site: Site, h: Handler, i: nat, entry: string): Account
    requires i <= |h.acts|
    decreases h, |h.acts| - i
  {
    if i == |h.acts| then Account(h.panics, entry, [], [], [])
    else
      match h.acts[i]
      case Look => Then(Looked(entry), Handled(site, h, i + 1, entry))
      case Through(req, next) =>
        var a := Wrapped(site, req, next, entry);
        if a.panicked then a else Then(a, Handled(site, h, i + 1, a.entry))
  }

  function Looked(entry: string): Account {
    Account(false, entry, [entry], [], [])
  }

  function Then(a: Account, b: Account): Account {
    Account(b.panicked, b.entry, a.looks + b.looks, a.hops + b.hops, a.caught + b.caught)
  }

  lemma {:induction false} FlatHandled(site: Site, h: Handler, i: nat, entry: string)
    requires OnlyLooks(h) && i <= |h.acts|
    ensures Handled(site, h, i, entry) == Account(h.panics, entry, seq(|h.acts| - i, _ => entry), [], [])
    decreases |h.acts| - i
  {
    if i < |h.acts| {
      FlatHandled(site, h, i + 1, entry);
      assert [entry] + seq(|h.acts| - i - 1, _ => entry) == seq(|h.acts| - i, _ => entry);
    }
  }

  /** A handler in the middleware. */
  function Wrapped(site: Site, req: Request, next: Handler, entry: string): Account
    decreases next, |next.acts| + 1
  {
    if !site.configured || req.routeDisabled then Handled(site, next, 0, entry)
    else
      var trace := TraceFor(req.incoming, req.held, site.apiKey, req.uuid);
      var a := Handled(site, next, 0, if site.readable then trace else entry);
      Then(a, Outcome(a.panicked, trace)).(entry := if site.readable then "" else a.entry)
  }

  /** What the middleware adds once its handler has returned or panicked. */
  function Outcome(panicked: bool, trace: string): Account {
    Account(false, "", [], if panicked then [] else [trace], if panicked then [trace] else [])
  }

  predicate NeverPanics(h: Handler) {
    !h.panics && forall i :: 0 <= i < |h.acts| && h.acts[i].Through? ==> NeverPanics(h.acts[i].next)
  }

  /** The looks of a handler and of all the handlers it calls, from its act i on. */
  function LookCount(h: Handler, i: nat): nat
    requires i <= |h.acts|
    decreases h, |h.acts| - i
  {
    if i == |h.acts| then 0
    else LookCount(h, i + 1) + (match h.acts[i] case Look => 1 case Through(_, next) => LookCount(next, 0))
  }

  /** Every handler is served exactly once, instrumented or not: when none panics, each of their
      looks is made once, none is caught, and no panic comes out. */
  lemma {:induction false} ServedOnce(site: Site, h: Handler, i: nat, entry: string)
    requires NeverPanics(h) && i <= |h.acts|
    ensures var a := Handled(site, h, i, entry);
            !a.panicked && |a.looks| == LookCount(h, i) && a.caught == []
    decreases h, |h.acts| - i
  {
    if i < |h.acts| {
      match h.acts[i]
      case Look => ServedOnce(site, h, i + 1, entry);
      case Through(req, next) =>
        var trace := TraceFor(req.incoming, req.held, site.apiKey, req.uuid);
        ServedOnce(site, next, 0, if site.configured && !req.routeDisabled && site.readable then trace else entry);
        ServedOnce(site, h, i + 1, Wrapped(site, req, next, entry).entry);
    }
  }

  class Server {
    const configured: bool
    const apiKey: string
    var traces: Traces
    var looks: seq<string>
    var hops: seq<string>
    var caught: seq<string>

    constructor (configured: bool, apiKey: string)
      ensures traces == map[] && looks == [] && hops == [] && caught == []
      ensures this.configured == configured && this.apiKey == apiKey
    {
      this.configured, this.apiKey := configured, apiKey;
      traces, looks, hops, caught := map[], [], [], [];
    }

    predicate Instruments(req: Request) {
      configured && !req.routeDisabled
    }

    function TraceOf(req: Request): string {
      TraceFor(req.incoming, req.held, apiKey, req.uuid)
    }

    method SetGoroutineTrace(gid: int, trace: string)
      modifies this`traces
      ensures traces == WithTrace(old(traces), gid, trace)
    {
      if gid == 0 || trace == "" {
        return;
      }
      traces := traces[gid := trace];
    }

    method ClearGoroutineTrace(gid: int)
      modifies this`traces
      ensures traces == WithoutTrace(old(traces), gid)
    {
      if gid == 0 {
        return;
      }
      traces := traces - {gid};
    }

    /** What telemetry, hops and panics have left so far. */
    ghost function Left(): Records
      reads this
    {
      Records(looks, hops, caught)
    }

    ghost predicate Added(before: Records, a: Account)
      reads this
    {
      looks == before.looks + a.looks && hops == before.hops + a.hops && caught == before.caught + a.caught
    }

    /** Whether the handler returns or panics, the goroutine's entry is gone afterwards and no
        other entry changed; a panic goes no further.  A handler that calls no middleware sees
        its own trace throughout and leaves one hop, or one caught panic.  When the request is not
        instrumented the handler is served as it is. */
    method Middleware(gid: int, req: Request, next: Handler) returns (panicked: bool)
      modifies this
      decreases next, 1, 0
      ensures traces - {gid} == old(traces) - {gid}
      ensures configured && !req.routeDisabled ==> !panicked && (gid != 0 ==> gid !in traces)
      ensures configured && !req.routeDisabled && OnlyLooks(next) ==>
                var trace := TraceFor(req.incoming, req.held, apiKey, req.uuid);
                && looks == old(looks) + seq(|next.acts|, _ => if gid != 0 then trace else "")
                && hops == old(hops) + (if next.panics then [] else [trace])
                && caught == old(caught) + (if next.panics then [trace] else [])
      ensures (!configured || req.routeDisabled) && OnlyLooks(next) ==>
                && panicked == next.panics && traces == old(traces)
                && hops == old(hops) && caught == old(caught)
                && looks == old(looks) + seq(|next.acts|, _ => TraceAt(old(traces), gid))
      ensures NeverPanics(next) ==>
                !panicked && |looks| == |old(looks)| + LookCount(next, 0) && caught == old(caught)
      ensures var a := Wrapped(Site(configured, apiKey, gid != 0), req, next, TraceAt(old(traces), gid));
              panicked == a.panicked && TraceAt(traces, gid) == a.entry && Added(old(Left()), a)
    {
      ghost var site, entry := Site(configured, apiKey, gid != 0), TraceAt(traces, gid);
      WrappedFacts(site, req, next, entry);
      if !Instruments(req) {
        panicked := ServeFrom(gid, next, 0);
        return;
      }
      var trace := TraceOf(req);
      SetGoroutineTrace(gid, trace);
      ghost var inside := Handled(site, next, 0, TraceAt(traces, gid));
      PlusThen(Left(), inside, Outcome(inside.panicked, trace));
      panicked := ServeFrom(gid, next, 0);
      if !panicked {
        hops := hops + [trace];
      }
      ClearGoroutineTrace(gid);
      if panicked {
        caught := caught + [trace];
        panicked := false;
      }
      assert Added(old(Left()), Then(inside, Outcome(inside.panicked, trace)));
    }

    /** The handler, from its act i on. */
    method ServeFrom(gid: int, h: Handler, i: nat) returns (panicked: bool)
      requires i <= |h.acts|
      modifies this
      decreases h, 0, |h.acts| - i
      ensures traces - {gid} == old(traces) - {gid}
      ensures OnlyLooks(h) ==> traces == old(traces)
      ensures var a := Handled(Site(configured, apiKey, gid != 0), h, i, TraceAt(old(traces), gid));
              panicked == a.panicked && TraceAt(traces, gid) == a.entry && Added(old(Left()), a)
    {
      ghost var site, entry, before := Site(configured, apiKey, gid != 0), TraceAt(traces, gid), Left();
      if i == |h.acts| {
        return h.panics;
      }
      match h.acts[i]
      case Look =>
        looks := looks + [TraceAt(traces, gid)];
        PlusThen(before, Looked(entry), Handled(site, h, i + 1, entry));
        panicked := ServeFrom(gid, h, i + 1);
      case Through(req, next) =>
        ghost var a := Wrapped(site, req, next, entry);
        PlusThen(before, a, Handled(site, h, i + 1, a.entry));
        panicked := Middleware(gid, req, next);
        if !panicked {
          panicked := ServeFrom(gid, h, i + 1);
        }
    }
  }

  datatype Records = Records(looks: seq<string>, hops: seq<string>, caught: seq<string>)

  lemma PlusThen(before: Records, a: Account, b: Account)
    ensures before.looks + Then(a, b).looks == (before.looks + a.looks) + b.looks
    ensures before.hops + Then(a, b).hops == (before.hops + a.hops) + b.hops
    ensures before.caught + Then(a, b).caught == (before.caught + a.caught) + b.caught
  {}

  /** What follows from an account of the middleware for handlers that call none, and for those
      in which nothing panics. */
  lemma WrappedFacts(site: Site, req: Request, next: Handler, entry: string)
    ensures var a := Wrapped(site, req, next, entry);
            var trace := TraceFor(req.incoming, req.held, site.apiKey, req.uuid);
            && (NeverPanics(next) ==> !a.panicked && |a.looks| == LookCount(next, 0) && a.caught == [])
            && (OnlyLooks(next) ==>
                  if site.configured && !req.routeDisabled then
                    && a.looks == seq(|next.acts|, _ => if site.readable then trace else entry)
                    && a.hops == (if next.panics then [] else [trace])
                    && a.caught == (if next.panics then [trace] else [])
                  else
                    a == Account(next.panics, entry, seq(|next.acts|, _ => entry), [], []))
  {
    var trace := TraceFor(req.incoming, req.held, site.apiKey, req.uuid);
    var inside := if site.configured && !req.routeDisabled && site.readable then trace else entry;
    if NeverPanics(next) {
      ServedOnce(site, next, 0, inside);
    }
    if OnlyLooks(next) {
      FlatHandled(site, next, 0, inside);
      assert seq(|next.acts|, _ => inside) == seq(|next.acts|, _ => if site.configured && !req.routeDisabled && site.readable then trace else entry);
    }
  }

  // ---- Many goroutines ----

  datatype Phase = Entered | Serving | Leaving

  /** A middleware call on a goroutine's stack.  `gid` is the id it read, or 0; `robbed` tells
      that a middleware called inside it has cleared the goroutine's entry since. */
  datatype Frame = Frame(trace: string, gid: int, phase: Phase, robbed: bool)

  datatype State = State(traces: Traces, stacks: map<int, seq<Frame>>)

  /** Goroutine `g` enters the middleware, registers, leaves the handler (by return or by
      panic), or runs the deferred clear. */
  datatype Step =
    | Enter(g: int, incoming: string, held: string, apiKey: string, uuid: string, readable: bool)
    | Register(g: int)
    | Leave(g: int)
    | Unregister(g: int)

  function Stack(s: State, g: int): seq<Frame> {
    if g in s.stacks then s.stacks[g] else []
  }

  function Top(stack: seq<Frame>): Frame
    requires stack != []
  {
    stack[|stack| - 1]
  }

  function Below(stack: seq<Frame>): seq<Frame>
    requires stack != []
  {
    stack[..|stack| - 1]
  }

  function Robbed(stack: seq<Frame>): seq<Frame> {
    seq(|stack|, i requires 0 <= i < |stack| => stack[i].(robbed := true))
  }

  predicate CanEnter(stack: seq<Frame>) {
    stack == [] || Top(stack).phase.Serving?
  }

  predicate TopIs(stack: seq<Frame>, phase: Phase) {
    stack != [] && Top(stack).phase == phase
  }

  function Moved(s: State, g: int, phase: Phase): State
    requires Stack(s, g) != []
  {
    s.(stacks := s.stacks[g := Below(Stack(s, g)) + [Top(Stack(s, g)).(phase := phase)]])
  }

  /** Goroutine ids are positive; a step the goroutine is not ready for changes nothing. */
  function Apply(s: State, step: Step): State {
    var stack := Stack(s, step.g);
    match step
    case Enter(g, incoming, held, apiKey, uuid, readable) =>
      if g > 0 && CanEnter(stack) then
        var f := Frame(TraceFor(incoming, held, apiKey, uuid), if readable then g else 0, Entered, false);
        s.(stacks := s.stacks[g := stack + [f]])
      else s
    case Register(g) =>
      if TopIs(stack, Entered) then
        Moved(s, g, Serving).(traces := WithTrace(s.traces, Top(stack).gid, Top(stack).trace))
      else s
    case Leave(g) => if TopIs(stack, Serving) then Moved(s, g, Leaving) else s
    case Unregister(g) =>
      if TopIs(stack, Leaving) then
        State(WithoutTrace(s.traces, Top(stack).gid),
              s.stacks[g := if Top(stack).gid == 0 then Below(stack) else Robbed(Below(stack))])
      else s
  }

  function Run(steps: seq<Step>): State {
    if steps == [] then State(map[], map[]) else Apply(Run(steps[..|steps| - 1]), steps[|steps| - 1])
  }

  /** The trace a stack of middleware calls leaves registered. */
  function Expected(stack: seq<Frame>): Option<string> {
    if stack == [] then None
    else if Top(stack).phase.Entered? || Top(stack).gid == 0 then Expected(Below(stack))
    else if Top(stack).robbed then None
    else Some(Top(stack).trace)
  }

  function Entry(m: Traces, g: int): Option<string> {
    if g in m then Some(m[g]) else None
  }

  /** Only the innermost call can be outside its handler. */
  ghost predicate Shape(stack: seq<Frame>, g: int) {
    forall i :: 0 <= i < |stack| ==>
      && g > 0 && stack[i].trace != "" && (stack[i].gid == 0 || stack[i].gid == g)
      && (stack[i].phase.Entered? ==> !stack[i].robbed)
      && (i < |stack| - 1 ==> stack[i].phase.Serving?)
  }

  ghost predicate Mirrors(traces: Traces, stack: seq<Frame>, g: int) {
    Shape(stack, g) && Entry(traces, g) == Expected(stack)
  }

  ghost predicate MirrorsAt(s: State, g: int) {
    Mirrors(s.traces, Stack(s, g), g)
  }

  lemma {:induction false} RobbedLeavesNothing(stack: seq<Frame>)
    ensures Expected(Robbed(stack)) == None
  {
    if stack != [] {
      assert Below(Robbed(stack)) == Robbed(Below(stack));
      RobbedLeavesNothing(Below(stack));
    }
  }

  predicate FrameFits(f: Frame, g: int) {
    g > 0 && f.trace != "" && (f.gid == 0 || f.gid == g) && (f.phase.Entered? ==> !f.robbed)
  }

  lemma Pushed(below: seq<Frame>, f: Frame, g: int)
    requires Shape(below, g) && CanEnter(below) && FrameFits(f, g)
    ensures Shape(below + [f], g) && Top(below + [f]) == f && Below(below + [f]) == below
    ensures Expected(below + [f]) ==
            if f.phase.Entered? || f.gid == 0 then Expected(below) else if f.robbed then None else Some(f.trace)
  {
    assert Below(below + [f]) == below;
  }

  lemma Popped(stack: seq<Frame>, g: int)
    requires Shape(stack, g) && stack != []
    ensures Shape(Below(stack), g) && CanEnter(Below(stack)) && FrameFits(Top(stack), g)
    ensures stack == Below(stack) + [Top(stack)]
  {}

  lemma EnterMirrors(traces: Traces, stack: seq<Frame>, f: Frame, g: int)
    requires Mirrors(traces, stack, g) && CanEnter(stack) && FrameFits(f, g) && f.phase.Entered?
    ensures Mirrors(traces, stack + [f], g)
  {
    Pushed(stack, f, g);
  }

  /** Registering, or leaving the handler. */
  lemma MoveMirrors(traces: Traces, stack: seq<Frame>, phase: Phase, g: int)
    requires Mirrors(traces, stack, g) && stack != []
    requires (phase.Serving? && Top(stack).phase.Entered?) || (phase.Leaving? && Top(stack).phase.Serving?)
    ensures var traces' := if phase.Serving? then WithTrace(traces, Top(stack).gid, Top(stack).trace) else traces;
            Mirrors(traces', Below(stack) + [Top(stack).(phase := phase)], g)
  {
    Popped(stack, g);
    Pushed(Below(stack), Top(stack), g);
    Pushed(Below(stack), Top(stack).(phase := phase), g);
  }

  lemma UnregisterMirrors(traces: Traces, stack: seq<Frame>, g: int)
    requires Mirrors(traces, stack, g) && TopIs(stack, Leaving)
    ensures Mirrors(WithoutTrace(traces, Top(stack).gid), if Top(stack).gid == 0 then Below(stack) else Robbed(Below(stack)), g)
  {
    Popped(stack, g);
    Pushed(Below(stack), Top(stack), g);
    RobbedLeavesNothing(Below(stack));
  }

  lemma StepMirrorsOwn(s: State, step: Step)
    requires MirrorsAt(s, step.g)
    ensures MirrorsAt(Apply(s, step), step.g)
  {
    var g, stack := step.g, Stack(s, step.g);
    match step
    case Enter(_, incoming, held, apiKey, uuid, readable) =>
      if g > 0 && CanEnter(stack) {
        var f := Frame(TraceFor(incoming, held, apiKey, uuid), if readable then g else 0, Entered, false);
        EnterMirrors(s.traces, stack, f, g);
      }
    case Register(_) => if TopIs(stack, Entered) { MoveMirrors(s.traces, stack, Serving, g); }
    case Leave(_) => if TopIs(stack, Serving) { MoveMirrors(s.traces, stack, Leaving, g); }
    case Unregister(_) => if TopIs(stack, Leaving) { UnregisterMirrors(s.traces, stack, g); }
  }

  lemma StepMirrors(s: State, step: Step, h: int)
    requires MirrorsAt(s, step.g) && MirrorsAt(s, h)
    ensures MirrorsAt(Apply(s, step), h)
  {
    if h == step.g {
      StepMirrorsOwn(s, step);
    } else {
      assert Stack(Apply(s, step), h) == Stack(s, h);
      if Stack(s, step.g) != [] {
        var top := Stack(s, step.g)[|Stack(s, step.g)| - 1];
        assert top.gid == 0 || top.gid == step.g;
      }
    }
  }

  /** In every run, each goroutine's entry is exactly what its own stack of calls left there. */
  lemma {:induction false} RegistryMirrorsStacks(steps: seq<Step>, g: int)
    ensures MirrorsAt(Run(steps), g)
  {
    if steps != [] {
      var before, last := steps[..|steps| - 1], steps[|steps| - 1];
      RegistryMirrorsStacks(before, g);
      RegistryMirrorsStacks(before, last.g);
      StepMirrors(Run(before), last, g);
    }
  }

  function InFlight(s: State): set<int> {
    set g | g in s.stacks && s.stacks[g] != []
  }

  /** Nothing is registered for a goroutine outside the middleware, so there are never more
      entries than goroutines in flight. */
  lemma BoundedByInFlight(steps: seq<Step>)
    ensures var s := Run(steps);
            && (forall g :: Stack(s, g) == [] ==> TraceAt(s.traces, g) == "" && g !in s.traces)
            && |s.traces| <= |InFlight(s)|
  {
    var s := Run(steps);
    forall g | Stack(s, g) == []
      ensures g !in s.traces
    {
      RegistryMirrorsStacks(steps, g);
    }
    forall g | g in s.traces
      ensures g in InFlight(s)
    {
      assert Stack(s, g) != [];
    }
    assert s.traces.Keys <= InFlight(s);
    SubsetSize(s.traces.Keys, InFlight(s));
  }

  /** A handler whose middleware registered sees its own trace, unless a middleware called inside
      it has cleared the entry: then it sees none. */
  lemma OwnTraceIff(steps: seq<Step>, g: int)
    requires var stack := Stack(Run(steps), g);
             TopIs(stack, Serving) && Top(stack).gid != 0
    ensures var s := Run(steps);
            var top := Top(Stack(s, g));
            && (TraceAt(s.traces, g) == top.trace <==> !top.robbed)
            && (top.robbed ==> TraceAt(s.traces, g) == "")
  {
    RegistryMirrorsStacks(steps, g);
    var s := Run(steps);
    var top := Stack(s, g)[|Stack(s, g)| - 1];
    assert top.trace != "" && top.gid == g;
  }

  /** No middleware is entered inside another on the same goroutine, and ids can be read. */
  predicate Flat(steps: seq<Step>) {
    steps != [] ==>
      var before, last := steps[..|steps| - 1], steps[|steps| - 1];
      Flat(before) && (last.Enter? ==> last.readable && Stack(Run(before), last.g) == [])
  }

  lemma {:induction false} FlatStacks(steps: seq<Step>, g: int)
    requires Flat(steps)
    ensures |Stack(Run(steps), g)| <= 1
    ensures Stack(Run(steps), g) != [] ==> !Top(Stack(Run(steps), g)).robbed && Top(Stack(Run(steps), g)).gid == g > 0
  {
    if steps != [] {
      var before, last := steps[..|steps| - 1], steps[|steps| - 1];
      FlatStacks(before, g);
      FlatStacks(before, last.g);
    }
  }

  /** Between set and clear. */
  predicate Registered(stack: seq<Frame>) {
    stack != [] && !Top(stack).phase.Entered?
  }

  lemma FlatEntry(steps: seq<Step>, g: int)
    requires Flat(steps)
    ensures var s, stack := Run(steps), Stack(Run(steps), g);
            (g in s.traces <==> Registered(stack)) && (g in s.traces ==> s.traces[g] == Top(stack).trace)
  {
    FlatStacks(steps, g);
    RegistryMirrorsStacks(steps, g);
    var stack := Stack(Run(steps), g);
    assert Entry(Run(steps).traces, g) == Expected(stack);
    if stack != [] {
      assert Below(stack) == [] && Expected([]) == None;
    }
  }

  /** Without nesting, the keys are exactly the goroutines between set and clear, and each sees
      its own request's trace. */
  lemma FlatRegistry(steps: seq<Step>)
    requires Flat(steps)
    ensures var s := Run(steps);
            && s.traces.Keys == (set g | g in s.stacks && Registered(s.stacks[g]))
            && (forall g :: g in s.traces ==> s.traces[g] == Top(Stack(s, g)).trace)
  {
    var s := Run(steps);
    forall g
      ensures g in s.traces.Keys <==> g in s.stacks && Registered(s.stacks[g])
      ensures g in s.traces ==> s.traces[g] == Top(Stack(s, g)).trace
    {
      FlatEntry(steps, g);
    }
  }

  /** A request that enters and registers shows its own trace, the header's before the one held
      before a new one, whatever was registered. */
  lemma RegisteringShows(s: State, g: int, incoming: string, held: string, apiKey: string, uuid: string)
    requires g > 0 && CanEnter(Stack(s, g))
    ensures var s' := Apply(Apply(s, Enter(g, incoming, held, apiKey, uuid, true)), Register(g));
            && TopIs(Stack(s', g), Serving) && !Top(Stack(s', g)).robbed
            && TraceAt(s'.traces, g) == (if incoming != "" then incoming else if held != "" then held
                                         else "nonsession-applogs-v3/" + apiKey + "/" + uuid)
            && forall h :: h != g ==> TraceAt(s'.traces, h) == TraceAt(s.traces, h)
  {
    var s1 := Apply(s, Enter(g, incoming, held, apiKey, uuid, true));
    assert Top(Stack(s1, g)) == Frame(TraceFor(incoming, held, apiKey, uuid), g, Entered, false);
  }

  /** A middleware called inside a handler and finished takes the handler's trace away: from
      then on its telemetry finds nothing. */
  lemma NestingLosesTrace(s: State, g: int, incoming: string, held: string, apiKey: string, uuid: string)
    requires g > 0 && TopIs(Stack(s, g), Serving)
    ensures var entered := Apply(s, Enter(g, incoming, held, apiKey, uuid, true));
            var s' := Apply(Apply(Apply(entered, Register(g)), Leave(g)), Unregister(g));
            Stack(s', g) == Robbed(Stack(s, g)) && TraceAt(s'.traces, g) == ""
  {
    var stack := Stack(s, g);
    var f := Frame(TraceFor(incoming, held, apiKey, uuid), g, Entered, false);
    var s1 := Apply(s, Enter(g, incoming, held, apiKey, uuid, true));
    assert Stack(s1, g) == stack + [f] && Below(stack + [f]) == stack;
    var s2 := Apply(s1, Register(g));
    assert Stack(s2, g) == stack + [f.(phase := Serving)] && Below(Stack(s2, g)) == stack;
    var s3 := Apply(s2, Leave(g));
    assert Stack(s3, g) == stack + [f.(phase := Leaving)] && Below(Stack(s3, g)) == stack;
  }
}
