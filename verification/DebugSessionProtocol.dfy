/** The debug session under any number of goroutines.  A lock-free load, a locked section and
    a callback are separate steps, so other goroutines can act between them. */
module DebugSessionProtocol {
  import opened Options
  import opened DebugSession

  /** Where a goroutine is.  `Firing` has left the lock with a snapshot to hand over. */
  datatype Pc =
    | Idle
    | Activating(d: Directive)
    | Loading(reason: string)
    | Ending(reason: string)
    | Recording(bytes: int)
    | Expiring
    | Firing(e: Ended, arm: bool)
    | Arming

  /** An ended session with the budgets it had, whether it was ever updated in place, and the
      byte count of the last span it recorded. */
  datatype Closing = Closing(e: Ended, maxSpans: int, maxBytes: int, updated: bool, last: int)

  /** `ended` logs snapshots in the order they are taken; `landed*` count what records added
      under the lock; `updated` and `last` describe the active session. */
  datatype State = State(
    table: Table, pcs: map<nat, Pc>, fired: seq<Ended>, armed: bool,
    ended: seq<Closing>, landedSpans: int, landedBytes: int, updated: bool, last: int)

  datatype Step =
    | BeginActivate(t: nat, d: Directive, now: int)
    | LockActivate(t: nat, now: int)
    | Arm(t: nat, rules: bool)
    | BeginCancel(t: nat)
    | BeginShutdown(t: nat)
    | LoadActive(t: nat)
    | LockEnd(t: nat)
    | LoadRecord(t: nat, bytes: int)
    | LockRecord(t: nat)
    | LoadExpiry(t: nat)
    | LockExpiry(t: nat, now: int)
    | Fire(t: nat)

  function Init(): State {
    State(Table(None, 0), map[], [], false, [], 0, 0, false, 0)
  }

  function At(s: State, t: nat): Pc {
    if t in s.pcs then s.pcs[t] else Idle
  }

  function Goto(s: State, t: nat, pc: Pc): State {
    s.(pcs := s.pcs[t := pc])
  }

  /** Leaves a locked section that produced `r`: with a snapshot, the callback comes next. */
  function Unlock(s: State, t: nat, before: Session, r: (Table, Option<Ended>), arm: bool): State {
    match r.1
    case Some(e) =>
      Goto(s.(table := r.0, ended := s.ended + [Closing(e, before.maxSpans, before.maxBytes, s.updated, s.last)]),
           t, Firing(e, arm))
    case None => Goto(s.(table := r.0), t, if arm then Arming else Idle)
  }

  function LockedActivate(s: State, t: nat, d: Directive, now: int): State {
    var r := Activated(s.table, d, now);
    if s.table.active.Some? && s.table.active.value.id == d.id then
      Unlock(s.(updated := true), t, s.table.active.value, r, true)
    else
      var closing := if s.table.active.Some? then s.table.active.value else r.0.active.value;
      Unlock(s, t, closing, r, true).(updated := false, last := 0)
  }

  function LockedRecord(s: State, t: nat, bytes: int): State {
    match s.table.active
    case None => Goto(s, t, Idle)
    case Some(cur) =>
      Unlock(s.(landedSpans := s.landedSpans + 1, landedBytes := s.landedBytes + bytes, last := bytes),
             t, cur, Recorded(s.table, bytes), false)
  }

  function LockedEnd(s: State, t: nat, r: (Table, Option<Ended>)): State {
    match s.table.active
    case None => Goto(s, t, Idle)
    case Some(cur) => Unlock(s, t, cur, r, false)
  }

  /** A step of a goroutine that is not where the step starts changes nothing. */
  function Apply(s: State, step: Step): State {
    var pc := At(s, step.t);
    match step
    case BeginActivate(t, d, now) =>
      if pc.Idle? && Acceptable(d, now) then Goto(s, t, Activating(d)) else s
    case LockActivate(t, now) => if pc.Activating? then LockedActivate(s, t, pc.d, now) else s
    case Arm(t, rules) => if pc.Arming? then Goto(s.(armed := rules), t, Idle) else s
    case BeginCancel(t) => if pc.Idle? then Goto(s.(armed := false), t, Loading("cancelled")) else s
    case BeginShutdown(t) => if pc.Idle? then Goto(s, t, Loading("shutdown")) else s
    case LoadActive(t) =>
      if pc.Loading? then Goto(s, t, if s.table.active.Some? then Ending(pc.reason) else Idle) else s
    case LockEnd(t) => if pc.Ending? then LockedEnd(s, t, Deactivated(s.table, pc.reason)) else s
    case LoadRecord(t, bytes) =>
      if pc.Idle? && s.table.active.Some? then Goto(s, t, Recording(bytes)) else s
    case LockRecord(t) => if pc.Recording? then LockedRecord(s, t, pc.bytes) else s
    case LoadExpiry(t) =>
      if pc.Idle? && s.table.active.Some? then Goto(s, t, Expiring) else s
    case LockExpiry(t, now) => if pc.Expiring? then LockedEnd(s, t, Expired(s.table, now)) else s
    case Fire(t) =>
      if pc.Firing? then Goto(s.(fired := s.fired + [pc.e]), t, if pc.arm then Arming else Idle) else s
  }

  /** Any interleaving of any goroutines is a sequence of steps. */
  function Run(steps: seq<Step>): State {
    if steps == [] then Init() else Apply(Run(steps[..|steps| - 1]), steps[|steps| - 1])
  }

  // ---- Exactly one callback per session ----

  function Pending(pcs: map<nat, Pc>): set<nat> {
    set t | t in pcs && pcs[t].Firing?
  }

  function PendingOf(pcs: map<nat, Pc>, e: Ended): set<nat> {
    set t | t in pcs && pcs[t].Firing? && pcs[t].e == e
  }

  function Snapshots(cs: seq<Closing>): seq<Ended> {
    seq(|cs|, i requires 0 <= i < |cs| => cs[i].e)
  }

  function Live(s: State): nat {
    if s.table.active.Some? then 1 else 0
  }

  /** Sessions end in the order they were created, and each exactly once. */
  ghost predicate EndsInOrder(s: State) {
    && s.table.created == |s.ended| + Live(s)
    && (s.table.active.Some? ==> s.table.active.value.inst == |s.ended|)
    && forall i :: 0 <= i < |s.ended| ==> s.ended[i].e.inst == i
  }

  /** Every snapshot taken has been handed to the callback once, or is about to be, once. */
  ghost predicate HandedOnce(s: State) {
    && |s.fired| + |Pending(s.pcs)| == |s.ended|
    && forall e :: multiset(s.fired)[e] + |PendingOf(s.pcs, e)| == multiset(Snapshots(s.ended))[e]
  }

  lemma GotoPending(pcs: map<nat, Pc>, t: nat, pc: Pc)
    ensures var was := if t in pcs && pcs[t].Firing? then 1 else 0;
            |Pending(pcs[t := pc])| == |Pending(pcs)| - was + (if pc.Firing? then 1 else 0)
  {
    var rest := Pending(pcs) - {t};
    assert Pending(pcs[t := pc]) == if pc.Firing? then rest + {t} else rest;
    assert Pending(pcs) == if t in pcs && pcs[t].Firing? then rest + {t} else rest;
  }

  lemma GotoPendingOf(pcs: map<nat, Pc>, t: nat, pc: Pc, e: Ended)
    ensures var was := if t in pcs && pcs[t].Firing? && pcs[t].e == e then 1 else 0;
            |PendingOf(pcs[t := pc], e)| == |PendingOf(pcs, e)| - was + (if pc.Firing? && pc.e == e then 1 else 0)
  {
    var rest := PendingOf(pcs, e) - {t};
    var pcs' := pcs[t := pc];
    assert forall u :: u != t ==> (u in PendingOf(pcs', e) <==> u in rest);
    PlusOne(PendingOf(pcs', e), rest, t);
    PlusOne(PendingOf(pcs, e), rest, t);
  }

  lemma PlusOne(all: set<nat>, rest: set<nat>, t: nat)
    requires t !in rest && forall u :: u != t ==> (u in all <==> u in rest)
    ensures |all| == |rest| + (if t in all then 1 else 0)
  {
    assert all == if t in all then rest + {t} else rest;
  }

  /** A goroutine leaves the lock with the snapshot just logged. */
  ghost predicate Snapshotted(s: State, s': State, t: nat) {
    && s'.fired == s.fired && !At(s, t).Firing? && At(s', t).Firing?
    && |s'.ended| == |s.ended| + 1 && s'.ended[..|s.ended|] == s.ended && s'.ended[|s.ended|].e == At(s', t).e
  }

  ghost predicate CalledBack(s: State, s': State, t: nat) {
    && s'.ended == s.ended && At(s, t).Firing? && !At(s', t).Firing?
    && s'.fired == s.fired + [At(s, t).e]
  }

  ghost predicate Quiet(s: State, s': State, t: nat) {
    s'.ended == s.ended && s'.fired == s.fired && !At(s, t).Firing? && !At(s', t).Firing?
  }

  /** Goroutine `t` logs one snapshot and goes on to the callback, or makes one callback, or
      does neither; the others stay where they are. */
  ghost predicate OfKind(s: State, s': State, t: nat) {
    && t in s'.pcs && s'.pcs == s.pcs[t := s'.pcs[t]]
    && (Snapshotted(s, s', t) || CalledBack(s, s', t) || Quiet(s, s', t))
  }

  lemma UnlockOfKind(s: State, t: nat, before: Session, r: (Table, Option<Ended>), arm: bool)
    requires !At(s, t).Firing?
    ensures OfKind(s, Unlock(s, t, before, r, arm), t)
  {}

  lemma ActivateOfKind(s: State, t: nat, d: Directive, now: int)
    requires !At(s, t).Firing?
    ensures OfKind(s, LockedActivate(s, t, d, now), t)
  {
    var r := Activated(s.table, d, now);
    if s.table.active.Some? && s.table.active.value.id == d.id {
      UnlockOfKind(s.(updated := true), t, s.table.active.value, r, true);
    } else {
      UnlockOfKind(s, t, if s.table.active.Some? then s.table.active.value else r.0.active.value, r, true);
    }
  }

  lemma RecordOfKind(s: State, t: nat, bytes: int)
    requires !At(s, t).Firing?
    ensures OfKind(s, LockedRecord(s, t, bytes), t)
  {
    if s.table.active.Some? {
      UnlockOfKind(s.(landedSpans := s.landedSpans + 1, landedBytes := s.landedBytes + bytes, last := bytes),
                   t, s.table.active.value, Recorded(s.table, bytes), false);
    }
  }

  lemma EndOfKind(s: State, t: nat, r: (Table, Option<Ended>))
    requires !At(s, t).Firing?
    ensures OfKind(s, LockedEnd(s, t, r), t)
  {
    if s.table.active.Some? {
      UnlockOfKind(s, t, s.table.active.value, r, false);
    }
  }

  /** A step does nothing, or is of one of the three kinds. */
  lemma StepKinds(s: State, step: Step)
    ensures Apply(s, step) == s || OfKind(s, Apply(s, step), step.t)
  {
    var pc := At(s, step.t);
    match step
    case LockActivate(t, now) => if pc.Activating? { ActivateOfKind(s, t, pc.d, now); }
    case LockRecord(t) => if pc.Recording? { RecordOfKind(s, t, pc.bytes); }
    case LockEnd(t) => if pc.Ending? { EndOfKind(s, t, Deactivated(s.table, pc.reason)); }
    case LockExpiry(t, now) => if pc.Expiring? { EndOfKind(s, t, Expired(s.table, now)); }
    case _ =>
  }

  lemma HandsOnceAfter(s: State, s': State, t: nat)
    requires HandedOnce(s) && OfKind(s, s', t)
    ensures HandedOnce(s')
  {
    var pc := s'.pcs[t];
    GotoPending(s.pcs, t, pc);
    if Snapshotted(s, s', t) {
      assert Snapshots(s'.ended) == Snapshots(s.ended) + [pc.e];
    }
    forall e
      ensures multiset(s'.fired)[e] + |PendingOf(s'.pcs, e)| == multiset(Snapshots(s'.ended))[e]
    {
      GotoPendingOf(s.pcs, t, pc, e);
      assert multiset(s.fired)[e] + |PendingOf(s.pcs, e)| == multiset(Snapshots(s.ended))[e];
    }
  }

  lemma ActivateEndsInOrder(s: State, t: nat, d: Directive, now: int)
    requires EndsInOrder(s)
    ensures EndsInOrder(LockedActivate(s, t, d, now))
  {}

  lemma RecordEndsInOrder(s: State, t: nat, bytes: int)
    requires EndsInOrder(s)
    ensures EndsInOrder(LockedRecord(s, t, bytes))
  {}

  lemma LockedEndsInOrder(s: State, t: nat, reason: string)
    requires EndsInOrder(s)
    ensures EndsInOrder(LockedEnd(s, t, Deactivated(s.table, reason)))
  {}

  lemma StepEndsInOrder(s: State, step: Step)
    requires EndsInOrder(s)
    ensures EndsInOrder(Apply(s, step))
  {
    var pc := At(s, step.t);
    match step
    case LockActivate(t, now) => if pc.Activating? { ActivateEndsInOrder(s, t, pc.d, now); }
    case LockRecord(t) => if pc.Recording? { RecordEndsInOrder(s, t, pc.bytes); }
    case LockEnd(t) => if pc.Ending? { LockedEndsInOrder(s, t, pc.reason); }
    case LockExpiry(t, now) => LockedEndsInOrder(s, t, "ttl_expired");
    case _ =>
  }

  lemma {:induction false} EndsInOrderAlways(steps: seq<Step>)
    ensures EndsInOrder(Run(steps))
  {
    if steps != [] {
      EndsInOrderAlways(steps[..|steps| - 1]);
      StepEndsInOrder(Run(steps[..|steps| - 1]), steps[|steps| - 1]);
    }
  }

  lemma {:induction false} HandedOnceAlways(steps: seq<Step>)
    ensures HandedOnce(Run(steps))
  {
    if steps == [] {
      forall e
        ensures PendingOf(Init().pcs, e) == {}
      {}
      assert Pending(Init().pcs) == {};
    } else {
      var s, step := Run(steps[..|steps| - 1]), steps[|steps| - 1];
      HandedOnceAlways(steps[..|steps| - 1]);
      StepKinds(s, step);
      if Apply(s, step) != s {
        HandsOnceAfter(s, Apply(s, step), step.t);
      }
    }
  }

  lemma CountOfDistinct(cs: seq<Closing>, i: nat)
    requires forall k :: 0 <= k < |cs| ==> cs[k].e.inst == k
    requires i < |cs|
    ensures multiset(Snapshots(cs))[cs[i].e] == 1
  {
    var a, x, b := Snapshots(cs)[..i], cs[i].e, Snapshots(cs)[i + 1..];
    assert Snapshots(cs) == a + [x] + b;
    assert x !in a && x !in b;
  }

  lemma TwiceCounts(es: seq<Ended>, i: nat, j: nat)
    requires i < j < |es|
    ensures es[i] == es[j] ==> multiset(es)[es[i]] >= 2
  {
    assert es == es[..j] + [es[j]] + es[j + 1..];
    assert es[..j][i] == es[i];
  }

  lemma FiredWasEnded(s: State, i: nat)
    requires EndsInOrder(s) && HandedOnce(s) && i < |s.fired|
    ensures s.fired[i].inst < |s.ended| && s.ended[s.fired[i].inst].e == s.fired[i]
  {
    var e := s.fired[i];
    assert e in multiset(s.fired);
    assert e in multiset(Snapshots(s.ended));
    var k :| 0 <= k < |s.ended| && Snapshots(s.ended)[k] == e;
  }

  /** In every interleaving: sessions created = callbacks made + callbacks about to be made +
      one if a session is active; and no session is snapshotted or reported twice. */
  lemma ExactlyOnceSessionEnd(steps: seq<Step>)
    ensures var s := Run(steps);
            && s.table.created == |s.fired| + |Pending(s.pcs)| + Live(s)
            && (forall i, j :: 0 <= i < j < |s.ended| ==> s.ended[i].e.inst != s.ended[j].e.inst)
            && (forall i :: 0 <= i < |s.ended| ==>
                  multiset(s.fired)[s.ended[i].e] + |PendingOf(s.pcs, s.ended[i].e)| == 1)
            && (forall i, j :: 0 <= i < j < |s.fired| ==> s.fired[i].inst != s.fired[j].inst)
  {
    var s := Run(steps);
    EndsInOrderAlways(steps);
    HandedOnceAlways(steps);
    forall i | 0 <= i < |s.ended|
      ensures multiset(s.fired)[s.ended[i].e] + |PendingOf(s.pcs, s.ended[i].e)| == 1
    {
      CountOfDistinct(s.ended, i);
    }
    forall i, j | 0 <= i < j < |s.fired|
      ensures s.fired[i].inst != s.fired[j].inst
    {
      FiredWasEnded(s, i);
      FiredWasEnded(s, j);
      TwiceCounts(s.fired, i, j);
      CountOfDistinct(s.ended, s.fired[i].inst);
      assert multiset(s.fired)[s.fired[i]] <= multiset(Snapshots(s.ended))[s.fired[i]] by {
        assert multiset(s.fired)[s.fired[i]] + |PendingOf(s.pcs, s.fired[i])| == multiset(Snapshots(s.ended))[s.fired[i]];
      }
    }
  }

  // ---- What each locked section does to the active session ----

  /** The steps before a locked section go on to it, and a callback is made when it is due. */
  lemma StepsGoOn(s: State, t: nat, bytes: int)
    ensures At(s, t).Idle? ==>
              && At(Apply(s, BeginCancel(t)), t) == Loading("cancelled") && !Apply(s, BeginCancel(t)).armed
              && At(Apply(s, BeginShutdown(t)), t) == Loading("shutdown")
    ensures At(s, t).Idle? && s.table.active.Some? ==>
              && At(Apply(s, LoadRecord(t, bytes)), t) == Recording(bytes)
              && At(Apply(s, LoadExpiry(t)), t) == Expiring
    ensures At(s, t).Loading? ==>
              At(Apply(s, LoadActive(t)), t) == if s.table.active.Some? then Ending(At(s, t).reason) else Idle
    ensures At(s, t).Firing? ==> Apply(s, Fire(t)).fired == s.fired + [At(s, t).e]
  {}

  /** A due session, and no other, is ended by the section that checks the time. */
  lemma ExpiryEndsIff(steps: seq<Step>, t: nat, now: int)
    requires At(Run(steps), t).Expiring?
    ensures var s, s' := Run(steps), Apply(Run(steps), LockExpiry(t, now));
            match s.table.active
            case None => s'.table == s.table && s'.ended == s.ended
            case Some(cur) =>
              && (s'.table.active.None? <==> cur.expiresAt <= now)
              && (cur.expiresAt > now ==> s'.table == s.table && s'.ended == s.ended && At(s', t).Idle?)
              && (cur.expiresAt <= now ==> EndsWith(s, s', t, cur.spans, cur.bytes, "ttl_expired"))
  {}

  /** The session active in `s` has ended with these counts and this reason, and goroutine `t`
      is about to report it. */
  predicate EndsWith(s: State, s': State, t: nat, spans: int, bytes: int, reason: string)
    requires s.table.active.Some?
  {
    var cur := s.table.active.value;
    var e := Ended(cur.inst, cur.id, cur.version, spans, bytes, reason);
    && s'.table == s.table.(active := None)
    && |s'.ended| == |s.ended| + 1 && s'.ended[|s.ended|].e == e
    && At(s', t) == Firing(e, false)
  }

  /** Cancelling and shutting down end whatever session is active by then. */
  lemma EndingEnds(steps: seq<Step>, t: nat)
    requires At(Run(steps), t).Ending? && Run(steps).table.active.Some?
    ensures var s := Run(steps);
            EndsWith(s, Apply(s, LockEnd(t)), t, s.table.active.value.spans, s.table.active.value.bytes, At(s, t).reason)
  {}

  /** From `s` to `s'` a record of `bytes` has landed: counted, and ending the session when it
      uses up a budget, spans before bytes. */
  predicate Lands(s: State, s': State, t: nat, bytes: int)
    requires s.table.active.Some?
  {
    var cur := s.table.active.value;
    var spans', bytes' := cur.spans + 1, cur.bytes + bytes;
    && s'.landedSpans == s.landedSpans + 1 && s'.landedBytes == s.landedBytes + bytes
    && if 0 < cur.maxSpans <= spans' then EndsWith(s, s', t, spans', bytes', "span_budget")
       else if 0 < cur.maxBytes <= bytes' then EndsWith(s, s', t, spans', bytes', "payload_budget")
       else s'.table.active == Some(cur.(spans := spans', bytes := bytes')) && s'.ended == s.ended
  }

  lemma LockedRecordLands(s: State, t: nat, bytes: int)
    requires s.table.active.Some?
    ensures Lands(s, LockedRecord(s, t, bytes), t, bytes)
  {}

  /** A record lands in the session active by then. */
  lemma RecordLands(steps: seq<Step>, t: nat)
    requires At(Run(steps), t).Recording? && Run(steps).table.active.Some?
    ensures var s := Run(steps);
            Lands(s, Apply(s, LockRecord(t)), t, At(s, t).bytes)
  {
    var s := Run(steps);
    LockedRecordLands(s, t, At(s, t).bytes);
    assert Apply(s, LockRecord(t)) == LockedRecord(s, t, At(s, t).bytes);
  }

  // ---- Conservation of counts ----

  function SpanSum(cs: seq<Closing>): int {
    if cs == [] then 0 else SpanSum(cs[..|cs| - 1]) + cs[|cs| - 1].e.spans
  }

  function ByteSum(cs: seq<Closing>): int {
    if cs == [] then 0 else ByteSum(cs[..|cs| - 1]) + cs[|cs| - 1].e.bytes
  }

  ghost predicate Conserved(s: State) {
    && s.landedSpans == SpanSum(s.ended) + (if s.table.active.Some? then s.table.active.value.spans else 0)
    && s.landedBytes == ByteSum(s.ended) + (if s.table.active.Some? then s.table.active.value.bytes else 0)
  }

  lemma ActivateConserves(s: State, t: nat, d: Directive, now: int)
    requires Conserved(s)
    ensures Conserved(LockedActivate(s, t, d, now))
  {
    if s.table.active.Some? {
      var cur := s.table.active.value;
      SumPush(s.ended, Closing(EndedOf(cur, "superseded"), cur.maxSpans, cur.maxBytes, s.updated, s.last));
    }
  }

  lemma RecordConserves(s: State, t: nat, bytes: int)
    requires Conserved(s)
    ensures Conserved(LockedRecord(s, t, bytes))
  {
    if s.table.active.Some? {
      var cur, c := s.table.active.value, Counted(s.table.active.value, bytes);
      SumPush(s.ended, Closing(EndedOf(c, BudgetReason(c)), cur.maxSpans, cur.maxBytes, s.updated, bytes));
    }
  }

  lemma EndConserves(s: State, t: nat, reason: string)
    requires Conserved(s)
    ensures Conserved(LockedEnd(s, t, Deactivated(s.table, reason)))
  {
    if s.table.active.Some? {
      var cur := s.table.active.value;
      SumPush(s.ended, Closing(EndedOf(cur, reason), cur.maxSpans, cur.maxBytes, s.updated, s.last));
    }
  }

  lemma StepConserves(s: State, step: Step)
    requires Conserved(s)
    ensures Conserved(Apply(s, step))
  {
    var pc := At(s, step.t);
    match step
    case LockActivate(t, now) => if pc.Activating? { ActivateConserves(s, t, pc.d, now); }
    case LockRecord(t) => if pc.Recording? { RecordConserves(s, t, pc.bytes); }
    case LockEnd(t) => if pc.Ending? { EndConserves(s, t, pc.reason); }
    case LockExpiry(t, now) => EndConserves(s, t, "ttl_expired");
    case _ =>
  }

  lemma SumPush(cs: seq<Closing>, c: Closing)
    ensures SpanSum(cs + [c]) == SpanSum(cs) + c.e.spans && ByteSum(cs + [c]) == ByteSum(cs) + c.e.bytes
  {
    assert (cs + [c])[..|cs|] == cs;
  }

  /** In every interleaving, superseding, updating in place or ending a session loses no
      counts: the records that landed under the lock are those in the snapshots taken plus
      those of the active session. */
  lemma {:induction false} CountsConserved(steps: seq<Step>)
    ensures Conserved(Run(steps))
  {
    if steps != [] {
      CountsConserved(steps[..|steps| - 1]);
      StepConserves(Run(steps[..|steps| - 1]), steps[|steps| - 1]);
    }
  }

  // ---- Budgets ----

  ghost predicate KnownReasons(s: State) {
    forall t :: t in s.pcs ==> ReasonKnown(s.pcs[t])
  }

  /** What a snapshot says about the budgets of a session never updated in place. */
  predicate WithinLimits(c: Closing) {
    && (c.maxSpans > 0 ==> c.e.spans <= c.maxSpans)
    && (c.e.reason == "span_budget" ==> c.maxSpans > 0 && c.e.spans == c.maxSpans)
    && (c.e.reason == "payload_budget" ==> c.maxBytes > 0 && 0 <= c.e.bytes - c.maxBytes < c.last)
  }

  /** What holds even if an update moved the limits. */
  predicate ReasonGiven(c: Closing) {
    && (c.e.reason == "span_budget" ==> 0 < c.maxSpans <= c.e.spans)
    && (c.e.reason == "payload_budget" ==> 0 < c.maxBytes <= c.e.bytes)
  }

  ghost predicate Budgeted(s: State) {
    && KnownReasons(s)
    && ActiveBudgeted(s)
    && AllOk(s.ended)
  }

  predicate ReasonKnown(pc: Pc) {
    pc.Loading? || pc.Ending? ==> pc.reason == "cancelled" || pc.reason == "shutdown"
  }

  lemma StepReasonKnown(s: State, step: Step)
    requires ReasonKnown(At(s, step.t))
    ensures ReasonKnown(At(Apply(s, step), step.t))
  {}

  lemma StepKnownReasons(s: State, step: Step)
    requires KnownReasons(s)
    ensures KnownReasons(Apply(s, step))
  {
    StepKinds(s, step);
    StepReasonKnown(s, step);
  }

  ghost predicate ActiveBudgeted(s: State) {
    s.table.active.Some? && !s.updated ==> BudgetReason(s.table.active.value) == ""
  }

  predicate ClosingOk(c: Closing) {
    ReasonGiven(c) && (!c.updated ==> WithinLimits(c))
  }

  lemma StepActiveBudgeted(s: State, step: Step)
    requires ActiveBudgeted(s)
    ensures ActiveBudgeted(Apply(s, step))
  {}

  /** The snapshot of a session that stops for another reason than its budget. */
  lemma OtherClosingOk(cur: Session, reason: string, updated: bool, last: int)
    requires reason in {"superseded", "cancelled", "shutdown", "ttl_expired"}
    requires !updated ==> BudgetReason(cur) == ""
    ensures ClosingOk(Closing(EndedOf(cur, reason), cur.maxSpans, cur.maxBytes, updated, last))
  {
    assert reason[0] != 'p' && reason[1] != 'p';
  }

  lemma RecordClosingOk(cur: Session, bytes: int, updated: bool)
    requires BudgetReason(Counted(cur, bytes)) != ""
    requires !updated ==> BudgetReason(cur) == ""
    ensures ClosingOk(Closing(EndedOf(Counted(cur, bytes), BudgetReason(Counted(cur, bytes))),
                              cur.maxSpans, cur.maxBytes, updated, bytes))
  {
    var reason := BudgetReason(Counted(cur, bytes));
    assert "span_budget"[0] == 's' && "payload_budget"[0] == 'p';
  }

  lemma NewClosingOk(s: State, step: Step)
    requires KnownReasons(s) && ActiveBudgeted(s)
    requires |Apply(s, step).ended| == |s.ended| + 1
    ensures ClosingOk(Apply(s, step).ended[|s.ended|])
  {
    var pc := At(s, step.t);
    var cur := s.table.active.value;
    match step
    case LockActivate(_, _) => OtherClosingOk(cur, "superseded", s.updated, s.last);
    case LockEnd(_) => OtherClosingOk(cur, pc.reason, s.updated, s.last);
    case LockExpiry(_, _) => OtherClosingOk(cur, "ttl_expired", s.updated, s.last);
    case LockRecord(_) => RecordClosingOk(cur, pc.bytes, s.updated);
  }

  lemma StepBudgeted(s: State, step: Step)
    requires Budgeted(s)
    ensures Budgeted(Apply(s, step))
  {
    StepKnownReasons(s, step);
    StepActiveBudgeted(s, step);
    StepKinds(s, step);
    var ended, ended' := s.ended, Apply(s, step).ended;
    if |ended'| == |ended| + 1 {
      NewClosingOk(s, step);
      AllOkPush(ended, ended'[|ended|]);
      assert ended' == ended + [ended'[|ended|]];
    }
  }

  predicate AllOk(cs: seq<Closing>) {
    forall i :: 0 <= i < |cs| ==> ClosingOk(cs[i])
  }

  lemma AllOkPush(cs: seq<Closing>, c: Closing)
    requires AllOk(cs) && ClosingOk(c)
    ensures AllOk(cs + [c])
  {}

  /** In every interleaving, a session that is never updated in place records at most
      `maxSpans` spans when that is positive; one ended for its span budget recorded exactly
      that many; one ended for its payload budget overshot it by less than its last span. */
  lemma {:induction false} BudgetsRespected(steps: seq<Step>)
    ensures Budgeted(Run(steps))
  {
    if steps != [] {
      BudgetsRespected(steps[..|steps| - 1]);
      StepBudgeted(Run(steps[..|steps| - 1]), steps[|steps| - 1]);
    }
  }

  /** The active session still has room for a span. */
  predicate HasRoom(s: State) {
    s.table.active.Some? && s.table.active.value.maxSpans > 0 ==>
      s.table.active.value.spans < s.table.active.value.maxSpans
  }

  /** A same-id update whose span budget is already used up. */
  predicate UpdatesBelowCount(s: State, step: Step) {
    && step.LockActivate? && At(s, step.t).Activating?
    && s.table.active.Some? && s.table.active.value.id == At(s, step.t).d.id
    && At(s, step.t).d.maxSpans > 0 && s.table.active.value.spans >= At(s, step.t).d.maxSpans
  }

  /** "An active session is under its span budget" survives a step exactly when the step is
      not an update to a budget already used up. */
  lemma HasRoomIff(s: State, step: Step)
    requires HasRoom(s)
    ensures HasRoom(Apply(s, step)) <==> !UpdatesBelowCount(s, step)
  {}

  lemma RunPush(steps: seq<Step>, step: Step)
    ensures Run(steps + [step]) == Apply(Run(steps), step)
  {
    var all := steps + [step];
    assert all[..|all| - 1] == steps;
  }

  /** An update can leave a session active with its budget used up. */
  lemma UpdateCanExhaustBudget()
    ensures exists steps :: !HasRoom(Run(steps))
  {
    var steps := OneSpanRecorded();
    var narrow := Directive("a", 2, 10, 1, 0);
    RunPush(steps, BeginActivate(0, narrow, 0));
    RunPush(steps + [BeginActivate(0, narrow, 0)], LockActivate(0, 0));
    assert !HasRoom(Run(steps + [BeginActivate(0, narrow, 0)] + [LockActivate(0, 0)]));
  }

  lemma OneSpanRecorded() returns (steps: seq<Step>)
    ensures var s := Run(steps);
            At(s, 0).Idle? && s.table.active.Some? && s.table.active.value.id == "a" && s.table.active.value.spans == 1
  {
    steps := SessionStarted();
    RunPush(steps, LoadRecord(1, 7));
    steps := steps + [LoadRecord(1, 7)];
    RunPush(steps, LockRecord(1));
    steps := steps + [LockRecord(1)];
  }

  lemma SessionStarted() returns (steps: seq<Step>)
    ensures var s := Run(steps);
            && At(s, 0).Idle? && At(s, 1).Idle?
            && s.table.active == Some(Session(0, "a", 1, 0, 10, 5, 0, 0, 0))
            && s.armed && s.fired == [] && s.pcs.Keys <= {0, 1}
  {
    var wide := Directive("a", 1, 10, 5, 0);
    RunPush([], BeginActivate(0, wide, 0));
    RunPush([] + [BeginActivate(0, wide, 0)], LockActivate(0, 0));
    steps := [] + [BeginActivate(0, wide, 0)] + [LockActivate(0, 0)];
    RunPush(steps, Arm(0, true));
    steps := steps + [Arm(0, true)];
  }

  // ---- Rules and sessions ----

  /** What a step does to the rules: an accepted directive arms some or none, a cancelling one
      clears them, and any other step leaves them. */
  function RuleEffect(s: State, step: Step): Option<bool> {
    if step.Arm? && At(s, step.t).Arming? then Some(step.rules)
    else if step.BeginCancel? && At(s, step.t).Idle? then Some(false)
    else None
  }

  lemma StepRules(s: State, step: Step)
    ensures var effect := RuleEffect(s, step);
            Apply(s, step).armed == if effect.Some? then effect.value else s.armed
    ensures s.table.active.Some? && Apply(s, step).table.active.None? ==> RuleEffect(s, step).None?
  {}

  /** The effect of each step of a run. */
  function RuleEffects(steps: seq<Step>): (effects: seq<Option<bool>>)
    ensures |effects| == |steps|
  {
    if steps == [] then []
    else
      var before := steps[..|steps| - 1];
      RuleEffects(before) + [RuleEffect(Run(before), steps[|steps| - 1])]
  }

  /** Effect k armed rules and no later step has touched them. */
  predicate LastArms(effects: seq<Option<bool>>, k: nat) {
    k < |effects| && effects[k] == Some(true) && forall j :: k < j < |effects| ==> effects[j].None?
  }

  /** In every interleaving rules are armed exactly when the last directive that took effect on
      them armed some; however many sessions have ended since makes no difference. */
  lemma {:induction false} OnlyDirectivesChangeRules(steps: seq<Step>)
    ensures Run(steps).armed <==> exists k: nat :: LastArms(RuleEffects(steps), k)
  {
    if steps != [] {
      var before, last := steps[..|steps| - 1], steps[|steps| - 1];
      OnlyDirectivesChangeRules(before);
      StepRules(Run(before), last);
      assert RuleEffects(steps) == RuleEffects(before) + [RuleEffect(Run(before), last)];
      LastArmsPush(RuleEffects(before), RuleEffect(Run(before), last));
    }
  }

  lemma LastArmsPush(effects: seq<Option<bool>>, effect: Option<bool>)
    ensures (exists k: nat :: LastArms(effects + [effect], k)) <==>
            if effect.Some? then effect.value else exists k: nat :: LastArms(effects, k)
  {
    var all := effects + [effect];
    if effect == Some(true) {
      assert LastArms(all, |effects|);
    }
    if k: nat :| LastArms(effects, k) && effect.None? {
      assert LastArms(all, k);
    }
    if k: nat :| LastArms(all, k) && k < |effects| {
      assert all[|effects|].None?;
      assert forall j :: 0 <= j < |effects| ==> all[j] == effects[j];
      assert LastArms(effects, k);
    }
  }

  /** So capture does not stop with the session: here it expires and its callback runs, no
      goroutine has anything left to do, and the rules are still armed. */
  lemma RulesOutliveSession()
    ensures exists steps ::
      var s := Run(steps);
      s.table.active.None? && s.armed && |s.fired| == 1 && forall t :: t in s.pcs ==> s.pcs[t].Idle?
  {
    var steps := SessionExpired();
    RunPush(steps, Fire(1));
    var s := Run(steps + [Fire(1)]);
    assert s.table.active.None? && s.armed && |s.fired| == 1 && forall t :: t in s.pcs ==> s.pcs[t].Idle?;
  }

  lemma SessionExpired() returns (steps: seq<Step>)
    ensures var s := Run(steps);
            && s.table.active.None? && s.armed && s.fired == [] && s.pcs.Keys <= {0, 1}
            && At(s, 0).Idle? && At(s, 1).Firing? && !At(s, 1).arm
  {
    steps := SessionStarted();
    RunPush(steps, LoadExpiry(1));
    steps := steps + [LoadExpiry(1)];
    RunPush(steps, LockExpiry(1, 10));
    steps := steps + [LockExpiry(1, 10)];
  }
}
