/** The control channel: its reconnect loop, and what a directive and a stop do to the session
    and the rules together. */
module Uplink {
  import opened Options
  import opened DebugSession
  import opened CaptureRules
  import Conditions

  // ---- Reconnecting ----

  /** Where a turn of the loop notices that it should quit. */
  datatype Quit = Never | BeforeDial | AfterDial | DuringWait

  /** One turn: whether a connection was made before it failed, and the random number drawn. */
  datatype Turn = Turn(connected: bool, rand: real, quit: Quit)

  function Min(a: real, b: real): real {
    if b < a then b else a
  }

  function Max(a: real, b: real): real {
    if b > a then b else a
  }

  function Pow(k: nat): real {
    if k == 0 then 1.0 else Pow(k - 1) * 1.5
  }

  /** Turns since the last one that connected, or since the first. */
  function Failures(turns: seq<Turn>, i: nat): nat
    requires i < |turns|
  {
    if i == 0 || turns[i].connected then 0 else Failures(turns, i - 1) + 1
  }

  function Backoff(turns: seq<Turn>, i: nat): real
    requires i < |turns|
  {
    Min(30.0, Pow(Failures(turns, i)))
  }

  function Jittered(backoff: real, rand: real): real {
    backoff + backoff * 0.2 * (rand * 2.0 - 1.0)
  }

  function Wait(backoff: real, rand: real): real {
    Min(30.0, Max(1.0, Jittered(backoff, rand)))
  }

  /** The backoff carried into turn i by the turns before it. */
  function Carried(turns: seq<Turn>, i: nat): real
    requires i <= |turns|
  {
    if i == 0 then 1.0 else Min(30.0, Backoff(turns, i - 1) * 1.5)
  }

  method WaitFrom(backoff: real, rand: real) returns (wait: real)
    ensures wait == Wait(backoff, rand)
  {
    var jitter := backoff * 0.2 * (rand * 2.0 - 1.0);
    wait := Min(30.0, Max(1.0, backoff + jitter));
  }

  /** The waits it starts: each from min(30, 1.5^k), k turns after the last connection.  It
      stops at the first turn that notices a quit. */
  method Run(turns: seq<Turn>) returns (waits: seq<real>, stopped: Option<nat>)
    ensures stopped.None? ==> |waits| == |turns| && forall j :: 0 <= j < |turns| ==> turns[j].quit.Never?
    ensures stopped.Some? ==>
              && stopped.value < |turns| && !turns[stopped.value].quit.Never?
              && (forall j :: 0 <= j < stopped.value ==> turns[j].quit.Never?)
              && |waits| == stopped.value + (if turns[stopped.value].quit.DuringWait? then 1 else 0)
    ensures forall i :: 0 <= i < |waits| ==> waits[i] == Wait(Backoff(turns, i), turns[i].rand)
  {
    waits := [];
    var backoff := 1.0;
    for i := 0 to |turns|
      invariant |waits| == i && forall j :: 0 <= j < i ==> turns[j].quit.Never?
      invariant backoff == Carried(turns, i)
      invariant forall j :: 0 <= j < i ==> waits[j] == Wait(Backoff(turns, j), turns[j].rand)
    {
      if turns[i].quit.BeforeDial? {
        return waits, Some(i);
      }
      var connected := turns[i].connected;
      if turns[i].quit.AfterDial? {
        return waits, Some(i);
      }
      if connected {
        backoff := 1.0;
      }
      BackoffStep(turns, i);
      var wait := WaitFrom(backoff, turns[i].rand);
      waits := waits + [wait];
      if turns[i].quit.DuringWait? {
        return waits, Some(i);
      }
      backoff := Min(30.0, backoff * 1.5);
    }
    return waits, None;
  }

  lemma {:induction false} PowGrows(j: nat, k: nat)
    requires j <= k
    ensures 1.0 <= Pow(j) <= Pow(k)
    decreases k
  {
    if j < k {
      PowGrows(j, k - 1);
    } else if k > 0 {
      PowGrows(j - 1, k - 1);
    }
  }

  /** Clamping at every step gives the same as clamping the power once. */
  lemma BackoffStep(turns: seq<Turn>, i: nat)
    requires i < |turns|
    ensures Backoff(turns, i) == if turns[i].connected then 1.0 else Carried(turns, i)
  {
    if i > 0 {
      PowGrows(0, Failures(turns, i - 1));
    }
  }

  /** The backoff is between 1 and 30, and is 30 exactly from the ninth failure on. */
  lemma BackoffBounds(turns: seq<Turn>, i: nat)
    requires i < |turns|
    ensures 1.0 <= Backoff(turns, i) <= 30.0
    ensures Backoff(turns, i) == 30.0 <==> Failures(turns, i) >= 9
  {
    var k := Failures(turns, i);
    PowGrows(0, k);
    assert Pow(4) == 5.0625 by {
      assert Pow(2) == 2.25;
    }
    assert Pow(6) == 11.390625;
    assert Pow(8) == 25.62890625;
    assert Pow(9) == 38.443359375;
    if k >= 9 {
      PowGrows(9, k);
    } else {
      PowGrows(k, 8);
    }
  }

  /** Counted from the last turn that connected, or from the first, the backoff grows by half with
      each turn until it is cut off at 30. */
  lemma {:induction false} BackoffSince(turns: seq<Turn>, c: nat, i: nat)
    requires c <= i < |turns| && (c == 0 || turns[c].connected) && forall j :: c < j <= i ==> !turns[j].connected
    ensures Failures(turns, i) == i - c
    ensures Backoff(turns, i) == if Pow(i - c) < 30.0 then Pow(i - c) else 30.0
    ensures i == c ==> Backoff(turns, i) == 1.0
    ensures c < i ==> Backoff(turns, i) == if Backoff(turns, i - 1) * 1.5 < 30.0 then Backoff(turns, i - 1) * 1.5 else 30.0
    decreases i - c
  {
    BackoffStep(turns, i);
    if c < i {
      BackoffSince(turns, c, i - 1);
    }
  }

  /** The wait is four fifths of the backoff plus two fifths of it times the number drawn, cut to
      between 1 and 30. */
  lemma WaitIs(backoff: real, rand: real)
    ensures var x := backoff * 0.8 + (backoff * rand) * 0.4;
            Wait(backoff, rand) == if x < 1.0 then 1.0 else if x > 30.0 then 30.0 else x
  {
    assert Jittered(backoff, rand) == backoff * 0.8 + (backoff * rand) * 0.4;
  }

  /** Every wait is between 1 and 30 seconds and within a fifth of the backoff, before and after
      it is clamped. */
  lemma WaitBounds(turns: seq<Turn>, i: nat)
    requires i < |turns| && 0.0 <= turns[i].rand < 1.0
    ensures var b := Backoff(turns, i);
            && 1.0 <= Wait(b, turns[i].rand) <= 30.0
            && 0.8 * b <= Jittered(b, turns[i].rand) < 1.2 * b
            && 0.8 * b <= Wait(b, turns[i].rand) < 1.2 * b
  {
    BackoffBounds(turns, i);
    JitterBounds(Backoff(turns, i), turns[i].rand);
  }

  lemma JitterBounds(b: real, rand: real)
    requires b > 0.0 && 0.0 <= rand < 1.0
    ensures 0.8 * b <= Jittered(b, rand) < 1.2 * b
  {
    Product(b, rand);
    assert Jittered(b, rand) == 0.8 * b + 0.4 * (b * rand);
  }

  lemma Product(b: real, rand: real)
    requires b > 0.0 && 0.0 <= rand < 1.0
    ensures 0.0 <= b * rand < b
  {
    var rest := 1.0 - rand;
    assert b * rest > 0.0;
    assert b * rest == b - b * rand;
  }

  // ---- Directives ----

  datatype WireDirective = WireDirective(
    id: string, version: int, expiresAt: int, maxSpans: int, maxBytes: string, rules: seq<Option<WireRule>>)

  datatype Message = SessionExpired(e: Ended) | RulesAck(id: string, version: int)

  /** A byte budget that is absent or does not parse is no budget. */
  function Parsed(w: WireDirective, parseInt: string -> Option<int>): (d: Directive)
    ensures d.id == w.id && d.expiresAt == w.expiresAt && d.version == w.version && d.maxSpans == w.maxSpans
    ensures w.maxBytes != "" && parseInt(w.maxBytes).Some? ==> d.maxBytes == parseInt(w.maxBytes).value
    ensures w.maxBytes == "" || parseInt(w.maxBytes).None? ==> d.maxBytes == 0
  {
    var bytes := if w.maxBytes == "" then None else parseInt(w.maxBytes);
    Directive(w.id, w.version, w.expiresAt, w.maxSpans, if bytes.Some? then bytes.value else 0)
  }

  /** What is sent when the session `s`, if any, ends. */
  function Report(connected: bool, s: Option<Session>, reason: string): seq<Message> {
    if connected && s.Some? then
      [SessionExpired(Ended(s.value.inst, s.value.id, s.value.version, s.value.spans, s.value.bytes, reason))]
    else []
  }

  /** The uplink with the session and rules it drives; `connected` tells whether the callback
      finds a socket to send on. */
  class Client {
    const tracker: Tracker
    const store: Store
    var connected: bool
    var sent: seq<Message>
    var quitClosed: bool
    var closes: nat

    constructor ()
      ensures Valid() && fresh(tracker) && fresh(store) && sent == [] && !quitClosed && !connected
      ensures tracker.View() == Table(None, 0) && tracker.fired == [] && store.Holding([])
    {
      tracker := new Tracker();
      store := new Store();
      connected, sent, quitClosed, closes := false, [], false, 0;
    }

    /** The quit channel is never closed twice. */
    ghost predicate Valid()
      reads this
    {
      closes == if quitClosed then 1 else 0
    }

    /** A session that ended while a socket is open is reported on it. */
    function Told(e: Option<Ended>): seq<Message>
      reads this
    {
      if e.Some? && connected then sent + [SessionExpired(e.value)] else sent
    }

    /** Reports what was fired since there were `already` of them. */
    method Relay(already: nat)
      requires already <= |tracker.fired| <= already + 1
      modifies this`sent
      ensures sent == old(sent) + (if connected && already < |tracker.fired|
                                   then [SessionExpired(tracker.fired[already])] else [])
      ensures sent == old(Told(if |tracker.fired| == already then None else Some(tracker.fired[already])))
    {
      if |tracker.fired| > already && connected {
        sent := sent + [SessionExpired(tracker.fired[already])];
      }
    }

    /** Empty rules cancel the session; a directive that is not acceptable changes nothing, not
        even the rules; any other starts or updates the session, reports the one it supersedes,
        replaces the rules and is acknowledged, in this order. */
    method HandleRules(w: WireDirective, lib: Conditions.Lib, parseInt: string -> Option<int>, now: int)
      requires Valid()
      modifies this`sent, tracker, store
      ensures Valid()
      ensures w.rules == [] ==>
                && store.Holding([])
                && tracker.View().active.None?
                && sent == old(sent) + Report(connected, old(tracker.View()).active, "cancelled")
                && tracker.View() == Deactivated(old(tracker.View()), "cancelled").0
                && sent == old(Told(Deactivated(tracker.View(), "cancelled").1))
      ensures w.rules != [] && !(w.id != "" && 0 < w.expiresAt && now < w.expiresAt) ==>
                && tracker.View() == old(tracker.View()) && tracker.fired == old(tracker.fired)
                && store.active == old(store.active) && sent == old(sent)
      ensures w.rules != [] && w.id != "" && 0 < w.expiresAt && now < w.expiresAt ==>
                && tracker.View() == Activated(old(tracker.View()), Parsed(w, parseInt), now).0
                && store.Holding(Rules(lib, w.rules))
                && tracker.View().active.Some? && tracker.View().active.value.id == w.id
                && (var s := old(tracker.View()).active;
                    sent == old(sent)
                            + (if s.Some? && s.value.id == w.id then [] else Report(connected, s, "superseded"))
                            + [RulesAck(w.id, w.version)])
                && sent == old(Told(Activated(tracker.View(), Parsed(w, parseInt), now).1))
                           + [RulesAck(w.id, w.version)]
    {
      var already := |tracker.fired|;
      if |w.rules| == 0 {
        store.Clear();
        if tracker.active != null {
          tracker.Deactivate("cancelled");
          Relay(already);
        }
        return;
      }
      var maxBytes := 0;
      if w.maxBytes != "" {
        var n := parseInt(w.maxBytes);
        if n.Some? {
          maxBytes := n.value;
        }
      }
      var ok := tracker.Activate(Directive(w.id, w.version, w.expiresAt, w.maxSpans, maxBytes), now);
      if !ok {
        return;
      }
      Relay(already);
      store.SetRules(lib, w.rules);
      sent := sent + [RulesAck(w.id, w.version)];
    }

    /** Stopping ends and reports the session, leaves the rules alone, and closes the quit
        channel unless an earlier stop has. */
    method Stop()
      requires Valid()
      modifies this`sent, this`quitClosed, this`closes, tracker
      ensures Valid() && quitClosed
      ensures tracker.View().active.None?
      ensures sent == old(sent) + Report(connected, old(tracker.View()).active, "shutdown")
      ensures tracker.View() == Deactivated(old(tracker.View()), "shutdown").0
      ensures sent == old(Told(Deactivated(tracker.View(), "shutdown").1))
      ensures store.active == old(store.active)
    {
      var already := |tracker.fired|;
      if tracker.active != null {
        tracker.Deactivate("shutdown");
        Relay(already);
      }
      if !quitClosed {
        quitClosed := true;
        closes := closes + 1;
      }
    }
  }
}
