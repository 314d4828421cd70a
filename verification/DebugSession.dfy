/** The process-wide debug session: what each section under the session lock does, as a
    function on the locked state and as the code that does it in place. */
module DebugSession {
  import opened Options

  /** `inst` numbers the sessions created so far; a same-id update keeps it. */
  datatype Session = Session(
    inst: nat, id: string, version: int, startedAt: int, expiresAt: int,
    maxSpans: int, maxBytes: int, spans: int, bytes: int)

  datatype Directive = Directive(id: string, version: int, expiresAt: int, maxSpans: int, maxBytes: int)

  /** A session taken out of the table, with its final counts and the reason. */
  datatype Ended = Ended(inst: nat, id: string, version: int, spans: int, bytes: int, reason: string)

  /** What the session lock protects. */
  datatype Table = Table(active: Option<Session>, created: nat)

  // ---- The locked sections ----

  predicate Acceptable(d: Directive, now: int) {
    d.id != "" && d.expiresAt > 0 && d.expiresAt > now
  }

  function EndedOf(s: Session, reason: string): Ended {
    Ended(s.inst, s.id, s.version, s.spans, s.bytes, reason)
  }

  /** Updates the session with the same id, or starts a new one and ends the other. */
  function Activated(t: Table, d: Directive, now: int): (Table, Option<Ended>) {
    if t.active.Some? && t.active.value.id == d.id then
      (t.(active := Some(t.active.value.(version := d.version, expiresAt := d.expiresAt,
                                         maxSpans := d.maxSpans, maxBytes := d.maxBytes))), None)
    else
      (Table(Some(Session(t.created, d.id, d.version, now, d.expiresAt, d.maxSpans, d.maxBytes, 0, 0)), t.created + 1),
       if t.active.Some? then Some(EndedOf(t.active.value, "superseded")) else None)
  }

  function Deactivated(t: Table, reason: string): (Table, Option<Ended>) {
    match t.active
    case None => (t, None)
    case Some(s) => (t.(active := None), Some(EndedOf(s, reason)))
  }

  /** Why a session with these counts stops, or "". */
  function BudgetReason(s: Session): string {
    if s.maxSpans > 0 && s.spans >= s.maxSpans then "span_budget"
    else if s.maxBytes > 0 && s.bytes >= s.maxBytes then "payload_budget"
    else ""
  }

  function Counted(s: Session, bytes: int): Session {
    s.(spans := s.spans + 1, bytes := s.bytes + bytes)
  }

  function Recorded(t: Table, bytes: int): (Table, Option<Ended>) {
    match t.active
    case None => (t, None)
    case Some(s) =>
      var c := Counted(s, bytes);
      if BudgetReason(c) == "" then (t.(active := Some(c)), None)
      else (t.(active := None), Some(EndedOf(c, BudgetReason(c))))
  }

  function Expired(t: Table, now: int): (Table, Option<Ended>) {
    if t.active.Some? && now >= t.active.value.expiresAt then Deactivated(t, "ttl_expired") else (t, None)
  }

  // ---- The same sections, as they run ----

  class LiveSession {
    const inst: nat
    const id: string
    const version: int
    const startedAt: int
    const expiresAt: int
    const maxSpans: int
    const maxBytes: int
    var spans: int
    var bytes: int

    constructor (inst: nat, d: Directive, startedAt: int, spans: int, bytes: int)
      ensures View() == Session(inst, d.id, d.version, startedAt, d.expiresAt, d.maxSpans, d.maxBytes, spans, bytes)
    {
      this.inst, this.id, this.version, this.startedAt := inst, d.id, d.version, startedAt;
      this.expiresAt, this.maxSpans, this.maxBytes := d.expiresAt, d.maxSpans, d.maxBytes;
      this.spans, this.bytes := spans, bytes;
    }

    function View(): Session
      reads this
    {
      Session(inst, id, version, startedAt, expiresAt, maxSpans, maxBytes, spans, bytes)
    }
  }

  /** The tracker, used by one goroutine at a time; `fired` lists the callbacks made. */
  class Tracker {
    var active: LiveSession?
    var created: nat
    var fired: seq<Ended>

    constructor ()
      ensures View() == Table(None, 0) && fired == [] && active == null
    {
      active, created, fired := null, 0, [];
    }

    function View(): Table
      reads this, active
    {
      Table(if active == null then None else Some(active.View()), created)
    }

    function Fired(e: Option<Ended>): seq<Ended>
      reads this
    {
      if e.Some? then fired + [e.value] else fired
    }

    method FireDeactivate(e: Ended)
      modifies this`fired
      ensures fired == old(fired) + [e]
    {
      fired := fired + [e];
    }

    method Activate(d: Directive, now: int) returns (ok: bool)
      modifies this
      ensures ok <==> d.id != "" && 0 < d.expiresAt && now < d.expiresAt
      ensures ok ==> var s := old(View()).active;
                var s' := View().active;
                && s'.Some? && s'.value.id == d.id && s'.value.version == d.version
                && s'.value.expiresAt == d.expiresAt
                && s'.value.maxSpans == d.maxSpans && s'.value.maxBytes == d.maxBytes
                && if s.Some? && s.value.id == d.id then
                     && s'.value.inst == s.value.inst && s'.value.startedAt == s.value.startedAt
                     && s'.value.spans == s.value.spans && s'.value.bytes == s.value.bytes
                     && View().created == old(View()).created && fired == old(fired)
                   else
                     && s'.value.inst == old(View()).created && s'.value.startedAt == now
                     && s'.value.spans == 0 && s'.value.bytes == 0
                     && View().created == old(View()).created + 1
                     && fired == old(fired) + (if s.None? then [] else
                          [Ended(s.value.inst, s.value.id, s.value.version, s.value.spans, s.value.bytes, "superseded")])
      ensures ok == Acceptable(d, now)
      ensures !ok ==> View() == old(View()) && fired == old(fired)
      ensures ok ==> View() == Activated(old(View()), d, now).0
      ensures ok ==> fired == old(Fired(Activated(View(), d, now).1))
    {
      if d.id == "" || d.expiresAt <= 0 {
        return false;
      }
      if d.expiresAt <= now {
        return false;
      }
      var superseded: Option<Ended> := None;
      var cur := active;
      if cur != null && cur.id == d.id {
        active := new LiveSession(cur.inst, d, cur.startedAt, cur.spans, cur.bytes);
        return true;
      }
      if cur != null {
        superseded := Some(EndedOf(cur.View(), "superseded"));
      }
      active := new LiveSession(created, d, now, 0, 0);
      created := created + 1;
      if superseded.Some? {
        FireDeactivate(superseded.value);
      }
      return true;
    }

    method Deactivate(reason: string)
      modifies this
      ensures View().active.None? && View().created == old(View()).created
      ensures fired == old(fired) + (if old(View()).active.None? then [] else
                var s := old(View()).active.value;
                [Ended(s.inst, s.id, s.version, s.spans, s.bytes, reason)])
      ensures View() == Deactivated(old(View()), reason).0
      ensures fired == old(Fired(Deactivated(View(), reason).1))
    {
      var cur := active;
      if cur == null {
        return;
      }
      var snap := EndedOf(cur.View(), reason);
      active := null;
      FireDeactivate(snap);
    }

    method RecordSpanEmitted(byteCount: int)
      modifies this, active
      ensures old(View()).active.None? ==> View() == old(View()) && fired == old(fired)
      ensures old(View()).active.Some? ==>
                var s := old(View()).active.value;
                var spans, bytes := s.spans + 1, s.bytes + byteCount;
                if 0 < s.maxSpans <= spans || 0 < s.maxBytes <= bytes then
                  && View().active.None?
                  && fired == old(fired) + [Ended(s.inst, s.id, s.version, spans, bytes,
                                                  if 0 < s.maxSpans <= spans then "span_budget" else "payload_budget")]
                else
                  View().active == Some(s.(spans := spans, bytes := bytes)) && fired == old(fired)
      ensures View().created == old(View()).created
      ensures View() == Recorded(old(View()), byteCount).0
      ensures fired == old(Fired(Recorded(View(), byteCount).1))
    {
      var cur := active;
      if cur == null {
        return;
      }
      cur.spans := cur.spans + 1;
      cur.bytes := cur.bytes + byteCount;
      var reason := "";
      if cur.maxSpans > 0 && cur.spans >= cur.maxSpans {
        reason := "span_budget";
      } else if cur.maxBytes > 0 && cur.bytes >= cur.maxBytes {
        reason := "payload_budget";
      }
      if reason == "" {
        return;
      }
      var snap := EndedOf(cur.View(), reason);
      active := null;
      FireDeactivate(snap);
    }

    method CheckTTL(now: int)
      modifies this
      ensures old(View()).active.None? || now < old(View()).active.value.expiresAt ==>
                View() == old(View()) && fired == old(fired)
      ensures old(View()).active.Some? && now >= old(View()).active.value.expiresAt ==>
                var s := old(View()).active.value;
                && View().active.None? && View().created == old(View()).created
                && fired == old(fired) + [Ended(s.inst, s.id, s.version, s.spans, s.bytes, "ttl_expired")]
      ensures View() == Expired(old(View()), now).0
      ensures fired == old(Fired(Expired(View(), now).1))
    {
      var cur := active;
      if cur == null {
        return;
      }
      if now < cur.expiresAt {
        return;
      }
      var snap := EndedOf(cur.View(), "ttl_expired");
      active := null;
      FireDeactivate(snap);
    }
  }
}
