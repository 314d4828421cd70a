/** The user-attribution API, changing the active set and the buffer in place. */
module AttributionApi {
  import opened UserAttribution

  predicate IsSpace(c: char) {
    c == ' ' || '\t' <= c <= '\r' || c == '\U{0085}' || c == '\U{00A0}' || c == '\U{1680}'
    || '\U{2000}' <= c <= '\U{200a}' || c == '\U{2028}' || c == '\U{2029}' || c == '\U{202f}'
    || c == '\U{205f}' || c == '\U{3000}'
  }

  function TrimLeft(s: string): string {
    if s != [] && IsSpace(s[0]) then TrimLeft(s[1..]) else s
  }

  function TrimRight(s: string): string {
    if s != [] && IsSpace(s[|s| - 1]) then TrimRight(s[..|s| - 1]) else s
  }

  function Norm(user: string): string {
    TrimRight(TrimLeft(user))
  }

  predicate AllSpace(s: string) {
    forall i :: 0 <= i < |s| ==> IsSpace(s[i])
  }

  lemma {:induction false} TrimLeftIs(s: string) returns (left: string)
    ensures AllSpace(left) && s == left + TrimLeft(s)
    ensures TrimLeft(s) != "" ==> !IsSpace(TrimLeft(s)[0])
  {
    left := "";
    if s != "" && IsSpace(s[0]) {
      var more := TrimLeftIs(s[1..]);
      left := [s[0]] + more;
    }
  }

  lemma {:induction false} TrimRightIs(s: string) returns (right: string)
    ensures AllSpace(right) && s == TrimRight(s) + right
    ensures TrimRight(s) != "" ==> !IsSpace(TrimRight(s)[|TrimRight(s)| - 1])
  {
    right := "";
    if s != "" && IsSpace(s[|s| - 1]) {
      var more := TrimRightIs(s[..|s| - 1]);
      right := more + [s[|s| - 1]];
    }
  }

  /** Exactly the spaces around an id are dropped: it is spaces, the rest, spaces, and the rest
      neither begins nor ends with one. */
  lemma NormTrims(user: string)
    ensures exists left, right :: AllSpace(left) && AllSpace(right) && user == left + Norm(user) + right
    ensures Norm(user) != "" ==> !IsSpace(Norm(user)[0]) && !IsSpace(Norm(user)[|Norm(user)| - 1])
  {
    var left := TrimLeftIs(user);
    var right := TrimRightIs(TrimLeft(user));
    assert user == left + Norm(user) + right;
    if Norm(user) != "" {
      assert TrimLeft(user)[0] == Norm(user)[0];
    }
  }

  /** The users a list of ids names: trimmed, without blanks or repetitions. */
  function Targets(users: seq<string>): set<string> {
    set i | 0 <= i < |users| && Norm(users[i]) != "" :: Norm(users[i])
  }

  /** A user is named exactly when some id in the list, trimmed, is it, and it is not blank. */
  lemma TargetsAre(users: seq<string>, u: string)
    ensures u in Targets(users) <==> u != "" && exists i :: 0 <= i < |users| && Norm(users[i]) == u
  {}

  /** session to user to interval start, as the SDK keeps it */
  type Nested = map<string, map<string, int>>

  function UsersIn(active: Nested, session: string): map<string, int> {
    if session in active then active[session] else map[]
  }

  function WithUsers(active: Nested, session: string, users: map<string, int>): Nested {
    if users == map[] then active - {session} else active[session := users]
  }

  /** The nested map holds exactly these intervals. */
  ghost predicate Holds(active: Nested, a: Intervals) {
    && (forall s, u :: (s, u) in a <==> s in active && u in active[s])
    && (forall s, u :: (s, u) in a ==> a[(s, u)] == active[s][u])
  }

  class Attribution {
    var active: Nested
    ghost var intervals: Intervals
    var buffer: seq<Event>
    var timerArmed: bool
    const configured: bool

    constructor (configured: bool)
      ensures Valid() && intervals == map[] && buffer == [] && this.configured == configured
    {
      intervals := map[];
      active, buffer, timerArmed, this.configured := map[], [], false, configured;
    }

    /** `intervals` is what the nested map holds, no session without active users is kept, and
        a configured non-empty buffer has a timer. */
    ghost predicate Valid()
      reads this
    {
      && Holds(active, intervals)
      && (forall s :: s in active ==> active[s] != map[])
      && (configured && buffer != [] ==> timerArmed)
    }

    method Emit(session: string, user: string, add: bool, ts: int)
      requires Valid()
      modifies this`buffer, this`timerArmed
      ensures Valid() && buffer == old(buffer) + [Event(session, user, add, ts)]
    {
      buffer := buffer + [Event(session, user, add, ts)];
      if !timerArmed && configured {
        timerArmed := true;
      }
    }

    method EmitAll(session: string, users: seq<string>, add: bool, ts: int)
      requires Valid()
      modifies this`buffer, this`timerArmed
      ensures Valid() && buffer == old(buffer) + Events(session, users, add, ts)
    {
      for i := 0 to |users|
        invariant Valid() && buffer == old(buffer) + Events(session, users[..i], add, ts)
      {
        Emit(session, users[i], add, ts);
        assert Events(session, users[..i + 1], add, ts) ==
               Events(session, users[..i], add, ts) + [Event(session, users[i], add, ts)];
      }
      assert users[..|users|] == users;
    }

    method AddActiveUser(session: string, userID: string, now: int) returns (ghost es: seq<Event>)
      requires Valid()
      modifies this
      ensures Valid() && buffer == old(buffer) + es
      ensures session == "" || Norm(userID) == "" ==> intervals == old(intervals) && es == []
      ensures session != "" && Norm(userID) != "" ==>
                var a, op := old(intervals), Add(session, Norm(userID));
                intervals == Outcome(a, op, now) && Diff(a, op, now, es)
    {
      es := [];
      var uid := Norm(userID);
      if uid == "" || session == "" {
        return;
      }
      var users := UsersIn(active, session);
      AddHolds(active, intervals, session, uid, now);
      if uid in users {
        return;
      }
      active := WithUsers(active, session, users[uid := now]);
      intervals := intervals[(session, uid) := now];
      Emit(session, uid, true, now);
      es := [Event(session, uid, true, now)];
    }

    method RemoveActiveUser(session: string, userID: string, now: int) returns (ghost es: seq<Event>)
      requires Valid()
      modifies this
      ensures Valid() && buffer == old(buffer) + es
      ensures session == "" || Norm(userID) == "" ==> intervals == old(intervals) && es == []
      ensures session != "" && Norm(userID) != "" ==>
                var a, op := old(intervals), Remove(session, Norm(userID));
                intervals == Outcome(a, op, now) && Diff(a, op, now, es)
    {
      es := [];
      var uid := Norm(userID);
      if uid == "" || session == "" {
        return;
      }
      var users := UsersIn(active, session);
      RemoveHolds(active, intervals, session, uid);
      if uid !in users {
        return;
      }
      active := WithUsers(active, session, users - {uid});
      intervals := intervals - {(session, uid)};
      Emit(session, uid, false, now);
      es := [Event(session, uid, false, now)];
    }

    method SetActiveUsers(session: string, userIDs: seq<string>, now: int) returns (ghost es: seq<Event>)
      requires Valid()
      modifies this
      ensures Valid() && buffer == old(buffer) + es
      ensures session == "" ==> intervals == old(intervals) && es == []
      ensures session != "" ==>
                var a, op := old(intervals), SetTo(session, Targets(userIDs));
                intervals == Outcome(a, op, now) && Diff(a, op, now, es)
    {
      es := [];
      if session == "" {
        return;
      }
      var target := TargetSet(userIDs);
      var adds, ends := Rediff(session, target, now);
      EmitAll(session, adds, true, now);
      EmitAll(session, ends, false, now);
      es := Events(session, adds, true, now) + Events(session, ends, false, now);
      assert buffer == old(buffer) + es;
      SetDiff(old(intervals), session, target, now, adds, ends);
    }

    /** The locked section of `SetActiveUsers`. */
    method Rediff(session: string, target: set<string>, now: int) returns (adds: seq<string>, ends: seq<string>)
      requires Valid()
      modifies this`active, this`intervals
      ensures Valid() && intervals == Outcome(old(intervals), SetTo(session, target), now)
      ensures Lists(adds, target - Users(old(intervals), session))
      ensures Lists(ends, Users(old(intervals), session) - target)
    {
      var users;
      users, adds, ends := DiffUsers(UsersIn(active, session), target, now);
      SetHolds(active, intervals, session, target, users, now);
      active := WithUsers(active, session, users);
      intervals := Outcome(intervals, SetTo(session, target), now);
    }

    method ClearActiveUsers(session: string, now: int) returns (ghost es: seq<Event>)
      requires Valid()
      modifies this
      ensures Valid() && buffer == old(buffer) + es
      ensures session == "" ==> intervals == old(intervals) && es == []
      ensures session != "" ==>
                var a, op := old(intervals), Clear(session);
                intervals == Outcome(a, op, now) && Diff(a, op, now, es)
    {
      es := [];
      if session == "" {
        return;
      }
      var ends := ListOf(UsersIn(active, session).Keys);
      ClearHolds(active, intervals, session, now);
      active := active - {session};
      intervals := Outcome(intervals, Clear(session), now);
      EmitAll(session, ends, false, now);
      es := Events(session, ends, false, now);
    }
  }

  // ---- Loops ----

  method TargetSet(userIDs: seq<string>) returns (target: set<string>)
    ensures target == Targets(userIDs)
  {
    target := {};
    for i := 0 to |userIDs|
      invariant target == Targets(userIDs[..i])
    {
      var uid := Norm(userIDs[i]);
      TargetsPush(userIDs, i);
      if uid != "" {
        target := target + {uid};
      }
    }
    assert userIDs[..|userIDs|] == userIDs;
  }

  /** The elements of a set, in whatever order iterating over it gives. */
  method ListOf(s: set<string>) returns (xs: seq<string>)
    ensures Lists(xs, s)
  {
    xs := [];
    var todo := s;
    while todo != {}
      invariant todo <= s && Lists(xs, s - todo)
      decreases todo
    {
      var x :| x in todo;
      ListsPush(xs, s - todo, x);
      assert (s - todo) + {x} == s - (todo - {x});
      todo := todo - {x};
      xs := xs + [x];
    }
  }

  method AddMissing(before: map<string, int>, target: set<string>, now: int)
    returns (users: map<string, int>, adds: seq<string>)
    ensures forall u :: u in users <==> u in before || u in target
    ensures forall u :: u in users ==> users[u] == if u in before then before[u] else now
    ensures Lists(adds, target - before.Keys)
  {
    users, adds := before, [];
    var todo := target;
    while todo != {}
      invariant todo <= target
      invariant forall u :: u in users <==> u in before || u in target - todo
      invariant forall u :: u in users ==> users[u] == if u in before then before[u] else now
      invariant Lists(adds, (target - todo) - before.Keys)
      decreases todo
    {
      var uid :| uid in todo;
      ghost var done := (target - todo) - before.Keys;
      todo := todo - {uid};
      if uid !in users {
        ListsPush(adds, done, uid);
        assert done + {uid} == (target - todo) - before.Keys;
        users := users[uid := now];
        adds := adds + [uid];
      } else {
        assert done == (target - todo) - before.Keys;
      }
    }
    assert target - todo == target;
  }

  method DropOthers(mid: map<string, int>, before: map<string, int>, target: set<string>)
    returns (users: map<string, int>, ends: seq<string>)
    requires forall u :: u in mid <==> u in before || u in target
    ensures forall u :: u in users <==> u in target
    ensures forall u :: u in users ==> users[u] == mid[u]
    ensures Lists(ends, before.Keys - target)
  {
    users, ends := mid, [];
    var left := mid.Keys;
    while left != {}
      invariant left <= mid.Keys
      invariant forall u :: u in users <==> u in target || u in left
      invariant forall u :: u in users ==> u in mid && users[u] == mid[u]
      invariant Lists(ends, (before.Keys - target) - left)
      decreases left
    {
      var uid :| uid in left;
      ghost var done := (before.Keys - target) - left;
      left := left - {uid};
      if uid !in target {
        ListsPush(ends, done, uid);
        assert done + {uid} == (before.Keys - target) - left;
        users := users - {uid};
        ends := ends + [uid];
      } else {
        assert done == (before.Keys - target) - left;
      }
    }
    assert (before.Keys - target) - left == before.Keys - target;
  }

  /** Both loops: exactly the target is left, those already there with their start. */
  method DiffUsers(before: map<string, int>, target: set<string>, now: int)
    returns (users: map<string, int>, adds: seq<string>, ends: seq<string>)
    ensures forall u :: u in users <==> u in target
    ensures forall u :: u in users ==> users[u] == if u in before then before[u] else now
    ensures Lists(adds, target - before.Keys) && Lists(ends, before.Keys - target)
  {
    var mid;
    mid, adds := AddMissing(before, target, now);
    users, ends := DropOthers(mid, before, target);
  }

  // ---- What each change of the nested map means ----

  lemma ListsPush(xs: seq<string>, s: set<string>, x: string)
    requires Lists(xs, s) && x !in s
    ensures Lists(xs + [x], s + {x})
  {}

  lemma TargetsPush(userIDs: seq<string>, i: nat)
    requires i < |userIDs|
    ensures Targets(userIDs[..i + 1]) ==
            Targets(userIDs[..i]) + (if Norm(userIDs[i]) != "" then {Norm(userIDs[i])} else {})
  {
    forall x | x in Targets(userIDs[..i])
      ensures x in Targets(userIDs[..i + 1])
    {
      var j :| 0 <= j < i && Norm(userIDs[..i][j]) != "" && Norm(userIDs[..i][j]) == x;
      assert userIDs[..i + 1][j] == userIDs[..i][j];
    }
    forall x | x in Targets(userIDs[..i + 1])
      ensures x in Targets(userIDs[..i]) || x == Norm(userIDs[i]) != ""
    {
      var j :| 0 <= j < i + 1 && Norm(userIDs[..i + 1][j]) != "" && Norm(userIDs[..i + 1][j]) == x;
      if j < i {
        assert userIDs[..i][j] == userIDs[..i + 1][j];
      }
    }
    if Norm(userIDs[i]) != "" {
      assert userIDs[..i + 1][i] == userIDs[i];
    }
  }

  lemma HeldUsers(active: Nested, a: Intervals, session: string)
    requires Holds(active, a)
    ensures Users(a, session) == UsersIn(active, session).Keys
  {
    forall u
      ensures u in Users(a, session) <==> u in UsersIn(active, session)
    {
      UsersAre(a, session, u);
    }
  }

  lemma AddHolds(active: Nested, a: Intervals, session: string, uid: string, now: int)
    requires Holds(active, a)
    ensures var users := UsersIn(active, session);
            && (uid in users <==> (session, uid) in a)
            && Holds(WithUsers(active, session, users[uid := now]), a[(session, uid) := now])
  {
    var users := UsersIn(active, session)[uid := now];
    assert uid in users;
    assert WithUsers(active, session, users) == active[session := users];
  }

  lemma RemoveHolds(active: Nested, a: Intervals, session: string, uid: string)
    requires Holds(active, a)
    ensures var users := UsersIn(active, session);
            && (uid in users <==> (session, uid) in a)
            && Holds(WithUsers(active, session, users - {uid}), a - {(session, uid)})
  {
    var before := UsersIn(active, session);
    var users := before - {uid};
    forall u | u in before && u != uid
      ensures u in users
    {}
    assert users == map[] ==> forall u :: u in before ==> u == uid;
  }

  lemma SetHolds(
    active: Nested, a: Intervals, session: string, target: set<string>, users: map<string, int>, now: int)
    requires Holds(active, a)
    requires forall u :: u in users <==> u in target
    requires forall u :: u in users ==>
               users[u] == if u in UsersIn(active, session) then UsersIn(active, session)[u] else now
    ensures Holds(WithUsers(active, session, users), Outcome(a, SetTo(session, target), now))
    ensures Users(a, session) == UsersIn(active, session).Keys
  {
    HeldUsers(active, a, session);
    var o := Outcome(a, SetTo(session, target), now);
    forall s, u
      ensures (s, u) in o <==> if s == session then u in target else (s, u) in a
    {
      assert (s, u) in Pairs(session, target) <==> s == session && u in target;
    }
  }

  lemma SetDiff(a: Intervals, session: string, target: set<string>, now: int, adds: seq<string>, ends: seq<string>)
    requires Lists(adds, target - Users(a, session)) && Lists(ends, Users(a, session) - target)
    ensures Diff(a, SetTo(session, target), now, Events(session, adds, true, now) + Events(session, ends, false, now))
  {}

  lemma ClearHolds(active: Nested, a: Intervals, session: string, now: int)
    requires Holds(active, a)
    ensures Holds(active - {session}, Outcome(a, Clear(session), now))
    ensures Users(a, session) == UsersIn(active, session).Keys
  {
    HeldUsers(active, a, session);
  }
}
