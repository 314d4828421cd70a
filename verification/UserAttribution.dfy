/** User attribution: which users are active in which trace, and the interval events that
    each change of that set produces. */
module UserAttribution {

  /** (session, user) */
  type Key = (string, string)

  /** The active intervals: (session, user) to the time the interval started. */
  type Intervals = map<Key, int>

  datatype Event = Event(session: string, user: string, add: bool, ts: int)

  /** A call with its session resolved and its user ids trimmed. */
  datatype Op =
    | Add(session: string, user: string)
    | Remove(session: string, user: string)
    | SetTo(session: string, target: set<string>)
    | Clear(session: string)

  function Users(a: Intervals, session: string): set<string> {
    set k | k in a && k.0 == session :: k.1
  }

  function Pairs(session: string, users: set<string>): set<Key> {
    set u | u in users :: (session, u)
  }

  /** The set an operation is meant to leave behind. */
  function Outcome(a: Intervals, op: Op, now: int): Intervals {
    match op
    case Add(s, u) => if (s, u) in a then a else a[(s, u) := now]
    case Remove(s, u) => a - {(s, u)}
    case SetTo(s, target) =>
      // Everyone in `target` and nobody else; those already active keep their start.
      map k | k in a.Keys + Pairs(s, target) && (k.0 == s ==> k.1 in target) :: if k in a then a[k] else now
    case Clear(s) => map k | k in a && k.0 != s :: a[k]
  }

  predicate LeavesActive(a: Intervals, op: Op, k: Key) {
    match op
    case Add(s, u) => k in a || k == (s, u)
    case Remove(s, u) => k in a && k != (s, u)
    case SetTo(s, target) => if k.0 == s then k.1 in target else k in a
    case Clear(s) => k in a && k.0 != s
  }

  /** Whom each operation leaves active: whoever was already keeps the start, and whoever is new
      starts now. */
  lemma OutcomeIs(a: Intervals, op: Op, now: int, k: Key)
    ensures k in Outcome(a, op, now) <==> LeavesActive(a, op, k)
    ensures k in Outcome(a, op, now) ==> Outcome(a, op, now)[k] == if k in a then a[k] else now
  {
    match op
    case SetTo(s, target) => assert k in Pairs(s, target) <==> k.0 == s && k.1 in target by {
      assert k == (k.0, k.1);
    }
    case _ =>
  }

  /** `xs` lists the elements of `s`, each once, in some order. */
  ghost predicate Lists(xs: seq<string>, s: set<string>) {
    forall x :: multiset(xs)[x] == if x in s then 1 else 0
  }

  function Events(session: string, users: seq<string>, add: bool, now: int): seq<Event> {
    seq(|users|, i requires 0 <= i < |users| => Event(session, users[i], add, now))
  }

  /** The events an operation may produce: adds before ends, each in any order. */
  ghost predicate Diff(a: Intervals, op: Op, now: int, events: seq<Event>) {
    match op
    case Add(s, u) => events == if (s, u) in a then [] else [Event(s, u, true, now)]
    case Remove(s, u) => events == if (s, u) in a then [Event(s, u, false, now)] else []
    case SetTo(s, target) =>
      exists adds, ends ::
        && Lists(adds, target - Users(a, s)) && Lists(ends, Users(a, s) - target)
        && events == Events(s, adds, true, now) + Events(s, ends, false, now)
    case Clear(s) => exists ends :: Lists(ends, Users(a, s)) && events == Events(s, ends, false, now)
  }

  function SessionOf(op: Op): string {
    match op
    case Add(s, _) => s
    case Remove(s, _) => s
    case SetTo(s, _) => s
    case Clear(s) => s
  }

  lemma AddsThenEnds(s: string, adds: seq<string>, ends: seq<string>, now: int)
    ensures var events := Events(s, adds, true, now) + Events(s, ends, false, now);
            forall i :: 0 <= i < |events| ==>
              && events[i].session == s && events[i].ts == now && (events[i].add <==> i < |adds|)
              && (if events[i].add then events[i].user in adds else events[i].user in ends)
  {}

  /** All events of a call carry its session and time, adds come before ends, and an add and an
      end never name the same user. */
  lemma DiffStamps(a: Intervals, op: Op, now: int, events: seq<Event>)
    requires Diff(a, op, now, events)
    ensures forall i :: 0 <= i < |events| ==> events[i].session == SessionOf(op) && events[i].ts == now
    ensures forall i, j :: 0 <= i < j < |events| && events[j].add ==> events[i].add
    ensures forall i, j :: 0 <= i < |events| && 0 <= j < |events| && events[i].add && !events[j].add ==>
              events[i].user != events[j].user
  {
    match op
    case SetTo(s, target) =>
      var adds, ends :|
        && Lists(adds, target - Users(a, s)) && Lists(ends, Users(a, s) - target)
        && events == Events(s, adds, true, now) + Events(s, ends, false, now);
      AddsThenEnds(s, adds, ends, now);
      ListsSame(adds, target - Users(a, s));
      ListsSame(ends, Users(a, s) - target);
    case _ =>
  }

  // ---- Replaying a log ----

  function Apply(a: Intervals, e: Event): Intervals {
    if e.add then a[(e.session, e.user) := e.ts] else a - {(e.session, e.user)}
  }

  function Replay(a: Intervals, log: seq<Event>): Intervals {
    if log == [] then a else Apply(Replay(a, log[..|log| - 1]), log[|log| - 1])
  }

  lemma {:induction false} ReplayConcat(a: Intervals, x: seq<Event>, y: seq<Event>)
    ensures Replay(a, x + y) == Replay(Replay(a, x), y)
  {
    if y == [] {
      assert x + y == x;
    } else {
      assert (x + y)[..|x + y| - 1] == x + y[..|y| - 1];
      ReplayConcat(a, x, y[..|y| - 1]);
    }
  }

  /** Intervals opened at `now` for `users`, or closed for them. */
  function Opened(a: Intervals, s: string, users: seq<string>, now: int): Intervals {
    map k | k in a.Keys + (set u | u in users :: (s, u)) :: if k.0 == s && k.1 in users then now else a[k]
  }

  function Closed(a: Intervals, s: string, users: seq<string>): Intervals {
    map k | k in a && !(k.0 == s && k.1 in users) :: a[k]
  }

  lemma {:induction false} ReplayAdds(a: Intervals, s: string, users: seq<string>, now: int)
    ensures Replay(a, Events(s, users, true, now)) == Opened(a, s, users, now)
  {
    var es := Events(s, users, true, now);
    if users == [] {
      assert es == [] && Opened(a, s, users, now) == a;
    } else {
      var init, last := users[..|users| - 1], users[|users| - 1];
      assert es[..|es| - 1] == Events(s, init, true, now);
      ReplayAdds(a, s, init, now);
      assert users == init + [last];
      OpenedMore(a, s, init, last, now);
    }
  }

  lemma OpenedMore(a: Intervals, s: string, init: seq<string>, last: string, now: int)
    ensures Opened(a, s, init + [last], now) == Opened(a, s, init, now)[(s, last) := now]
  {
    var more, fewer := Opened(a, s, init + [last], now), Opened(a, s, init, now)[(s, last) := now];
    forall k: Key
      ensures k in more <==> k in fewer
      ensures k in more && k in fewer ==> more[k] == fewer[k]
    {
      assert k == (k.0, k.1);
      assert k.1 in init + [last] <==> k.1 in init || k.1 == last;
    }
  }

  lemma {:induction false} ReplayEnds(a: Intervals, s: string, users: seq<string>, now: int)
    ensures Replay(a, Events(s, users, false, now)) == Closed(a, s, users)
  {
    var es := Events(s, users, false, now);
    if users == [] {
      assert es == [] && Closed(a, s, users) == a;
    } else {
      var init, last := users[..|users| - 1], users[|users| - 1];
      assert es[..|es| - 1] == Events(s, init, false, now);
      ReplayEnds(a, s, init, now);
      assert users == init + [last];
      assert Closed(a, s, users) == Closed(a, s, init) - {(s, last)};
    }
  }

  lemma ListsSame(xs: seq<string>, s: set<string>)
    requires Lists(xs, s)
    ensures forall x :: x in xs <==> x in s
  {
    forall x
      ensures x in xs <==> x in s
    {
      assert x in xs <==> x in multiset(xs);
    }
  }

  lemma UsersAre(a: Intervals, s: string, u: string)
    ensures u in Users(a, s) <==> (s, u) in a
  {
    if (s, u) in a {
      assert (s, u).0 == s && (s, u).1 == u;
    }
  }

  lemma SetReplays(a: Intervals, s: string, target: set<string>, now: int, adds: seq<string>, ends: seq<string>)
    requires Lists(adds, target - Users(a, s)) && Lists(ends, Users(a, s) - target)
    ensures Closed(Opened(a, s, adds, now), s, ends) == Outcome(a, SetTo(s, target), now)
  {
    ListsSame(adds, target - Users(a, s));
    ListsSame(ends, Users(a, s) - target);
    var got, want := Closed(Opened(a, s, adds, now), s, ends), Outcome(a, SetTo(s, target), now);
    forall k: Key
      ensures k in got <==> k in want
      ensures k in got && k in want ==> got[k] == want[k]
    {
      UsersAre(a, s, k.1);
      assert k == (k.0, k.1);
      assert k in Pairs(s, target) <==> k.0 == s && k.1 in target;
    }
    assert got == want;
  }

  lemma ClearReplays(a: Intervals, s: string, ends: seq<string>)
    requires Lists(ends, Users(a, s))
    ensures Closed(a, s, ends) == map k | k in a && k.0 != s :: a[k]
  {
    ListsSame(ends, Users(a, s));
    forall k: Key | k in a && k.0 == s
      ensures k.1 in ends
    {
      UsersAre(a, s, k.1);
    }
  }

  /** Whatever order the events of an operation come in, replaying them has its outcome. */
  lemma DiffReplays(a: Intervals, op: Op, now: int, events: seq<Event>)
    requires Diff(a, op, now, events)
    ensures Replay(a, events) == Outcome(a, op, now)
  {
    match op
    case Add(s, u) =>
      if (s, u) !in a {
        assert events[..0] == [];
      }
    case Remove(s, u) =>
      if (s, u) in a {
        assert events[..0] == [];
      }
    case SetTo(s, target) =>
      var adds, ends :|
        && Lists(adds, target - Users(a, s)) && Lists(ends, Users(a, s) - target)
        && events == Events(s, adds, true, now) + Events(s, ends, false, now);
      ReplayAdds(a, s, adds, now);
      ReplayEnds(Opened(a, s, adds, now), s, ends, now);
      ReplayConcat(a, Events(s, adds, true, now), Events(s, ends, false, now));
      SetReplays(a, s, target, now, adds, ends);
    case Clear(s) =>
      var ends :| Lists(ends, Users(a, s)) && events == Events(s, ends, false, now);
      ReplayEnds(a, s, ends, now);
      ClearReplays(a, s, ends);
  }

  // ---- Every event changes the set ----

  function KeyOf(e: Event): Key {
    (e.session, e.user)
  }

  /** Each event in turn opens a closed interval or closes an open one. */
  predicate Toggles(a: Intervals, log: seq<Event>) {
    log != [] ==>
      var init, e := log[..|log| - 1], log[|log| - 1];
      Toggles(a, init) && (e.add <==> KeyOf(e) !in Replay(a, init))
  }

  lemma {:induction false} TogglesConcat(a: Intervals, x: seq<Event>, y: seq<Event>)
    requires Toggles(a, x) && Toggles(Replay(a, x), y)
    ensures Toggles(a, x + y)
  {
    if y == [] {
      assert x + y == x;
    } else {
      assert (x + y)[..|x + y| - 1] == x + y[..|y| - 1];
      TogglesConcat(a, x, y[..|y| - 1]);
      ReplayConcat(a, x, y[..|y| - 1]);
    }
  }

  predicate Distinct(xs: seq<string>) {
    forall i, j :: 0 <= i < j < |xs| ==> xs[i] != xs[j]
  }

  lemma ListsDistinct(xs: seq<string>, s: set<string>)
    requires Lists(xs, s)
    ensures Distinct(xs)
  {
    forall i, j | 0 <= i < j < |xs|
      ensures xs[i] != xs[j]
    {
      assert xs == xs[..j] + [xs[j]] + xs[j + 1..];
      assert xs[i] == xs[..j][i];
      assert multiset(xs)[xs[j]] == multiset(xs[..j])[xs[j]] + 1 + multiset(xs[j + 1..])[xs[j]];
    }
  }

  lemma {:induction false} AddsToggle(a: Intervals, s: string, users: seq<string>, now: int)
    requires Distinct(users) && forall u :: u in users ==> (s, u) !in a
    ensures Toggles(a, Events(s, users, true, now))
  {
    var es := Events(s, users, true, now);
    if users != [] {
      var init := users[..|users| - 1];
      assert es[..|es| - 1] == Events(s, init, true, now);
      AddsToggle(a, s, init, now);
      ReplayAdds(a, s, init, now);
    }
  }

  lemma {:induction false} EndsToggle(a: Intervals, s: string, users: seq<string>, now: int)
    requires Distinct(users) && forall u :: u in users ==> (s, u) in a
    ensures Toggles(a, Events(s, users, false, now))
  {
    var es := Events(s, users, false, now);
    if users != [] {
      var init := users[..|users| - 1];
      assert es[..|es| - 1] == Events(s, init, false, now);
      EndsToggle(a, s, init, now);
      ReplayEnds(a, s, init, now);
    }
  }

  /** What is listed for a session, and only that, is in the intervals. */
  lemma ListedUsers(a: Intervals, s: string, users: seq<string>, group: set<string>, u: string)
    requires Lists(users, group) && u in users
    ensures Distinct(users) && u in group && (u in Users(a, s) <==> (s, u) in a)
  {
    ListsDistinct(users, group);
    ListsSame(users, group);
    UsersAre(a, s, u);
  }

  lemma DiffToggles(a: Intervals, op: Op, now: int, events: seq<Event>)
    requires Diff(a, op, now, events)
    ensures Toggles(a, events)
  {
    match op
    case Add(s, u) =>
    case Remove(s, u) =>
    case SetTo(s, target) =>
      var adds, ends :|
        && Lists(adds, target - Users(a, s)) && Lists(ends, Users(a, s) - target)
        && events == Events(s, adds, true, now) + Events(s, ends, false, now);
      SetToggles(a, s, target, now, adds, ends);
    case Clear(s) =>
      var ends :| Lists(ends, Users(a, s)) && events == Events(s, ends, false, now);
      ListsDistinct(ends, Users(a, s));
      forall u | u in ends
        ensures (s, u) in a
      {
        ListedUsers(a, s, ends, Users(a, s), u);
      }
      EndsToggle(a, s, ends, now);
  }

  lemma SetToggles(a: Intervals, s: string, target: set<string>, now: int, adds: seq<string>, ends: seq<string>)
    requires Lists(adds, target - Users(a, s)) && Lists(ends, Users(a, s) - target)
    ensures Toggles(a, Events(s, adds, true, now) + Events(s, ends, false, now))
  {
    var mid := Opened(a, s, adds, now);
    ListsDistinct(adds, target - Users(a, s));
    ListsDistinct(ends, Users(a, s) - target);
    forall u | u in adds
      ensures (s, u) !in a
    {
      ListedUsers(a, s, adds, target - Users(a, s), u);
    }
    forall u | u in ends
      ensures (s, u) in mid
    {
      ListedUsers(a, s, ends, Users(a, s) - target, u);
    }
    AddsToggle(a, s, adds, now);
    ReplayAdds(a, s, adds, now);
    EndsToggle(mid, s, ends, now);
    TogglesConcat(a, Events(s, adds, true, now), Events(s, ends, false, now));
  }

  // ---- One user's log ----

  /** The actions logged for one user of one session: true for add, false for end. */
  function Actions(log: seq<Event>, k: Key): seq<bool> {
    if log == [] then []
    else Actions(log[..|log| - 1], k)
         + (if KeyOf(log[|log| - 1]) == k then [log[|log| - 1].add] else [])
  }

  predicate Alternating(xs: seq<bool>) {
    forall i :: 0 <= i < |xs| ==> xs[i] == (i % 2 == 0)
  }

  /** A log in which every event changes the set alternates add and end for each user,
      starting with add, and ends with an add exactly for the users it leaves active. */
  lemma {:induction false} TogglesAlternate(log: seq<Event>, k: Key)
    requires Toggles(map[], log)
    ensures Alternating(Actions(log, k))
    ensures k in Replay(map[], log) <==> |Actions(log, k)| % 2 == 1
  {
    if log != [] {
      var init, e := log[..|log| - 1], log[|log| - 1];
      TogglesAlternate(init, k);
      assert e.add <==> KeyOf(e) !in Replay(map[], init);
    }
  }

  function Count(log: seq<Event>, k: Key, add: bool): nat {
    if log == [] then 0
    else Count(log[..|log| - 1], k, add)
         + (if KeyOf(log[|log| - 1]) == k && log[|log| - 1].add == add then 1 else 0)
  }

  /** Adds minus ends is 1 for an active user and 0 for any other. */
  lemma {:induction false} TogglesBalance(log: seq<Event>, k: Key)
    requires Toggles(map[], log)
    ensures Count(log, k, true) - Count(log, k, false) == if k in Replay(map[], log) then 1 else 0
  {
    if log != [] {
      var init, e := log[..|log| - 1], log[|log| - 1];
      TogglesBalance(init, k);
      assert e.add <==> KeyOf(e) !in Replay(map[], init);
    }
  }

  lemma {:induction false} CountConcat(x: seq<Event>, y: seq<Event>, k: Key, add: bool)
    ensures Count(x + y, k, add) == Count(x, k, add) + Count(y, k, add)
  {
    if y == [] {
      assert x + y == x;
    } else {
      assert (x + y)[..|x + y| - 1] == x + y[..|y| - 1];
      CountConcat(x, y[..|y| - 1], k, add);
    }
  }
}
