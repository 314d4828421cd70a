/** Exception deduplication: a ring of the last 64 reported messages, each remembered for
    five seconds. */
module ExceptionDedup {
  import opened Collections

  const SIZE := 64
  /** Five seconds, in nanoseconds. */
  const TTL := 5_000_000_000
  /** The zero time of an unused slot, in nanoseconds since 1970. */
  const ZERO_TIME := -62_135_596_800_000_000_000

  datatype Entry = Entry(message: string, timestamp: int)

  // ---- What the ring means ----

  function WindowStart(n: nat): nat {
    if n <= SIZE then 0 else n - SIZE
  }

  /** One of the last 64 reports has this message and is younger than five seconds. */
  ghost predicate IsDup(log: seq<Entry>, message: string, now: int) {
    exists a :: WindowStart(|log|) <= a < |log| && log[a].message == message && now - log[a].timestamp < TTL
  }

  ghost function Reported(log: seq<Entry>, call: Entry): seq<Entry> {
    if IsDup(log, call.message, call.timestamp) then log else log + [call]
  }

  /** The reports that a sequence of calls lets through. */
  ghost function Run(calls: seq<Entry>): seq<Entry> {
    if calls == [] then [] else Reported(Run(calls[..|calls| - 1]), calls[|calls| - 1])
  }

  /** The clock never goes back. */
  predicate Monotone(log: seq<Entry>) {
    forall i, j :: 0 <= i < j < |log| ==> log[i].timestamp <= log[j].timestamp
  }

  function Messages(log: seq<Entry>): set<string> {
    set i | 0 <= i < |log| :: log[i].message
  }

  /** Two reports of one message less than five seconds apart. */
  predicate RepeatAt(log: seq<Entry>, a: nat, b: nat) {
    a < b < |log| && log[a].message == log[b].message && log[b].timestamp - log[a].timestamp < 5_000_000_000
  }

  ghost predicate HasRepeat(log: seq<Entry>) {
    exists a, b :: RepeatAt(log, a, b)
  }

  // ---- The ring as it runs ----

  class Ring {
    const entries: array<Entry>
    var index: nat
    ghost var log: seq<Entry>

    constructor ()
      ensures Valid() && log == [] && fresh(entries)
    {
      entries := new Entry[SIZE](_ => Entry("", ZERO_TIME));
      index := 0;
      log := [];
    }

    /** The ring holds the last 64 reports, report number a in slot a mod 64. */
    ghost predicate Valid()
      reads this, entries
    {
      && entries.Length == SIZE && index == |log| % SIZE
      && (forall a :: WindowStart(|log|) <= a < |log| ==> entries[a % SIZE] == log[a])
      && (forall p :: |log| <= p < SIZE ==> entries[p] == Entry("", ZERO_TIME))
    }

    method IsDuplicateException(message: string, now: int) returns (dup: bool)
      requires Valid() && now >= ZERO_TIME + TTL
      modifies this, entries
      ensures Valid()
      ensures dup <==> exists a :: 0 <= a < |old(log)| && |old(log)| - 64 <= a
                                   && old(log)[a].message == message && now - old(log)[a].timestamp < 5_000_000_000
      ensures log == if dup then old(log) else old(log) + [Entry(message, now)]
      ensures dup <==> IsDup(old(log), message, now)
      ensures log == Reported(old(log), Entry(message, now))
    {
      for i := 0 to SIZE
        invariant forall p :: 0 <= p < i ==> !(entries[p].message == message && now - entries[p].timestamp < TTL)
      {
        if entries[i].message == message && now - entries[i].timestamp < TTL {
          SlotIsReport(i, |log|);
          return true;
        }
      }
      forall a | WindowStart(|log|) <= a < |log|
        ensures !(log[a].message == message && now - log[a].timestamp < TTL)
      {
        assert entries[a % SIZE] == log[a];
      }
      WindowSlots(|log|);
      entries[index] := Entry(message, now);
      index := (index + 1) % SIZE;
      log := log + [Entry(message, now)];
      return false;
    }
  }

  /** A used slot is the slot of a report in the window. */
  lemma SlotIsReport(p: nat, n: nat)
    requires p < SIZE
    ensures n <= p || exists a :: WindowStart(n) <= a < n && a % SIZE == p
  {
    if n > p {
      var a := if n <= SIZE then p else n - 1 - (n - 1 - p) % SIZE;
      assert WindowStart(n) <= a < n && a % SIZE == p;
    }
  }

  /** Overwriting the slot of report n leaves the rest of the next window in place. */
  lemma WindowSlots(n: nat)
    ensures forall a :: WindowStart(n + 1) <= a < n ==> a % SIZE != n % SIZE
    ensures (n + 1) % SIZE == (n % SIZE + 1) % SIZE
    ensures n < SIZE ==> n % SIZE == n
  {
    forall a | WindowStart(n + 1) <= a < n
      ensures a % SIZE != n % SIZE
    {
      assert 0 < n - a < SIZE;
    }
  }

  // ---- No repeats among few messages ----

  /** Within any 65 consecutive reports, equal messages are five seconds apart. */
  ghost predicate Spaced(log: seq<Entry>) {
    forall a, b :: 0 <= a < b < |log| && b - a <= SIZE ==> !RepeatAt(log, a, b)
  }

  lemma ReportSpaced(log: seq<Entry>, call: Entry)
    requires Spaced(log)
    ensures Spaced(Reported(log, call))
  {
    var log' := Reported(log, call);
    forall a, b | 0 <= a < b < |log'| && b - a <= SIZE
      ensures !RepeatAt(log', a, b)
    {
      if b < |log| {
        assert !RepeatAt(log, a, b);
      } else {
        assert WindowStart(|log|) <= a < |log|;
      }
    }
  }

  lemma {:induction false} RunIsSpaced(calls: seq<Entry>)
    requires Monotone(calls)
    ensures Spaced(Run(calls)) && Monotone(Run(calls)) && Messages(Run(calls)) <= Messages(calls)
    ensures forall i :: 0 <= i < |Run(calls)| ==> Run(calls)[i] in calls
  {
    if calls != [] {
      var init, call := calls[..|calls| - 1], calls[|calls| - 1];
      RunIsSpaced(init);
      var log := Run(init);
      ReportSpaced(log, call);
      forall i | 0 <= i < |Run(calls)|
        ensures Run(calls)[i] in calls && Run(calls)[i].message in Messages(calls)
        ensures Run(calls)[i].timestamp <= call.timestamp
      {
        var e := Run(calls)[i];
        if i < |log| {
          assert e == log[i] && e in init;
          var k :| 0 <= k < |init| && init[k] == e;
          assert calls[k] == e;
        } else {
          assert calls[|calls| - 1] == e;
        }
      }
    }
  }

  lemma {:induction false} DistinctFit(xs: seq<string>, s: set<string>)
    requires forall i, j :: 0 <= i < j < |xs| ==> xs[i] != xs[j]
    requires forall i :: 0 <= i < |xs| ==> xs[i] in s
    ensures |xs| <= |s|
  {
    if xs != [] {
      var last := xs[|xs| - 1];
      DistinctFit(xs[..|xs| - 1], s - {last});
    }
  }

  /** A message reported twice within five seconds has at least 65 distinct messages reported
      between the two, itself included. */
  lemma RepeatNeedsManyMessages(log: seq<Entry>, a: nat, b: nat)
    requires Spaced(log) && Monotone(log) && RepeatAt(log, a, b)
    ensures |Messages(log[a..b])| > 64
  {
    assert b - a > SIZE;
    var xs := seq(SIZE + 1, i requires 0 <= i <= SIZE => log[a + i].message);
    forall i, j | 0 <= i < j < |xs|
      ensures xs[i] != xs[j]
    {
      assert !RepeatAt(log, a + i, a + j);
    }
    forall i | 0 <= i < |xs|
      ensures xs[i] in Messages(log[a..b])
    {
      assert log[a..b][i] == log[a + i];
    }
    DistinctFit(xs, Messages(log[a..b]));
  }

  /** With a clock that never goes back, calls that use at most 64 distinct messages never get
      one message through twice within five seconds, however many calls there are. */
  lemma NoRepeatAmongFew(calls: seq<Entry>)
    requires Monotone(calls) && |Messages(calls)| <= 64
    ensures !HasRepeat(Run(calls))
  {
    var log := Run(calls);
    RunIsSpaced(calls);
    forall a: nat, b: nat | RepeatAt(log, a, b)
      ensures false
    {
      RepeatNeedsManyMessages(log, a, b);
      forall x | x in Messages(log[a..b])
        ensures x in Messages(log)
      {
        var i :| 0 <= i < b - a && log[a..b][i].message == x;
        assert log[a + i].message == x;
      }
      SubsetSize(Messages(log[a..b]), Messages(calls));
    }
  }

  // ---- 64 is tight ----

  function Name(k: nat): string {
    seq(k, _ => 'x')
  }

  /** Messages 0, 1, ..., 64 and 0 again, all at the same instant. */
  function Cycle(k: nat): seq<Entry> {
    seq(k, i requires 0 <= i < k => Entry(Name(i % (SIZE + 1)), 0))
  }

  lemma CycleIsNew(k: nat)
    requires k <= SIZE + 1
    ensures !IsDup(Cycle(k), Name(k % (SIZE + 1)), 0)
  {
    var log := Cycle(k);
    assert forall a :: 0 <= a < k ==> |log[a].message| == a % (SIZE + 1);
    assert |Name(k % (SIZE + 1))| == k % (SIZE + 1);
    assert forall a :: WindowStart(k) <= a < k ==> |log[a].message| != k % (SIZE + 1);
  }

  lemma {:induction false} CycleGetsThrough(k: nat)
    requires k <= SIZE + 2
    ensures Run(Cycle(k)) == Cycle(k)
  {
    if k > 0 {
      CycleGetsThrough(k - 1);
      CycleIsNew(k - 1);
      CyclePush(k - 1);
      assert Cycle(k)[..k - 1] == Cycle(k - 1);
    }
  }

  lemma CyclePush(k: nat)
    ensures Cycle(k + 1) == Cycle(k) + [Entry(Name(k % (SIZE + 1)), 0)]
  {}

  lemma {:induction false} NamesBelow(n: nat)
    ensures |set k: nat | k < n :: Name(k)| <= n
  {
    if n > 0 {
      NamesBelow(n - 1);
      assert (set k: nat | k < n :: Name(k)) == (set k: nat | k < n - 1 :: Name(k)) + {Name(n - 1)};
    }
  }

  /** The bound of 64 messages is exact: it is the largest number for which the guarantee
      holds, because a cycle of 65 messages repeats one at once. */
  lemma ThresholdIsTight(n: nat)
    ensures (forall calls :: Monotone(calls) && |Messages(calls)| <= n ==> !HasRepeat(Run(calls))) <==> n <= 64
  {
    if n <= SIZE {
      forall calls | Monotone(calls) && |Messages(calls)| <= n
        ensures !HasRepeat(Run(calls))
      {
        NoRepeatAmongFew(calls);
      }
    } else {
      var calls := Cycle(SIZE + 2);
      CycleGetsThrough(SIZE + 2);
      assert RepeatAt(calls, 0, SIZE + 1);
      NamesBelow(SIZE + 1);
      forall x | x in Messages(calls)
        ensures x in set k: nat | k < SIZE + 1 :: Name(k)
      {
        var i :| 0 <= i < |calls| && calls[i].message == x;
        assert x == Name(i % (SIZE + 1));
      }
      SubsetSize(Messages(calls), set k: nat | k < SIZE + 1 :: Name(k));
      assert Monotone(calls) && |Messages(calls)| <= n && HasRepeat(Run(calls));
    }
  }
}
