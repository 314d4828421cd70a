/** The background transmitter: its worker loop as it runs, and the same worker as a step
    system shared with any number of concurrent senders. */
module Transmitter {

  datatype Item = Item(operationName: string, query: string, variables: map<string, string>)

  // ---- The worker as it runs ----

  /** Which case of the worker's `select` is taken. */
  datatype Ready = ItemReady | TickReady | QuitReady

  /** One turn of the loop: what other goroutines post before it, and the case it takes. */
  datatype Turn = Turn(arrivals: seq<Item>, ready: Ready)

  class Worker {
    const capacity: nat
    const batchMax: nat
    var ch: seq<Item>
    var batch: seq<Item>
    var posted: seq<Item>
    ghost var accepted: seq<Item>

    constructor (capacity: nat, batchMax: nat)
      requires batchMax > 0
      ensures Valid() && this.capacity == capacity && this.batchMax == batchMax
      ensures ch == [] && batch == [] && posted == [] && accepted == []
    {
      this.capacity, this.batchMax := capacity, batchMax;
      ch, batch, posted, accepted := [], [], [], [];
    }

    /** Nothing accepted is lost, duplicated or reordered. */
    ghost predicate Valid()
      reads this
    {
      batchMax > 0 && |ch| <= capacity && accepted == posted + batch + ch
    }

    /** A send that drops the item when the channel is full. */
    method NonBlockingPost(item: Item) returns (sent: bool)
      requires Valid()
      modifies this`ch, this`accepted
      ensures Valid() && sent == (|old(ch)| < capacity)
      ensures ch == (if sent then old(ch) + [item] else old(ch))
      ensures accepted == (if sent then old(accepted) + [item] else old(accepted))
    {
      sent := |ch| < capacity;
      if sent {
        ch := ch + [item];
        accepted := accepted + [item];
        assert accepted == posted + batch + ch;
      }
    }

    method PostOne(item: Item)
      modifies this`posted
      ensures posted == old(posted) + [item]
    {
      posted := posted + [item];
    }

    /** Posts every item of the batch, in order, and empties it. */
    method Flush()
      requires Valid()
      modifies this`posted, this`batch
      ensures Valid() && batch == [] && posted == old(posted) + old(batch)
    {
      for i := 0 to |batch|
        invariant batch == old(batch) && posted == old(posted) + batch[..i]
      {
        PostOne(batch[i]);
        assert batch[..i + 1] == batch[..i] + [batch[i]];
      }
      assert batch[..|batch|] == batch;
      batch := [];
    }

    /** Receives exactly the items that were in the channel on entry, and flushes. */
    method Drain()
      requires Valid()
      modifies this`ch, this`batch, this`posted
      ensures Valid() && ch == [] && batch == [] && posted == accepted
      ensures posted == old(posted) + old(batch) + old(ch)
    {
      var n := |ch|;
      while n > 0
        invariant Valid() && n == |ch|
        invariant batch + ch == old(batch) + old(ch) && posted == old(posted)
      {
        assert posted + (batch + [ch[0]]) + ch[1..] == posted + batch + ch;
        batch, ch := batch + [ch[0]], ch[1..];
        n := n - 1;
      }
      if |batch| > 0 {
        Flush();
      }
    }

    /** The loop: it returns at the first turn that takes the quit case.  `log` holds what it
        had before each turn and at the end. */
    method Run(script: seq<Turn>) returns (stopped: bool, ghost log: seq<Snapshot>)
      requires Valid() && |batch| < batchMax
      modifies this
      ensures Valid() && old(posted) <= posted && old(accepted) <= accepted
      ensures stopped <==> exists i :: 0 <= i < |script| && script[i].ready.QuitReady?
      ensures stopped ==> posted == accepted && ch == []
      ensures !stopped ==> |batch| < batchMax
      ensures 0 < |log| <= |script| + 1 && log[0] == old(Now()) && log[|log| - 1] == Now()
      ensures !stopped ==> |log| == |script| + 1
      ensures forall k :: 0 <= k < |log| - 1 ==> TookTurn(log[k], script[k], log[k + 1])
      ensures !stopped && |script| > 0 && script[|script| - 1].ready.TickReady? ==>
                batch == [] && accepted == posted + ch
      ensures !stopped && |script| > 0 && script[|script| - 1].ready.ItemReady? ==>
                var before := log[|script| - 1];
                var waiting := before.ch + Fitting(capacity, before.ch, script[|script| - 1].arrivals);
                waiting != [] ==> ch == waiting[1..] && posted + batch == before.posted + before.batch + [waiting[0]]
    {
      log := [Now()];
      for k := 0 to |script|
        invariant Valid() && |batch| < batchMax
        invariant old(posted) <= posted && old(accepted) <= accepted
        invariant forall i :: 0 <= i < k ==> !script[i].ready.QuitReady?
        invariant |log| == k + 1 && log[0] == old(Now()) && log[k] == Now()
        invariant forall i :: 0 <= i < k ==> TookTurn(log[i], script[i], log[i + 1])
      {
        stopped := TakeTurn(script[k]);
        log := log + [Now()];
        if stopped {
          return;
        }
      }
      stopped := false;
    }

    /** What other goroutines see of the worker. */
    ghost function Now(): Snapshot
      reads this
    {
      Snapshot(ch, batch, posted)
    }

    /** One turn: a tick leaves nothing in the batch, an item moves from the head of the channel
        to the end of what is posted or batched, and quitting leaves nothing behind. */
    ghost predicate TookTurn(before: Snapshot, turn: Turn, after: Snapshot) {
      var waiting := before.ch + Fitting(capacity, before.ch, turn.arrivals);
      match turn.ready
      case ItemReady =>
        if waiting == [] then after == before
        else
          && after.ch == waiting[1..]
          && after.posted + after.batch == before.posted + before.batch + [waiting[0]]
          && after.batch == (if |before.batch| + 1 < batchMax then before.batch + [waiting[0]] else [])
      case TickReady => after.ch == waiting && after.batch == [] && after.posted == before.posted + before.batch
      case QuitReady => after.ch == [] && after.batch == [] && after.posted == before.posted + before.batch + waiting
    }

    /** The body of the loop. */
    method TakeTurn(turn: Turn) returns (stopped: bool)
      requires Valid() && |batch| < batchMax
      modifies this
      ensures Valid() && old(posted) <= posted
      ensures accepted == old(accepted) + Fitting(capacity, old(ch), turn.arrivals)
      ensures stopped <==> turn.ready.QuitReady?
      ensures !stopped ==> |batch| < batchMax
      ensures TookTurn(old(Now()), turn, Now())
    {
      Arrive(turn.arrivals);
      match turn.ready
      case ItemReady =>
        if ch != [] {
          assert posted + (batch + [ch[0]]) + ch[1..] == posted + batch + ch;
          batch, ch := batch + [ch[0]], ch[1..];
          if |batch| >= batchMax {
            Flush();
          }
        }
        return false;
      case TickReady =>
        if |batch| > 0 {
          Flush();
        }
        return false;
      case QuitReady =>
        Drain();
        return true;
    }

    /** Sends while the worker is not receiving: as many as fit are accepted, in order. */
    method Arrive(items: seq<Item>)
      requires Valid()
      modifies this`ch, this`accepted
      ensures Valid() && ch == old(ch) + Fitting(capacity, old(ch), items)
      ensures accepted == old(accepted) + Fitting(capacity, old(ch), items)
    {
      for i := 0 to |items|
        invariant Valid() && ch == old(ch) + Fitting(capacity, old(ch), items[..i])
        invariant accepted == old(accepted) + Fitting(capacity, old(ch), items[..i])
      {
        FittingPush(capacity, old(ch), items[..i], items[i]);
        assert items[..i + 1] == items[..i] + [items[i]];
        var _ := NonBlockingPost(items[i]);
      }
      assert items[..|items|] == items;
    }
  }

  datatype Snapshot = Snapshot(ch: seq<Item>, batch: seq<Item>, posted: seq<Item>)

  /** The items that still fit into the channel: all of them, or else a prefix that fills it. */
  function Fitting(capacity: nat, ch: seq<Item>, items: seq<Item>): (fitting: seq<Item>)
    ensures fitting <= items
    ensures |ch| <= capacity ==> |ch + fitting| <= capacity && (fitting == items || |ch + fitting| == capacity)
  {
    if |ch| + |items| <= capacity then items else if |ch| >= capacity then [] else items[..capacity - |ch|]
  }

  lemma FittingPush(capacity: nat, ch: seq<Item>, items: seq<Item>, item: Item)
    requires |ch| <= capacity
    ensures var fitting := Fitting(capacity, ch, items);
            Fitting(capacity, ch, items + [item]) == if |ch + fitting| < capacity then fitting + [item] else fitting
  {}

  // ---- The step system ----

  /** `Flushing(stop)` posts the batch item by item, then stops or selects again. */
  datatype Pc = Selecting | Flushing(stop: bool) | Draining(n: nat) | Stopped

  /** `next` is the first item of the batch not yet posted; `mark` is how many items had been
      accepted when quit was closed; `snapshot` and `drained` count the final drain. */
  datatype State = State(
    capacity: nat, batchMax: nat, pc: Pc, ch: seq<Item>, batch: seq<Item>, next: nat,
    posted: seq<Item>, accepted: seq<Item>, dropped: seq<Item>,
    quit: bool, closes: nat, mark: nat, snapshot: nat, drained: nat)

  datatype Step =
    | Send(item: Item)
    | Shutdown
    | Receive
    | Tick
    | TakeQuit
    | DrainOne
    | DrainDone
    | PostNext

  predicate OfWorker(step: Step) {
    !step.Send? && !step.Shutdown?
  }

  function Init(capacity: nat, batchMax: nat): State {
    State(capacity, batchMax, Selecting, [], [], 0, [], [], [], false, 0, 0, 0, 0)
  }

  predicate Enabled(s: State, step: Step) {
    match step
    case Send(_) => true
    case Shutdown => true
    case Receive => s.pc.Selecting? && s.ch != []
    case Tick => s.pc.Selecting?
    case TakeQuit => s.pc.Selecting? && s.quit
    case DrainOne => s.pc.Draining? && s.pc.n > 0 && s.ch != []
    case DrainDone => s.pc == Draining(0)
    case PostNext => s.pc.Flushing?
  }

  function Next(s: State, step: Step): State
    requires Enabled(s, step)
  {
    match step
    case Send(item) =>
      if |s.ch| < s.capacity then s.(ch := s.ch + [item], accepted := s.accepted + [item])
      else s.(dropped := s.dropped + [item])
    case Shutdown =>
      if s.quit then s else s.(quit := true, closes := s.closes + 1, mark := |s.accepted|)
    case Receive =>
      var s1 := s.(batch := s.batch + [s.ch[0]], ch := s.ch[1..]);
      if |s1.batch| >= s.batchMax then s1.(pc := Flushing(false)) else s1
    case Tick => if s.batch != [] then s.(pc := Flushing(false)) else s
    case TakeQuit => s.(pc := Draining(|s.ch|), snapshot := |s.ch|)
    case DrainOne =>
      s.(batch := s.batch + [s.ch[0]], ch := s.ch[1..], pc := Draining(s.pc.n - 1), drained := s.drained + 1)
    case DrainDone => s.(pc := if s.batch != [] then Flushing(true) else Stopped)
    case PostNext =>
      if s.next < |s.batch| then s.(posted := s.posted + [s.batch[s.next]], next := s.next + 1)
      else s.(batch := [], next := 0, pc := if s.pc.stop then Stopped else Selecting)
  }

  function Apply(s: State, step: Step): State {
    if Enabled(s, step) then Next(s, step) else s
  }

  /** Any interleaving of senders, shutdowns and the worker. */
  function Run(capacity: nat, batchMax: nat, steps: seq<Step>): State {
    if steps == [] then Init(capacity, batchMax)
    else Apply(Run(capacity, batchMax, steps[..|steps| - 1]), steps[|steps| - 1])
  }

  /** Accepted items, in order, are the posted ones, the rest of the batch, and the channel. */
  ghost predicate Fifo(s: State) {
    s.next <= |s.batch| && s.accepted == s.posted + s.batch[s.next..] + s.ch
  }

  ghost predicate Inv(s: State) {
    && Fifo(s)
    && s.batchMax > 0 && |s.ch| <= s.capacity
    && (!s.pc.Flushing? ==> s.next == 0)
    && (s.pc.Selecting? ==> |s.batch| < s.batchMax)
    && s.closes == (if s.quit then 1 else 0)
    && (s.quit ==> s.mark <= |s.accepted|)
    && (Leaving(s) ==> s.quit && s.snapshot <= s.capacity)
    && (s.pc.Draining? ==> s.pc.n <= |s.ch| && s.drained + s.pc.n == s.snapshot
                           && s.mark <= |s.posted| + |s.batch| + s.pc.n)
    && (s.pc == Flushing(true) ==> s.drained == s.snapshot && s.mark <= |s.posted| + |s.batch| - s.next)
    && (s.pc.Stopped? ==> s.drained == s.snapshot && s.batch == [] && s.mark <= |s.posted|)
    && (!Leaving(s) ==> s.drained == 0)
  }

  /** The worker has taken the quit case. */
  predicate Leaving(s: State) {
    s.pc.Draining? || s.pc == Flushing(true) || s.pc.Stopped?
  }

  lemma StepFifo(s: State, step: Step)
    requires Fifo(s) && (!s.pc.Flushing? ==> s.next == 0)
    ensures Fifo(Apply(s, step))
  {
    if Enabled(s, step) {
      var s' := Next(s, step);
      match step
      case Send(item) =>
        if |s.ch| < s.capacity {
          assert s'.accepted == s.posted + s.batch[s.next..] + (s.ch + [item]);
        }
      case Receive => assert s'.accepted == s.posted + (s.batch + [s.ch[0]]) + s.ch[1..];
      case DrainOne => assert s'.accepted == s.posted + (s.batch + [s.ch[0]]) + s.ch[1..];
      case PostNext =>
        if s.next < |s.batch| {
          assert s.batch[s.next..] == [s.batch[s.next]] + s.batch[s.next + 1..];
          assert s'.accepted == (s.posted + [s.batch[s.next]]) + s.batch[s.next + 1..] + s.ch;
        }
      case _ =>
    }
  }

  lemma FifoCounts(s: State)
    requires Fifo(s)
    ensures |s.accepted| == |s.posted| + |s.batch| - s.next + |s.ch|
  {}

  lemma StepInv(s: State, step: Step)
    requires Inv(s)
    ensures Inv(Apply(s, step))
  {
    StepFifo(s, step);
    FifoCounts(s);
  }

  lemma {:induction false} InvAlways(capacity: nat, batchMax: nat, steps: seq<Step>)
    requires batchMax > 0
    ensures Inv(Run(capacity, batchMax, steps))
    ensures Run(capacity, batchMax, steps).capacity == capacity && Run(capacity, batchMax, steps).batchMax == batchMax
  {
    if steps != [] {
      InvAlways(capacity, batchMax, steps[..|steps| - 1]);
      StepInv(Run(capacity, batchMax, steps[..|steps| - 1]), steps[|steps| - 1]);
    }
  }

  /** In every interleaving the accepted items, in order, are those posted, then those left in
      the batch, then those in the channel; and the batch is short of full when selecting. */
  lemma FifoConservation(capacity: nat, batchMax: nat, steps: seq<Step>)
    requires batchMax > 0
    ensures var s := Run(capacity, batchMax, steps);
            && s.next <= |s.batch|
            && s.accepted == s.posted + s.batch[s.next..] + s.ch
            && (s.pc.Selecting? ==> s.next == 0 && |s.batch| < batchMax)
  {
    InvAlways(capacity, batchMax, steps);
  }

  /** An item is dropped exactly when it meets a full channel, whatever the worker is doing. */
  lemma DroppedOnlyWhenFull(capacity: nat, batchMax: nat, steps: seq<Step>, item: Item)
    requires batchMax > 0
    ensures var s := Run(capacity, batchMax, steps);
            var s' := Apply(s, Send(item));
            && (s'.dropped == s.dropped + [item] <==> |s.ch| == capacity)
            && (s'.accepted == s.accepted + [item] <==> |s.ch| < capacity)
  {
    InvAlways(capacity, batchMax, steps);
    var s := Run(capacity, batchMax, steps);
    assert |s.dropped + [item]| == |s.dropped| + 1 && |s.accepted + [item]| == |s.accepted| + 1;
  }

  // ---- Progress ----

  function From(s: State, steps: seq<Step>): State
    decreases |steps|
  {
    if steps == [] then s else From(Apply(s, steps[0]), steps[1..])
  }

  lemma {:induction false} RunFrom(capacity: nat, batchMax: nat, before: seq<Step>, after: seq<Step>)
    ensures Run(capacity, batchMax, before + after) == From(Run(capacity, batchMax, before), after)
    decreases |after|
  {
    if after == [] {
      assert before + after == before;
    } else {
      assert (before + [after[0]])[..|before|] == before;
      RunFrom(capacity, batchMax, before + [after[0]], after[1..]);
      assert before + [after[0]] + after[1..] == before + after;
    }
  }

  function PostCount(steps: seq<Step>): nat {
    if steps == [] then 0 else (if steps[0].PostNext? then 1 else 0) + PostCount(steps[1..])
  }

  /** Senders and shutdowns may act between the posts. */
  predicate OnlyPosts(steps: seq<Step>) {
    forall i :: 0 <= i < |steps| ==> steps[i].PostNext? || steps[i].Send? || steps[i].Shutdown?
  }

  lemma {:induction false} FlushRuns(s: State, steps: seq<Step>)
    requires OnlyPosts(steps) && s.next <= |s.batch|
    requires (s.pc == Flushing(false) && PostCount(steps) == |s.batch| - s.next + 1)
             || (s.pc == Selecting && s.batch == [] && PostCount(steps) == 0)
    ensures var s' := From(s, steps);
            s'.pc.Selecting? && s'.batch == [] && s'.posted == s.posted + s.batch[s.next..]
    decreases |steps|
  {
    if steps != [] {
      assert OnlyPosts(steps[1..]);
      if steps[0].PostNext? {
        PostStep(s);
      } else {
        AsideStep(s, steps[0]);
      }
      FlushRuns(Apply(s, steps[0]), steps[1..]);
    }
  }

  lemma PostStep(s: State)
    requires s.pc == Flushing(false) && s.next <= |s.batch|
    ensures var s' := Apply(s, PostNext);
            && s'.next <= |s'.batch| && s'.posted + s'.batch[s'.next..] == s.posted + s.batch[s.next..]
            && if s.next < |s.batch| then s'.pc == s.pc && s'.batch == s.batch && s'.next == s.next + 1
               else s'.pc == Selecting && s'.batch == [] && s'.posted == s.posted
  {
    if s.next < |s.batch| {
      assert s.batch[s.next..] == [s.batch[s.next]] + s.batch[s.next + 1..];
    }
  }

  lemma AsideStep(s: State, step: Step)
    requires !OfWorker(step)
    ensures var s' := Apply(s, step);
            s'.pc == s.pc && s'.batch == s.batch && s'.next == s.next && s'.posted == s.posted
  {}

  /** A tick delivers: from any reachable state in which the worker selects and has a batch, the
      tick and one more post than there are items leave the batch empty and all of it posted,
      in order, whatever is sent in between. */
  lemma TickDelivers(capacity: nat, batchMax: nat, steps: seq<Step>, posts: seq<Step>)
    requires batchMax > 0
    requires var s := Run(capacity, batchMax, steps);
             s.pc.Selecting? && s.batch != [] && OnlyPosts(posts) && PostCount(posts) == |s.batch| + 1
    ensures var s, s' := Run(capacity, batchMax, steps), Run(capacity, batchMax, steps + ([Tick] + posts));
            s'.pc.Selecting? && s'.batch == [] && s'.posted == s.posted + s.batch
  {
    var s := Run(capacity, batchMax, steps);
    InvAlways(capacity, batchMax, steps);
    RunFrom(capacity, batchMax, steps, [Tick] + posts);
    assert ([Tick] + posts)[0] == Tick && ([Tick] + posts)[1..] == posts;
    FlushRuns(Apply(s, Tick), posts);
    assert s.batch[0..] == s.batch;
  }

  /** Selecting never blocks on what is there: the head of the channel joins the batch, which
      starts to be posted when it is full, and a closed quit starts the final drain of exactly
      what is buffered. */
  lemma SelectingServes(capacity: nat, batchMax: nat, steps: seq<Step>)
    requires batchMax > 0 && Run(capacity, batchMax, steps).pc.Selecting?
    ensures var s := Run(capacity, batchMax, steps);
            && (s.ch != [] ==>
                  var s' := Apply(s, Receive);
                  && s'.batch == s.batch + [s.ch[0]] && s'.ch == s.ch[1..] && s'.posted == s.posted
                  && s'.pc == if |s.batch| + 1 == batchMax then Flushing(false) else Selecting)
            && (s.quit ==>
                  var s' := Apply(s, TakeQuit);
                  s'.pc == Draining(|s.ch|) && s'.snapshot == |s.ch| && s'.ch == s.ch && s'.batch == s.batch)
  {
    InvAlways(capacity, batchMax, steps);
  }

  /** Worker steps left before it stops, once it has taken the quit case. */
  function StepsLeft(s: State): int {
    match s.pc
    case Draining(n) => n + 1 + (if |s.batch| + n > 0 then |s.batch| + n + 1 else 0)
    case Flushing(true) => |s.batch| - s.next + 1
    case _ => 0
  }

  /** A worker step that can run, if the worker has taken the quit case and not stopped. */
  function WorkerStep(s: State): Step {
    match s.pc
    case Draining(n) => if n > 0 then DrainOne else DrainDone
    case _ => PostNext
  }

  /** Once the worker takes the quit case it never blocks, every step it takes brings it one
      closer to stopping, and no send or shutdown moves it back; it receives exactly the
      snapshot, at most the channel's capacity. */
  lemma BoundedDrain(capacity: nat, batchMax: nat, steps: seq<Step>, step: Step)
    requires batchMax > 0
    requires Leaving(Run(capacity, batchMax, steps))
    ensures var s := Run(capacity, batchMax, steps);
            && s.drained <= s.snapshot <= capacity
            && (StepsLeft(s) == 0 <==> s.pc.Stopped?)
            && (!s.pc.Stopped? ==> Enabled(s, WorkerStep(s)))
            && (OfWorker(step) && Enabled(s, step) ==> StepsLeft(Apply(s, step)) == StepsLeft(s) - 1)
            && (!OfWorker(step) ==> StepsLeft(Apply(s, step)) == StepsLeft(s))
            && Leaving(Apply(s, step)) && Apply(s, step).snapshot == s.snapshot
  {
    InvAlways(capacity, batchMax, steps);
  }

  /** When the worker has stopped (what `Shutdown` waits for), everything accepted before quit
      was closed has been posted, and what was accepted and not posted is exactly what remains
      in the channel.  However often `Shutdown` is called, quit is closed at most once. */
  lemma ShutdownDelivers(capacity: nat, batchMax: nat, steps: seq<Step>)
    requires batchMax > 0
    ensures var s := Run(capacity, batchMax, steps);
            && s.closes <= 1
            && (s.pc.Stopped? ==> s.accepted == s.posted + s.ch && s.mark <= |s.posted| <= |s.accepted|
                                  && s.accepted[..s.mark] == s.posted[..s.mark])
  {
    InvAlways(capacity, batchMax, steps);
  }

  /** `mark` is the number of items accepted when the first shutdown closed quit. */
  lemma MarkIsSetAtClose(capacity: nat, batchMax: nat, before: seq<Step>, after: seq<Step>)
    requires !Run(capacity, batchMax, before).quit
    ensures Run(capacity, batchMax, before + [Shutdown] + after).mark == |Run(capacity, batchMax, before).accepted|
    ensures Run(capacity, batchMax, before + [Shutdown] + after).quit
  {
    var all := before + [Shutdown] + after;
    assert all[..|all| - 1] == if after == [] then before else before + [Shutdown] + after[..|after| - 1];
    if after != [] {
      MarkIsSetAtClose(capacity, batchMax, before, after[..|after| - 1]);
    }
  }
}
