/** The spans of an instrumented program are well bracketed, each is ended exactly once, and
    it is ended with what its function finally returns. */
module SpanBrackets {
  import opened Options
  import opened MiniGo
  import opened Instrumenter
  import opened InstrumenterMeaning

  // ---- Bracketed traces ----

  /** The spans open after `ev`, given those open before it, innermost last; `None` if a
      span is reported or ended while another is innermost. */
  function Balance(ev: seq<SdkEvent>, open: seq<nat>): Option<seq<nat>> {
    if ev == [] then Some(open)
    else
      match ev[0]
      case Started(id, _, _) => Balance(ev[1..], open + [id])
      case Reported(id, _, _) =>
        if open != [] && open[|open| - 1] == id then Balance(ev[1..], open) else None
      case Ended(id, _) =>
        if open != [] && open[|open| - 1] == id then Balance(ev[1..], open[..|open| - 1]) else None
  }

  ghost predicate WellBracketed(ev: seq<SdkEvent>) {
    forall open :: Balance(ev, open) == Some(open)
  }

  function StartIds(ev: seq<SdkEvent>): seq<nat> {
    if ev == [] then []
    else (if ev[0].Started? then [ev[0].id] else []) + StartIds(ev[1..])
  }

  function Range(from: nat, to: nat): seq<nat>
    requires from <= to
  {
    seq(to - from, i requires 0 <= i < to - from => from + i)
  }

  /** What a run adds to the trace is well bracketed and starts the next span ids, in order. */
  ghost predicate Bracketed(w: World, w': World) {
    && w.trace <= w'.trace && w.nextSpan <= w'.nextSpan
    && WellBracketed(w'.trace[|w.trace|..])
    && StartIds(w'.trace[|w.trace|..]) == Range(w.nextSpan, w'.nextSpan)
  }

  lemma {:induction false} BalanceConcat(a: seq<SdkEvent>, b: seq<SdkEvent>, open: seq<nat>)
    ensures Balance(a + b, open) ==
            var mid := Balance(a, open); if mid.None? then None else Balance(b, mid.value)
  {
    if a == [] {
      assert a + b == b;
    } else {
      assert (a + b)[0] == a[0] && (a + b)[1..] == a[1..] + b;
      match a[0]
      case Started(id, _, _) => BalanceConcat(a[1..], b, open + [id]);
      case Reported(id, _, _) => BalanceConcat(a[1..], b, open);
      case Ended(id, _) =>
        if open != [] {
          BalanceConcat(a[1..], b, open[..|open| - 1]);
        }
    }
  }

  lemma {:induction false} StartIdsConcat(a: seq<SdkEvent>, b: seq<SdkEvent>)
    ensures StartIds(a + b) == StartIds(a) + StartIds(b)
  {
    if a == [] {
      assert a + b == b;
    } else {
      assert (a + b)[0] == a[0] && (a + b)[1..] == a[1..] + b;
      StartIdsConcat(a[1..], b);
    }
  }

  lemma BracketedTrans(w: World, w1: World, w2: World)
    requires Bracketed(w, w1) && Bracketed(w1, w2)
    ensures Bracketed(w, w2)
  {
    var a, b := w1.trace[|w.trace|..], w2.trace[|w1.trace|..];
    assert w2.trace[|w.trace|..] == a + b;
    forall open
      ensures Balance(a + b, open) == Some(open)
    {
      BalanceConcat(a, b, open);
    }
    StartIdsConcat(a, b);
  }

  lemma BracketedSame(w: World, w': World)
    requires w'.trace == w.trace && w'.nextSpan == w.nextSpan
    ensures Bracketed(w, w')
  {
    assert w'.trace[|w.trace|..] == [];
  }

  /** Opening a span around a bracketed run and closing it again. */
  lemma BracketedAround(w: World, open: SdkEvent, w1: World, w2: World, closing: seq<SdkEvent>, w': World)
    requires open.Started? && open.id == w.nextSpan
    requires w1.trace == w.trace + [open] && w1.nextSpan == w.nextSpan + 1
    requires Bracketed(w1, w2)
    requires Closes(closing, open.id)
    requires w'.trace == w2.trace + closing && w'.nextSpan == w2.nextSpan
    ensures Bracketed(w, w')
  {
    var inner := w2.trace[|w1.trace|..];
    AddedAround(w.trace, open, w2.trace, closing);
    forall outer: seq<nat>
      ensures Balance([open] + (inner + closing), outer) == Some(outer)
    {
      AroundBalances(open, inner, closing, outer);
    }
    AroundStarts(open, inner, closing);
    RangeHead(w.nextSpan, w2.nextSpan);
  }

  lemma AddedAround(before: seq<SdkEvent>, open: SdkEvent, after: seq<SdkEvent>, closing: seq<SdkEvent>)
    requires before + [open] <= after
    ensures (after + closing)[|before|..] == [open] + (after[|before + [open]|..] + closing)
    ensures before <= after + closing
  {
    assert after == before + [open] + after[|before + [open]|..];
  }

  lemma RangeHead(from: nat, to: nat)
    requires from < to
    ensures Range(from, to) == [from] + Range(from + 1, to)
  {}

  /** One event that ends span `id`, or two that report it and end it. */
  predicate Closes(closing: seq<SdkEvent>, id: nat) {
    && (|closing| == 1 || (|closing| == 2 && closing[0].Reported? && closing[0].id == id))
    && closing[|closing| - 1].Ended? && closing[|closing| - 1].id == id
  }

  lemma AroundBalances(open: SdkEvent, inner: seq<SdkEvent>, closing: seq<SdkEvent>, outer: seq<nat>)
    requires open.Started? && WellBracketed(inner) && Closes(closing, open.id)
    ensures Balance([open] + (inner + closing), outer) == Some(outer)
  {
    var pushed := outer + [open.id];
    BalanceConcat([open], inner + closing, outer);
    assert Balance([open], outer) == Balance([], pushed);
    BalanceConcat(inner, closing, pushed);
    assert Balance(inner, pushed) == Some(pushed);
    assert pushed[..|pushed| - 1] == outer;
    ClosingBalances(closing, open.id, pushed);
  }

  lemma AroundStarts(open: SdkEvent, inner: seq<SdkEvent>, closing: seq<SdkEvent>)
    requires open.Started? && Closes(closing, open.id)
    ensures StartIds([open] + (inner + closing)) == [open.id] + StartIds(inner)
  {
    StartIdsConcat([open], inner + closing);
    StartIdsConcat(inner, closing);
    assert StartIds([open]) == [open.id] + StartIds([]);
    assert StartIds(closing) == [] by {
      assert closing[1..] == [] || closing[1..][1..] == [];
    }
  }

  lemma ClosingBalances(closing: seq<SdkEvent>, id: nat, open: seq<nat>)
    requires Closes(closing, id)
    requires open != [] && open[|open| - 1] == id
    ensures Balance(closing, open) == Some(open[..|open| - 1])
  {
    var last := closing[|closing| - 1..];
    assert last[1..] == [];
    assert Balance(last, open) == Balance([], open[..|open| - 1]);
    if |closing| == 2 {
      assert closing[1..] == last;
    } else {
      assert closing == last;
    }
  }

  // ---- Running user code in an instrumented program ----

  /** The frame holds `span`, and above `pre` it has deferred only user closures. */
  ghost predicate Running(pre: seq<seq<Stmt>>, span: Value, st: State) {
    && pre <= st.defers && UserClosures(st.defers[|pre|..])
    && Lookup(st.env, SfSpan) == span && SfSpan !in st.slots
    && (st.current.Some? ==> st.current.value != Nil)
  }

  ghost predicate RunsBracketed(pre: seq<seq<Stmt>>, span: Value, st: State, r: Result) {
    r.out.Cut() ||
    (&& Bracketed(st.w, r.st.w) && Running(pre, span, r.st)
     && r.st.slots == st.slots && (r.out.Panicking? ==> r.out.v != Nil))
  }

  ghost predicate CallBracketed(w: World, c: CallResult) {
    match c
    case Finished(_, w') => Bracketed(w, w')
    case Panicked(v, w') => Bracketed(w, w') && v != Nil
    case _ => true
  }

  ghost predicate UserProgram(p: Program) {
    p.nest >= 1 && forall f :: f in p.funcs ==> UserDecl(p.funcs[f])
  }

  lemma RaisesNonNil(e: Expr, st: State)
    requires UserExpr(e)
    ensures Eval(e, st.env, st.w.globals).Raise? ==> Eval(e, st.env, st.w.globals).v != Nil
  {
    EvalSame(e, st.env, st.w.globals, st.env, st.w.globals);
  }

  lemma RaisesAllNonNil(es: seq<Expr>, st: State)
    requires UserExprs(es)
    ensures EvalAll(es, st.env, st.w.globals).RaiseAll? ==> EvalAll(es, st.env, st.w.globals).v != Nil
  {
    EvalAllSame(es, st.env, st.w.globals, st.env, st.w.globals);
  }

  lemma BindAllKeeps(env: map<Id, Value>, xs: seq<Id>, vs: seq<Value>, x: Id)
    requires |xs| == |vs| && x !in xs
    ensures Lookup(BindAll(env, xs, vs), x) == Lookup(env, x)
    decreases |xs|
  {
    if xs != [] {
      BindAllKeeps(Bind(env, xs[0], vs[0]), xs[1..], vs[1..], x);
    }
  }

  lemma {:induction false} BracketBlock(
    p: Program, chosen: set<string>, fuel: nat, nest: nat, ss: seq<Stmt>, pre: seq<seq<Stmt>>, span: Value, st: State)
    requires UserProgram(p) && UserCode(ss) && Running(pre, span, st)
    ensures RunsBracketed(pre, span, st, ExecBlock(InstrumentedProgram(p, chosen), fuel, nest, ss, st))
    decreases fuel, nest, 1, ss, 0
  {
    BracketedSame(st.w, st.w);
    if ss != [] {
      BracketStmt(p, chosen, fuel, nest, ss[0], pre, span, st);
      var r := ExecStmt(InstrumentedProgram(p, chosen), fuel, nest, ss[0], st);
      if r.out == Next {
        BracketBlock(p, chosen, fuel, nest, ss[1..], pre, span, r.st);
        var r2 := ExecBlock(InstrumentedProgram(p, chosen), fuel, nest, ss[1..], r.st);
        if !r2.out.Cut() {
          BracketedTrans(st.w, r.st.w, r2.st.w);
        }
      }
    }
  }

  lemma {:induction false} BracketStmt(
    p: Program, chosen: set<string>, fuel: nat, nest: nat, s: Stmt, pre: seq<seq<Stmt>>, span: Value, st: State)
    requires UserProgram(p) && UserStmt(s) && Running(pre, span, st)
    ensures RunsBracketed(pre, span, st, ExecStmt(InstrumentedProgram(p, chosen), fuel, nest, s, st))
    decreases fuel, nest, 1, s, 1
  {
    BracketedSame(st.w, st.w);
    match s
    case If(cond, thn, els) =>
      RaisesNonNil(cond, st);
      BracketBlock(p, chosen, fuel, nest, thn, pre, span, st);
      BracketBlock(p, chosen, fuel, nest, els, pre, span, st);
    case While(_, _) => BracketWhile(p, chosen, fuel, nest, s, pre, span, st);
    case Call(_, _, _) => BracketCallStmt(p, chosen, fuel, nest, s, pre, span, st);
    case _ => BracketSimple(InstrumentedProgram(p, chosen), fuel, nest, s, pre, span, st);
  }

  lemma {:induction false} BracketCallStmt(
    p: Program, chosen: set<string>, fuel: nat, nest: nat, s: Stmt, pre: seq<seq<Stmt>>, span: Value, st: State)
    requires UserProgram(p) && UserStmt(s) && s.Call? && Running(pre, span, st)
    ensures RunsBracketed(pre, span, st, ExecStmt(InstrumentedProgram(p, chosen), fuel, nest, s, st))
    decreases fuel, nest, 1, s, 0
  {
    BracketedSame(st.w, st.w);
    RaisesAllNonNil(s.args, st);
    var vs := EvalAll(s.args, st.env, st.w.globals);
    if vs.Vals? && fuel > 0 {
      BracketCall(p, chosen, fuel - 1, s.f, vs.vs, st.w);
      AfterCallBrackets(s.lhs, CallFunc(InstrumentedProgram(p, chosen), fuel - 1, s.f, vs.vs, st.w), pre, span, st,
                        ExecStmt(InstrumentedProgram(p, chosen), fuel, nest, s, st));
    }
  }

  lemma AfterCallBrackets(lhs: seq<Id>, c: CallResult, pre: seq<seq<Stmt>>, span: Value, st: State, r: Result)
    requires CallBracketed(st.w, c) && Running(pre, span, st) && (forall x :: x in lhs ==> UserName(x))
    requires r == AfterCall(lhs, st, c)
    ensures RunsBracketed(pre, span, st, r)
  {
    BracketedSame(st.w, st.w);
    if c.Finished? && |lhs| == |c.values| {
      BindAllKeeps(st.env, lhs, c.values, SfSpan);
    }
  }

  lemma BracketSimple(p: Program, fuel: nat, nest: nat, s: Stmt, pre: seq<seq<Stmt>>, span: Value, st: State)
    requires UserStmt(s) && Running(pre, span, st) && !s.If? && !s.While? && !s.Call?
    ensures RunsBracketed(pre, span, st, ExecStmt(p, fuel, nest, s, st))
  {
    var r := ExecStmt(p, fuel, nest, s, st);
    BracketedSame(st.w, r.st.w);
    match s
    case Assign(_, e) => RaisesNonNil(e, st);
    case SetGlobal(_, e) => RaisesNonNil(e, st);
    case Print(e) => RaisesNonNil(e, st);
    case Panic(e) => RaisesNonNil(e, st);
    case Return(es) =>
      RaisesAllNonNil(es, st);
      var vs := EvalAll(es, st.env, st.w.globals);
      if vs.Vals? && |vs.vs| == |st.slots| {
        BindAllKeeps(st.env, st.slots, vs.vs, SfSpan);
      }
    case Defer(closure) =>
      assert r.st.defers[|pre|..] == st.defers[|pre|..] + [closure];
    case Recover(_) =>
  }

  lemma {:induction false} BracketWhile(
    p: Program, chosen: set<string>, fuel: nat, nest: nat, s: Stmt, pre: seq<seq<Stmt>>, span: Value, st: State)
    requires UserProgram(p) && UserStmt(s) && s.While? && Running(pre, span, st)
    ensures RunsBracketed(pre, span, st, ExecStmt(InstrumentedProgram(p, chosen), fuel, nest, s, st))
    decreases fuel, nest, 1, s, 0
  {
    var p' := InstrumentedProgram(p, chosen);
    BracketedSame(st.w, st.w);
    RaisesNonNil(s.cond, st);
    if Eval(s.cond, st.env, st.w.globals) == Val(Bool(true)) && fuel > 0 {
      BracketBlock(p, chosen, fuel - 1, nest, s.body, pre, span, st);
      var r := ExecBlock(p', fuel - 1, nest, s.body, st);
      if r.out == Next {
        BracketStmt(p, chosen, fuel - 1, nest, s, pre, span, r.st);
        var r2 := ExecStmt(p', fuel - 1, nest, s, r.st);
        if !r2.out.Cut() {
          BracketedTrans(st.w, r.st.w, r2.st.w);
        }
      }
    }
  }

  /** A frame without injected code: closures, and functions that were not chosen. */
  lemma {:induction false} BracketFrame(
    p: Program, chosen: set<string>, fuel: nat, nest: nat, body: seq<Stmt>, span: Value, st: State)
    requires UserProgram(p) && UserCode(body) && Running([], span, st)
    ensures RunsBracketed([], span, st, Frame(InstrumentedProgram(p, chosen), fuel, nest, body, st))
    decreases fuel, nest, 2
  {
    var p' := InstrumentedProgram(p, chosen);
    BracketBlock(p, chosen, fuel, nest, body, [], span, st);
    var r := ExecBlock(p', fuel, nest, body, st);
    if !r.out.Cut() {
      var mid, _ := BracketDefers(p, chosen, fuel, nest, [], span, r.st, PanicOf(r.out));
      var r2 := RunDefers(p', fuel, nest, r.st, PanicOf(r.out));
      if !r2.out.Cut() {
        BracketedTrans(st.w, r.st.w, mid.w);
      }
    }
  }

  /** Runs the user's closures: `mid` and `left` are the state and the panic in flight when
      only `pre` is still deferred. */
  lemma {:induction false} BracketDefers(
    p: Program, chosen: set<string>, fuel: nat, nest: nat, pre: seq<seq<Stmt>>, span: Value,
    st: State, exiting: Option<Value>)
    returns (mid: State, left: Option<Value>)
    requires UserProgram(p) && Running(pre, span, st)
    requires exiting.Some? ==> exiting.value != Nil
    ensures var r := RunDefers(InstrumentedProgram(p, chosen), fuel, nest, st, exiting);
            r.out.Cut() ||
            (&& r == RunDefers(InstrumentedProgram(p, chosen), fuel, nest, mid, left)
             && mid.defers == pre && Bracketed(st.w, mid.w) && Running(pre, span, mid)
             && mid.slots == st.slots && (left.Some? ==> left.value != Nil))
    decreases fuel, nest, 1, |st.defers|
  {
    var p' := InstrumentedProgram(p, chosen);
    mid, left := st, exiting;
    BracketedSame(st.w, st.w);
    if |st.defers| == |pre| {
      assert st.defers == pre;
    } else if nest > 0 {
      var inner := ClosureEntry(st, exiting);
      assert LastDefer(st) == st.defers[|pre|..][|st.defers| - |pre| - 1];
      BracketFrame(p, chosen, fuel, nest - 1, LastDefer(st), span, inner);
      var r := Frame(p', fuel, nest - 1, LastDefer(st), inner);
      if !r.out.Cut() {
        var next := AfterClosure(st, r);
        assert next.defers[|pre|..] == st.defers[|pre|..][..|st.defers| - |pre| - 1];
        mid, left := BracketDefers(p, chosen, fuel, nest, pre, span, next, StillExiting(r));
        if !RunDefers(p', fuel, nest, st, exiting).out.Cut() {
          BracketedTrans(st.w, next.w, mid.w);
        }
      }
    }
  }

  lemma EntryHoldsNoSpan(d: FuncDecl, d': FuncDecl, f: string, args: seq<Value>, w: World)
    requires UserDecl(d) && (d' == d || d' == Instrumented(d)) && |args| == |ParamIds(d)|
    ensures ParamIds(d') == ParamIds(d) && Running([], Nil, Entry(d', f, args, w))
  {
    ResultsLinked(d, Nil);
    UserParamIds(d);
    var l := LinkOf(d, d', Nil);
    forall i | 0 <= i < |l.slots'|
      ensures l.slots'[i] != SfSpan
    {
      assert LinkedSlot(l, i);
    }
    BindAllKeeps(map[], ParamIds(d), args, SfSpan);
    BindAllKeeps(BindAll(map[], ParamIds(d), args), ResultSlots(d'), FlatZeros(d'.results), SfSpan);
  }

  lemma {:induction false} BracketCall(p: Program, chosen: set<string>, fuel: nat, f: string, args: seq<Value>, w: World)
    requires UserProgram(p)
    ensures CallBracketed(w, CallFunc(InstrumentedProgram(p, chosen), fuel, f, args, w))
    decreases fuel, p.nest, 3
  {
    var p' := InstrumentedProgram(p, chosen);
    BracketedSame(w, w);
    if f in p.funcs && |ParamIds(p.funcs[f])| == |args| {
      var d, d' := p.funcs[f], p'.funcs[f];
      EntryHoldsNoSpan(d, d', f, args, w);
      var st := Entry(d', f, args, w);
      if f in chosen {
        var _, _, _ := BracketChosen(p, chosen, fuel, d, st);
      } else {
        BracketFrame(p, chosen, fuel, p.nest, d.body, Nil, st);
      }
      FinishBracketed(w, st.w, d', Frame(p', fuel, p.nest, d'.body, st));
    }
  }

  lemma FinishBracketed(w: World, entered: World, d: FuncDecl, r: Result)
    requires entered.trace == w.trace && entered.nextSpan == w.nextSpan
    requires r.out.Cut() || (Bracketed(entered, r.st.w) && (r.out.Panicking? ==> r.out.v != Nil))
    ensures CallBracketed(w, FinishCall(d, r))
  {}

  /** An instrumented activation: `body` is the world when the original body starts, `mid`
      the state and `left` the panic in flight when the injected closure starts. */
  lemma {:induction false} BracketChosen(p: Program, chosen: set<string>, fuel: nat, d: FuncDecl, st: State)
    returns (body: World, mid: State, left: Option<Value>)
    requires UserProgram(p) && UserDecl(d) && Running([], Nil, st) && st.defers == []
    ensures var r := Frame(InstrumentedProgram(p, chosen), fuel, p.nest, Instrumented(d).body, st);
            r.out.Cut() ||
            (&& Bracketed(st.w, r.st.w) && (r.out.Panicking? ==> r.out.v != Nil)
             && if ParentOf(d, st.env).Context? then
                  && body == AfterPrologue(InstrumentedProgram(p, chosen), d, st).w
                  && Bracketed(body, mid.w) && mid.slots == st.slots
                  && r == Closed(st.w.nextSpan, d, mid, left)
                else r == Result(st, Panicking(RuntimeError("nil pointer dereference"))))
    decreases fuel, p.nest, 2
  {
    var p' := InstrumentedProgram(p, chosen);
    PrologueRuns(p', fuel, p.nest, d, st);
    assert Instrumented(d).body == Prologue(d) + d.body;
    body, mid, left := st.w, st, None;
    if ParentOf(d, st.env).Context? {
      body := AfterPrologue(p', d, st).w;
      mid, left := BracketBody(p, chosen, fuel, d, st);
      if !Frame(p', fuel, p.nest, Instrumented(d).body, st).out.Cut() {
        ClosedBrackets(p', d, st, mid, left);
      }
    } else {
      BracketedSame(st.w, st.w);
      assert RunDefers(p', fuel, p.nest, st, Some(RuntimeError("nil pointer dereference"))).st == st;
    }
  }

  /** From the start of the original body to the end of the frame. */
  lemma {:induction false} BracketBody(p: Program, chosen: set<string>, fuel: nat, d: FuncDecl, st: State)
    returns (mid: State, left: Option<Value>)
    requires UserProgram(p) && UserDecl(d) && Running([], Nil, st) && st.defers == []
    requires ParentOf(d, st.env).Context?
    ensures var p' := InstrumentedProgram(p, chosen);
            var r := Frame(p', fuel, p.nest, d.body, AfterPrologue(p', d, st));
            r.out.Cut() ||
            (&& Bracketed(AfterPrologue(p', d, st).w, mid.w) && mid.slots == st.slots
             && (left.Some? ==> left.value != Nil) && r == Closed(st.w.nextSpan, d, mid, left))
    decreases fuel, p.nest, 2, 1
  {
    var p' := InstrumentedProgram(p, chosen);
    var st1 := AfterPrologue(p', d, st);
    PrologueRunning(p', d, st);
    var span, pre := Lookup(st1.env, SfSpan), st1.defers;
    BracketBlock(p, chosen, fuel, p.nest, d.body, pre, span, st1);
    var r := ExecBlock(p', fuel, p.nest, d.body, st1);
    mid, left := st1, None;
    if !r.out.Cut() {
      mid, left := BracketTail(p, chosen, fuel, d, span, r.st, PanicOf(r.out));
      if !RunDefers(p', fuel, p.nest, r.st, PanicOf(r.out)).out.Cut() {
        BracketedTrans(st1.w, r.st.w, mid.w);
      }
    }
  }

  lemma PrologueRunning(p: Program, d: FuncDecl, st: State)
    requires UserDecl(d) && Running([], Nil, st) && st.defers == [] && ParentOf(d, st.env).Context?
    ensures var st1 := AfterPrologue(p, d, st);
            var span := Lookup(st1.env, SfSpan);
            && st1.defers == [DeferBody(CollectParamNames(d.params), ReturnNames(d))] && st1.slots == st.slots
            && Running(st1.defers, span, st1) && span.Span? && span.id == st.w.nextSpan
  {
    ContextNotSpan(d);
    var st1 := AfterPrologue(p, d, st);
    assert st1.defers[|st1.defers|..] == [];
  }

  /** From the end of the original body: the user's closures, then the injected one. */
  lemma {:induction false} BracketTail(
    p: Program, chosen: set<string>, fuel: nat, d: FuncDecl, span: Value, st: State, exiting: Option<Value>)
    returns (mid: State, left: Option<Value>)
    requires UserProgram(p) && Running([DeferBody(CollectParamNames(d.params), ReturnNames(d))], span, st)
    requires span.Span? && (exiting.Some? ==> exiting.value != Nil)
    ensures var r := RunDefers(InstrumentedProgram(p, chosen), fuel, p.nest, st, exiting);
            r.out.Cut() ||
            (&& Bracketed(st.w, mid.w) && mid.slots == st.slots
             && (left.Some? ==> left.value != Nil) && r == Closed(span.id, d, mid, left))
    decreases fuel, p.nest, 2, 0
  {
    var p' := InstrumentedProgram(p, chosen);
    mid, left := BracketDefers(p, chosen, fuel, p.nest, [DeferBody(CollectParamNames(d.params), ReturnNames(d))],
                               span, st, exiting);
    if !RunDefers(p', fuel, p.nest, st, exiting).out.Cut() {
      InjectedCloses(p', fuel, p.nest, d, mid, left);
    }
  }

  /** The result of a frame once the injected closure has run. */
  function Closed(id: nat, d: FuncDecl, mid: State, left: Option<Value>): Result {
    var params, rets := CollectParamNames(d.params), ReturnNames(d);
    var v := if left.Some? then left.value else Nil;
    Result(mid.(env := mid.env[SfRecovered := v], defers := [],
                w := mid.w.(trace := mid.w.trace + ClosingEvents(id, mid.env, params, rets, left))),
           if left.Some? then Panicking(left.value) else Returned)
  }

  /** The span opened by the prologue and closed by the injected closure brackets the body. */
  lemma ClosedBrackets(p: Program, d: FuncDecl, st: State, mid: State, left: Option<Value>)
    requires ParentOf(d, st.env).Context? && Bracketed(AfterPrologue(p, d, st).w, mid.w)
    ensures Bracketed(st.w, Closed(st.w.nextSpan, d, mid, left).st.w)
  {
    var id, body := st.w.nextSpan, AfterPrologue(p, d, st).w;
    var closing := ClosingEvents(id, mid.env, CollectParamNames(d.params), ReturnNames(d), left);
    BracketedAround(st.w, body.trace[|st.w.trace|], body, mid.w, closing, Closed(id, d, mid, left).st.w);
  }

  lemma ContextNotSpan(d: FuncDecl)
    requires UserDecl(d)
    ensures FindContextParam(d.params) != Some(SfSpan)
  {
    ContextParamIsUser(d.params);
  }

  lemma InjectedCloses(p: Program, fuel: nat, nest: nat, d: FuncDecl, mid: State, left: Option<Value>)
    requires nest >= 1 && mid.defers == [DeferBody(CollectParamNames(d.params), ReturnNames(d))]
    requires Lookup(mid.env, SfSpan).Span? && (left.Some? ==> left.value != Nil)
    ensures RunDefers(p, fuel, nest, mid, left) == Closed(Lookup(mid.env, SfSpan).id, d, mid, left)
  {
    var inner := ClosureEntry(mid, left);
    ClosureRuns(p, fuel, nest - 1, CollectParamNames(d.params), ReturnNames(d), inner);
    var r := Frame(p, fuel, nest - 1, LastDefer(mid), inner);
    assert mid.defers[..0] == [];
    assert StillExiting(r) == left;
    assert AfterClosure(mid, r).defers == [];
  }

  // ---- Main theorems ----

  function EndCount(ev: seq<SdkEvent>, id: nat): nat {
    if ev == [] then 0
    else (if ev[0].Ended? && ev[0].id == id then 1 else 0) + EndCount(ev[1..], id)
  }

  function StartCount(ev: seq<SdkEvent>, id: nat): nat {
    if ev == [] then 0
    else (if ev[0].Started? && ev[0].id == id then 1 else 0) + StartCount(ev[1..], id)
  }

  lemma {:induction false} BalanceCounts(ev: seq<SdkEvent>, open: seq<nat>, id: nat)
    requires Balance(ev, open).Some?
    ensures multiset(open)[id] + StartCount(ev, id) ==
            multiset(Balance(ev, open).value)[id] + EndCount(ev, id)
  {
    if ev != [] {
      match ev[0]
      case Started(i, _, _) => BalanceCounts(ev[1..], open + [i], id);
      case Reported(_, _, _) => BalanceCounts(ev[1..], open, id);
      case Ended(i, _) =>
        assert open == open[..|open| - 1] + [i];
        BalanceCounts(ev[1..], open[..|open| - 1], id);
    }
  }

  lemma {:induction false} StartCountIs(ev: seq<SdkEvent>, id: nat)
    ensures StartCount(ev, id) == multiset(StartIds(ev))[id]
  {
    if ev != [] {
      StartCountIs(ev[1..], id);
    }
  }

  lemma {:induction false} RangeCounts(from: nat, to: nat, id: nat)
    requires from <= to
    ensures multiset(Range(from, to))[id] == (if from <= id < to then 1 else 0)
  {
    if from < to {
      assert Range(from, to) == Range(from, to - 1) + [to - 1];
      RangeCounts(from, to - 1, id);
    }
  }

  function WorldAfter(c: CallResult, w: World): World {
    if c.Finished? || c.Panicked? then c.w else w
  }

  /** Every call of an instrumented program that ends adds a well-bracketed word to the trace,
      in which each span id it used is started exactly once and ended exactly once. */
  lemma SpansAreBracketed(p: Program, chosen: set<string>, fuel: nat, f: string, args: seq<Value>, w: World)
    requires UserProgram(p)
    ensures var w' := WorldAfter(CallFunc(InstrumentedProgram(p, chosen), fuel, f, args, w), w);
            && Bracketed(w, w')
            && forall id: nat :: var added := w'.trace[|w.trace|..];
                 StartCount(added, id) == EndCount(added, id) == (if w.nextSpan <= id < w'.nextSpan then 1 else 0)
  {
    var c := CallFunc(InstrumentedProgram(p, chosen), fuel, f, args, w);
    var w' := WorldAfter(c, w);
    BracketCall(p, chosen, fuel, f, args, w);
    BracketedSame(w, w);
    var added := w'.trace[|w.trace|..];
    forall id: nat
      ensures StartCount(added, id) == EndCount(added, id) == (if w.nextSpan <= id < w'.nextSpan then 1 else 0)
    {
      BalanceCounts(added, [], id);
      StartCountIs(added, id);
      RangeCounts(w.nextSpan, w'.nextSpan, id);
    }
  }

  /** What `End` is given for results `vs`: nothing, the one value, or all of them by position. */
  function EndFor(vs: seq<Value>): EndValue {
    if |vs| == 0 then NilResult
    else if |vs| == 1 then OneResult(vs[0])
    else ManyResults(seq(|vs|, i requires 0 <= i < |vs| => (Digits(i), vs[i])))
  }

  predicate NoBlankResult(d: FuncDecl) {
    forall f :: f in d.results ==> Blank !in f.names
  }

  lemma NamedNotBlank(fields: seq<Field>, from: nat)
    requires forall f :: f in fields ==> Blank !in f.names
    ensures Blank !in FlatIds(NamedResults(fields, from))
    decreases |fields|
  {
    if fields != [] {
      var named := NamedResults(fields, from);
      assert fields[0] in fields;
      NamedNotBlank(fields[1..], from + |FieldIds(fields[0])|);
      assert named[1..] == NamedResults(fields[1..], from + |FieldIds(fields[0])|);
      assert Blank !in FieldIds(named[0]);
    }
  }

  /** The event starts span `id` under the function's name, qualified by its receiver's type,
      with its named arguments as `env` binds them. */
  predicate Opens(e: SdkEvent, id: nat, d: FuncDecl, env: map<Id, Value>) {
    && e.Started? && e.id == id
    && e.fn == (if d.recv.Some? then d.recv.value.typ + "." + d.name else d.name)
    && Records(e.args, CollectParamNames(d.params), env)
  }

  /** The call's events start span `id` on `entry` and end it: with exactly the values returned,
      or with nil just after reporting the panic that leaves the function, with the arguments
      and then the results as `exit` binds them. */
  predicate ReceivesResult(
    c: CallResult, w: World, id: nat, d: FuncDecl, entry: map<Id, Value>, exit: map<Id, Value>)
  {
    match c
    case Finished(vs, w') =>
      && |w'.trace| >= |w.trace| + 2 && w.trace <= w'.trace && Opens(w'.trace[|w.trace|], id, d, entry)
      && w'.trace[|w'.trace| - 1] == Ended(id, EndFor(vs))
    case Panicked(v, w') =>
      && |w'.trace| >= |w.trace| + 3 && w.trace <= w'.trace && Opens(w'.trace[|w.trace|], id, d, entry)
      && w'.trace[|w'.trace| - 2].Reported? && w'.trace[|w'.trace| - 2].id == id
      && w'.trace[|w'.trace| - 2].panicValue == v
      && Records(w'.trace[|w'.trace| - 2].locals,
                 CollectParamNames(d.params) + FlatIds(Instrumented(d).results), exit)
      && w'.trace[|w'.trace| - 1] == Ended(id, NilResult)
    case _ => true
  }

  lemma EndOfResults(env: map<Id, Value>, rets: seq<Id>)
    ensures EndOf(EndArgFor(rets), env) == EndFor(Values(env, rets))
  {
    if |rets| > 1 {
      assert Entries(env, Numbered(rets)) == EndFor(Values(env, rets)).entries;
    }
  }

  lemma FinishedReceives(
    d: FuncDecl, id: nat, mid: State, w: World, started: SdkEvent, entry: map<Id, Value>, exit: map<Id, Value>)
    requires NoBlankResult(d) && w.trace + [started] <= mid.w.trace && Opens(started, id, d, entry)
    ensures ReceivesResult(FinishCall(Instrumented(d), Closed(id, d, mid, None)), w, id, d, entry, exit)
  {
    var rets := ReturnNames(d);
    NamedNotBlank(d.results, 0);
    assert ResultSlots(Instrumented(d)) == rets;
    EndOfResults(mid.env[SfRecovered := Nil], rets);
  }

  lemma PanickedReceives(d: FuncDecl, id: nat, mid: State, v: Value, w: World, started: SdkEvent, entry: map<Id, Value>)
    requires w.trace + [started] <= mid.w.trace && Opens(started, id, d, entry)
    ensures var r := Closed(id, d, mid, Some(v));
            ReceivesResult(FinishCall(Instrumented(d), r), w, id, d, entry, r.st.env)
  {
    KeyedRecords(CollectParamNames(d.params) + ReturnNames(d), mid.env[SfRecovered := v]);
  }

  lemma PrologueOpens(p: Program, d: FuncDecl, st: State)
    requires ParentOf(d, st.env).Context?
    ensures var after := AfterPrologue(p, d, st).w.trace;
            |after| == |st.w.trace| + 1 && st.w.trace <= after && Opens(after[|st.w.trace|], st.w.nextSpan, d, st.env)
  {
    KeyedRecords(CollectParamNames(d.params), st.env);
  }

  /** An activation of a chosen function brackets its own span: the first event it adds starts
      a fresh span with the arguments as they are on entry, and the last one ends that span with
      exactly the values returned to the caller, or with nil when a panic leaves the function,
      just after reporting that panic with the arguments and results as they then are. */
  lemma EndReceivesResult(p: Program, chosen: set<string>, fuel: nat, f: string, args: seq<Value>, w: World)
    requires UserProgram(p) && f in p.funcs && f in chosen && NoBlankResult(p.funcs[f])
    requires |ParamIds(p.funcs[f])| == |args|
    requires ParentOf(p.funcs[f], Entry(Instrumented(p.funcs[f]), f, args, w).env).Context?
    ensures var p', d := InstrumentedProgram(p, chosen), p.funcs[f];
            var st := Entry(Instrumented(d), f, args, w);
            ReceivesResult(CallFunc(p', fuel, f, args, w), w, w.nextSpan, d, st.env,
                           Frame(p', fuel, p.nest, Instrumented(d).body, st).st.env)
  {
    var p' := InstrumentedProgram(p, chosen);
    var d := p.funcs[f];
    EntryHoldsNoSpan(d, Instrumented(d), f, args, w);
    var st := Entry(Instrumented(d), f, args, w);
    var body, mid, left := BracketChosen(p, chosen, fuel, d, st);
    var r := Frame(p', fuel, p.nest, Instrumented(d).body, st);
    assert CallFunc(p', fuel, f, args, w) == FinishCall(Instrumented(d), r);
    if !r.out.Cut() {
      PrologueOpens(p', d, st);
      var started := body.trace[|w.trace|];
      assert body.trace == w.trace + [started] && body.trace <= mid.w.trace;
      match left
      case None => FinishedReceives(d, w.nextSpan, mid, w, started, st.env, r.st.env);
      case Some(v) => PanickedReceives(d, w.nextSpan, mid, v, w, started, st.env);
    }
  }
}
