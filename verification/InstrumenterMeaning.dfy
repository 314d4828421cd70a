/** Instrumentation preserves meaning: an instrumented program does what the original does,
    up to the SDK's own bindings inside contexts. */
module InstrumenterMeaning {
  import opened Options
  import opened MiniGo
  import opened Instrumenter
  import opened MiniGoBounds

  // ---- Values up to SDK keys ----

  function EraseCtx(c: Ctx): Ctx {
    match c
    case Background => Background
    case WithValue(parent, key, v) => WithValue(EraseCtx(parent), key, Erase(v))
    case WithSdk(parent, _) => EraseCtx(parent)
  }

  function Erase(v: Value): Value {
    match v
    case Context(c) => Context(EraseCtx(c))
    case Span(id, c) => Span(id, EraseCtx(c))
    case _ => v
  }

  predicate SameVal(a: Value, b: Value) {
    Erase(a) == Erase(b)
  }

  predicate SameVals(a: seq<Value>, b: seq<Value>) {
    |a| == |b| && forall i :: 0 <= i < |a| ==> SameVal(a[i], b[i])
  }

  ghost predicate SameGlobals(g: map<string, Value>, g': map<string, Value>) {
    forall x :: SameVal(LookupGlobal(g, x), LookupGlobal(g', x))
  }

  /** Same globals, same user-visible events, same functions entered in the same order. */
  ghost predicate SameWorld(w: World, w': World) {
    SameGlobals(w.globals, w'.globals) && SameVals(w.events, w'.events) && w.entered == w'.entered
  }

  ghost predicate SameCall(c: CallResult, c': CallResult) {
    match c
    case Finished(vs, w) => c'.Finished? && SameVals(vs, c'.values) && SameWorld(w, c'.w)
    case Panicked(v, w) => c'.Panicked? && v != Nil && SameVal(v, c'.v) && SameWorld(w, c'.w)
    case OutOfFuel => c'.OutOfFuel?
    case NilCtx => true
  }

  // ---- Programs a user can write ----

  predicate UserName(x: Id) {
    x.User? || x.Blank?
  }

  predicate UserExpr(e: Expr) {
    match e
    case Lit(_) => true
    case Var(x) => x.User?
    case Global(_) => true
    case Binary(_, l, r) => UserExpr(l) && UserExpr(r)
    case NotNil(a) => UserExpr(a)
    case CtxValue(c, _) => UserExpr(c)
    case CtxWith(c, _, a) => UserExpr(c) && UserExpr(a)
    case SpanContext(_) => false
  }

  predicate UserExprs(es: seq<Expr>) {
    forall e :: e in es ==> UserExpr(e)
  }

  predicate UserStmt(s: Stmt) {
    match s
    case Assign(x, e) => UserName(x) && UserExpr(e)
    case SetGlobal(_, e) => UserExpr(e)
    case Print(e) => UserExpr(e)
    case If(cond, thn, els) => UserExpr(cond) && UserCode(thn) && UserCode(els)
    case While(cond, body) => UserExpr(cond) && UserCode(body)
    case Call(lhs, _, args) => (forall x :: x in lhs ==> UserName(x)) && UserExprs(args)
    case Return(es) => UserExprs(es)
    case Panic(e) => UserExpr(e)
    case Defer(closure) => UserCode(closure)
    case Recover(x) => UserName(x)
    case _ => false
  }

  predicate UserCode(ss: seq<Stmt>) {
    forall s :: s in ss ==> UserStmt(s)
  }

  predicate UserFields(fields: seq<Field>) {
    forall f :: f in fields ==> forall x :: x in f.names ==> UserName(x)
  }

  predicate UserDecl(d: FuncDecl) {
    && (d.recv.Some? ==> UserFields([d.recv.value]))
    && UserFields(d.params) && UserFields(d.results) && UserCode(d.body)
  }

  /** No context parameter is called `_`: its name is used as a value by the prologue. */
  predicate UsableContext(d: FuncDecl) {
    FindContextParam(d.params) != Some(Blank)
  }

  /** What the theorem asks of the original: it is user code throughout, the context
      parameter of a chosen function can be named, and that parameter is watched, so that
      a run that passes a nil context to a chosen function ends in `NilCtx`. */
  predicate Original(p: Program, chosen: set<string>) {
    && p.nest >= 1
    && (forall f :: f in p.funcs ==> UserDecl(p.funcs[f]))
    && (forall f :: f in p.funcs && f in chosen ==> UsableContext(p.funcs[f]))
    && (forall f :: f in p.funcs && f in chosen && FindContextParam(p.funcs[f].params).Some? ==>
          f in p.watch && p.watch[f] == FindContextParam(p.funcs[f].params).value)
  }

  // ---- The simulation relation ----

  /** How the frames of one function correspond: result variables pairwise, and the span the
      instrumented frame holds. */
  datatype Link = Link(slots: seq<Id>, slots': seq<Id>, span: Value)

  predicate Linked(l: Link) {
    && |l.slots| == |l.slots'|
    && forall i :: 0 <= i < |l.slots| ==> LinkedSlot(l, i)
  }

  predicate LinkedSlot(l: Link, i: nat)
    requires i < |l.slots| == |l.slots'|
  {
    if l.slots[i].User? then l.slots'[i] == l.slots[i]
    else l.slots[i] == Slot(i) && (l.slots'[i] == Slot(i) || l.slots'[i] == SfRet(i))
  }

  ghost predicate SameUser(env: map<Id, Value>, env': map<Id, Value>) {
    forall n: string :: SameVal(Lookup(env, User(n)), Lookup(env', User(n)))
  }

  ghost predicate SameEnv(l: Link, env: map<Id, Value>, env': map<Id, Value>)
    requires |l.slots| == |l.slots'|
  {
    && SameUser(env, env')
    && (forall i :: 0 <= i < |l.slots| ==> SameVal(Lookup(env, l.slots[i]), Lookup(env', l.slots'[i])))
    && Lookup(env', SfSpan) == l.span
  }

  predicate SameOption(a: Option<Value>, b: Option<Value>) {
    match a
    case None => b.None?
    case Some(v) => b.Some? && v != Nil && SameVal(v, b.value)
  }

  predicate UserClosures(ds: seq<seq<Stmt>>) {
    forall d :: d in ds ==> UserCode(d)
  }

  /** `pre` is what the instrumented frame deferred before any user code ran. */
  ghost predicate SameState(l: Link, pre: seq<seq<Stmt>>, s: State, s': State) {
    && Linked(l)
    && SameEnv(l, s.env, s'.env)
    && s'.defers == pre + s.defers
    && UserClosures(s.defers)
    && SameOption(s.current, s'.current)
    && ((s.slots == l.slots && s'.slots == l.slots') || (s.slots == [] && s'.slots == []))
    && SameWorld(s.w, s'.w)
  }

  ghost predicate SameResult(l: Link, pre: seq<seq<Stmt>>, r: Result, r': Result) {
    match r.out
    case NilContext => true
    case Timeout => r'.out.Timeout?
    case Panicking(v) => r'.out.Panicking? && v != Nil && SameVal(v, r'.out.v) && SameState(l, pre, r.st, r'.st)
    case _ => r'.out == r.out && SameState(l, pre, r.st, r'.st)
  }

  // ---- Expressions ----

  lemma UserValueErases(c: Ctx, key: string)
    ensures Erase(UserValue(c, key)) == UserValue(EraseCtx(c), key)
  {}

  ghost predicate SameEval(a: EvalResult, b: EvalResult) {
    match a
    case Val(v) => b.Val? && SameVal(v, b.v)
    case Raise(v) => b.Raise? && v != Nil && SameVal(v, b.v)
  }

  lemma OperateSame(op: BinaryOp, a: Value, b: Value, a': Value, b': Value)
    requires SameVal(a, a') && SameVal(b, b')
    ensures SameEval(Operate(op, a, b), Operate(op, a', b'))
  {}

  lemma {:induction false} EvalSame(
    e: Expr, env: map<Id, Value>, g: map<string, Value>, env': map<Id, Value>, g': map<string, Value>)
    requires UserExpr(e) && SameUser(env, env') && SameGlobals(g, g')
    ensures SameEval(Eval(e, env, g), Eval(e, env', g'))
  {
    match e
    case Lit(_) =>
    case Var(_) =>
    case Global(_) =>
    case Binary(op, l, r) =>
      EvalSame(l, env, g, env', g');
      EvalSame(r, env, g, env', g');
      var a, b, a', b' := Eval(l, env, g), Eval(r, env, g), Eval(l, env', g'), Eval(r, env', g');
      if a.Val? && b.Val? {
        OperateSame(op, a.v, b.v, a'.v, b'.v);
      }
    case NotNil(a) => EvalSame(a, env, g, env', g');
    case CtxWith(c, _, a) => EvalSame(c, env, g, env', g'); EvalSame(a, env, g, env', g');
    case CtxValue(c, key) =>
      EvalSame(c, env, g, env', g');
      var a, b := Eval(c, env, g), Eval(c, env', g');
      if a.Val? && a.v.Context? {
        UserValueErases(a.v.ctx, key);
        UserValueErases(b.v.ctx, key);
      }
  }

  lemma {:induction false} EvalAllSame(
    es: seq<Expr>, env: map<Id, Value>, g: map<string, Value>, env': map<Id, Value>, g': map<string, Value>)
    requires UserExprs(es) && SameUser(env, env') && SameGlobals(g, g')
    ensures var a, b := EvalAll(es, env, g), EvalAll(es, env', g');
            match a
            case Vals(vs) => b.Vals? && SameVals(vs, b.vs)
            case RaiseAll(v) => b.RaiseAll? && v != Nil && SameVal(v, b.v)
  {
    if es != [] {
      EvalSame(es[0], env, g, env', g');
      EvalAllSame(es[1..], env, g, env', g');
    }
  }

  // ---- Environments ----

  lemma BindSame(l: Link, env: map<Id, Value>, env': map<Id, Value>, x: Id, v: Value, v': Value)
    requires Linked(l) && SameEnv(l, env, env') && UserName(x) && SameVal(v, v')
    ensures SameEnv(l, Bind(env, x, v), Bind(env', x, v'))
  {
    var a, a' := Bind(env, x, v), Bind(env', x, v');
    forall i | 0 <= i < |l.slots|
      ensures SameVal(Lookup(a, l.slots[i]), Lookup(a', l.slots'[i]))
    {
      assert LinkedSlot(l, i);
    }
  }

  lemma BindSlotSame(l: Link, env: map<Id, Value>, env': map<Id, Value>, k: nat, v: Value, v': Value)
    requires Linked(l) && SameEnv(l, env, env') && k < |l.slots| && SameVal(v, v')
    ensures SameEnv(l, Bind(env, l.slots[k], v), Bind(env', l.slots'[k], v'))
  {
    assert LinkedSlot(l, k);
    var a, a' := Bind(env, l.slots[k], v), Bind(env', l.slots'[k], v');
    forall i | 0 <= i < |l.slots|
      ensures SameVal(Lookup(a, l.slots[i]), Lookup(a', l.slots'[i]))
    {
      assert LinkedSlot(l, i);
    }
  }

  lemma {:induction false} BindAllSame(
    l: Link, env: map<Id, Value>, env': map<Id, Value>, xs: seq<Id>, vs: seq<Value>, vs': seq<Value>)
    requires Linked(l) && SameEnv(l, env, env') && |xs| == |vs| && SameVals(vs, vs')
    requires forall x :: x in xs ==> UserName(x)
    ensures SameEnv(l, BindAll(env, xs, vs), BindAll(env', xs, vs'))
    decreases |xs|
  {
    if xs != [] {
      BindSame(l, env, env', xs[0], vs[0], vs'[0]);
      BindAllSame(l, Bind(env, xs[0], vs[0]), Bind(env', xs[0], vs'[0]), xs[1..], vs[1..], vs'[1..]);
    }
  }

  lemma {:induction false} BindSlotsSame(
    l: Link, env: map<Id, Value>, env': map<Id, Value>, k: nat, vs: seq<Value>, vs': seq<Value>)
    requires Linked(l) && SameEnv(l, env, env') && k + |vs| == |l.slots| && SameVals(vs, vs')
    ensures SameEnv(l, BindAll(env, l.slots[k..], vs), BindAll(env', l.slots'[k..], vs'))
    decreases |vs|
  {
    if vs != [] {
      BindSlotSame(l, env, env', k, vs[0], vs'[0]);
      BindSlotsSame(l, Bind(env, l.slots[k], vs[0]), Bind(env', l.slots'[k], vs'[0]), k + 1, vs[1..], vs'[1..]);
      assert l.slots[k..][1..] == l.slots[k + 1..] && l.slots'[k..][1..] == l.slots'[k + 1..];
    }
  }

  // ---- Result variables before and after naming ----

  predicate NamedFrom(a: seq<Id>, b: seq<Id>, from: nat) {
    && |a| == |b|
    && forall i :: 0 <= i < |a| ==> b[i] == a[i] || (a[i] == Blank && b[i] == SfRet(from + i))
  }

  lemma NamedFromConcat(a: seq<Id>, a': seq<Id>, b: seq<Id>, b': seq<Id>, from: nat)
    requires NamedFrom(a, a', from) && NamedFrom(b, b', from + |a|)
    ensures NamedFrom(a + b, a' + b', from)
  {
    forall i | |a| <= i < |a + b|
      ensures (a' + b')[i] == (a + b)[i] || ((a + b)[i] == Blank && (a' + b')[i] == SfRet(from + i))
    {
      assert (a + b)[i] == b[i - |a|] && (a' + b')[i] == b'[i - |a|];
    }
  }

  lemma {:induction false} NamingKeepsResults(fields: seq<Field>, from: nat)
    ensures NamedFrom(FlatIds(fields), FlatIds(NamedResults(fields, from)), from)
    ensures FlatZeros(NamedResults(fields, from)) == FlatZeros(fields)
    decreases |fields|
  {
    if fields != [] {
      var rest := from + |FieldIds(fields[0])|;
      NamingKeepsResults(fields[1..], rest);
      var named := NamedResults(fields, from);
      assert named[1..] == NamedResults(fields[1..], rest);
      FieldNamedFrom(fields[0], named[0], from);
      NamedFromConcat(FieldIds(fields[0]), FieldIds(named[0]), FlatIds(fields[1..]), FlatIds(named[1..]), from);
    }
  }

  lemma FieldNamedFrom(f: Field, f': Field, from: nat)
    requires f' == f || (f.names == [] && f'.names == [SfRet(from)])
    ensures NamedFrom(FieldIds(f), FieldIds(f'), from)
  {}

  lemma UserFlatIds(fields: seq<Field>)
    requires UserFields(fields)
    ensures forall x :: x in FlatIds(fields) ==> UserName(x)
  {
    if fields != [] {
      UserFlatIds(fields[1..]);
    }
  }

  lemma ContextParamIsUser(params: seq<Field>)
    requires UserFields(params)
    ensures FindContextParam(params).Some? ==> UserName(FindContextParam(params).value)
  {
    if params != [] && !(IsContextType(params[0].typ) && params[0].names != []) {
      ContextParamIsUser(params[1..]);
    }
  }

  lemma UserParamIds(d: FuncDecl)
    requires UserDecl(d)
    ensures forall x :: x in ParamIds(d) ==> UserName(x)
  {
    UserFlatIds(d.params);
    if d.recv.Some? {
      assert d.recv.value in [d.recv.value];
    }
  }

  function LinkOf(d: FuncDecl, d': FuncDecl, span: Value): Link {
    Link(ResultSlots(d), ResultSlots(d'), span)
  }

  lemma ResultsLinked(d: FuncDecl, span: Value)
    requires UserDecl(d)
    ensures Linked(LinkOf(d, d, span)) && Linked(LinkOf(d, Instrumented(d), span))
    ensures FlatZeros(Instrumented(d).results) == FlatZeros(d.results)
    ensures ParamIds(Instrumented(d)) == ParamIds(d)
  {
    NamingKeepsResults(d.results, 0);
    UserFlatIds(d.results);
    SlotsLinked(FlatIds(d.results), FlatIds(d.results), span);
    SlotsLinked(FlatIds(d.results), FlatIds(Instrumented(d).results), span);
  }

  lemma SlotsLinked(ids: seq<Id>, ids': seq<Id>, span: Value)
    requires NamedFrom(ids, ids', 0) && forall x :: x in ids ==> UserName(x)
    ensures Linked(Link(SlotIds(ids), SlotIds(ids'), span))
  {
    var l := Link(SlotIds(ids), SlotIds(ids'), span);
    forall i | 0 <= i < |l.slots|
      ensures LinkedSlot(l, i)
    {
      assert ids[i] in ids;
    }
  }

  /** Entering a function with corresponding arguments, whether or not it was rewritten. */
  lemma EntrySame(d: FuncDecl, d': FuncDecl, f: string, args: seq<Value>, args': seq<Value>, w: World, w': World)
    requires UserDecl(d) && (d' == d || d' == Instrumented(d))
    requires |args| == |ParamIds(d)| && SameVals(args, args') && SameWorld(w, w')
    ensures ParamIds(d') == ParamIds(d)
    ensures SameState(LinkOf(d, d', Nil), [], Entry(d, f, args, w), Entry(d', f, args', w'))
  {
    var l := LinkOf(d, d', Nil);
    ResultsLinked(d, Nil);
    UserParamIds(d);
    forall i | 0 <= i < |l.slots|
      ensures SameVal(Lookup(map[], l.slots[i]), Lookup(map[], l.slots'[i]))
    {}
    BindAllSame(l, map[], map[], ParamIds(d), args, args');
    var zs := FlatZeros(d.results);
    BindSlotsSame(l, BindAll(map[], ParamIds(d), args), BindAll(map[], ParamIds(d), args'), 0, zs, zs);
    assert l.slots[0..] == l.slots && l.slots'[0..] == l.slots';
  }

  // ---- The injected code ----

  function SpanCtxFor(p: Program, from: Value, id: nat): Ctx
    requires from.Context?
  {
    WithAllSdk(WithSdk(from.ctx, SpanId(id)), p.sdk(id))
  }

  function ParentOf(d: FuncDecl, env: map<Id, Value>): Value {
    var c := FindContextParam(d.params);
    if c.Some? then Lookup(env, c.value) else Context(Background)
  }

  /** The state in which the original body starts: the span is held in `_sfSpan`, the context
      parameter is the span's context, and the closing closure is deferred first. */
  function AfterPrologue(p: Program, d: FuncDecl, st: State): State
    requires ParentOf(d, st.env).Context?
  {
    var c := FindContextParam(d.params);
    var id := st.w.nextSpan;
    var ctx := SpanCtxFor(p, ParentOf(d, st.env), id);
    var env1 := st.env[SfSpan := Span(id, ctx)];
    st.(env := if c.Some? then Bind(env1, c.value, Context(ctx)) else env1,
        defers := st.defers + [DeferBody(CollectParamNames(d.params), ReturnNames(d))],
        w := st.w.(nextSpan := id + 1,
                   trace := st.w.trace + [Started(id, SpanName(d), Entries(st.env, Keyed(CollectParamNames(d.params))))]))
  }

  lemma ExecHead(p: Program, fuel: nat, nest: nat, s: Stmt, rest: seq<Stmt>, st: State)
    ensures ExecBlock(p, fuel, nest, [s] + rest, st) ==
            var r := ExecStmt(p, fuel, nest, s, st);
            if r.out != Next then r else ExecBlock(p, fuel, nest, rest, r.st)
  {
    assert ([s] + rest)[0] == s && ([s] + rest)[1..] == rest;
  }

  lemma PrologueRuns(p: Program, fuel: nat, nest: nat, d: FuncDecl, st: State)
    ensures ExecBlock(p, fuel, nest, Prologue(d) + d.body, st) ==
            if ParentOf(d, st.env).Context? then ExecBlock(p, fuel, nest, d.body, AfterPrologue(p, d, st))
            else Result(st, Panicking(RuntimeError("nil pointer dereference")))
  {
    var c := FindContextParam(d.params);
    var start := StartSpan(c, SpanName(d), Keyed(CollectParamNames(d.params)));
    var close := Defer(DeferBody(CollectParamNames(d.params), ReturnNames(d)));
    var rest := [close] + d.body;
    if c.Some? {
      var adopt := Assign(c.value, SpanContext(SfSpan));
      assert Prologue(d) + d.body == [start] + ([adopt] + rest);
      ExecHead(p, fuel, nest, start, [adopt] + rest, st);
      if ParentOf(d, st.env).Context? {
        var st1 := DoStart(p, c, start.fn, start.spanArgs, st).st;
        ExecHead(p, fuel, nest, adopt, rest, st1);
        var st2 := ExecStmt(p, fuel, nest, adopt, st1).st;
        ExecHead(p, fuel, nest, close, d.body, st2);
        assert st2.(defers := st2.defers + [close.closure]) == AfterPrologue(p, d, st);
      }
    } else {
      assert Prologue(d) + d.body == [start] + rest;
      ExecHead(p, fuel, nest, start, rest, st);
      var st1 := DoStart(p, c, start.fn, start.spanArgs, st).st;
      ExecHead(p, fuel, nest, close, d.body, st1);
      assert st1.(defers := st1.defers + [close.closure]) == AfterPrologue(p, d, st);
    }
  }

  /** What the injected closure reports to the SDK when `exiting` leaves the function. */
  function ClosingEvents(id: nat, env: map<Id, Value>, params: seq<Id>, rets: seq<Id>, exiting: Option<Value>): seq<SdkEvent> {
    match exiting
    case None => [Ended(id, EndOf(EndArgFor(rets), env[SfRecovered := Nil]))]
    case Some(v) =>
      [Reported(id, v, Entries(env[SfRecovered := v], Keyed(params + rets))), Ended(id, NilResult)]
  }

  function PanicBranch(names: seq<Id>): seq<Stmt> {
    [ReportPanic(Keyed(names)), EndSpan(EndNil), Panic(Var(SfRecovered))]
  }

  /** Reports the recovered value, ends the span with nil and panics again. */
  lemma PanicBranchRuns(p: Program, fuel: nat, nest: nat, names: seq<Id>, st: State)
    requires Lookup(st.env, SfSpan).Span? && Lookup(st.env, SfRecovered) != Nil
    ensures var id, v := Lookup(st.env, SfSpan).id, Lookup(st.env, SfRecovered);
            ExecBlock(p, fuel, nest, PanicBranch(names), st) ==
            Result(st.(w := st.w.(trace := st.w.trace + [Reported(id, v, Entries(st.env, Keyed(names))), Ended(id, NilResult)])),
                   Panicking(v))
  {
    var id, v := Lookup(st.env, SfSpan).id, Lookup(st.env, SfRecovered);
    var report, endNil, again := ReportPanic(Keyed(names)), EndSpan(EndNil), Panic(Var(SfRecovered));
    assert PanicBranch(names) == [report] + ([endNil] + ([again] + []));
    ExecHead(p, fuel, nest, report, [endNil] + ([again] + []), st);
    var st1 := Emit(st, Reported(id, v, Entries(st.env, Keyed(names))));
    ExecHead(p, fuel, nest, endNil, [again] + [], st1);
    var st2 := Emit(st1, Ended(id, NilResult));
    ExecHead(p, fuel, nest, again, [], st2);
    assert st2.w.trace == st.w.trace + [Reported(id, v, Entries(st.env, Keyed(names))), Ended(id, NilResult)];
  }

  lemma EndRuns(p: Program, fuel: nat, nest: nat, rets: seq<Id>, st: State)
    requires Lookup(st.env, SfSpan).Span?
    ensures var ended := Ended(Lookup(st.env, SfSpan).id, EndOf(EndArgFor(rets), st.env));
            ExecBlock(p, fuel, nest, [EndSpan(EndArgFor(rets))] + [], st) == Result(Emit(st, ended), Next)
  {
    ExecHead(p, fuel, nest, EndSpan(EndArgFor(rets)), [], st);
  }

  /** The injected closure lets the panic in flight continue and otherwise changes nothing
      the program can see. */
  lemma ClosureRuns(p: Program, fuel: nat, nest: nat, params: seq<Id>, rets: seq<Id>, st: State)
    requires Lookup(st.env, SfSpan).Span? && st.defers == []
    requires st.current.Some? ==> st.current.value != Nil
    ensures var v := if st.current.Some? then st.current.value else Nil;
            Frame(p, fuel, nest, DeferBody(params, rets), st) ==
            Result(st.(env := st.env[SfRecovered := v], current := None,
                       w := st.w.(trace := st.w.trace + ClosingEvents(Lookup(st.env, SfSpan).id, st.env, params, rets, st.current))),
                   if st.current.Some? then Panicking(v) else Returned)
  {
    var v := if st.current.Some? then st.current.value else Nil;
    var id := Lookup(st.env, SfSpan).id;
    var branch := If(NotNil(Var(SfRecovered)), PanicBranch(params + rets), []);
    var end := EndSpan(EndArgFor(rets));
    assert DeferBody(params, rets) == [Recover(SfRecovered)] + ([branch] + ([end] + []));
    ExecHead(p, fuel, nest, Recover(SfRecovered), [branch] + ([end] + []), st);
    var st1 := st.(env := st.env[SfRecovered := v], current := None);
    assert ExecStmt(p, fuel, nest, Recover(SfRecovered), st) == Result(st1, Next);
    ExecHead(p, fuel, nest, branch, [end] + [], st1);
    assert Eval(Var(SfRecovered), st1.env, st1.w.globals) == Val(v);
    assert Eval(branch.cond, st1.env, st1.w.globals) == Val(Bool(v != Nil));
    if st.current.Some? {
      PanicBranchRuns(p, fuel, nest, params + rets, st1);
    } else {
      assert ExecBlock(p, fuel, nest, branch.els, st1) == Result(st1, Next);
      EndRuns(p, fuel, nest, rets, st1);
    }
  }

  // ---- The simulation ----

  lemma {:induction false} SimBlock(
    p: Program, chosen: set<string>, fuel: nat, nest: nat, ss: seq<Stmt>,
    l: Link, pre: seq<seq<Stmt>>, st: State, st': State)
    requires Original(p, chosen) && UserCode(ss) && SameState(l, pre, st, st')
    ensures SameResult(l, pre, ExecBlock(p, fuel, nest, ss, st),
                       ExecBlock(InstrumentedProgram(p, chosen), fuel, nest, ss, st'))
    decreases fuel, nest, 1, ss, 0
  {
    if ss != [] {
      SimStmt(p, chosen, fuel, nest, ss[0], l, pre, st, st');
      var r := ExecStmt(p, fuel, nest, ss[0], st);
      if r.out == Next {
        var r' := ExecStmt(InstrumentedProgram(p, chosen), fuel, nest, ss[0], st');
        SimBlock(p, chosen, fuel, nest, ss[1..], l, pre, r.st, r'.st);
      }
    }
  }

  lemma {:induction false} SimStmt(
    p: Program, chosen: set<string>, fuel: nat, nest: nat, s: Stmt,
    l: Link, pre: seq<seq<Stmt>>, st: State, st': State)
    requires Original(p, chosen) && UserStmt(s) && SameState(l, pre, st, st')
    ensures SameResult(l, pre, ExecStmt(p, fuel, nest, s, st),
                       ExecStmt(InstrumentedProgram(p, chosen), fuel, nest, s, st'))
    decreases fuel, nest, 1, s, 1
  {
    match s
    case If(_, _, _) => SimIf(p, chosen, fuel, nest, s, l, pre, st, st');
    case While(_, _) => SimWhile(p, chosen, fuel, nest, s, l, pre, st, st');
    case Call(_, _, _) => SimCallStmt(p, chosen, fuel, nest, s, l, pre, st, st');
    case _ => SimSimple(p, InstrumentedProgram(p, chosen), fuel, nest, s, l, pre, st, st');
  }

  lemma {:induction false} SimIf(
    p: Program, chosen: set<string>, fuel: nat, nest: nat, s: Stmt,
    l: Link, pre: seq<seq<Stmt>>, st: State, st': State)
    requires Original(p, chosen) && UserStmt(s) && s.If? && SameState(l, pre, st, st')
    ensures SameResult(l, pre, ExecStmt(p, fuel, nest, s, st),
                       ExecStmt(InstrumentedProgram(p, chosen), fuel, nest, s, st'))
    decreases fuel, nest, 1, s, 0
  {
    EvalSame(s.cond, st.env, st.w.globals, st'.env, st'.w.globals);
    var v := Eval(s.cond, st.env, st.w.globals);
    if v.Val? {
      SimBlock(p, chosen, fuel, nest, if v.v == Bool(true) then s.thn else s.els, l, pre, st, st');
    }
  }

  lemma {:induction false} SimWhile(
    p: Program, chosen: set<string>, fuel: nat, nest: nat, s: Stmt,
    l: Link, pre: seq<seq<Stmt>>, st: State, st': State)
    requires Original(p, chosen) && UserStmt(s) && s.While? && SameState(l, pre, st, st')
    ensures SameResult(l, pre, ExecStmt(p, fuel, nest, s, st),
                       ExecStmt(InstrumentedProgram(p, chosen), fuel, nest, s, st'))
    decreases fuel, nest, 1, s, 0
  {
    EvalSame(s.cond, st.env, st.w.globals, st'.env, st'.w.globals);
    var v := Eval(s.cond, st.env, st.w.globals);
    if v == Val(Bool(true)) && fuel > 0 {
      SimBlock(p, chosen, fuel - 1, nest, s.body, l, pre, st, st');
      var r := ExecBlock(p, fuel - 1, nest, s.body, st);
      var r' := ExecBlock(InstrumentedProgram(p, chosen), fuel - 1, nest, s.body, st');
      if r.out == Next {
        SimStmt(p, chosen, fuel - 1, nest, s, l, pre, r.st, r'.st);
      }
    }
  }

  lemma {:induction false} SimCallStmt(
    p: Program, chosen: set<string>, fuel: nat, nest: nat, s: Stmt,
    l: Link, pre: seq<seq<Stmt>>, st: State, st': State)
    requires Original(p, chosen) && UserStmt(s) && s.Call? && SameState(l, pre, st, st')
    ensures SameResult(l, pre, ExecStmt(p, fuel, nest, s, st),
                       ExecStmt(InstrumentedProgram(p, chosen), fuel, nest, s, st'))
    decreases fuel, nest, 1, s, 0
  {
    EvalAllSame(s.args, st.env, st.w.globals, st'.env, st'.w.globals);
    var vs, vs' := EvalAll(s.args, st.env, st.w.globals), EvalAll(s.args, st'.env, st'.w.globals);
    if vs.Vals? && fuel > 0 {
      SimCalled(p, chosen, fuel - 1, s.lhs, s.f, vs.vs, vs'.vs, l, pre, st, st', ExecStmt(p, fuel, nest, s, st),
                ExecStmt(InstrumentedProgram(p, chosen), fuel, nest, s, st'));
    }
  }

  /** The call itself, with the arguments evaluated. */
  lemma {:induction false} SimCalled(
    p: Program, chosen: set<string>, fuel: nat, lhs: seq<Id>, f: string, vs: seq<Value>, vs': seq<Value>,
    l: Link, pre: seq<seq<Stmt>>, st: State, st': State, r: Result, r': Result)
    requires Original(p, chosen) && SameState(l, pre, st, st') && SameVals(vs, vs')
    requires forall x :: x in lhs ==> UserName(x)
    requires r == AfterCall(lhs, st, CallFunc(p, fuel, f, vs, st.w))
    requires r' == AfterCall(lhs, st', CallFunc(InstrumentedProgram(p, chosen), fuel, f, vs', st'.w))
    ensures SameResult(l, pre, r, r')
    decreases fuel, p.nest, 4
  {
    SimCall(p, chosen, fuel, f, vs, vs', st.w, st'.w);
    AfterCallSame(lhs, l, pre, st, st', CallFunc(p, fuel, f, vs, st.w),
                  CallFunc(InstrumentedProgram(p, chosen), fuel, f, vs', st'.w));
  }

  lemma SetGlobalSame(g: map<string, Value>, g': map<string, Value>, x: string, v: Value, v': Value)
    requires SameGlobals(g, g') && SameVal(v, v')
    ensures SameGlobals(g[x := v], g'[x := v'])
  {
    var h, h' := g[x := v], g'[x := v'];
    forall y: string
      ensures SameVal(LookupGlobal(h, y), LookupGlobal(h', y))
    {
      assert SameVal(LookupGlobal(g, y), LookupGlobal(g', y));
    }
  }

  /** Statements that run no other code. */
  lemma SimSimple(
    p: Program, p': Program, fuel: nat, nest: nat, s: Stmt,
    l: Link, pre: seq<seq<Stmt>>, st: State, st': State)
    requires UserStmt(s) && SameState(l, pre, st, st') && !s.If? && !s.While? && !s.Call?
    ensures SameResult(l, pre, ExecStmt(p, fuel, nest, s, st), ExecStmt(p', fuel, nest, s, st'))
  {
    match s
    case Assign(x, e) =>
      EvalSame(e, st.env, st.w.globals, st'.env, st'.w.globals);
      var v, v' := Eval(e, st.env, st.w.globals), Eval(e, st'.env, st'.w.globals);
      if v.Val? {
        BindSame(l, st.env, st'.env, x, v.v, v'.v);
      }
    case SetGlobal(x, e) =>
      EvalSame(e, st.env, st.w.globals, st'.env, st'.w.globals);
      var v, v' := Eval(e, st.env, st.w.globals), Eval(e, st'.env, st'.w.globals);
      if v.Val? {
        SetGlobalSame(st.w.globals, st'.w.globals, x, v.v, v'.v);
      }
    case Print(e) => EvalSame(e, st.env, st.w.globals, st'.env, st'.w.globals);
    case Return(es) =>
      EvalAllSame(es, st.env, st.w.globals, st'.env, st'.w.globals);
      var vs, vs' := EvalAll(es, st.env, st.w.globals), EvalAll(es, st'.env, st'.w.globals);
      if vs.Vals? && vs.vs != [] && |vs.vs| == |st.slots| {
        BindSlotsSame(l, st.env, st'.env, 0, vs.vs, vs'.vs);
        assert l.slots[0..] == l.slots && l.slots'[0..] == l.slots';
      }
    case Panic(e) => EvalSame(e, st.env, st.w.globals, st'.env, st'.w.globals);
    case Defer(closure) =>
      assert (pre + st.defers) + [closure] == pre + (st.defers + [closure]);
    case Recover(x) =>
      var v := if st.current.Some? then st.current.value else Nil;
      var v' := if st'.current.Some? then st'.current.value else Nil;
      BindSame(l, st.env, st'.env, x, v, v');
  }

  lemma AfterCallSame(
    lhs: seq<Id>, l: Link, pre: seq<seq<Stmt>>, st: State, st': State, c: CallResult, c': CallResult)
    requires SameState(l, pre, st, st') && SameCall(c, c')
    requires forall x :: x in lhs ==> UserName(x)
    ensures SameResult(l, pre, AfterCall(lhs, st, c), AfterCall(lhs, st', c'))
  {
    if c.Finished? && lhs != [] && |lhs| == |c.values| {
      BindAllSame(l, st.env, st'.env, lhs, c.values, c'.values);
    }
  }

  /** A frame that has deferred `pre` before running user code. */
  lemma {:induction false} SimFrame(
    p: Program, chosen: set<string>, fuel: nat, nest: nat, body: seq<Stmt>,
    l: Link, pre: seq<seq<Stmt>>, st: State, st': State)
    requires Original(p, chosen) && UserCode(body) && SameState(l, pre, st, st') && Injected(pre, l, nest)
    ensures SameResult(l, [], Frame(p, fuel, nest, body, st),
                       Frame(InstrumentedProgram(p, chosen), fuel, nest, body, st'))
    decreases fuel, nest, 2, 0
  {
    SimBlock(p, chosen, fuel, nest, body, l, pre, st, st');
    var r := ExecBlock(p, fuel, nest, body, st);
    var r' := ExecBlock(InstrumentedProgram(p, chosen), fuel, nest, body, st');
    if !r.out.Cut() {
      SimDefers(p, chosen, fuel, nest, l, pre, r.st, r'.st, PanicOf(r.out), PanicOf(r'.out));
    }
  }

  function PanicOf(out: Outcome): Option<Value> {
    if out.Panicking? then Some(out.v) else None
  }

  /** `pre` is empty, or just the injected closure. */
  ghost predicate Injected(pre: seq<seq<Stmt>>, l: Link, nest: nat) {
    pre == [] ||
    (l.span.Span? && nest >= 1 && exists params, rets :: pre == [DeferBody(params, rets)])
  }

  /** The user's closures have run: the instrumented frame still runs the injected one. */
  lemma SimLastDefer(
    p: Program, p': Program, fuel: nat, nest: nat, l: Link, pre: seq<seq<Stmt>>,
    st: State, st': State, exiting: Option<Value>, exiting': Option<Value>)
    requires SameState(l, pre, st, st') && st.defers == [] && SameOption(exiting, exiting')
    requires Injected(pre, l, nest)
    ensures SameResult(l, [], RunDefers(p, fuel, nest, st, exiting), RunDefers(p', fuel, nest, st', exiting'))
  {
    assert st'.defers == pre;
    if pre != [] {
      var params, rets :| pre == [DeferBody(params, rets)];
      var inner := ClosureEntry(st', exiting');
      ClosureRuns(p', fuel, nest - 1, params, rets, inner);
      RecoveredSame(l, st.env, st'.env, if exiting'.Some? then exiting'.value else Nil);
      assert st'.defers[..0] == [];
    }
  }

  lemma RecoveredSame(l: Link, env: map<Id, Value>, env': map<Id, Value>, v: Value)
    requires Linked(l) && SameEnv(l, env, env')
    ensures SameEnv(l, env, env'[SfRecovered := v])
  {
    forall i | 0 <= i < |l.slots|
      ensures SameVal(Lookup(env, l.slots[i]), Lookup(env'[SfRecovered := v], l.slots'[i]))
    {
      assert LinkedSlot(l, i);
    }
  }

  lemma {:induction false} SimDefers(
    p: Program, chosen: set<string>, fuel: nat, nest: nat, l: Link, pre: seq<seq<Stmt>>,
    st: State, st': State, exiting: Option<Value>, exiting': Option<Value>)
    requires Original(p, chosen) && SameState(l, pre, st, st') && SameOption(exiting, exiting')
    requires Injected(pre, l, nest)
    ensures SameResult(l, [], RunDefers(p, fuel, nest, st, exiting),
                       RunDefers(InstrumentedProgram(p, chosen), fuel, nest, st', exiting'))
    decreases fuel, nest, 1, |st.defers|
  {
    var p' := InstrumentedProgram(p, chosen);
    if st.defers == [] {
      SimLastDefer(p, p', fuel, nest, l, pre, st, st', exiting, exiting');
    } else if nest > 0 {
      ClosureSame(l, pre, st, st', exiting, exiting');
      var inner, inner' := ClosureEntry(st, exiting), ClosureEntry(st', exiting');
      SimFrame(p, chosen, fuel, nest - 1, LastDefer(st), l, [], inner, inner');
      SimOtherDefers(p, chosen, fuel, nest, l, pre, st, st',
                     Frame(p, fuel, nest - 1, LastDefer(st), inner),
                     Frame(p', fuel, nest - 1, LastDefer(st), inner'));
    }
  }

  /** The rest of the closures, when the last one ended with `r`. */
  function OtherDefers(p: Program, fuel: nat, nest: nat, st: State, r: Result): Result
    requires st.defers != []
  {
    if r.out.Cut() then Result(st, r.out) else RunDefers(p, fuel, nest, AfterClosure(st, r), StillExiting(r))
  }

  lemma {:induction false} SimOtherDefers(
    p: Program, chosen: set<string>, fuel: nat, nest: nat, l: Link, pre: seq<seq<Stmt>>,
    st: State, st': State, r: Result, r': Result)
    requires Original(p, chosen) && SameState(l, pre, st, st') && SameResult(l, [], r, r')
    requires Injected(pre, l, nest) && st.defers != [] && st'.defers != []
    ensures SameResult(l, [], OtherDefers(p, fuel, nest, st, r),
                       OtherDefers(InstrumentedProgram(p, chosen), fuel, nest, st', r'))
    decreases fuel, nest, 1, |st.defers|, 0
  {
    if !r.out.Cut() {
      AfterClosureSame(l, pre, st, st', r, r');
      SimDefers(p, chosen, fuel, nest, l, pre, AfterClosure(st, r), AfterClosure(st', r'),
                StillExiting(r), StillExiting(r'));
    }
  }

  lemma ClosureSame(l: Link, pre: seq<seq<Stmt>>, st: State, st': State, exiting: Option<Value>, exiting': Option<Value>)
    requires SameState(l, pre, st, st') && SameOption(exiting, exiting') && st.defers != []
    ensures st'.defers != [] && LastDefer(st') == LastDefer(st) && UserCode(LastDefer(st))
    ensures SameState(l, [], ClosureEntry(st, exiting), ClosureEntry(st', exiting'))
  {
    assert LastDefer(st) in st.defers;
  }

  lemma AfterClosureSame(l: Link, pre: seq<seq<Stmt>>, st: State, st': State, r: Result, r': Result)
    requires SameState(l, pre, st, st') && SameResult(l, [], r, r') && !r.out.Cut() && st.defers != []
    ensures st'.defers != [] && SameState(l, pre, AfterClosure(st, r), AfterClosure(st', r'))
    ensures SameOption(StillExiting(r), StillExiting(r'))
  {
    assert AfterClosure(st', r').defers == pre + AfterClosure(st, r).defers;
  }

  lemma {:induction false} SimCall(
    p: Program, chosen: set<string>, fuel: nat, f: string,
    args: seq<Value>, args': seq<Value>, w: World, w': World)
    requires Original(p, chosen) && SameVals(args, args') && SameWorld(w, w')
    ensures SameCall(CallFunc(p, fuel, f, args, w), CallFunc(InstrumentedProgram(p, chosen), fuel, f, args', w'))
    decreases fuel, p.nest, 3
  {
    var p' := InstrumentedProgram(p, chosen);
    if f in p.funcs && |ParamIds(p.funcs[f])| == |args| {
      var d, d' := p.funcs[f], p'.funcs[f];
      EntrySame(d, d', f, args, args', w, w');
      var st, st' := Entry(d, f, args, w), Entry(d', f, args', w');
      if !(f in p.watch && !Lookup(st.env, p.watch[f]).Context?) {
        var span := Nil;
        if f in chosen {
          span := SimChosen(p, chosen, fuel, d, st, st');
        } else {
          SimFrame(p, chosen, fuel, p.nest, d.body, LinkOf(d, d', Nil), [], st, st');
        }
        FinishSame(d, d', span, Frame(p, fuel, p.nest, d.body, st), Frame(p', fuel, p.nest, d'.body, st'));
      }
    }
  }

  lemma FinishSame(d: FuncDecl, d': FuncDecl, span: Value, r: Result, r': Result)
    requires |ResultSlots(d)| == |ResultSlots(d')| && SameResult(LinkOf(d, d', span), [], r, r')
    ensures SameCall(FinishCall(d, r), FinishCall(d', r'))
  {}

  lemma SdkBindingsErase(c: Ctx, bindings: seq<SdkBinding>)
    ensures EraseCtx(WithAllSdk(c, bindings)) == EraseCtx(c)
    decreases |bindings|
  {
    if bindings != [] {
      SdkBindingsErase(WithSdk(c, bindings[0]), bindings[1..]);
    }
  }

  lemma HoldSpanSame(d: FuncDecl, env: map<Id, Value>, env': map<Id, Value>, span: Value)
    requires UserDecl(d) && Linked(LinkOf(d, Instrumented(d), Nil))
    requires SameEnv(LinkOf(d, Instrumented(d), Nil), env, env')
    ensures Linked(LinkOf(d, Instrumented(d), span))
    ensures SameEnv(LinkOf(d, Instrumented(d), span), env, env'[SfSpan := span])
  {
    ResultsLinked(d, span);
    var l := LinkOf(d, Instrumented(d), span);
    forall i | 0 <= i < |l.slots|
      ensures SameVal(Lookup(env, l.slots[i]), Lookup(env'[SfSpan := span], l.slots'[i]))
    {
      assert LinkedSlot(l, i);
    }
  }

  /** Overwriting a variable on one side only, by a value the program cannot tell apart. */
  lemma RebindSame(l: Link, env: map<Id, Value>, env': map<Id, Value>, x: Id, v': Value)
    requires Linked(l) && SameEnv(l, env, env') && x.User? && SameVal(Lookup(env, x), v')
    ensures SameEnv(l, env, Bind(env', x, v'))
  {
    var a' := Bind(env', x, v');
    forall i | 0 <= i < |l.slots|
      ensures SameVal(Lookup(env, l.slots[i]), Lookup(a', l.slots'[i]))
    {
      assert LinkedSlot(l, i);
    }
  }

  /** The prologue only touches what the program cannot see. */
  lemma PrologueSame(p: Program, d: FuncDecl, st: State, st': State)
    requires UserDecl(d) && UsableContext(d) && st'.defers == []
    requires SameState(LinkOf(d, Instrumented(d), Nil), [], st, st') && ParentOf(d, st'.env).Context?
    ensures var after := AfterPrologue(p, d, st');
            SameState(LinkOf(d, Instrumented(d), Lookup(after.env, SfSpan)), after.defers, st, after)
  {
    var c := FindContextParam(d.params);
    var from := ParentOf(d, st'.env);
    var ctx := SpanCtxFor(p, from, st'.w.nextSpan);
    var span := Span(st'.w.nextSpan, ctx);
    var l := LinkOf(d, Instrumented(d), span);
    HoldSpanSame(d, st.env, st'.env, span);
    if c.Some? {
      ContextParamIsUser(d.params);
      SdkBindingsErase(WithSdk(from.ctx, SpanId(st'.w.nextSpan)), p.sdk(st'.w.nextSpan));
      assert SameVal(Lookup(st.env, c.value), from);
      RebindSame(l, st.env, st'.env[SfSpan := span], c.value, Context(ctx));
    }
    var after := AfterPrologue(p, d, st');
    assert after.defers == after.defers + st.defers;
    assert SameEnv(l, st.env, after.env);
  }

  lemma {:induction false} SimChosen(p: Program, chosen: set<string>, fuel: nat, d: FuncDecl, st: State, st': State)
    returns (span: Value)
    requires Original(p, chosen) && UserDecl(d) && UsableContext(d)
    requires SameState(LinkOf(d, Instrumented(d), Nil), [], st, st') && st.defers == []
    requires ParentOf(d, st.env).Context?
    ensures SameResult(LinkOf(d, Instrumented(d), span), [],
                       Frame(p, fuel, p.nest, d.body, st),
                       Frame(InstrumentedProgram(p, chosen), fuel, p.nest, Instrumented(d).body, st'))
    decreases fuel, p.nest, 2, 1
  {
    var p' := InstrumentedProgram(p, chosen);
    ContextParamIsUser(d.params);
    PrologueRuns(p', fuel, p.nest, d, st');
    PrologueSame(p', d, st, st');
    var st1 := AfterPrologue(p', d, st');
    span := Lookup(st1.env, SfSpan);
    assert span.Span? && st1.defers == [DeferBody(CollectParamNames(d.params), ReturnNames(d))];
    SimFrame(p, chosen, fuel, p.nest, d.body, LinkOf(d, Instrumented(d), span), st1.defers, st, st1);
    assert Instrumented(d).body == Prologue(d) + d.body;
    assert Frame(p', fuel, p.nest, Instrumented(d).body, st') == Frame(p', fuel, p.nest, d.body, st1);
  }

  // ---- Main theorem ----

  /** A program as it stands, whose chosen functions the pass can rewrite. */
  ghost predicate Eligible(p: Program, chosen: set<string>) {
    && p.nest >= 1 && p.watch == map[]
    && forall f :: f in p.funcs ==> UserDecl(p.funcs[f]) && (f in chosen ==> UsableContext(p.funcs[f]))
  }

  /** The same program, ending in `NilCtx` if it passes a nil context to a chosen function. */
  function Watched(p: Program, chosen: set<string>): Program {
    p.(watch := map f | f in p.funcs && f in chosen && FindContextParam(p.funcs[f].params).Some? ::
                 FindContextParam(p.funcs[f].params).value)
  }

  ghost predicate PassesNilContext(p: Program, chosen: set<string>, fuel: nat, f: string, args: seq<Value>, w: World) {
    CallFunc(Watched(p, chosen), fuel, f, args, w).NilCtx?
  }

  /** For every program, every subset of its functions, every call and every bound: unless
      the original passes a nil context to a chosen function, the instrumented program
      returns the same values, or panics with the same value, or runs out of the same bound,
      with the same globals, the same user-visible events and the same functions entered in
      the same order; context values agree up to the SDK's bindings. */
  lemma InstrumentationPreservesMeaning(
    p: Program, chosen: set<string>, fuel: nat, f: string, args: seq<Value>, w: World)
    requires Eligible(p, chosen)
    ensures PassesNilContext(p, chosen, fuel, f, args, w) ||
            SameCall(CallFunc(p, fuel, f, args, w), CallFunc(InstrumentedProgram(p, chosen), fuel, f, args, w))
  {
    var watched := Watched(p, chosen);
    SimCall(watched, chosen, fuel, f, args, args, w, w);
    StableFunc(watched, p, fuel, fuel, f, args, w);
    assert InstrumentedProgram(watched, chosen) == InstrumentedProgram(p, chosen);
  }

  /** Entering a chosen function with a nil context is a nil dereference before its body runs. */
  lemma NilContextPanics(p: Program, chosen: set<string>, fuel: nat, f: string, args: seq<Value>, w: World)
    requires f in p.funcs && f in chosen
    requires |ParamIds(p.funcs[f])| == |args|
    requires !ParentOf(p.funcs[f], Entry(Instrumented(p.funcs[f]), f, args, w).env).Context?
    ensures CallFunc(InstrumentedProgram(p, chosen), fuel, f, args, w) ==
            Panicked(RuntimeError("nil pointer dereference"), w.(entered := w.entered + [f]))
  {
    var p' := InstrumentedProgram(p, chosen);
    var d := p.funcs[f];
    var st := Entry(Instrumented(d), f, args, w);
    PrologueRuns(p', fuel, p.nest, d, st);
    assert p'.funcs[f] == Instrumented(d) && p'.funcs[f].body == Prologue(d) + d.body;
    var panic := RuntimeError("nil pointer dereference");
    assert ExecBlock(p', fuel, p.nest, p'.funcs[f].body, st) == Result(st, Panicking(panic));
    assert RunDefers(p', fuel, p.nest, st, Some(panic)) == Result(st, Panicking(panic));
    assert Frame(p', fuel, p.nest, p'.funcs[f].body, st) == Result(st, Panicking(panic));
  }

  /** A function that ignores its context, prints and returns 1. */
  const IGNORES_CONTEXT: FuncDecl := FuncDecl(
    None, "f", [Field([User("ctx")], "context.Context")], [Field([], "int")],
    [Print(Lit(Num(0))), Return([Lit(Num(1))])])

  lemma IgnoresContextEntry(d: FuncDecl, w: World)
    requires d == IGNORES_CONTEXT || d == Instrumented(IGNORES_CONTEXT)
    ensures ParamIds(d) == [User("ctx")] && |ResultSlots(d)| == 1
    ensures !ParentOf(IGNORES_CONTEXT, Entry(d, "f", [Nil], w).env).Context?
  {
    var fields := IGNORES_CONTEXT.params;
    assert fields[1..] == [] && FlatIds(fields) == FieldIds(fields[0]) + FlatIds(fields[1..]);
    assert FindContextParam(fields) == Some(User("ctx"));
    var results := IGNORES_CONTEXT.results;
    assert results[1..] == [] && FlatIds(results) == FieldIds(results[0]) + FlatIds(results[1..]);
    NamingKeepsResults(results, 0);
    var env := BindAll(map[], [User("ctx")], [Nil]);
    assert Lookup(env, User("ctx")) == Nil;
    var slots, zeros := ResultSlots(d), FlatZeros(d.results);
    assert slots[0] != User("ctx");
    assert BindAll(env, slots, zeros) == Bind(env, slots[0], zeros[0]) by {
      assert slots[1..] == [] && zeros[1..] == [];
    }
  }

  lemma IgnoresContextEligible(p: Program)
    requires p.funcs == map["f" := IGNORES_CONTEXT] && p.watch == map[] && p.nest == 1
    ensures Eligible(p, {"f"}) && Instrumentable(IGNORES_CONTEXT)
  {
    var d := IGNORES_CONTEXT;
    assert UserCode(d.body) by {
      assert UserStmt(d.body[0]);
      assert UserStmt(d.body[1]);
    }
    assert UserFields(d.params) && UserFields(d.results);
    assert FindContextParam(d.params) == Some(User("ctx"));
  }

  lemma IgnoresContextFinishes(p: Program, fuel: nat, w: World)
    requires p.funcs == map["f" := IGNORES_CONTEXT] && p.watch == map[]
    ensures CallFunc(p, fuel, "f", [Nil], w).Finished?
  {
    IgnoresContextEntry(IGNORES_CONTEXT, w);
    var d := IGNORES_CONTEXT;
    var st := Entry(d, "f", [Nil], w);
    var st1 := ExecStmt(p, fuel, p.nest, d.body[0], st).st;
    assert d.body == [d.body[0]] + ([d.body[1]] + []);
    ExecHead(p, fuel, p.nest, d.body[0], [d.body[1]] + [], st);
    ExecHead(p, fuel, p.nest, d.body[1], [], st1);
    var es := [Lit(Num(1))];
    assert EvalAll(es[1..], st1.env, st1.w.globals) == Vals([]);
    assert EvalAll(es, st1.env, st1.w.globals) == Vals([Num(1)]);
    var r := ExecBlock(p, fuel, p.nest, d.body, st);
    assert r.out == Returned && r.st.defers == [];
    assert Frame(p, fuel, p.nest, d.body, st).out == Returned;
  }

  /** Passing a nil context can change what a program does: this one ignores its context and
      returns 1, but panics once instrumented. */
  lemma NilContextMatters(sdk: nat -> seq<SdkBinding>, fuel: nat, w: World)
    ensures var p := Program(map["f" := IGNORES_CONTEXT], 1, sdk, map[]);
            && Eligible(p, {"f"}) && Instrumentable(IGNORES_CONTEXT)
            && CallFunc(p, fuel, "f", [Nil], w).Finished?
            && CallFunc(InstrumentedProgram(p, {"f"}), fuel, "f", [Nil], w).Panicked?
  {
    var p := Program(map["f" := IGNORES_CONTEXT], 1, sdk, map[]);
    IgnoresContextEligible(p);
    IgnoresContextFinishes(p, fuel, w);
    IgnoresContextEntry(IGNORES_CONTEXT, w);
    IgnoresContextEntry(Instrumented(IGNORES_CONTEXT), w);
    NilContextPanics(p, {"f"}, fuel, "f", [Nil], w);
  }
}
