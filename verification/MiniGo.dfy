/** A small Go: assignments, conditionals, loops, calls with several results, `return`,
    `panic`, `defer func() { ... }()` and `recover`, with a big-step semantics.

    Two bounds make the semantics total.  `fuel` is spent by calls and loop iterations only;
    `nest` bounds how deeply deferred closures may themselves defer closures.  Running out of
    either is the outcome `Timeout`; `StableFunc` in MiniGoBounds shows that any other outcome
    is stable under larger bounds. */
module MiniGo {
  import opened Options

  /** Identifiers.  `Sf*` are the names the instrumenter introduces; `Slot(i)` is the
      storage of a result that has no name the program could use. */
  datatype Id =
    | User(name: string)
    | Blank
    | SfSpan
    | SfRecovered
    | SfRet(index: nat)
    | Slot(index: nat)

  /** Bindings under the SDK's unexported context keys. */
  datatype SdkBinding = SpanId(id: nat) | SuppressChildren(on: bool) | Propagation(depth: int)

  datatype Ctx =
    | Background
    | WithValue(parent: Ctx, key: string, value: Value)
    | WithSdk(parent: Ctx, binding: SdkBinding)

  datatype Value =
    | Nil
    | Bool(b: bool)
    | Num(n: int)
    | Text(s: string)
    | Context(ctx: Ctx)
    | RuntimeError(msg: string)
    | PanicNilError
    | Span(id: nat, spanCtx: Ctx)

  datatype BinaryOp = Add | Div | Less | Equal

  datatype Expr =
    | Lit(v: Value)
    | Var(x: Id)
    | Global(name: string)
    | Binary(op: BinaryOp, l: Expr, r: Expr)
    | NotNil(e: Expr)
    | CtxValue(c: Expr, key: string)
    | CtxWith(c: Expr, key: string, e: Expr)
    | SpanContext(x: Id)

  datatype EndArg = EndNil | EndVar(x: Id) | EndMap(entries: seq<(string, Id)>)

  datatype Stmt =
    | Assign(x: Id, e: Expr)
    | SetGlobal(name: string, e: Expr)
    | Print(e: Expr)
    | If(cond: Expr, thn: seq<Stmt>, els: seq<Stmt>)
    | While(cond: Expr, body: seq<Stmt>)
    | Call(lhs: seq<Id>, f: string, args: seq<Expr>)
    | Return(es: seq<Expr>)
    | Panic(e: Expr)
    | Defer(closure: seq<Stmt>)
    | Recover(x: Id)
    // Calls into the SDK; the instrumenter is the only source of these.
    | StartSpan(parent: Option<Id>, fn: string, spanArgs: seq<(string, Id)>)
    | ReportPanic(locals: seq<(string, Id)>)
    | EndSpan(arg: EndArg)

  /** A parameter or result field: `a, b T` has two names, an unnamed field has none. */
  datatype Field = Field(names: seq<Id>, typ: string)

  datatype FuncDecl = FuncDecl(
    recv: Option<Field>, name: string, params: seq<Field>, results: seq<Field>, body: seq<Stmt>)

  /** `sdk` gives the bindings a started span adds to its context besides its own id.
      `watch` names, per function, a context parameter whose nil-ness ends the run with the
      outcome `NilContext`; it is empty for a program as it stands. */
  datatype Program = Program(
    funcs: map<string, FuncDecl>, nest: nat, sdk: nat -> seq<SdkBinding>, watch: map<string, Id>)

  datatype EndValue = NilResult | OneResult(v: Value) | ManyResults(entries: seq<(string, Value)>)

  /** The calls the program makes into the SDK, in order. */
  datatype SdkEvent =
    | Started(id: nat, fn: string, args: seq<(string, Value)>)
    | Reported(id: nat, panicValue: Value, locals: seq<(string, Value)>)
    | Ended(id: nat, result: EndValue)

  datatype World = World(
    globals: map<string, Value>, events: seq<Value>, entered: seq<string>,
    nextSpan: nat, trace: seq<SdkEvent>)

  /** One activation.  `current` is what `recover()` would return; `slots` are the result
      variables a `return` statement assigns (none inside a deferred closure). */
  datatype State = State(
    env: map<Id, Value>, defers: seq<seq<Stmt>>, current: Option<Value>, slots: seq<Id>, w: World)

  datatype Outcome = Next | Returned | Panicking(v: Value) | Timeout | NilContext {
    predicate Cut() { Timeout? || NilContext? }
  }

  datatype Result = Result(st: State, out: Outcome)

  datatype CallResult =
    | Finished(values: seq<Value>, w: World)
    | Panicked(v: Value, w: World)
    | OutOfFuel
    | NilCtx

  // ---- Environments and contexts ----

  function Lookup(env: map<Id, Value>, x: Id): Value {
    if x in env then env[x] else Nil
  }

  function LookupGlobal(globals: map<string, Value>, x: string): Value {
    if x in globals then globals[x] else Nil
  }

  function Bind(env: map<Id, Value>, x: Id, v: Value): map<Id, Value> {
    if x == Blank then env else env[x := v]
  }

  function BindAll(env: map<Id, Value>, xs: seq<Id>, vs: seq<Value>): map<Id, Value>
    requires |xs| == |vs|
    decreases |xs|
  {
    if xs == [] then env else BindAll(Bind(env, xs[0], vs[0]), xs[1..], vs[1..])
  }

  function Values(env: map<Id, Value>, xs: seq<Id>): seq<Value> {
    seq(|xs|, i requires 0 <= i < |xs| => Lookup(env, xs[i]))
  }

  function Entries(env: map<Id, Value>, kv: seq<(string, Id)>): seq<(string, Value)> {
    seq(|kv|, i requires 0 <= i < |kv| => (kv[i].0, Lookup(env, kv[i].1)))
  }

  /** `ctx.Value(key)` for a key of the program's own. */
  function UserValue(c: Ctx, key: string): Value {
    match c
    case Background => Nil
    case WithValue(parent, k, v) => if k == key then v else UserValue(parent, key)
    case WithSdk(parent, _) => UserValue(parent, key)
  }

  function WithAllSdk(c: Ctx, bindings: seq<SdkBinding>): Ctx
    decreases |bindings|
  {
    if bindings == [] then c else WithAllSdk(WithSdk(c, bindings[0]), bindings[1..])
  }

  // ---- Declarations ----

  function FieldIds(f: Field): seq<Id> {
    if f.names == [] then [Blank] else f.names
  }

  function FlatIds(fields: seq<Field>): seq<Id> {
    if fields == [] then [] else FieldIds(fields[0]) + FlatIds(fields[1..])
  }

  function ZeroOf(typ: string): Value {
    if typ == "int" then Num(0) else if typ == "string" then Text("")
    else if typ == "bool" then Bool(false) else Nil
  }

  function FlatZeros(fields: seq<Field>): (zs: seq<Value>)
    ensures |zs| == |FlatIds(fields)|
  {
    if fields == [] then []
    else seq(|FieldIds(fields[0])|, _ => ZeroOf(fields[0].typ)) + FlatZeros(fields[1..])
  }

  function ParamIds(d: FuncDecl): seq<Id> {
    (if d.recv.Some? then FieldIds(d.recv.value) else []) + FlatIds(d.params)
  }

  function SlotIds(ids: seq<Id>): seq<Id> {
    seq(|ids|, i requires 0 <= i < |ids| => if ids[i] == Blank then Slot(i) else ids[i])
  }

  function ResultSlots(d: FuncDecl): seq<Id> {
    SlotIds(FlatIds(d.results))
  }

  // ---- Expressions ----

  datatype EvalResult = Val(v: Value) | Raise(v: Value)

  datatype EvalsResult = Vals(vs: seq<Value>) | RaiseAll(v: Value)

  const TYPE_ERROR := RuntimeError("invalid operation")

  /** Go's integer division truncates toward zero. */
  function TruncDiv(a: int, b: int): int
    requires b != 0
  {
    if (a >= 0) == (b > 0) || a == 0 then Abs(a) / Abs(b) else -(Abs(a) / Abs(b))
  }

  function Abs(a: int): nat {
    if a < 0 then -a else a
  }

  predicate Comparable(v: Value) {
    !v.Context? && !v.Span?
  }

  function Operate(op: BinaryOp, a: Value, b: Value): EvalResult {
    match op
    case Add =>
      if a.Num? && b.Num? then Val(Num(a.n + b.n))
      else if a.Text? && b.Text? then Val(Text(a.s + b.s))
      else Raise(TYPE_ERROR)
    case Div =>
      if !a.Num? || !b.Num? then Raise(TYPE_ERROR)
      else if b.n == 0 then Raise(RuntimeError("integer divide by zero"))
      else Val(Num(TruncDiv(a.n, b.n)))
    case Less => if a.Num? && b.Num? then Val(Bool(a.n < b.n)) else Raise(TYPE_ERROR)
    case Equal => if Comparable(a) && Comparable(b) then Val(Bool(a == b)) else Raise(TYPE_ERROR)
  }

  function Eval(e: Expr, env: map<Id, Value>, globals: map<string, Value>): EvalResult {
    match e
    case Lit(v) => Val(v)
    case Var(x) => Val(Lookup(env, x))
    case Global(x) => Val(LookupGlobal(globals, x))
    case Binary(op, l, r) =>
      var a := Eval(l, env, globals);
      if a.Raise? then a else
      var b := Eval(r, env, globals);
      if b.Raise? then b else Operate(op, a.v, b.v)
    case NotNil(a) =>
      var r := Eval(a, env, globals);
      if r.Raise? then r else Val(Bool(r.v != Nil))
    case CtxValue(c, key) =>
      var r := Eval(c, env, globals);
      if r.Raise? then r
      else if r.v.Context? then Val(UserValue(r.v.ctx, key))
      else Raise(RuntimeError("nil pointer dereference"))
    case CtxWith(c, key, a) =>
      var r := Eval(c, env, globals);
      if r.Raise? then r else
      var v := Eval(a, env, globals);
      if v.Raise? then v
      else if r.v.Context? then Val(Context(WithValue(r.v.ctx, key, v.v)))
      else Raise(RuntimeError("cannot create context from nil parent"))
    case SpanContext(x) =>
      var s := Lookup(env, x);
      Val(Context(if s.Span? then s.spanCtx else Background))
  }

  function EvalAll(es: seq<Expr>, env: map<Id, Value>, globals: map<string, Value>): (r: EvalsResult)
    ensures r.Vals? ==> |r.vs| == |es|
  {
    if es == [] then Vals([])
    else
      var a := Eval(es[0], env, globals);
      if a.Raise? then RaiseAll(a.v) else
      var rest := EvalAll(es[1..], env, globals);
      if rest.RaiseAll? then rest else Vals([a.v] + rest.vs)
  }

  /** `panic(nil)` raises a *runtime.PanicNilError, so a recovered value is never nil. */
  function PanicValue(v: Value): Value {
    if v == Nil then PanicNilError else v
  }

  // ---- Statements ----

  function ExecBlock(p: Program, fuel: nat, nest: nat, ss: seq<Stmt>, st: State): Result
    decreases fuel, nest, 1, ss, 0
  {
    if ss == [] then Result(st, Next)
    else
      var r := ExecStmt(p, fuel, nest, ss[0], st);
      if r.out != Next then r else ExecBlock(p, fuel, nest, ss[1..], r.st)
  }

  function ExecStmt(p: Program, fuel: nat, nest: nat, s: Stmt, st: State): Result
    decreases fuel, nest, 1, s, 1
  {
    match s
    case Assign(x, e) =>
      (match Eval(e, st.env, st.w.globals)
       case Raise(v) => Result(st, Panicking(v))
       case Val(v) => Result(st.(env := Bind(st.env, x, v)), Next))
    case SetGlobal(x, e) =>
      (match Eval(e, st.env, st.w.globals)
       case Raise(v) => Result(st, Panicking(v))
       case Val(v) => Result(st.(w := st.w.(globals := st.w.globals[x := v])), Next))
    case Print(e) =>
      (match Eval(e, st.env, st.w.globals)
       case Raise(v) => Result(st, Panicking(v))
       case Val(v) => Result(st.(w := st.w.(events := st.w.events + [v])), Next))
    case If(cond, thn, els) =>
      (match Eval(cond, st.env, st.w.globals)
       case Raise(v) => Result(st, Panicking(v))
       case Val(v) =>
         if v == Bool(true) then ExecBlock(p, fuel, nest, thn, st)
         else ExecBlock(p, fuel, nest, els, st))
    case While(cond, body) =>
      (match Eval(cond, st.env, st.w.globals)
       case Raise(v) => Result(st, Panicking(v))
       case Val(v) =>
         if v != Bool(true) then Result(st, Next)
         else if fuel == 0 then Result(st, Timeout)
         else
           var r := ExecBlock(p, fuel - 1, nest, body, st);
           if r.out != Next then r else ExecStmt(p, fuel - 1, nest, s, r.st))
    case Call(lhs, f, args) =>
      (match EvalAll(args, st.env, st.w.globals)
       case RaiseAll(v) => Result(st, Panicking(v))
       case Vals(vs) =>
         if fuel == 0 then Result(st, Timeout)
         else AfterCall(lhs, st, CallFunc(p, fuel - 1, f, vs, st.w)))
    case Return(es) =>
      (match EvalAll(es, st.env, st.w.globals)
       case RaiseAll(v) => Result(st, Panicking(v))
       case Vals(vs) =>
         if vs == [] then Result(st, Returned)
         else if |vs| != |st.slots| then Result(st, Panicking(TYPE_ERROR))
         else Result(st.(env := BindAll(st.env, st.slots, vs)), Returned))
    case Panic(e) =>
      (match Eval(e, st.env, st.w.globals)
       case Raise(v) => Result(st, Panicking(v))
       case Val(v) => Result(st, Panicking(PanicValue(v))))
    case Defer(closure) => Result(st.(defers := st.defers + [closure]), Next)
    case Recover(x) =>
      var v := if st.current.Some? then st.current.value else Nil;
      Result(st.(env := Bind(st.env, x, v), current := None), Next)
    case StartSpan(parent, fn, args) => DoStart(p, parent, fn, args, st)
    case ReportPanic(locals) =>
      var span := Lookup(st.env, SfSpan);
      var id := if span.Span? then span.id else 0;
      Result(Emit(st, Reported(id, Lookup(st.env, SfRecovered), Entries(st.env, locals))), Next)
    case EndSpan(arg) =>
      var span := Lookup(st.env, SfSpan);
      if span.Span? then Result(Emit(st, Ended(span.id, EndOf(arg, st.env))), Next)
      else Result(st, Next)
  }

  function Emit(st: State, e: SdkEvent): State {
    st.(w := st.w.(trace := st.w.trace + [e]))
  }

  function EndOf(arg: EndArg, env: map<Id, Value>): EndValue {
    match arg
    case EndNil => NilResult
    case EndVar(x) => OneResult(Lookup(env, x))
    case EndMap(kv) => ManyResults(Entries(env, kv))
  }

  /** Starting a span reads the parent context, so a nil parent is a nil dereference. */
  function DoStart(p: Program, parent: Option<Id>, fn: string, args: seq<(string, Id)>, st: State): Result {
    var from := if parent.Some? then Lookup(st.env, parent.value) else Context(Background);
    if !from.Context? then Result(st, Panicking(RuntimeError("nil pointer dereference")))
    else
      var id := st.w.nextSpan;
      var ctx := WithAllSdk(WithSdk(from.ctx, SpanId(id)), p.sdk(id));
      var started := Emit(st, Started(id, fn, Entries(st.env, args)));
      Result(started.(env := st.env[SfSpan := Span(id, ctx)], w := started.w.(nextSpan := id + 1)), Next)
  }

  function AfterCall(lhs: seq<Id>, st: State, c: CallResult): Result {
    match c
    case OutOfFuel => Result(st, Timeout)
    case NilCtx => Result(st, NilContext)
    case Panicked(v, w) => Result(st.(w := w), Panicking(v))
    case Finished(vs, w) =>
      if lhs == [] then Result(st.(w := w), Next)
      else if |lhs| != |vs| then Result(st.(w := w), Panicking(TYPE_ERROR))
      else Result(st.(env := BindAll(st.env, lhs, vs), w := w), Next)
  }

  /** Runs a function or closure body and then what it deferred, last in, first out. */
  function Frame(p: Program, fuel: nat, nest: nat, body: seq<Stmt>, st: State): Result
    decreases fuel, nest, 2
  {
    var r := ExecBlock(p, fuel, nest, body, st);
    if r.out.Cut() then r
    else RunDefers(p, fuel, nest, r.st, if r.out.Panicking? then Some(r.out.v) else None)
  }

  /** `exiting` is the panic in flight, if any.  A closure that recovers it clears it, and a
      closure that panics replaces it; the remaining closures run either way. */
  function RunDefers(p: Program, fuel: nat, nest: nat, st: State, exiting: Option<Value>): Result
    decreases fuel, nest, 1, |st.defers|
  {
    if st.defers == [] then
      Result(st, if exiting.Some? then Panicking(exiting.value) else Returned)
    else if nest == 0 then Result(st, Timeout)
    else
      var r := Frame(p, fuel, nest - 1, LastDefer(st), ClosureEntry(st, exiting));
      if r.out.Cut() then Result(st, r.out)
      else RunDefers(p, fuel, nest, AfterClosure(st, r), StillExiting(r))
  }

  function LastDefer(st: State): seq<Stmt>
    requires st.defers != []
  {
    st.defers[|st.defers| - 1]
  }

  /** A closure shares the variables of its function; `recover()` in it sees `exiting`. */
  function ClosureEntry(st: State, exiting: Option<Value>): State {
    State(st.env, [], exiting, [], st.w)
  }

  function AfterClosure(st: State, r: Result): State
    requires st.defers != []
  {
    st.(env := r.st.env, w := r.st.w, defers := st.defers[..|st.defers| - 1])
  }

  function StillExiting(r: Result): Option<Value> {
    if r.out.Panicking? then Some(r.out.v) else r.st.current
  }

  function CallFunc(p: Program, fuel: nat, f: string, args: seq<Value>, w: World): CallResult
    decreases fuel, p.nest, 3
  {
    if f !in p.funcs then Panicked(RuntimeError("undefined: " + f), w)
    else
      var d := p.funcs[f];
      if |ParamIds(d)| != |args| then Panicked(TYPE_ERROR, w)
      else
        var st := Entry(d, f, args, w);
        if f in p.watch && !Lookup(st.env, p.watch[f]).Context? then NilCtx
        else FinishCall(d, Frame(p, fuel, p.nest, d.body, st))
  }

  /** The state in which a body starts: parameters bound, results zero. */
  function Entry(d: FuncDecl, f: string, args: seq<Value>, w: World): State
    requires |ParamIds(d)| == |args|
  {
    State(BindAll(BindAll(map[], ParamIds(d), args), ResultSlots(d), FlatZeros(d.results)),
          [], None, ResultSlots(d), w.(entered := w.entered + [f]))
  }

  function FinishCall(d: FuncDecl, r: Result): CallResult {
    match r.out
    case Timeout => OutOfFuel
    case NilContext => NilCtx
    case Panicking(v) => Panicked(v, r.st.w)
    case _ => Finished(Values(r.st.env, ResultSlots(d)), r.st.w)
  }
}
