/** The bounds of the mini-Go semantics are only bounds: a run that ends within them ends the
    same way within larger ones, and watching parameters for nil contexts changes nothing
    unless it ends the run. */
module MiniGoBounds {
  import opened Options
  import opened MiniGo

  /** `q` is `p` with no smaller bound and nothing watched that `p` does not watch. */
  ghost predicate Relaxes(p: Program, q: Program) {
    && q.funcs == p.funcs && q.sdk == p.sdk && q.nest >= p.nest
    && forall f :: f in q.watch ==> f in p.watch && p.watch[f] == q.watch[f]
  }

  ghost predicate Bounds(p: Program, q: Program, fuel: nat, fuel': nat, nest: nat, nest': nat) {
    Relaxes(p, q) && fuel <= fuel' && nest <= nest'
  }

  ghost predicate Exact(p: Program, q: Program, fuel: nat, fuel': nat, nest: nat, nest': nat) {
    fuel == fuel' && nest == nest' && p.nest == q.nest
  }

  ghost predicate Stable(r: Result, r': Result, exact: bool) {
    r.out.NilContext? || (r.out.Timeout? && !exact) || r' == r
  }

  ghost predicate StableCall(c: CallResult, c': CallResult, exact: bool) {
    c.NilCtx? || (c.OutOfFuel? && !exact) || c' == c
  }

  lemma {:induction false} StableBlock(
    p: Program, q: Program, fuel: nat, fuel': nat, nest: nat, nest': nat, ss: seq<Stmt>, st: State)
    requires Bounds(p, q, fuel, fuel', nest, nest')
    ensures Stable(ExecBlock(p, fuel, nest, ss, st), ExecBlock(q, fuel', nest', ss, st), Exact(p, q, fuel, fuel', nest, nest'))
    decreases fuel, nest, 1, ss, 0
  {
    if ss != [] {
      StableStmt(p, q, fuel, fuel', nest, nest', ss[0], st);
      var r := ExecStmt(p, fuel, nest, ss[0], st);
      if r.out == Next {
        StableBlock(p, q, fuel, fuel', nest, nest', ss[1..], r.st);
      }
    }
  }

  lemma {:induction false} StableStmt(
    p: Program, q: Program, fuel: nat, fuel': nat, nest: nat, nest': nat, s: Stmt, st: State)
    requires Bounds(p, q, fuel, fuel', nest, nest')
    ensures Stable(ExecStmt(p, fuel, nest, s, st), ExecStmt(q, fuel', nest', s, st), Exact(p, q, fuel, fuel', nest, nest'))
    decreases fuel, nest, 1, s, 1
  {
    match s
    case If(cond, thn, els) =>
      StableBlock(p, q, fuel, fuel', nest, nest', thn, st);
      StableBlock(p, q, fuel, fuel', nest, nest', els, st);
    case While(_, _) => StableWhile(p, q, fuel, fuel', nest, nest', s, st);
    case Call(lhs, f, args) =>
      var vs := EvalAll(args, st.env, st.w.globals);
      if vs.Vals? && fuel > 0 {
        StableFunc(p, q, fuel - 1, fuel' - 1, f, vs.vs, st.w);
      }
    case _ =>
  }

  lemma {:induction false} StableWhile(
    p: Program, q: Program, fuel: nat, fuel': nat, nest: nat, nest': nat, s: Stmt, st: State)
    requires Bounds(p, q, fuel, fuel', nest, nest') && s.While?
    ensures Stable(ExecStmt(p, fuel, nest, s, st), ExecStmt(q, fuel', nest', s, st), Exact(p, q, fuel, fuel', nest, nest'))
    decreases fuel, nest, 1, s, 0
  {
    if fuel > 0 {
      StableBlock(p, q, fuel - 1, fuel' - 1, nest, nest', s.body, st);
      var r := ExecBlock(p, fuel - 1, nest, s.body, st);
      if r.out == Next {
        StableStmt(p, q, fuel - 1, fuel' - 1, nest, nest', s, r.st);
      }
    }
  }

  lemma {:induction false} StableFrame(
    p: Program, q: Program, fuel: nat, fuel': nat, nest: nat, nest': nat, body: seq<Stmt>, st: State)
    requires Bounds(p, q, fuel, fuel', nest, nest')
    ensures Stable(Frame(p, fuel, nest, body, st), Frame(q, fuel', nest', body, st), Exact(p, q, fuel, fuel', nest, nest'))
    decreases fuel, nest, 2
  {
    StableBlock(p, q, fuel, fuel', nest, nest', body, st);
    var r := ExecBlock(p, fuel, nest, body, st);
    if !r.out.Cut() {
      StableDefers(p, q, fuel, fuel', nest, nest', r.st, if r.out.Panicking? then Some(r.out.v) else None);
    }
  }

  lemma {:induction false} StableDefers(
    p: Program, q: Program, fuel: nat, fuel': nat, nest: nat, nest': nat, st: State, exiting: Option<Value>)
    requires Bounds(p, q, fuel, fuel', nest, nest')
    ensures Stable(RunDefers(p, fuel, nest, st, exiting), RunDefers(q, fuel', nest', st, exiting), Exact(p, q, fuel, fuel', nest, nest'))
    decreases fuel, nest, 1, |st.defers|
  {
    if st.defers != [] && nest > 0 {
      var inner := ClosureEntry(st, exiting);
      StableFrame(p, q, fuel, fuel', nest - 1, nest' - 1, LastDefer(st), inner);
      var r := Frame(p, fuel, nest - 1, LastDefer(st), inner);
      if !r.out.Cut() {
        StableDefers(p, q, fuel, fuel', nest, nest', AfterClosure(st, r), StillExiting(r));
      }
    }
  }

  /** A call that ends within its bounds ends the same way within larger ones; with equal
      bounds, dropping watched parameters changes nothing unless the call ended in `NilCtx`. */
  lemma {:induction false} StableFunc(
    p: Program, q: Program, fuel: nat, fuel': nat, f: string, args: seq<Value>, w: World)
    requires Relaxes(p, q) && fuel <= fuel'
    ensures StableCall(CallFunc(p, fuel, f, args, w), CallFunc(q, fuel', f, args, w),
                       fuel == fuel' && p.nest == q.nest)
    decreases fuel, p.nest, 3
  {
    if f in p.funcs && |ParamIds(p.funcs[f])| == |args| {
      var d := p.funcs[f];
      StableFrame(p, q, fuel, fuel', p.nest, q.nest, d.body, Entry(d, f, args, w));
    }
  }
}
