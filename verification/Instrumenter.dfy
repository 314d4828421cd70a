/** The source-to-source pass that adds a span to a function. */
module Instrumenter {
  import opened Options
  import opened MiniGo

  // ---- The pass as a function on declarations ----

  predicate IsContextType(typ: string) {
    typ == "context.Context" || typ == "Context"
  }

  function FindContextParam(params: seq<Field>): Option<Id> {
    if params == [] then None
    else if IsContextType(params[0].typ) && params[0].names != [] then Some(params[0].names[0])
    else FindContextParam(params[1..])
  }

  function WithoutBlank(names: seq<Id>): seq<Id> {
    if names == [] then []
    else (if names[0] != Blank then [names[0]] else []) + WithoutBlank(names[1..])
  }

  function CollectParamNames(params: seq<Field>): seq<Id> {
    if params == [] then []
    else (if IsContextType(params[0].typ) then [] else WithoutBlank(params[0].names))
         + CollectParamNames(params[1..])
  }

  /** The result fields after naming, when `from` results precede them. */
  function NamedResults(results: seq<Field>, from: nat): seq<Field>
    decreases |results|
  {
    if results == [] then []
    else if results[0].names == [] then
      [Field([SfRet(from)], results[0].typ)] + NamedResults(results[1..], from + 1)
    else [results[0]] + NamedResults(results[1..], from + |results[0].names|)
  }

  function Digits(n: nat): string {
    if n < 10 then [('0' as int + n) as char] else Digits(n / 10) + [('0' as int + n % 10) as char]
  }

  function IdText(x: Id): string {
    match x
    case User(name) => name
    case Blank => "_"
    case SfSpan => "_sfSpan"
    case SfRecovered => "_sfR"
    case SfRet(i) => "_sfRet" + Digits(i)
    case Slot(i) => ""
  }

  function Keyed(xs: seq<Id>): seq<(string, Id)> {
    seq(|xs|, i requires 0 <= i < |xs| => (IdText(xs[i]), xs[i]))
  }

  function Numbered(xs: seq<Id>): seq<(string, Id)> {
    seq(|xs|, i requires 0 <= i < |xs| => (Digits(i), xs[i]))
  }

  function EndArgFor(rets: seq<Id>): EndArg {
    if |rets| == 0 then EndNil else if |rets| == 1 then EndVar(rets[0]) else EndMap(Numbered(rets))
  }

  function DeferBody(params: seq<Id>, rets: seq<Id>): seq<Stmt> {
    [Recover(SfRecovered),
     If(NotNil(Var(SfRecovered)),
        [ReportPanic(Keyed(params + rets)), EndSpan(EndNil), Panic(Var(SfRecovered))],
        []),
     EndSpan(EndArgFor(rets))]
  }

  function SpanName(d: FuncDecl): string {
    if d.recv.Some? then d.recv.value.typ + "." + d.name else d.name
  }

  /** The names `ensureNamedReturns` returns: those of the results once all are named. */
  function ReturnNames(d: FuncDecl): seq<Id> {
    FlatIds(NamedResults(d.results, 0))
  }

  function Prologue(d: FuncDecl): seq<Stmt> {
    var ctx := FindContextParam(d.params);
    [StartSpan(ctx, SpanName(d), Keyed(CollectParamNames(d.params)))]
    + (if ctx.Some? then [Assign(ctx.value, SpanContext(SfSpan))] else [])
    + [Defer(DeferBody(CollectParamNames(d.params), ReturnNames(d)))]
  }

  function Instrumented(d: FuncDecl): FuncDecl {
    d.(results := NamedResults(d.results, 0), body := Prologue(d) + d.body)
  }

  predicate Instrumentable(d: FuncDecl) {
    d.name != "init" && d.name != "_" && |d.body| > 1
  }

  /** A program in which the functions of `chosen` have been rewritten. */
  function InstrumentedProgram(p: Program, chosen: set<string>): Program {
    p.(funcs := map f | f in p.funcs ::
                  if f in chosen then Instrumented(p.funcs[f]) else p.funcs[f],
       watch := map[])
  }

  // ---- The keys values are recorded under ----

  /** `s` is the decimal notation of `n`. */
  predicate IsDecimal(s: string, n: nat) {
    && s != "" && (forall i :: 0 <= i < |s| ==> '0' <= s[i] <= '9')
    && (|s| > 1 ==> s[0] != '0')
    && DecimalValue(s) == n
  }

  function DecimalValue(s: string): int {
    if s == "" then 0 else DecimalValue(s[..|s| - 1]) * 10 + (s[|s| - 1] as int - '0' as int)
  }

  lemma {:induction false} DigitsAreDecimal(n: nat)
    ensures IsDecimal(Digits(n), n)
  {
    if n >= 10 {
      DigitsAreDecimal(n / 10);
      var front := Digits(n / 10);
      assert Digits(n)[..|front|] == front;
      assert n == n / 10 * 10 + n % 10;
      assert front[0] != '0' by {
        if |front| == 1 {
          assert front[..|front| - 1] == "";
          assert DecimalValue(front) == front[0] as int - '0' as int;
          assert n / 10 > 0;
        }
      }
    } else {
      assert Digits(n)[..0] == "";
    }
  }

  /** The key of a variable: its own name, or "_sfRet" and the number of a result named by the
      pass. */
  predicate KeyOf(key: string, x: Id) {
    match x
    case User(name) => key == name
    case SfRet(i) => |key| > 6 && key[..6] == "_sfRet" && IsDecimal(key[6..], i)
    case _ => true
  }

  /** One entry for each variable, in order: its key and the value it has. */
  predicate Records(entries: seq<(string, Value)>, xs: seq<Id>, env: map<Id, Value>) {
    |entries| == |xs| && forall i :: 0 <= i < |xs| ==> KeyOf(entries[i].0, xs[i]) && entries[i].1 == Lookup(env, xs[i])
  }

  lemma KeyedRecords(xs: seq<Id>, env: map<Id, Value>)
    ensures Records(Entries(env, Keyed(xs)), xs, env)
  {
    forall i | 0 <= i < |xs|
      ensures KeyOf(Keyed(xs)[i].0, xs[i])
    {
      if xs[i].SfRet? {
        DigitsAreDecimal(xs[i].index);
        assert IdText(xs[i])[6..] == Digits(xs[i].index);
      }
    }
  }

  // ---- What the searches find ----

  predicate NamedContext(f: Field) {
    IsContextType(f.typ) && f.names != []
  }

  /** The context parameter is the first name of the first named field of context type. */
  lemma {:induction false} FindsFirstContext(params: seq<Field>)
    ensures FindContextParam(params).Some? <==> exists f :: f in params && NamedContext(f)
    ensures forall i :: 0 <= i < |params| && NamedContext(params[i]) && (forall j :: 0 <= j < i ==> !NamedContext(params[j]))
              ==> FindContextParam(params) == Some(params[i].names[0])
  {
    if params != [] && !NamedContext(params[0]) {
      FindsFirstContext(params[1..]);
      assert forall f :: f in params <==> f == params[0] || f in params[1..];
    }
  }

  /** The arguments recorded are the named parameters of other types, blanks aside. */
  lemma {:induction false} CollectsOtherNames(params: seq<Field>, x: Id)
    ensures x in CollectParamNames(params) <==>
            x != Blank && exists f :: f in params && !IsContextType(f.typ) && x in f.names
  {
    if params != [] {
      NotBlank(params[0].names, x);
      CollectsOtherNames(params[1..], x);
      assert forall f :: f in params <==> f == params[0] || f in params[1..];
    }
  }

  lemma {:induction false} NotBlank(names: seq<Id>, x: Id)
    ensures x in WithoutBlank(names) <==> x in names && x != Blank
  {
    if names != [] {
      NotBlank(names[1..], x);
    }
  }

  // ---- The pass as it runs, editing syntax nodes in place ----

  method FindContext(params: seq<Field>) returns (name: Option<Id>)
    ensures name == FindContextParam(params)
  {
    for i := 0 to |params|
      invariant FindContextParam(params) == FindContextParam(params[i..])
    {
      var field := params[i];
      assert params[i..][1..] == params[i + 1..];
      if field.typ == "context.Context" || field.typ == "Context" {
        if |field.names| > 0 {
          return Some(field.names[0]);
        }
      }
    }
    assert params[|params|..] == [];
    return None;
  }

  lemma {:induction false} WithoutBlankPush(names: seq<Id>, x: Id)
    ensures WithoutBlank(names + [x]) == WithoutBlank(names) + (if x != Blank then [x] else [])
  {
    if names != [] {
      WithoutBlankPush(names[1..], x);
      assert (names + [x])[1..] == names[1..] + [x];
    }
  }

  lemma {:induction false} CollectPush(params: seq<Field>, f: Field)
    ensures CollectParamNames(params + [f]) ==
            CollectParamNames(params) + (if IsContextType(f.typ) then [] else WithoutBlank(f.names))
  {
    if params != [] {
      CollectPush(params[1..], f);
      assert (params + [f])[1..] == params[1..] + [f];
    }
  }

  method CollectNames(params: seq<Field>) returns (names: seq<Id>)
    ensures names == CollectParamNames(params)
  {
    names := [];
    for i := 0 to |params|
      invariant names == CollectParamNames(params[..i])
    {
      var field := params[i];
      assert params[..i + 1] == params[..i] + [field];
      CollectPush(params[..i], field);
      if field.typ == "context.Context" || field.typ == "Context" {
        continue;
      }
      var kept := NamesOf(field);
      names := names + kept;
    }
    assert params[..|params|] == params;
  }

  /** The inner loop, over the names of one field. */
  method NamesOf(field: Field) returns (names: seq<Id>)
    ensures names == WithoutBlank(field.names)
  {
    names := [];
    for j := 0 to |field.names|
      invariant names == WithoutBlank(field.names[..j])
    {
      assert field.names[..j + 1] == field.names[..j] + [field.names[j]];
      WithoutBlankPush(field.names[..j], field.names[j]);
      if field.names[j] != Blank {
        names := names + [field.names[j]];
      }
    }
    assert field.names[..|field.names|] == field.names;
  }

  /** The functions of a file that get rewritten, in order. */
  method FindInstrumentableFunctions(decls: seq<FuncDecl>) returns (funcs: seq<nat>)
    ensures forall i :: i in funcs <==>
              0 <= i < |decls| && decls[i].name != "init" && decls[i].name != "_" && |decls[i].body| > 1
    ensures forall k, l :: 0 <= k < l < |funcs| ==> funcs[k] < funcs[l]
  {
    funcs := [];
    for i := 0 to |decls|
      invariant forall k :: k in funcs <==> 0 <= k < i && Instrumentable(decls[k])
      invariant forall k :: 0 <= k < |funcs| ==> funcs[k] < i
      invariant forall k, l :: 0 <= k < l < |funcs| ==> funcs[k] < funcs[l]
    {
      var d := decls[i];
      if d.name == "init" || d.name == "_" {
        continue;
      }
      if |d.body| <= 1 {
        continue;
      }
      funcs := funcs + [i];
    }
  }

  class FieldNode {
    var names: seq<Id>
    const typ: string

    constructor (names: seq<Id>, typ: string)
      ensures this.names == names && this.typ == typ
    {
      this.names, this.typ := names, typ;
    }

    function View(): Field
      reads this
    {
      Field(names, typ)
    }

    method EnsureNamed(name: Id)
      modifies this
      ensures View() == if old(names) == [] then Field([name], typ) else old(View())
    {
      if names == [] {
        names := [name];
      }
    }
  }

  function Views(nodes: seq<FieldNode>): (fields: seq<Field>)
    reads nodes
    ensures |fields| == |nodes|
    ensures forall i :: 0 <= i < |nodes| ==> fields[i] == nodes[i].View()
  {
    seq(|nodes|, i requires 0 <= i < |nodes| reads nodes => nodes[i].View())
  }

  lemma {:induction false} FlatIdsPush(a: seq<Field>, f: Field)
    ensures FlatIds(a + [f]) == FlatIds(a) + FieldIds(f)
  {
    if a == [] {
      assert a + [f] == [f];
      assert FlatIds([f]) == FieldIds(f) + FlatIds([]);
    } else {
      FlatIdsPush(a[1..], f);
      assert (a + [f])[0] == a[0] && (a + [f])[1..] == a[1..] + [f];
      assert FieldIds(a[0]) + (FlatIds(a[1..]) + FieldIds(f)) == (FieldIds(a[0]) + FlatIds(a[1..])) + FieldIds(f);
    }
  }

  /** Naming field by field: field k gets the number of result variables before it. */
  lemma {:induction false} NamedResultsAt(fields: seq<Field>, from: nat, k: nat)
    requires k < |fields|
    ensures |NamedResults(fields, from)| == |fields|
    ensures NamedResults(fields, from)[k] ==
            if fields[k].names == [] then Field([SfRet(from + |FlatIds(fields[..k])|)], fields[k].typ) else fields[k]
    decreases |fields|
  {
    var rest := from + |FieldIds(fields[0])|;
    if |fields| == 1 {
      assert NamedResults(fields[1..], rest) == [];
      assert fields[..k] == [];
    } else if k == 0 {
      NamedResultsAt(fields[1..], rest, 0);
      assert fields[..k] == [];
    } else {
      NamedResultsAt(fields[1..], rest, k - 1);
      assert fields[..k][0] == fields[0] && fields[..k][1..] == fields[1..][..k - 1];
    }
  }

  /** One round of the naming loop, with the names collected before it. */
  lemma NamingStep(before: seq<Field>, i: nat, names: seq<Id>)
    requires i < |before| == |NamedResults(before, 0)|
    requires names == FlatIds(NamedResults(before, 0)[..i]) && |names| == |FlatIds(before[..i])|
    ensures var f := if before[i].names == [] then Field([SfRet(|names|)], before[i].typ) else before[i];
            && NamedResults(before, 0)[i] == f
            && FlatIds(NamedResults(before, 0)[..i + 1]) == names + f.names
            && |FlatIds(before[..i + 1])| == |names + f.names|
  {
    var named := NamedResults(before, 0);
    NamedResultsAt(before, 0, i);
    FlatIdsPush(named[..i], named[i]);
    FlatIdsPush(before[..i], before[i]);
    assert named[..i + 1] == named[..i] + [named[i]];
    assert before[..i + 1] == before[..i] + [before[i]];
  }

  lemma NamedResultsLength(fields: seq<Field>)
    ensures |NamedResults(fields, 0)| == |fields|
  {
    if fields != [] {
      NamedResultsAt(fields, 0, 0);
    }
  }

  class FuncNode {
    const recv: Option<Field>
    const name: string
    const params: seq<Field>
    const results: seq<FieldNode>
    var body: seq<Stmt>

    constructor (recv: Option<Field>, name: string, params: seq<Field>, results: seq<FieldNode>, body: seq<Stmt>)
      ensures this.recv == recv && this.name == name && this.params == params
      ensures this.results == results && this.body == body
    {
      this.recv, this.name, this.params, this.results, this.body := recv, name, params, results, body;
    }

    ghost predicate Valid() {
      forall i, j :: 0 <= i < j < |results| ==> results[i] != results[j]
    }

    function View(): FuncDecl
      reads this, results
    {
      FuncDecl(recv, name, params, Views(results), body)
    }

    /** Names the unnamed results and returns the names of all of them. */
    method EnsureNamedReturns() returns (names: seq<Id>)
      requires Valid()
      modifies results
      ensures Views(results) == NamedResults(old(Views(results)), 0)
      ensures names == FlatIds(Views(results))
    {
      names := [];
      ghost var before := Views(results);
      ghost var named := NamedResults(before, 0);
      NamedResultsLength(before);
      for i := 0 to |results|
        invariant forall j :: 0 <= j < i ==> results[j].View() == named[j]
        invariant forall j :: i <= j < |results| ==> results[j].View() == before[j]
        invariant names == FlatIds(named[..i]) && |names| == |FlatIds(before[..i])|
      {
        NamingStep(before, i, names);
        var field := results[i];
        field.EnsureNamed(SfRet(|names|));
        assert field.View() == named[i];
        names := names + field.names;
      }
      assert named[..|results|] == named;
      assert Views(results) == named;
    }

    /** Rewrites the function: the declaration afterwards is `Instrumented` of the one before. */
    method Instrument()
      requires Valid()
      modifies this, results
      ensures View() == Instrumented(old(View()))
    {
      ghost var d := View();
      var ctx := FindContext(params);
      var argNames := CollectNames(params);
      var returnNames := EnsureNamedReturns();
      var stmts := [StartSpan(ctx, (if recv.Some? then recv.value.typ + "." + name else name), Keyed(argNames))];
      if ctx.Some? {
        stmts := stmts + [Assign(ctx.value, SpanContext(SfSpan))];
      }
      stmts := stmts + [Defer(DeferBody(argNames, returnNames))];
      assert stmts == Prologue(d);
      body := stmts + body;
    }
  }
}
