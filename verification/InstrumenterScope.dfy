/** Whether the names that injected code uses denote what it needs.  The wrapper promises never
    to emit code that does not compile; a name that denotes nothing, or something else, breaks
    the promise. */
module InstrumenterScope {
  import opened Options
  import opened MiniGo
  import opened Instrumenter

  // ---- Names inside a function ----

  const SDK_NAME := "sfveritas"
  const SDK_PATH := "github.com/SailfishAI/sf-veritas-go"

  /** The predeclared names that injected code refers to. */
  const PREDECLARED: set<string> := {"string", "recover", "panic", "nil"}

  function ExprIds(e: Expr): set<Id> {
    match e
    case Var(x) => {x}
    case SpanContext(x) => {x}
    case NotNil(a) => ExprIds(a)
    case _ => {}
  }

  function EntryIds(kv: seq<(string, Id)>): set<Id> {
    set i | 0 <= i < |kv| :: kv[i].1
  }

  /** The identifiers a statement uses as values, for the statements that get injected. */
  function StmtIds(s: Stmt): set<Id> {
    match s
    case StartSpan(parent, _, kv) => (if parent.Some? then {parent.value} else {}) + EntryIds(kv)
    case Assign(_, e) => ExprIds(e)
    case Defer(closure) => BlockIds(closure)
    case If(cond, thn, els) => ExprIds(cond) + BlockIds(thn) + BlockIds(els)
    case ReportPanic(kv) => EntryIds(kv) + {SfSpan, SfRecovered}
    case EndSpan(EndNil) => {SfSpan}
    case EndSpan(EndVar(x)) => {SfSpan, x}
    case EndSpan(EndMap(kv)) => {SfSpan} + EntryIds(kv)
    case Panic(e) => ExprIds(e)
    case _ => {}
  }

  function BlockIds(ss: seq<Stmt>): set<Id> {
    if ss == [] then {} else StmtIds(ss[0]) + BlockIds(ss[1..])
  }

  function IdSet(xs: seq<Id>): set<Id> {
    set x | x in xs
  }

  function Declared(d: FuncDecl): set<Id> {
    IdSet(ParamIds(d)) + IdSet(FlatIds(d.results))
  }

  function FindContextType(params: seq<Field>): string {
    if params == [] then ""
    else if IsContextType(params[0].typ) && params[0].names != [] then params[0].typ
    else FindContextType(params[1..])
  }

  /** The names declared by a function's receiver, parameters, results and type parameters. */
  function Locals(d: FuncDecl, typeParams: set<string>): set<string> {
    typeParams + set x | x in Declared(d) && x.User? :: x.name
  }

  // ---- Names in the file and the package ----

  /** `bound` is the name the import introduces: its alias, or its package's own name. */
  datatype Import = Import(bound: string, path: string)

  /** What an identifier denotes: the innermost of function, file, package and universe block. */
  datatype Denotation = Local | Imported(path: string) | PackageLevel | Universe

  function ImportOf(imports: seq<Import>, name: string): Option<string> {
    if imports == [] then None
    else if imports[0].bound == name then Some(imports[0].path)
    else ImportOf(imports[1..], name)
  }

  function Denotes(name: string, locals: set<string>, imports: seq<Import>, pkg: set<string>): Denotation {
    if name in locals then Local
    else if ImportOf(imports, name).Some? then Imported(ImportOf(imports, name).value)
    else if name in pkg then PackageLevel
    else Universe
  }

  /** An import for its side effects, or of all exported names, binds no name of its own. */
  predicate Binds(i: Import) {
    i.bound != "_" && i.bound != "."
  }

  /** No name is bound by two imports, or by an import and a declaration of the package. */
  predicate LegalBlocks(imports: seq<Import>, pkg: set<string>) {
    && (forall i, j :: 0 <= i < j < |imports| && Binds(imports[i]) ==> imports[i].bound != imports[j].bound)
    && (forall i :: 0 <= i < |imports| && Binds(imports[i]) ==> imports[i].bound !in pkg)
  }

  predicate HasImport(imports: seq<Import>, path: string) {
    exists i :: 0 <= i < |imports| && imports[i].path == path
  }

  function EnsureImport(imports: seq<Import>): seq<Import> {
    if HasImport(imports, SDK_PATH) then imports else imports + [Import(SDK_NAME, SDK_PATH)]
  }

  /** Every identifier the prologue uses as a value is declared and is not `_`; the names it
      relies on denote the SDK and the predeclared entities; what it passes as a context is one;
      and the file's imports are legal.  `imports` are those of the file, `pkg` the names the
      package declares, `typeParams` those of the function and its receiver, and `std` the type
      expressions that denote context.Context in the function's signature. */
  predicate PrologueResolves(
    d: FuncDecl, typeParams: set<string>, std: set<string>, imports: seq<Import>, pkg: set<string>)
  {
    var d' := Instrumented(d);
    var locals := Locals(d', typeParams);
    && (forall x :: x in BlockIds(Prologue(d)) ==> x != Blank && x in Declared(d') + {SfSpan, SfRecovered})
    && LegalBlocks(imports, pkg)
    && Denotes(SDK_NAME, locals, imports, pkg) == Imported(SDK_PATH)
    && (forall n :: n in PREDECLARED ==> Denotes(n, locals, imports, pkg) == Universe)
    && (FindContextParam(d.params).Some? ==> FindContextType(d.params) in std)
  }

  lemma BlanksKept(fields: seq<Field>, from: nat)
    ensures Blank in FlatIds(NamedResults(fields, from)) <==> exists f :: f in fields && Blank in f.names
    decreases |fields|
  {
    if fields != [] {
      var named := NamedResults(fields, from);
      var rest := fields[1..];
      BlanksKept(rest, from + |FieldIds(fields[0])|);
      assert named[1..] == NamedResults(rest, from + |FieldIds(fields[0])|);
      assert FlatIds(named) == FieldIds(named[0]) + FlatIds(named[1..]);
      assert forall f :: f in fields <==> f == fields[0] || f in rest;
      assert Blank in FieldIds(named[0]) <==> Blank in fields[0].names;
    }
  }

  lemma NamesKept(fields: seq<Field>, from: nat, n: string)
    ensures User(n) in FlatIds(NamedResults(fields, from)) <==> User(n) in FlatIds(fields)
    decreases |fields|
  {
    if fields != [] {
      var named := NamedResults(fields, from);
      var rest := fields[1..];
      NamesKept(rest, from + |FieldIds(fields[0])|, n);
      assert named[1..] == NamedResults(rest, from + |FieldIds(fields[0])|);
      assert FlatIds(named) == FieldIds(named[0]) + FlatIds(named[1..]);
    }
  }

  lemma WithoutBlankIs(names: seq<Id>)
    ensures forall x :: x in WithoutBlank(names) <==> x in names && x != Blank
  {}

  lemma ParamNamesDeclared(params: seq<Field>)
    ensures Blank !in CollectParamNames(params)
    ensures forall x :: x in CollectParamNames(params) ==> x in FlatIds(params)
    ensures FindContextParam(params).Some? ==> FindContextParam(params).value in FlatIds(params)
  {
    if params != [] {
      ParamNamesDeclared(params[1..]);
      WithoutBlankIs(params[0].names);
    }
  }

  lemma EntryIdsAre(xs: seq<Id>)
    ensures EntryIds(Keyed(xs)) == IdSet(xs) && EntryIds(Numbered(xs)) == IdSet(xs)
  {
    forall x | x in xs
      ensures x in EntryIds(Keyed(xs)) && x in EntryIds(Numbered(xs))
    {
      var i :| 0 <= i < |xs| && xs[i] == x;
      assert Keyed(xs)[i].1 == x && Numbered(xs)[i].1 == x;
    }
  }

  lemma BlockIdsCons(s: Stmt, rest: seq<Stmt>)
    ensures BlockIds([s] + rest) == StmtIds(s) + BlockIds(rest)
  {
    assert ([s] + rest)[0] == s && ([s] + rest)[1..] == rest;
  }

  lemma BlockIdsPair(a: Stmt, b: Stmt)
    ensures BlockIds([a, b]) == StmtIds(a) + StmtIds(b)
  {
    assert [a, b] == [a] + ([b] + []);
    BlockIdsCons(a, [b] + []);
    BlockIdsCons(b, []);
  }

  /** The branch taken while panicking. */
  lemma PanicBranchIds(names: seq<Id>)
    ensures BlockIds([ReportPanic(Keyed(names)), EndSpan(EndNil), Panic(Var(SfRecovered))]) ==
            IdSet(names) + {SfSpan, SfRecovered}
  {
    var report, rest := ReportPanic(Keyed(names)), [EndSpan(EndNil), Panic(Var(SfRecovered))];
    EntryIdsAre(names);
    BlockIdsPair(rest[0], rest[1]);
    assert [report, rest[0], rest[1]] == [report] + rest;
    BlockIdsCons(report, rest);
  }

  lemma DeferBodyIds(params: seq<Id>, rets: seq<Id>)
    ensures BlockIds(DeferBody(params, rets)) == IdSet(params) + IdSet(rets) + {SfSpan, SfRecovered}
  {
    var thn := [ReportPanic(Keyed(params + rets)), EndSpan(EndNil), Panic(Var(SfRecovered))];
    var branch, end := If(NotNil(Var(SfRecovered)), thn, []), EndSpan(EndArgFor(rets));
    PanicBranchIds(params + rets);
    EntryIdsAre(rets);
    assert StmtIds(end) == {SfSpan} + IdSet(rets);
    BlockIdsPair(branch, end);
    assert DeferBody(params, rets) == [Recover(SfRecovered)] + [branch, end];
    BlockIdsCons(Recover(SfRecovered), [branch, end]);
  }

  lemma OpeningIds(c: Option<Id>, name: string, args: seq<Id>, closure: seq<Stmt>)
    ensures BlockIds([StartSpan(c, name, Keyed(args))]
                     + (if c.Some? then [Assign(c.value, SpanContext(SfSpan))] else []) + [Defer(closure)]) ==
            (if c.Some? then {c.value, SfSpan} else {}) + IdSet(args) + BlockIds(closure)
  {
    var start, close := StartSpan(c, name, Keyed(args)), Defer(closure);
    EntryIdsAre(args);
    BlockIdsCons(close, []);
    if c.Some? {
      var adopt := Assign(c.value, SpanContext(SfSpan));
      assert [start] + [adopt] + [close] == [start] + ([adopt] + ([close] + []));
      BlockIdsCons(start, [adopt] + ([close] + []));
      BlockIdsCons(adopt, [close] + []);
    } else {
      assert [start] + [] + [close] == [start] + ([close] + []);
      BlockIdsCons(start, [close] + []);
    }
  }

  lemma PrologueIds(d: FuncDecl)
    ensures BlockIds(Prologue(d)) ==
            (if FindContextParam(d.params).Some? then {FindContextParam(d.params).value} else {})
            + IdSet(CollectParamNames(d.params)) + IdSet(ReturnNames(d)) + {SfSpan, SfRecovered}
  {
    var args, rets := CollectParamNames(d.params), ReturnNames(d);
    DeferBodyIds(args, rets);
    OpeningIds(FindContextParam(d.params), SpanName(d), args, DeferBody(args, rets));
  }

  /** Every identifier of the prologue is declared, so only `_` can go wrong. */
  lemma PrologueIdsDeclared(d: FuncDecl)
    ensures BlockIds(Prologue(d)) <= Declared(Instrumented(d)) + {SfSpan, SfRecovered}
    ensures Blank in BlockIds(Prologue(d)) <==>
            Blank in ReturnNames(d) || FindContextParam(d.params) == Some(Blank)
  {
    PrologueIds(d);
    ParamNamesDeclared(d.params);
    ParamsDeclared(d, Instrumented(d));
    IdsWithin(FindContextParam(d.params), CollectParamNames(d.params), ReturnNames(d), Declared(Instrumented(d)));
  }

  lemma IdsWithin(c: Option<Id>, args: seq<Id>, rets: seq<Id>, declared: set<Id>)
    requires IdSet(args) <= declared && IdSet(rets) <= declared && (c.Some? ==> c.value in declared)
    requires Blank !in args
    ensures var ids := (if c.Some? then {c.value} else {}) + IdSet(args) + IdSet(rets) + {SfSpan, SfRecovered};
            ids <= declared + {SfSpan, SfRecovered} && (Blank in ids <==> Blank in rets || c == Some(Blank))
  {}

  lemma ParamsDeclared(d: FuncDecl, d': FuncDecl)
    requires d'.params == d.params
    ensures forall x :: x in FlatIds(d.params) || x in FlatIds(d'.results) ==> x in Declared(d')
  {
    assert forall x :: x in FlatIds(d.params) ==> x in ParamIds(d');
  }

  /** Naming results adds no name a program could use. */
  lemma LocalsKept(d: FuncDecl, typeParams: set<string>, n: string)
    ensures n in Locals(Instrumented(d), typeParams) <==>
            n in typeParams || User(n) in ParamIds(d) || User(n) in FlatIds(d.results)
  {
    NamesKept(d.results, 0, n);
    var d' := Instrumented(d);
    assert User(n) in Declared(d') <==> User(n) in ParamIds(d) || User(n) in FlatIds(d.results);
    if User(n) in Declared(d') {
      assert User(n).User? && User(n).name == n;
    }
  }

  /** The function declares, and takes as type parameter, none of these names. */
  predicate NoLocal(d: FuncDecl, typeParams: set<string>, names: set<string>) {
    forall n :: n in names ==> n !in typeParams && User(n) !in ParamIds(d) && User(n) !in FlatIds(d.results)
  }

  lemma LocalsClear(d: FuncDecl, typeParams: set<string>, names: set<string>)
    ensures (forall n :: n in names ==> n !in Locals(Instrumented(d), typeParams)) <==> NoLocal(d, typeParams, names)
  {
    forall n | n in names
      ensures n in Locals(Instrumented(d), typeParams) <==>
              n in typeParams || User(n) in ParamIds(d) || User(n) in FlatIds(d.results)
    {
      LocalsKept(d, typeParams, n);
    }
  }

  // ---- The imports after the pass ----

  lemma {:induction false} ImportOfIs(imports: seq<Import>, name: string)
    ensures ImportOf(imports, name).Some? <==> exists i :: 0 <= i < |imports| && imports[i].bound == name
    ensures ImportOf(imports, name).Some? ==> Import(name, ImportOf(imports, name).value) in imports
  {
    if imports != [] && imports[0].bound != name {
      ImportOfIs(imports[1..], name);
      assert forall i :: 0 < i < |imports| ==> imports[i] == imports[1..][i - 1];
    }
  }

  /** Outside the function, the names denote what the injected code needs. */
  predicate NamesResolve(imports: seq<Import>, pkg: set<string>) {
    && LegalBlocks(imports, pkg)
    && ImportOf(imports, SDK_NAME) == Some(SDK_PATH)
    && (forall n :: n in PREDECLARED ==> ImportOf(imports, n).None? && n !in pkg)
  }

  predicate BoundBy(imports: seq<Import>, name: string) {
    exists i :: 0 <= i < |imports| && imports[i].bound == name
  }

  /** What that takes before the pass: the imports are legal; no predeclared name that is needed
      is redeclared; and the SDK is imported under its own name, or is not imported and its name
      is free in the file and in the package. */
  ghost predicate FileReady(imports: seq<Import>, pkg: set<string>) {
    && LegalBlocks(imports, pkg)
    && (forall n :: n in PREDECLARED ==> n !in pkg && !BoundBy(imports, n))
    && if HasImport(imports, SDK_PATH) then Import(SDK_NAME, SDK_PATH) in imports
       else SDK_NAME !in pkg && !BoundBy(imports, SDK_NAME)
  }

  lemma LegalPush(imports: seq<Import>, i: Import, pkg: set<string>)
    requires Binds(i)
    ensures LegalBlocks(imports + [i], pkg) <==>
            LegalBlocks(imports, pkg) && i.bound !in pkg && !BoundBy(imports, i.bound)
  {
    var after := imports + [i];
    assert after[|imports|] == i && forall k :: 0 <= k < |imports| ==> after[k] == imports[k];
  }

  /** An existing import is recognised by its path alone, so the names resolve after the pass
      exactly when the file was ready for it. */
  lemma NamesResolveIff(imports: seq<Import>, pkg: set<string>)
    ensures NamesResolve(EnsureImport(imports), pkg) <==> FileReady(imports, pkg)
  {
    var after := EnsureImport(imports);
    forall n: string | n in PREDECLARED
      ensures ImportOf(after, n).Some? <==> BoundBy(imports, n)
    {
      PredeclaredKept(imports, n);
    }
    ImportOfIs(after, SDK_NAME);
    if HasImport(imports, SDK_PATH) {
      if LegalBlocks(imports, pkg) && Import(SDK_NAME, SDK_PATH) in imports {
        OneBinding(imports, pkg, Import(SDK_NAME, SDK_PATH));
      }
    } else {
      LegalPush(imports, Import(SDK_NAME, SDK_PATH), pkg);
      if LegalBlocks(after, pkg) {
        assert after[|imports|] == Import(SDK_NAME, SDK_PATH);
        OneBinding(after, pkg, Import(SDK_NAME, SDK_PATH));
      }
    }
  }

  /** The import the pass adds binds no predeclared name. */
  lemma PredeclaredKept(imports: seq<Import>, n: string)
    requires n in PREDECLARED
    ensures ImportOf(EnsureImport(imports), n).Some? <==> BoundBy(imports, n)
  {
    var after := EnsureImport(imports);
    ImportOfIs(after, n);
    assert |n| != |SDK_NAME|;
    assert forall k :: 0 <= k < |imports| ==> after[k] == imports[k];
  }

  lemma OneBinding(imports: seq<Import>, pkg: set<string>, i: Import)
    requires LegalBlocks(imports, pkg) && i in imports && Binds(i)
    ensures ImportOf(imports, i.bound) == Some(i.path)
  {
    ImportOfIs(imports, i.bound);
  }

  // ---- Main results ----

  /** The names in the code injected into a function resolve exactly when no result is named
      `_`, its context parameter is not named `_` and really is a context, no receiver,
      parameter, result or type parameter shadows a name the code needs, and the file and its
      package were ready. */
  lemma PrologueResolvesIff(
    d: FuncDecl, typeParams: set<string>, std: set<string>, imports: seq<Import>, pkg: set<string>)
    ensures PrologueResolves(d, typeParams, std, EnsureImport(imports), pkg) <==>
            && (forall f :: f in d.results ==> Blank !in f.names)
            && FindContextParam(d.params) != Some(Blank)
            && (FindContextParam(d.params).Some? ==> FindContextType(d.params) in std)
            && NoLocal(d, typeParams, PREDECLARED + {SDK_NAME})
            && FileReady(imports, pkg)
  {
    PrologueIdsDeclared(d);
    BlanksKept(d.results, 0);
    LocalsClear(d, typeParams, PREDECLARED + {SDK_NAME});
    NamesResolveIff(imports, pkg);
    DenotesIff(Locals(Instrumented(d), typeParams), EnsureImport(imports), pkg);
  }

  lemma DenotesIff(locals: set<string>, imports: seq<Import>, pkg: set<string>)
    ensures && LegalBlocks(imports, pkg) && Denotes(SDK_NAME, locals, imports, pkg) == Imported(SDK_PATH)
            && (forall n :: n in PREDECLARED ==> Denotes(n, locals, imports, pkg) == Universe)
            <==> NamesResolve(imports, pkg) && forall n :: n in PREDECLARED + {SDK_NAME} ==> n !in locals
  {}

  /** A file that imports the SDK under another name is not ready. */
  lemma AliasBreaksImport(pkg: set<string>)
    ensures !NamesResolve(EnsureImport([Import("sf", SDK_PATH)]), pkg)
  {
    assert [Import("sf", SDK_PATH)][0].path == SDK_PATH;
    NamesResolveIff([Import("sf", SDK_PATH)], pkg);
  }

  /** Nor is any file without the SDK, however else it is written, in a package that declares
      something called `sfveritas`: the import that is added redeclares it. */
  lemma PackageNameBreaksImport(imports: seq<Import>, pkg: set<string>)
    requires SDK_NAME in pkg && !HasImport(imports, SDK_PATH)
    ensures !NamesResolve(EnsureImport(imports), pkg) && !LegalBlocks(EnsureImport(imports), pkg)
  {
    LegalPush(imports, Import(SDK_NAME, SDK_PATH), pkg);
  }

  /** In a generic function a type parameter can shadow what the code needs. */
  lemma TypeParameterBreaksPrologue(
    d: FuncDecl, typeParams: set<string>, std: set<string>, imports: seq<Import>, pkg: set<string>)
    requires "string" in typeParams
    ensures !PrologueResolves(d, typeParams, std, EnsureImport(imports), pkg)
  {
    PrologueResolvesIff(d, typeParams, std, imports, pkg);
    assert "string" in PREDECLARED;
  }
}
