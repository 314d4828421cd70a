/** Debug-capture rules: compiled into an index by function name, looked up before a call and
    consulted again after it. */
module CaptureRules {
  import opened Collections
  import opened Options
  import opened Conditions

  // ---- Rules ----

  datatype WireCondition = WireCondition(key: string, op: string, value: string)

  datatype WireConditions = WireConditions(preCall: seq<WireCondition>, postCall: seq<WireCondition>, logic: string)

  datatype WireRule = WireRule(
    ruleID: string, filePattern: string, functionName: string, captureArgs: bool, captureReturn: bool,
    argLimitMB: int, returnLimitMB: int, sampleRate: real, conditions: Option<WireConditions>,
    propagate: Option<(bool, int)>)

  datatype Rule = Rule(
    ruleID: string, functionName: string, filePattern: string, captureArgs: bool, captureReturn: bool,
    argLimitMB: int, returnLimitMB: int, preCall: seq<Condition>, postCall: seq<Condition>, logic: string,
    propagate: bool, maxDepth: int, sampleRate: real)

  type Index = map<string, seq<Rule>>

  function CompileConditions(lib: Lib, cs: seq<WireCondition>): seq<Condition> {
    seq(|cs|, i requires 0 <= i < |cs| => Condition(cs[i].key, NormalizeOp(lib, cs[i].op), cs[i].value))
  }

  function Compile(lib: Lib, w: WireRule): Rule {
    var c := w.conditions;
    Rule(w.ruleID, w.functionName, w.filePattern, w.captureArgs, w.captureReturn, w.argLimitMB, w.returnLimitMB,
         if c.Some? then CompileConditions(lib, c.value.preCall) else [],
         if c.Some? then CompileConditions(lib, c.value.postCall) else [],
         if c.Some? && lib.lower(c.value.logic) == "or" then "or" else "and",
         w.propagate.Some? && w.propagate.value.0,
         if w.propagate.Some? then w.propagate.value.1 else 0,
         if w.sampleRate <= 0.0 || w.sampleRate > 1.0 then 1.0 else w.sampleRate)
  }

  predicate WellFormed(w: Option<WireRule>) {
    w.Some? && w.value.ruleID != "" && w.value.functionName != ""
  }

  /** The well-formed rules, compiled, in wire order. `None` stands for JSON that does not parse. */
  function Rules(lib: Lib, raw: seq<Option<WireRule>>): seq<Rule> {
    if raw == [] then []
    else Rules(lib, raw[..|raw| - 1])
         + (if WellFormed(raw[|raw| - 1]) then [Compile(lib, raw[|raw| - 1].value)] else [])
  }

  function ForFunction(rules: seq<Rule>, name: string): seq<Rule> {
    if rules == [] then []
    else ForFunction(rules[..|rules| - 1], name)
         + (if rules[|rules| - 1].functionName == name then [rules[|rules| - 1]] else [])
  }

  function Bucket(index: Index, name: string): seq<Rule> {
    if name in index then index[name] else []
  }

  /** Each function name leads to its rules in wire order, and only names with rules are there. */
  ghost predicate Indexes(index: Index, rules: seq<Rule>) {
    && (forall f :: Bucket(index, f) == ForFunction(rules, f))
    && (forall f :: f in index ==> index[f] != [])
  }

  /** A wire rule that parses and names itself and its function is compiled, after those before
      it; any other adds nothing. */
  lemma RulesPush(lib: Lib, raw: seq<Option<WireRule>>, w: Option<WireRule>)
    ensures Rules(lib, raw + [w]) ==
            Rules(lib, raw) + (if w.Some? && w.value.ruleID != "" && w.value.functionName != "" then [Compile(lib, w.value)] else [])
    ensures Rules(lib, []) == []
  {
    assert (raw + [w])[..|raw|] == raw;
  }

  // ---- Looking a rule up ----

  /** A call: where it is and its arguments; `glob` and `base` are filepath.Match and filepath.Base. */
  datatype Query = Query(
    lib: Lib, file: string, name: string, args: string -> Arg, glob: (string, string) -> bool, base: string -> string)

  predicate FileMatches(q: Query, pattern: string) {
    || pattern == "" || pattern == "*"
    || q.glob(pattern, q.file)
    || q.glob(pattern, q.base(q.file))
    || ((forall c :: c in pattern ==> c !in "*?[") && HasSuffix(q.file, pattern))
  }

  /** Name, file and conditions pass; only then is a sample drawn. */
  predicate Applies(r: Rule, q: Query) {
    r.functionName == q.name && FileMatches(q, r.filePattern) && Holds(q.lib, r.preCall, q.args, r.logic)
  }

  predicate Draws(r: Rule, q: Query) {
    Applies(r, q) && r.sampleRate < 1.0
  }

  /** How many samples the rules before number i have drawn. */
  function DrawsBefore(rules: seq<Rule>, q: Query, i: nat): nat
    requires i <= |rules|
  {
    if i == 0 then 0 else DrawsBefore(rules, q, i - 1) + (if Draws(rules[i - 1], q) then 1 else 0)
  }

  /** Rule i applies and its sample, the next one drawn, lets it through. */
  predicate Passes(rules: seq<Rule>, q: Query, sample: nat -> real, i: nat)
    requires i < |rules|
  {
    Applies(rules[i], q) && (Draws(rules[i], q) ==> sample(DrawsBefore(rules, q, i)) <= rules[i].sampleRate)
  }

  /** A file matches by glob, on its path or its base name, or by suffix when the pattern has no
      glob characters; no pattern and `*` match every file. */
  lemma FileMatchesIff(q: Query, pattern: string)
    ensures FileMatches(q, pattern) <==>
            || pattern == "" || pattern == "*" || q.glob(pattern, q.file) || q.glob(pattern, q.base(q.file))
            || ('*' !in pattern && '?' !in pattern && '[' !in pattern && exists dir :: q.file == dir + pattern)
  {
    assert forall c :: c in "*?[" <==> c == '*' || c == '?' || c == '[' by {
      assert "*?[" == ['*', '?', '['];
    }
    if HasSuffix(q.file, pattern) {
      assert q.file == q.file[..|q.file| - |pattern|] + pattern;
    }
  }

  /** A rule passes when name, file and conditions do and, if it samples, the number drawn is at
      most its rate; each sampling rule that gets as far draws the next number. */
  lemma PassesIff(rules: seq<Rule>, q: Query, sample: nat -> real, i: nat)
    requires i < |rules|
    ensures Passes(rules, q, sample, i) <==>
            && rules[i].functionName == q.name && FileMatches(q, rules[i].filePattern)
            && Holds(q.lib, rules[i].preCall, q.args, rules[i].logic)
            && (rules[i].sampleRate < 1.0 ==> sample(DrawsBefore(rules, q, i)) <= rules[i].sampleRate)
    ensures DrawsBefore(rules, q, 0) == 0
    ensures DrawsBefore(rules, q, i + 1) == DrawsBefore(rules, q, i)
              + (if && rules[i].functionName == q.name && FileMatches(q, rules[i].filePattern)
                    && Holds(q.lib, rules[i].preCall, q.args, rules[i].logic) && rules[i].sampleRate < 1.0
                 then 1 else 0)
  {}

  /** The first rule of the list that passes. */
  ghost predicate IsFirst(rules: seq<Rule>, q: Query, sample: nat -> real, found: Option<Rule>) {
    match found
    case None => forall i :: 0 <= i < |rules| ==> !Passes(rules, q, sample, i)
    case Some(r) =>
      exists i :: 0 <= i < |rules| && rules[i] == r && Passes(rules, q, sample, i)
                  && forall j :: 0 <= j < i ==> !Passes(rules, q, sample, j)
  }

  lemma {:induction false} DrawsInFilter(rules: seq<Rule>, q: Query, i: nat)
    requires i <= |rules|
    ensures |ForFunction(rules[..i], q.name)| <= |ForFunction(rules, q.name)|
    ensures ForFunction(rules[..i], q.name) <= ForFunction(rules, q.name)
    ensures DrawsBefore(ForFunction(rules, q.name), q, |ForFunction(rules[..i], q.name)|) == DrawsBefore(rules, q, i)
  {
    FilterPrefix(rules, q.name, i);
    var kept := ForFunction(rules, q.name);
    if i > 0 {
      DrawsInFilter(rules, q, i - 1);
      var r := rules[i - 1];
      assert rules[..i][..i - 1] == rules[..i - 1];
      if r.functionName == q.name {
        var k := |ForFunction(rules[..i - 1], q.name)|;
        assert ForFunction(rules[..i], q.name)[k] == r;
        assert kept[k] == r;
      }
    } else {
      assert rules[..0] == [];
    }
  }

  lemma {:induction false} FilterPrefix(rules: seq<Rule>, name: string, i: nat)
    requires i <= |rules|
    ensures ForFunction(rules[..i], name) <= ForFunction(rules, name)
    decreases |rules| - i
  {
    if i == |rules| {
      assert rules[..i] == rules;
    } else {
      FilterPrefix(rules, name, i + 1);
      assert rules[..i + 1][..i] == rules[..i];
    }
  }

  /** Rule i of the whole list is rule k of its function's list. */
  lemma PassesInFilter(rules: seq<Rule>, q: Query, sample: nat -> real, i: nat)
    requires i < |rules| && rules[i].functionName == q.name
    ensures var kept, k := ForFunction(rules, q.name), |ForFunction(rules[..i], q.name)|;
            k < |kept| && kept[k] == rules[i] && (Passes(kept, q, sample, k) <==> Passes(rules, q, sample, i))
  {
    DrawsInFilter(rules, q, i);
    DrawsInFilter(rules, q, i + 1);
    assert rules[..i + 1][..i] == rules[..i];
    var k := |ForFunction(rules[..i], q.name)|;
    assert ForFunction(rules[..i + 1], q.name)[k] == rules[i];
  }

  /** Every rule in a function's list comes from the whole list, and order is kept. */
  lemma {:induction false} FromFilter(rules: seq<Rule>, name: string, k: nat) returns (i: nat)
    requires k < |ForFunction(rules, name)|
    ensures i < |rules| && rules[i].functionName == name && |ForFunction(rules[..i], name)| == k
  {
    var n := |rules| - 1;
    if k < |ForFunction(rules[..n], name)| {
      i := FromFilter(rules[..n], name, k);
      assert rules[..n][..i] == rules[..i];
    } else {
      i := n;
    }
  }

  /** Looking only at the rules of the function finds the same rule as scanning all of them,
      the same samples included. */
  lemma FilterFindsFirst(rules: seq<Rule>, q: Query, sample: nat -> real, found: Option<Rule>)
    requires IsFirst(ForFunction(rules, q.name), q, sample, found)
    ensures IsFirst(rules, q, sample, found)
  {
    var kept := ForFunction(rules, q.name);
    match found
    case None =>
      forall i | 0 <= i < |rules|
        ensures !Passes(rules, q, sample, i)
      {
        if rules[i].functionName == q.name {
          PassesInFilter(rules, q, sample, i);
        }
      }
    case Some(r) =>
      var k :| 0 <= k < |kept| && kept[k] == r && Passes(kept, q, sample, k)
               && forall j :: 0 <= j < k ==> !Passes(kept, q, sample, j);
      var i := FromFilter(rules, q.name, k);
      PassesInFilter(rules, q, sample, i);
      forall j | 0 <= j < i
        ensures !Passes(rules, q, sample, j)
      {
        if rules[j].functionName == q.name {
          PassesInFilter(rules, q, sample, j);
          FilterGrows(rules, q.name, j, i);
        }
      }
  }

  lemma {:induction false} FilterGrows(rules: seq<Rule>, name: string, j: nat, i: nat)
    requires j < i <= |rules| && rules[j].functionName == name
    ensures |ForFunction(rules[..j], name)| < |ForFunction(rules[..i], name)|
  {
    assert rules[..i][..i - 1] == rules[..i - 1];
    if j < i - 1 {
      FilterGrows(rules, name, j, i - 1);
    }
  }

  lemma FirstIsUnique(rules: seq<Rule>, q: Query, sample: nat -> real, a: Option<Rule>, b: Option<Rule>)
    requires IsFirst(rules, q, sample, a) && IsFirst(rules, q, sample, b)
    ensures a == b
  {
    if a.Some? && b.Some? {
      var i :| 0 <= i < |rules| && rules[i] == a.value && Passes(rules, q, sample, i)
               && forall j :: 0 <= j < i ==> !Passes(rules, q, sample, j);
      var k :| 0 <= k < |rules| && rules[k] == b.value && Passes(rules, q, sample, k)
               && forall j :: 0 <= j < k ==> !Passes(rules, q, sample, j);
      assert i == k;
    }
  }

  // ---- Consulting a rule after the call ----

  predicate Verdict(lib: Lib, r: Rule, meta: string -> Arg) {
    r.postCall == [] || Holds(lib, r.postCall, meta, r.logic)
  }

  /** The first rule with this id in a list decides; without one the span is emitted. */
  function FindID(rules: seq<Rule>, id: string): Option<Rule> {
    if rules == [] then None
    else if rules[0].ruleID == id then Some(rules[0])
    else FindID(rules[1..], id)
  }

  predicate Decision(lib: Lib, found: Option<Rule>, meta: string -> Arg) {
    found.None? || Verdict(lib, found.value, meta)
  }

  /** The search when the index is visited in this order of names. */
  function FindInOrder(index: Index, order: seq<string>, id: string): Option<Rule> {
    if order == [] then None
    else
      var here := FindID(Bucket(index, order[0]), id);
      if here.Some? then here else FindInOrder(index, order[1..], id)
  }

  /** `order` visits every name of the index once. */
  ghost predicate Visits(order: seq<string>, index: Index) {
    && (forall f :: f in order <==> f in index)
    && (forall i, j :: 0 <= i < j < |order| ==> order[i] != order[j])
  }

  predicate UniqueIDs(rules: seq<Rule>) {
    forall i, j :: 0 <= i < j < |rules| ==> rules[i].ruleID != rules[j].ruleID
  }

  lemma {:induction false} FindIDIs(rules: seq<Rule>, id: string)
    ensures FindID(rules, id).Some? <==> exists r :: r in rules && r.ruleID == id
    ensures FindID(rules, id).Some? ==> FindID(rules, id).value in rules && FindID(rules, id).value.ruleID == id
  {
    if rules != [] && rules[0].ruleID != id {
      FindIDIs(rules[1..], id);
    }
  }

  lemma {:induction false} FindInOrderIs(index: Index, order: seq<string>, id: string)
    ensures var found := FindInOrder(index, order, id);
            && (found.Some? <==> exists f :: f in order && FindID(Bucket(index, f), id).Some?)
            && (found.Some? ==> exists f :: f in order && found == FindID(Bucket(index, f), id))
  {
    if order != [] && FindID(Bucket(index, order[0]), id).None? {
      FindInOrderIs(index, order[1..], id);
    }
  }

  lemma {:induction false} InFilter(rules: seq<Rule>, name: string, r: Rule)
    ensures r in ForFunction(rules, name) <==> r in rules && r.functionName == name
  {
    if rules != [] {
      InFilter(rules[..|rules| - 1], name, r);
      assert rules == rules[..|rules| - 1] + [rules[|rules| - 1]];
    }
  }

  /** When rule ids are unique, the search finds the rule a scan of the wire order by id finds,
      whatever order the index is visited in. */
  lemma PostCallAgreesWithScan(index: Index, rules: seq<Rule>, order: seq<string>, id: string)
    requires Indexes(index, rules) && Visits(order, index) && UniqueIDs(rules)
    ensures FindInOrder(index, order, id) == FindID(rules, id)
  {
    FindInOrderIs(index, order, id);
    FindIDIs(rules, id);
    if FindID(rules, id).Some? {
      var f := FindID(rules, id).value.functionName;
      InBucket(index, rules, f, id);
      assert f in order;
    }
    if FindInOrder(index, order, id).Some? {
      var f :| f in order && FindInOrder(index, order, id) == FindID(Bucket(index, f), id);
      InBucket(index, rules, f, id);
    }
  }

  /** With unique ids a function's rules hold the rule with the id exactly when it is theirs. */
  lemma InBucket(index: Index, rules: seq<Rule>, f: string, id: string)
    requires Indexes(index, rules) && UniqueIDs(rules)
    ensures FindID(Bucket(index, f), id).Some? ==> FindID(Bucket(index, f), id) == FindID(rules, id)
    ensures FindID(rules, id).Some? && FindID(rules, id).value.functionName == f ==>
              f in index && FindID(Bucket(index, f), id).Some?
  {
    FindIDIs(rules, id);
    FindIDIs(Bucket(index, f), id);
    if FindID(Bucket(index, f), id).Some? {
      InFilter(rules, f, FindID(Bucket(index, f), id).value);
    }
    if FindID(rules, id).Some? {
      InFilter(rules, f, FindID(rules, id).value);
    }
  }

  lemma {:induction false} SomeVisit(names: set<string>) returns (order: seq<string>)
    ensures forall f :: f in order <==> f in names
    ensures forall i, j :: 0 <= i < j < |order| ==> order[i] != order[j]
  {
    if names == {} {
      order := [];
    } else {
      var f :| f in names;
      var rest := SomeVisit(names - {f});
      order := [f] + rest;
    }
  }

  /** The functions with a rule of this id all decide alike. */
  ghost predicate AllDecideAlike(lib: Lib, index: Index, id: string, meta: string -> Arg) {
    forall f, g :: HasID(index, f, id) && HasID(index, g, id) ==>
      DecidesAt(lib, index, f, id, meta) == DecidesAt(lib, index, g, id, meta)
  }

  predicate HasID(index: Index, f: string, id: string) {
    f in index && FindID(index[f], id).Some?
  }

  predicate DecidesAt(lib: Lib, index: Index, f: string, id: string, meta: string -> Arg) {
    Decision(lib, FindID(Bucket(index, f), id), meta)
  }

  predicate DecidesIn(lib: Lib, index: Index, order: seq<string>, id: string, meta: string -> Arg) {
    Decision(lib, FindInOrder(index, order, id), meta)
  }

  /** With repeated ids the answer can depend on the order.  It is the same for every order
      exactly when the functions that have a rule with the id all decide alike. */
  lemma OrderIrrelevantIff(lib: Lib, index: Index, id: string, meta: string -> Arg)
    ensures (forall o, o' :: Visits(o, index) && Visits(o', index) ==>
               DecidesIn(lib, index, o, id, meta) == DecidesIn(lib, index, o', id, meta))
            <==> AllDecideAlike(lib, index, id, meta)
  {
    if AllDecideAlike(lib, index, id, meta) {
      forall o, o' | Visits(o, index) && Visits(o', index)
        ensures DecidesIn(lib, index, o, id, meta) == DecidesIn(lib, index, o', id, meta)
      {
        OrdersAgree(lib, index, o, o', id, meta);
      }
    } else {
      var f, g :| HasID(index, f, id) && HasID(index, g, id)
                  && DecidesAt(lib, index, f, id, meta) != DecidesAt(lib, index, g, id, meta);
      var o := VisitFrom(index, f);
      var o' := VisitFrom(index, g);
      assert DecidesIn(lib, index, o, id, meta) != DecidesIn(lib, index, o', id, meta);
    }
  }

  lemma OrdersAgree(lib: Lib, index: Index, o: seq<string>, o': seq<string>, id: string, meta: string -> Arg)
    requires AllDecideAlike(lib, index, id, meta) && Visits(o, index) && Visits(o', index)
    ensures DecidesIn(lib, index, o, id, meta) == DecidesIn(lib, index, o', id, meta)
  {
    var f := DecidedBy(lib, index, o, id, meta);
    var g := DecidedBy(lib, index, o', id, meta);
  }

  /** The function whose rule decides, if any function has a rule with the id. */
  lemma DecidedBy(lib: Lib, index: Index, order: seq<string>, id: string, meta: string -> Arg) returns (f: Option<string>)
    requires Visits(order, index)
    ensures f.Some? ==> HasID(index, f.value, id)
                        && DecidesIn(lib, index, order, id, meta) == DecidesAt(lib, index, f.value, id, meta)
    ensures f.None? ==> DecidesIn(lib, index, order, id, meta) && forall h :: !HasID(index, h, id)
  {
    FindInOrderIs(index, order, id);
    if FindInOrder(index, order, id).Some? {
      var g :| g in order && FindInOrder(index, order, id) == FindID(Bucket(index, g), id);
      f := Some(g);
    } else {
      f := None;
      forall h
        ensures !HasID(index, h, id)
      {
        assert h in index ==> h in order && Bucket(index, h) == index[h];
      }
    }
  }

  /** Two rules that share the id "r": f's has no post-call conditions, g's wants the value 1. */
  function SharedRule(name: string, postCall: seq<WireCondition>): WireRule {
    WireRule("r", "", name, true, true, 0, 0, 1.0, Some(WireConditions([], postCall, "and")), None)
  }

  const SHARED_ID: seq<Option<WireRule>> :=
    [Some(SharedRule("f", [])), Some(SharedRule("g", [WireCondition("returnValue", "==", "1")]))]

  /** The index built from two well-formed rules that share an id: for a span that returned nothing
      the answer is one or the other, depending on which function the index is visited at first. */
  lemma OrderCanMatter(lib: Lib, meta: string -> Arg)
    requires lib.lower(lib.trim("==")) == "==" && meta("returnValue") == NilArg
    ensures forall i :: 0 <= i < |SHARED_ID| ==> WellFormed(SHARED_ID[i])
    ensures exists index, o, o' ::
              && Indexes(index, Rules(lib, SHARED_ID)) && Visits(o, index) && Visits(o', index)
              && DecidesIn(lib, index, o, "r", meta) && !DecidesIn(lib, index, o', "r", meta)
  {
    var a, b := Compile(lib, SHARED_ID[0].value), Compile(lib, SHARED_ID[1].value);
    var index: Index := map["f" := [a]]["g" := [b]];
    SharedRules(lib);
    assert "f" != "g" by {
      assert "f"[0] != "g"[0];
    }
    TwoRuleIndex(a, b);
    var o := VisitFrom(index, "f");
    var o' := VisitFrom(index, "g");
    assert FindID([a], "r") == Some(a) && FindID([b], "r") == Some(b);
    assert DecidesIn(lib, index, o, "r", meta);
    RejectsNothing(lib, b, meta);
    assert !DecidesIn(lib, index, o', "r", meta);
  }

  lemma SharedRules(lib: Lib)
    ensures Rules(lib, SHARED_ID) == [Compile(lib, SHARED_ID[0].value), Compile(lib, SHARED_ID[1].value)]
  {
    TwoRules(lib, SHARED_ID[0], SHARED_ID[1]);
    assert SHARED_ID == [SHARED_ID[0], SHARED_ID[1]];
  }

  lemma TwoRules(lib: Lib, v: Option<WireRule>, w: Option<WireRule>)
    requires WellFormed(v) && WellFormed(w)
    ensures Rules(lib, [v, w]) == [Compile(lib, v.value), Compile(lib, w.value)]
  {
    assert [v, w][..1] == [v] && [v][..0] == [];
    assert Rules(lib, [v]) == Rules(lib, []) + [Compile(lib, v.value)];
  }

  lemma TwoRuleIndex(a: Rule, b: Rule)
    requires a.functionName != b.functionName
    ensures Indexes(map[a.functionName := [a]][b.functionName := [b]], [a, b])
  {
    IndexPush(map[], [], a);
    assert [] + [a] == [a] && map[][a.functionName := [a]] == map[a.functionName := [a]];
    IndexPush(map[a.functionName := [a]], [a], b);
    assert [a] + [b] == [a, b];
  }

  lemma RejectsNothing(lib: Lib, b: Rule, meta: string -> Arg)
    requires b == Compile(lib, SHARED_ID[1].value)
    requires lib.lower(lib.trim("==")) == "==" && meta("returnValue") == NilArg
    ensures !Verdict(lib, b, meta)
  {
    var c := Condition("returnValue", "==", "1");
    assert b.postCall == [c];
    assert !EvalOp(lib, c.op, NilArg, c.value);
    OneCondition(lib, c, meta, b.logic);
  }

  lemma OneCondition(lib: Lib, c: Condition, lookup: string -> Arg, logic: string)
    ensures Holds(lib, [c], lookup, logic) == EvalOp(lib, c.op, lookup(c.key), c.value)
  {
    assert [c][0] == c;
  }

  lemma VisitFrom(index: Index, f: string) returns (order: seq<string>)
    requires f in index
    ensures Visits(order, index) && order != [] && order[0] == f
  {
    var rest := SomeVisit(index.Keys - {f});
    order := [f] + rest;
  }

  // ---- The rule store as it runs ----

  /** The body of the compiling loop: defaults first, then what the wire rule sets. */
  method CompileRule(lib: Lib, w: WireRule) returns (r: Rule)
    ensures r.ruleID == w.ruleID && r.functionName == w.functionName && r.filePattern == w.filePattern
    ensures r.captureArgs == w.captureArgs && r.captureReturn == w.captureReturn
    ensures r.argLimitMB == w.argLimitMB && r.returnLimitMB == w.returnLimitMB
    ensures w.propagate.Some? ==> r.propagate == w.propagate.value.0 && r.maxDepth == w.propagate.value.1
    ensures w.propagate.None? ==> !r.propagate && r.maxDepth == 0
    ensures w.conditions.None? ==> r.preCall == [] && r.postCall == [] && r.logic == "and"
    ensures w.conditions.Some? ==>
              && Compiled(lib, w.conditions.value.preCall, r.preCall)
              && Compiled(lib, w.conditions.value.postCall, r.postCall)
              && r.logic == if lib.lower(w.conditions.value.logic) == "or" then "or" else "and"
    ensures w.sampleRate <= 0.0 || 1.0 < w.sampleRate ==> r.sampleRate == 1.0
    ensures r == Compile(lib, w)
    ensures 0.0 < r.sampleRate <= 1.0
    ensures 0.0 < w.sampleRate <= 1.0 ==> r.sampleRate == w.sampleRate
  {
    var rate := w.sampleRate;
    if rate <= 0.0 || rate > 1.0 {
      rate := 1.0;
    }
    r := Rule(w.ruleID, w.functionName, w.filePattern, w.captureArgs, w.captureReturn, w.argLimitMB, w.returnLimitMB,
              [], [], "and", false, 0, rate);
    if w.conditions.Some? {
      if lib.lower(w.conditions.value.logic) == "or" {
        r := r.(logic := "or");
      }
      var pre := Normalized(lib, w.conditions.value.preCall);
      var post := Normalized(lib, w.conditions.value.postCall);
      r := r.(preCall := pre, postCall := post);
    }
    if w.propagate.Some? {
      r := r.(propagate := w.propagate.value.0, maxDepth := w.propagate.value.1);
    }
  }

  /** The same conditions in order, with their operators normalized. */
  predicate Compiled(lib: Lib, wire: seq<WireCondition>, conds: seq<Condition>) {
    |conds| == |wire| && forall i :: 0 <= i < |wire| ==>
      conds[i].key == wire[i].key && conds[i].value == wire[i].value && conds[i].op == NormalizeOp(lib, wire[i].op)
  }

  method Normalized(lib: Lib, wire: seq<WireCondition>) returns (conds: seq<Condition>)
    ensures conds == CompileConditions(lib, wire)
  {
    conds := [];
    for i := 0 to |wire|
      invariant conds == CompileConditions(lib, wire[..i])
    {
      conds := conds + [Condition(wire[i].key, NormalizeOp(lib, wire[i].op), wire[i].value)];
    }
    assert wire[..|wire|] == wire;
  }

  class Store {
    var active: Option<Index>

    constructor ()
      ensures active == None
    {
      active := None;
    }

    /** The active index holds exactly these rules. */
    ghost predicate Holding(rules: seq<Rule>)
      reads this
    {
      match active
      case None => rules == []
      case Some(index) => index != map[] && Indexes(index, rules)
    }

    method Clear()
      modifies this
      ensures Holding([])
    {
      active := None;
    }

    /** Compiles the rules into a fresh index and swaps it in; malformed rules are skipped. */
    method SetRules(lib: Lib, raw: seq<Option<WireRule>>)
      modifies this
      ensures Holding(Rules(lib, raw))
    {
      var index: Index := map[];
      for i := 0 to |raw|
        invariant Indexes(index, Rules(lib, raw[..i]))
      {
        assert raw[..i + 1][..i] == raw[..i];
        assert WellFormed(raw[i]) || Rules(lib, raw[..i + 1]) == Rules(lib, raw[..i]);
        if raw[i].None? {
          continue;
        }
        var w := raw[i].value;
        if w.ruleID == "" || w.functionName == "" {
          continue;
        }
        var r := CompileRule(lib, w);
        IndexPush(index, Rules(lib, raw[..i]), r);
        index := index[r.functionName := Bucket(index, r.functionName) + [r]];
        assert Rules(lib, raw[..i + 1]) == Rules(lib, raw[..i]) + [r];
      }
      assert raw[..|raw|] == raw;
      EmptyIndexes(index, Rules(lib, raw));
      active := if index == map[] then None else Some(index);
    }

    /** The loop over the rules of one function. */
    method EvaluateRulePreCall(q: Query, sample: nat -> real, ghost rules: seq<Rule>) returns (found: Option<Rule>)
      requires Holding(rules)
      ensures IsFirst(rules, q, sample, found)
    {
      if active.None? {
        return None;
      }
      var candidates := Bucket(active.value, q.name);
      var drawn := 0;
      for i := 0 to |candidates|
        invariant drawn == DrawsBefore(candidates, q, i)
        invariant forall j :: 0 <= j < i ==> !Passes(candidates, q, sample, j)
      {
        var r := candidates[i];
        var applies := FileMatches(q, r.filePattern);
        if applies {
          applies := EvalConditions(q.lib, r.preCall, q.args, r.logic);
        }
        BucketName(active.value, rules, q.name, i);
        if applies {
          var skip := false;
          if r.sampleRate < 1.0 {
            skip := sample(drawn) > r.sampleRate;
          }
          if !skip {
            FilterFindsFirst(rules, q, sample, Some(r));
            return Some(r);
          }
          drawn := drawn + 1;
        }
      }
      FilterFindsFirst(rules, q, sample, None);
      return None;
    }

    /** The nested loops over an index visited in `order`. */
    method EvaluateRulePostCall(lib: Lib, order: seq<string>, id: string, meta: string -> Arg, ghost rules: seq<Rule>)
      returns (emit: bool)
      requires Holding(rules) && (active.Some? ==> Visits(order, active.value))
      ensures id == "" || active.None? ==> emit
      ensures id != "" && active.Some? ==> emit == Decision(lib, FindInOrder(active.value, order, id), meta)
      ensures id != "" && UniqueIDs(rules) ==> emit == Decision(lib, FindID(rules, id), meta)
      ensures (forall r :: r in rules ==> r.ruleID != id) ==> emit
      ensures id != "" && UniqueIDs(rules) ==> DecidedByRule(lib, rules, id, meta, emit)
    {
      if active.None? || id == "" {
        return true;
      }
      var index := active.value;
      SearchMeans(lib, index, rules, order, id, meta);
      for i := 0 to |order|
        invariant FindInOrder(index, order, id) == FindInOrder(index, order[i..], id)
      {
        assert order[i..][1..] == order[i + 1..];
        var decided := DecideByFunction(lib, Bucket(index, order[i]), id, meta);
        if decided.Some? {
          return decided.value;
        }
      }
      assert order[|order|..] == [];
      return true;
    }
  }

  /** Whichever rule has the id decides: to emit, without post-call conditions or if they hold. */
  ghost predicate DecidedByRule(lib: Lib, rules: seq<Rule>, id: string, meta: string -> Arg, emit: bool) {
    forall r :: r in rules && r.ruleID == id ==> (emit <==> r.postCall == [] || Holds(lib, r.postCall, meta, r.logic))
  }

  lemma SearchMeans(lib: Lib, index: Index, rules: seq<Rule>, order: seq<string>, id: string, meta: string -> Arg)
    requires Indexes(index, rules) && Visits(order, index)
    ensures (forall r :: r in rules ==> r.ruleID != id) ==> FindInOrder(index, order, id).None?
    ensures UniqueIDs(rules) ==>
              && FindInOrder(index, order, id) == FindID(rules, id)
              && DecidedByRule(lib, rules, id, meta, Decision(lib, FindID(rules, id), meta))
  {
    if FindInOrder(index, order, id).Some? {
      FoundInRules(index, rules, order, id);
    }
    if UniqueIDs(rules) {
      PostCallAgreesWithScan(index, rules, order, id);
      FindIDIs(rules, id);
    }
  }

  lemma FoundInRules(index: Index, rules: seq<Rule>, order: seq<string>, id: string)
    requires Indexes(index, rules) && FindInOrder(index, order, id).Some?
    ensures exists r :: r in rules && r.ruleID == id
  {
    FindInOrderIs(index, order, id);
    var f :| f in order && FindInOrder(index, order, id) == FindID(Bucket(index, f), id);
    FindIDIs(Bucket(index, f), id);
    InFilter(rules, f, FindID(Bucket(index, f), id).value);
  }

  /** The inner loop, over the rules of one function. */
  method DecideByFunction(lib: Lib, bucket: seq<Rule>, id: string, meta: string -> Arg) returns (decided: Option<bool>)
    ensures decided == if FindID(bucket, id).Some? then Some(Verdict(lib, FindID(bucket, id).value, meta)) else None
  {
    for j := 0 to |bucket|
      invariant FindID(bucket, id) == FindID(bucket[j..], id)
    {
      assert bucket[j..][1..] == bucket[j + 1..];
      var r := bucket[j];
      if r.ruleID == id {
        if |r.postCall| == 0 {
          return Some(true);
        }
        var emit := EvalConditions(lib, r.postCall, meta, r.logic);
        return Some(emit);
      }
    }
    assert bucket[|bucket|..] == [];
    return None;
  }

  lemma IndexPush(index: Index, rules: seq<Rule>, r: Rule)
    requires Indexes(index, rules)
    ensures Indexes(index[r.functionName := Bucket(index, r.functionName) + [r]], rules + [r])
  {
    var index' := index[r.functionName := Bucket(index, r.functionName) + [r]];
    assert (rules + [r])[..|rules|] == rules;
    forall f
      ensures Bucket(index', f) == ForFunction(rules + [r], f)
    {
      assert Bucket(index, f) == ForFunction(rules, f);
    }
  }

  lemma EmptyIndexes(index: Index, rules: seq<Rule>)
    requires Indexes(index, rules)
    ensures index == map[] <==> rules == []
  {
    if rules != [] {
      var r := rules[|rules| - 1];
      assert Bucket(index, r.functionName) == ForFunction(rules, r.functionName);
    } else {
      forall f
        ensures f !in index
      {
        assert Bucket(index, f) == ForFunction(rules, f);
      }
    }
  }

  lemma BucketName(index: Index, rules: seq<Rule>, name: string, i: nat)
    requires Indexes(index, rules) && i < |Bucket(index, name)|
    ensures Bucket(index, name)[i].functionName == name
  {
    InFilter(rules, name, Bucket(index, name)[i]);
  }
}
