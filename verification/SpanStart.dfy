/** Starting a function span: which spans are recorded, with which settings, and what a span
    hands down to its children through the context. */
module SpanStart {
  import opened Options

  // ---- Contexts ----

  datatype Key =
    | TraceID | PageVisitID | ParentSpanID | FuncSpanOverride | SuppressChildren | FuncSpanPropagation
    | Other(name: string)

  datatype Propagation = Propagation(
    ruleID: string, captureArgs: bool, captureReturn: bool, argLimit: int, retLimit: int, depth: int)

  datatype Val = Str(s: string) | Flag(b: bool) | Prop(p: Propagation)

  datatype Ctx = Background | With(parent: Ctx, key: Key, val: Val)

  function Value(ctx: Ctx, key: Key): Option<Val> {
    match ctx
    case Background => None
    case With(parent, k, v) => if k == key then Some(v) else Value(parent, key)
  }

  function CurrentSpanID(ctx: Ctx): string {
    match Value(ctx, ParentSpanID)
    case Some(Str(s)) => s
    case _ => ""
  }

  function OverrideHeader(ctx: Ctx): string {
    match Value(ctx, FuncSpanOverride)
    case Some(Str(s)) => s
    case _ => ""
  }

  predicate Suppressed(ctx: Ctx) {
    Value(ctx, SuppressChildren) == Some(Flag(true))
  }

  /** The propagation a child would inherit: absent once its depth is used up. */
  function GetPropagation(ctx: Ctx): Option<Propagation> {
    match Value(ctx, FuncSpanPropagation)
    case Some(Prop(p)) => if p.depth > 0 then Some(p) else None
    case _ => None
  }

  // ---- Inputs of a span ----

  newtype byte = x: int | 0 <= x < 256

  /** Recorded text as the limits measure it. */
  type Bytes = seq<byte>

  datatype Config = Config(
    samplingEnabled: bool, sampleRate: real, captureArgs: bool, captureReturn: bool,
    argLimit: int, retLimit: int, parseJSON: bool, captureChildren: bool)

  datatype Override = Override(
    captureArgs: bool, captureReturn: bool, argLimitMB: int, retLimitMB: int, captureChildren: bool,
    sampleRate: real, samplingEnabled: bool, enabled: bool, parseJSON: bool)

  /** The entry of the .sailfish file that applies; every setting is optional. */
  datatype FileConfig = FileConfig(
    captureArgs: Option<bool>, captureReturn: Option<bool>, argLimitMB: Option<int>, retLimitMB: Option<int>,
    sampleRate: Option<real>, parseJSON: Option<bool>, captureChildren: Option<bool>,
    enableSampling: Option<bool>, captureSfVeritas: Option<bool>)

  /** What a rule lookup returns. */
  datatype RuleCapture = RuleCapture(
    ruleID: string, captureArgs: bool, captureReturn: bool, argLimitMB: int, returnLimitMB: int,
    propagate: bool, maxDepth: int, hasPostCall: bool)

  /** Three random draws, the span's fresh id, and the answers of the parts modelled elsewhere:
      header parsing, the .sailfish lookup, what a rule lookup would find, JSON expansion. */
  datatype Inputs = Inputs(
    cfg: Option<Config>, parse: string -> Option<Override>, file: Option<FileConfig>, rule: Option<RuleCapture>,
    overrideDraw: real, globalDraw: real, fileDraw: real,
    spanID: string, args: Bytes, expandJSON: Bytes -> Bytes)

  datatype Settings = Settings(
    captureArgs: bool, captureReturn: bool, argLimit: int, retLimit: int, parseJSON: bool, captureChildren: bool)

  datatype Span = Span(
    ctx: Ctx, noop: bool, spanID: string, parentSpanID: string, ruleID: string, hasPostCall: bool,
    argsJSON: Bytes, settings: Settings)

  /** The text `{}`. */
  const EMPTY_OBJECT: Bytes := ['{' as byte, '}' as byte]

  const DEFAULT_LIMIT := 1_048_576
  const NO_SETTINGS := Settings(false, false, 0, 0, false, false)

  function OverrideOf(ctx: Ctx, inp: Inputs): Option<Override> {
    if OverrideHeader(ctx) == "" then None else inp.parse(OverrideHeader(ctx))
  }

  // ---- Which spans are recorded ----

  predicate SampledOut(enabled: bool, rate: real, draw: real) {
    enabled && rate < 1.0 && draw >= rate
  }

  predicate OverrideRejects(oc: Override, draw: real) {
    !oc.enabled || (oc.samplingEnabled && oc.sampleRate == 0.0) || SampledOut(oc.samplingEnabled, oc.sampleRate, draw)
  }

  predicate FileRejects(fc: FileConfig, draw: real) {
    || fc.captureSfVeritas == Some(false)
    || (fc.sampleRate.Some? && SampledOut(fc.enableSampling != Some(false), fc.sampleRate.value, draw))
  }

  predicate Rejected(ctx: Ctx, inp: Inputs) {
    || Suppressed(ctx)
    || (OverrideOf(ctx, inp).Some? && OverrideRejects(OverrideOf(ctx, inp).value, inp.overrideDraw))
    || (inp.cfg.Some? && SampledOut(inp.cfg.value.samplingEnabled, inp.cfg.value.sampleRate, inp.globalDraw))
    || (inp.file.Some? && FileRejects(inp.file.value, inp.fileDraw))
  }

  // ---- Which layer decides ----

  /** What one source of settings says; `None` leaves the decision to lower layers. */
  datatype Layer = Layer(
    captureArgs: Option<bool>, captureReturn: Option<bool>, argLimit: Option<int>, retLimit: Option<int>,
    parseJSON: Option<bool>, captureChildren: Option<bool>)

  const SILENT := Layer(None, None, None, None, None, None)

  function Positive(n: int): Option<int> {
    if n > 0 then Some(n) else None
  }

  function MB(n: int): int {
    n * 1_048_576
  }

  function PositiveMB(n: int): Option<int> {
    if n > 0 then Some(MB(n)) else None
  }

  function OverrideLayer(oc: Option<Override>): Layer {
    match oc
    case None => SILENT
    case Some(o) =>
      Layer(Some(o.captureArgs), Some(o.captureReturn), PositiveMB(o.argLimitMB), PositiveMB(o.retLimitMB),
            Some(o.parseJSON), Some(o.captureChildren))
  }

  function Outgoing(ctx: Ctx, inp: Inputs): Option<Propagation> {
    match GetPropagation(ctx)
    case Some(p) => Some(p.(depth := p.depth - 1))
    case None =>
      if inp.rule.Some? && inp.rule.value.propagate && inp.rule.value.maxDepth > 0 then
        var r := inp.rule.value;
        var below := Under(RuleLayer(r), BelowRules(inp.cfg, inp.file));
        Some(Propagation(r.ruleID, r.captureArgs, r.captureReturn, below.argLimit, below.retLimit, r.maxDepth))
      else None
  }

  function PropagationLayer(p: Propagation): Layer {
    Layer(Some(p.captureArgs), Some(p.captureReturn), Positive(p.argLimit), Positive(p.retLimit), None, None)
  }

  function RuleLayer(r: RuleCapture): Layer {
    Layer(Some(r.captureArgs), Some(r.captureReturn), PositiveMB(r.argLimitMB), PositiveMB(r.returnLimitMB), None, None)
  }

  /** Inherited propagation, or else the rule found; children are captured while depth is left. */
  function DebugLayer(ctx: Ctx, inp: Inputs): Layer {
    var out := Outgoing(ctx, inp);
    var children := if out.Some? && out.value.depth > 0 then Some(true) else None;
    var rest :=
      match GetPropagation(ctx)
      case Some(p) => PropagationLayer(p)
      case None => if inp.rule.Some? then RuleLayer(inp.rule.value) else SILENT;
    rest.(captureChildren := children)
  }

  function FileLayer(file: Option<FileConfig>): Layer {
    match file
    case None => SILENT
    case Some(f) =>
      Layer(f.captureArgs, f.captureReturn,
            if f.argLimitMB.Some? then Some(MB(f.argLimitMB.value)) else None,
            if f.retLimitMB.Some? then Some(MB(f.retLimitMB.value)) else None,
            f.parseJSON, f.captureChildren)
  }

  function GlobalSettings(cfg: Option<Config>): Settings {
    Settings(cfg.None? || cfg.value.captureArgs,
             cfg.None? || cfg.value.captureReturn,
             if cfg.Some? then cfg.value.argLimit else DEFAULT_LIMIT,
             if cfg.Some? then cfg.value.retLimit else DEFAULT_LIMIT,
             cfg.Some? && cfg.value.parseJSON,
             cfg.None? || cfg.value.captureChildren)
  }

  /** `*o` where it is set, and `below` where it is not. */
  function Bool(o: Option<bool>, below: bool): bool {
    if o.Some? then o.value else below
  }

  function Int(o: Option<int>, below: int): int {
    if o.Some? then o.value else below
  }

  /** What the layer says, and for the rest what is said below it. */
  function Under(l: Layer, below: Settings): Settings {
    Settings(Bool(l.captureArgs, below.captureArgs), Bool(l.captureReturn, below.captureReturn),
             Int(l.argLimit, below.argLimit), Int(l.retLimit, below.retLimit),
             Bool(l.parseJSON, below.parseJSON), Bool(l.captureChildren, below.captureChildren))
  }

  /** Each setting as the highest-priority layer that sets it says: the override header, then
      the debug rule, then the .sailfish file, then the global configuration. */
  function Resolved(ctx: Ctx, inp: Inputs): Settings {
    Under(OverrideLayer(OverrideOf(ctx, inp)), Under(DebugLayer(ctx, inp), BelowRules(inp.cfg, inp.file)))
  }

  function BelowRules(cfg: Option<Config>, file: Option<FileConfig>): Settings {
    Under(FileLayer(file), GlobalSettings(cfg))
  }

  // ---- The span started ----

  /** Arguments survive only if captured and within a non-zero limit. */
  function ArgsJSON(s: Settings, inp: Inputs): Bytes {
    var kept :=
      if s.captureArgs && s.argLimit != 0 && (s.argLimit < 0 || |inp.args| <= s.argLimit) then inp.args
      else EMPTY_OBJECT;
    if s.parseJSON && s.captureArgs && kept != EMPTY_OBJECT then inp.expandJSON(kept) else kept
  }

  function ChildCtx(ctx: Ctx, inp: Inputs, captureChildren: bool, out: Option<Propagation>): Ctx {
    var c1 := With(ctx, ParentSpanID, Str(inp.spanID));
    var c2 := if captureChildren then c1 else With(c1, SuppressChildren, Flag(true));
    if out.Some? then With(c2, FuncSpanPropagation, Prop(out.value)) else c2
  }

  function NoopSpan(ctx: Ctx, inp: Inputs): Span {
    Span(With(ctx, ParentSpanID, Str(inp.spanID)), true, "", "", "", false, [], NO_SETTINGS)
  }

  function Started(ctx: Ctx, inp: Inputs): Span {
    if Rejected(ctx, inp) then NoopSpan(ctx, inp)
    else
      var s := Resolved(ctx, inp);
      Span(ChildCtx(ctx, inp, s.captureChildren, Outgoing(ctx, inp)), false, inp.spanID, CurrentSpanID(ctx),
           RuleOf(ctx, inp), GatedByRule(ctx, inp), ArgsJSON(s, inp), s)
  }

  /** An inherited rule, or else the rule found. */
  function RuleOf(ctx: Ctx, inp: Inputs): string {
    var inherited := GetPropagation(ctx);
    if inherited.Some? then inherited.value.ruleID else if inp.rule.Some? then inp.rule.value.ruleID else ""
  }

  /** Post-call conditions bind the span that matched the rule, not those that inherit it. */
  predicate GatedByRule(ctx: Ctx, inp: Inputs) {
    GetPropagation(ctx).None? && inp.rule.Some? && inp.rule.value.hasPostCall
  }

  /** The gates of `startSpanInternal`, in the order the code tries them. */
  method IsRejected(ctx: Ctx, inp: Inputs, oc: Option<Override>) returns (noop: bool)
    requires oc == OverrideOf(ctx, inp)
    ensures noop == Rejected(ctx, inp)
  {
    if Suppressed(ctx) {
      return true;
    }
    if oc.Some? && !oc.value.enabled {
      return true;
    }
    if oc.Some? {
      if oc.value.samplingEnabled && oc.value.sampleRate == 0.0 {
        return true;
      }
      if oc.value.samplingEnabled && oc.value.sampleRate < 1.0 {
        if inp.overrideDraw >= oc.value.sampleRate {
          return true;
        }
      }
    }
    if inp.cfg.Some? && inp.cfg.value.samplingEnabled && inp.cfg.value.sampleRate < 1.0 {
      if inp.globalDraw >= inp.cfg.value.sampleRate {
        return true;
      }
    }
    if inp.file.Some? {
      var fc := inp.file.value;
      if fc.captureSfVeritas.Some? && !fc.captureSfVeritas.value {
        return true;
      }
      var enableSampling := fc.enableSampling.None? || fc.enableSampling.value;
      if enableSampling && fc.sampleRate.Some? && fc.sampleRate.value < 1.0 {
        if inp.fileDraw >= fc.sampleRate.value {
          return true;
        }
      }
    }
    return false;
  }

  /** The global settings, overwritten by those of the .sailfish file. */
  method FileSettings(cfg: Option<Config>, file: Option<FileConfig>) returns (s: Settings)
    ensures s == BelowRules(cfg, file)
  {
    s := GlobalSettings(cfg);
    if file.Some? {
      var fc := file.value;
      FileUnder(fc, s);
      s := s.(captureArgs := Bool(fc.captureArgs, s.captureArgs));
      s := s.(captureReturn := Bool(fc.captureReturn, s.captureReturn));
      if fc.argLimitMB.Some? { s := s.(argLimit := MB(fc.argLimitMB.value)); }
      if fc.retLimitMB.Some? { s := s.(retLimit := MB(fc.retLimitMB.value)); }
      s := s.(parseJSON := Bool(fc.parseJSON, s.parseJSON));
      s := s.(captureChildren := Bool(fc.captureChildren, s.captureChildren));
    }
  }

  lemma FileUnder(fc: FileConfig, g: Settings)
    ensures Under(FileLayer(Some(fc)), g) ==
            Settings(Bool(fc.captureArgs, g.captureArgs), Bool(fc.captureReturn, g.captureReturn),
                     if fc.argLimitMB.Some? then MB(fc.argLimitMB.value) else g.argLimit,
                     if fc.retLimitMB.Some? then MB(fc.retLimitMB.value) else g.retLimit,
                     Bool(fc.parseJSON, g.parseJSON), Bool(fc.captureChildren, g.captureChildren))
  {}

  method InheritSettings(p: Propagation, below: Settings) returns (s: Settings)
    ensures s == Under(PropagationLayer(p), below)
  {
    s := below.(captureArgs := p.captureArgs, captureReturn := p.captureReturn);
    if p.argLimit > 0 { s := s.(argLimit := p.argLimit); }
    if p.retLimit > 0 { s := s.(retLimit := p.retLimit); }
  }

  method RuleSettings(rc: RuleCapture, below: Settings) returns (s: Settings)
    ensures s == Under(RuleLayer(rc), below)
  {
    s := below.(captureArgs := rc.captureArgs, captureReturn := rc.captureReturn);
    if rc.argLimitMB > 0 { s := s.(argLimit := MB(rc.argLimitMB)); }
    if rc.returnLimitMB > 0 { s := s.(retLimit := MB(rc.returnLimitMB)); }
  }

  /** Those settings, overwritten by the inherited propagation or by the rule found. */
  method DebugSettings(ctx: Ctx, inp: Inputs, below: Settings)
    returns (s: Settings, ruleID: string, hasPostCall: bool, push: Option<Propagation>)
    requires below == BelowRules(inp.cfg, inp.file)
    ensures s == Under(DebugLayer(ctx, inp), below) && push == Outgoing(ctx, inp)
    ensures ruleID == RuleOf(ctx, inp) && hasPostCall == GatedByRule(ctx, inp)
  {
    s := below;
    ruleID, hasPostCall, push := "", false, None;
    var prop := GetPropagation(ctx);
    if prop.Some? {
      ruleID := prop.value.ruleID;
      s := InheritSettings(prop.value, below);
      push := Some(prop.value.(depth := prop.value.depth - 1));
    } else if inp.rule.Some? {
      var rc := inp.rule.value;
      ruleID, hasPostCall := rc.ruleID, rc.hasPostCall;
      s := RuleSettings(rc, below);
      if rc.propagate && rc.maxDepth > 0 {
        push := Some(Propagation(rc.ruleID, rc.captureArgs, rc.captureReturn, s.argLimit, s.retLimit, rc.maxDepth));
      }
    }
    if push.Some? && push.value.depth > 0 {
      s := s.(captureChildren := true);
    }
  }

  method OverrideSettings(o: Override, below: Settings) returns (s: Settings)
    ensures s == Under(OverrideLayer(Some(o)), below)
  {
    OverrideUnder(o, below);
    s := below.(captureArgs := o.captureArgs, captureReturn := o.captureReturn);
    if o.argLimitMB > 0 { s := s.(argLimit := MB(o.argLimitMB)); }
    if o.retLimitMB > 0 { s := s.(retLimit := MB(o.retLimitMB)); }
    s := s.(parseJSON := o.parseJSON, captureChildren := o.captureChildren);
  }

  lemma OverrideUnder(o: Override, g: Settings)
    ensures Under(OverrideLayer(Some(o)), g) ==
            Settings(o.captureArgs, o.captureReturn,
                     if o.argLimitMB > 0 then MB(o.argLimitMB) else g.argLimit,
                     if o.retLimitMB > 0 then MB(o.retLimitMB) else g.retLimit,
                     o.parseJSON, o.captureChildren)
  {}

  /** The effective settings, overwritten layer by layer, lowest first. */
  method EffectiveSettings(ctx: Ctx, inp: Inputs, oc: Option<Override>)
    returns (s: Settings, ruleID: string, hasPostCall: bool, push: Option<Propagation>)
    requires oc == OverrideOf(ctx, inp)
    ensures s == Resolved(ctx, inp) && push == Outgoing(ctx, inp)
    ensures ruleID == RuleOf(ctx, inp) && hasPostCall == GatedByRule(ctx, inp)
  {
    s := FileSettings(inp.cfg, inp.file);
    s, ruleID, hasPostCall, push := DebugSettings(ctx, inp, s);
    if oc.Some? {
      s := OverrideSettings(oc.value, s);
    }
  }

  method StartSpan(ctx: Ctx, inp: Inputs) returns (span: Span)
    ensures span == Started(ctx, inp)
  {
    var oc: Option<Override> := None;
    if OverrideHeader(ctx) != "" {
      oc := inp.parse(OverrideHeader(ctx));
    }
    var noop := IsRejected(ctx, inp, oc);
    if noop {
      return NoopSpan(ctx, inp);
    }
    var s, ruleID, hasPostCall, push := EffectiveSettings(ctx, inp, oc);
    var argsJSON := inp.args;
    if !s.captureArgs || s.argLimit == 0 {
      argsJSON := EMPTY_OBJECT;
    } else if s.argLimit > 0 && |argsJSON| > s.argLimit {
      argsJSON := EMPTY_OBJECT;
    }
    if s.parseJSON && s.captureArgs && argsJSON != EMPTY_OBJECT {
      argsJSON := inp.expandJSON(argsJSON);
    }
    var spanCtx := With(ctx, ParentSpanID, Str(inp.spanID));
    if !s.captureChildren {
      spanCtx := With(spanCtx, SuppressChildren, Flag(true));
    }
    if push.Some? {
      spanCtx := With(spanCtx, FuncSpanPropagation, Prop(push.value));
    }
    span := Span(spanCtx, false, inp.spanID, CurrentSpanID(ctx), ruleID, hasPostCall, argsJSON, s);
  }

  /** What `End` does with a span: whether it is emitted, and with which return value. */
  datatype Emission = Dropped | Emitted(returned: Option<Bytes>)

  /** `value` is the formatted return value, absent for nil. */
  function End(s: Span, value: Option<Bytes>, postCallHolds: bool): Emission {
    if s.noop then Dropped
    else if s.hasPostCall && !postCallHolds then Dropped
    else Emitted(if s.settings.captureReturn && s.settings.retLimit > 0 then value else None)
  }

  // ---- What is recorded, and with what, in terms of the inputs ----

  /** The override header a context carries, if it parses. */
  function Header(ctx: Ctx, inp: Inputs): Option<Override> {
    match Value(ctx, FuncSpanOverride)
    case Some(Str(s)) => if s == "" then None else inp.parse(s)
    case _ => None
  }

  /** The propagation a context carries, unless it is used up. */
  function Inherited(ctx: Ctx): Option<Propagation> {
    match Value(ctx, FuncSpanPropagation)
    case Some(Prop(p)) => if 0 < p.depth then Some(p) else None
    case _ => None
  }

  /** A span is recorded exactly when its context is not suppressing, no source switches it off,
      and every source that samples, at a rate below 1, drew below its rate. */
  lemma RecordedIff(ctx: Ctx, inp: Inputs)
    ensures !Started(ctx, inp).noop <==>
            && Value(ctx, SuppressChildren) != Some(Flag(true))
            && (match Header(ctx, inp)
                case None => true
                case Some(o) =>
                  && o.enabled
                  && (o.samplingEnabled ==> o.sampleRate != 0.0)
                  && (o.samplingEnabled && o.sampleRate < 1.0 ==> inp.overrideDraw < o.sampleRate))
            && (match inp.cfg
                case None => true
                case Some(c) => c.samplingEnabled && c.sampleRate < 1.0 ==> inp.globalDraw < c.sampleRate)
            && (match inp.file
                case None => true
                case Some(f) =>
                  && f.captureSfVeritas != Some(false)
                  && (f.enableSampling != Some(false) && f.sampleRate.Some? && f.sampleRate.value < 1.0 ==>
                        inp.fileDraw < f.sampleRate.value))
  {}

  /** A span recorded at some draws is recorded at any smaller ones. */
  lemma SmallerDrawsRecord(ctx: Ctx, inp: Inputs, o: real, g: real, f: real)
    requires o <= inp.overrideDraw && g <= inp.globalDraw && f <= inp.fileDraw
    requires !Started(ctx, inp).noop
    ensures !Started(ctx, inp.(overrideDraw := o, globalDraw := g, fileDraw := f)).noop
  {
    RecordedIff(ctx, inp);
    RecordedIff(ctx, inp.(overrideDraw := o, globalDraw := g, fileDraw := f));
  }

  /** Rates of at least 1 never drop a span, and a global rate of 0 drops every one. */
  lemma SamplingExtremes(ctx: Ctx, inp: Inputs, o: real, g: real, f: real)
    requires 0.0 <= inp.globalDraw
    ensures (Header(ctx, inp).Some? ==> Header(ctx, inp).value.sampleRate >= 1.0)
            && (inp.cfg.Some? ==> inp.cfg.value.sampleRate >= 1.0)
            && (inp.file.Some? && inp.file.value.sampleRate.Some? ==> inp.file.value.sampleRate.value >= 1.0) ==>
              Started(ctx, inp).noop == Started(ctx, inp.(overrideDraw := o, globalDraw := g, fileDraw := f)).noop
    ensures inp.cfg.Some? && inp.cfg.value.samplingEnabled && inp.cfg.value.sampleRate == 0.0 ==>
              Started(ctx, inp).noop
  {
    RecordedIff(ctx, inp);
    RecordedIff(ctx, inp.(overrideDraw := o, globalDraw := g, fileDraw := f));
  }

  /** An override or a file rate of 0 drops every span as well. */
  lemma ZeroRatesDrop(ctx: Ctx, inp: Inputs)
    requires 0.0 <= inp.fileDraw
    ensures Header(ctx, inp).Some? && Header(ctx, inp).value.samplingEnabled && Header(ctx, inp).value.sampleRate == 0.0
            ==> Started(ctx, inp).noop
    ensures inp.file.Some? && inp.file.value.enableSampling != Some(false) && inp.file.value.sampleRate == Some(0.0)
            ==> Started(ctx, inp).noop
  {
    RecordedIff(ctx, inp);
  }

  /** Whether to capture: the override header decides, else the inherited rule, else the rule
      found, else the file where it is set, else the global configuration. */
  lemma CaptureDecided(ctx: Ctx, inp: Inputs)
    requires !Started(ctx, inp).noop
    ensures var s, o, p, r, f := Started(ctx, inp).settings, Header(ctx, inp), Inherited(ctx), inp.rule, inp.file;
            && s.captureArgs == (if o.Some? then o.value.captureArgs
                                 else if p.Some? then p.value.captureArgs
                                 else if r.Some? then r.value.captureArgs
                                 else if f.Some? && f.value.captureArgs.Some? then f.value.captureArgs.value
                                 else inp.cfg.Some? ==> inp.cfg.value.captureArgs)
            && s.captureReturn == (if o.Some? then o.value.captureReturn
                                   else if p.Some? then p.value.captureReturn
                                   else if r.Some? then r.value.captureReturn
                                   else if f.Some? && f.value.captureReturn.Some? then f.value.captureReturn.value
                                   else inp.cfg.Some? ==> inp.cfg.value.captureReturn)
  {}

  /** The limits below the debug rules: the file's where it sets one, else the global ones. */
  function FileArgLimit(inp: Inputs): int {
    if inp.file.Some? && inp.file.value.argLimitMB.Some? then inp.file.value.argLimitMB.value * 1_048_576
    else if inp.cfg.Some? then inp.cfg.value.argLimit else 1_048_576
  }

  function FileRetLimit(inp: Inputs): int {
    if inp.file.Some? && inp.file.value.retLimitMB.Some? then inp.file.value.retLimitMB.value * 1_048_576
    else if inp.cfg.Some? then inp.cfg.value.retLimit else 1_048_576
  }

  /** Limits: the same order, where a limit of an override, a rule or a propagation that is not
      positive leaves the decision to the next. */
  lemma LimitsDecided(ctx: Ctx, inp: Inputs)
    requires !Started(ctx, inp).noop
    ensures var s, o, p, r := Started(ctx, inp).settings, Header(ctx, inp), Inherited(ctx), inp.rule;
            && s.argLimit == (if o.Some? && o.value.argLimitMB > 0 then o.value.argLimitMB * 1_048_576
                              else if p.Some? && p.value.argLimit > 0 then p.value.argLimit
                              else if p.None? && r.Some? && r.value.argLimitMB > 0 then r.value.argLimitMB * 1_048_576
                              else FileArgLimit(inp))
            && s.retLimit == (if o.Some? && o.value.retLimitMB > 0 then o.value.retLimitMB * 1_048_576
                              else if p.Some? && p.value.retLimit > 0 then p.value.retLimit
                              else if p.None? && r.Some? && r.value.returnLimitMB > 0
                                then r.value.returnLimitMB * 1_048_576
                              else FileRetLimit(inp))
  {}

  /** Expanding JSON: the override, then the file, then the global configuration. */
  lemma ExpansionDecided(ctx: Ctx, inp: Inputs)
    requires !Started(ctx, inp).noop
    ensures var s, o, f := Started(ctx, inp).settings, Header(ctx, inp), inp.file;
            s.parseJSON == (if o.Some? then o.value.parseJSON
                            else if f.Some? && f.value.parseJSON.Some? then f.value.parseJSON.value
                            else inp.cfg.Some? && inp.cfg.value.parseJSON)
  {}

  /** Capturing children: the override, then a debug rule with depth left below this span, then
      the file, then the global configuration. */
  lemma ChildrenDecided(ctx: Ctx, inp: Inputs)
    requires !Started(ctx, inp).noop
    ensures var s, o, p, r, f := Started(ctx, inp).settings, Header(ctx, inp), Inherited(ctx), inp.rule, inp.file;
            var depthLeft := if p.Some? then p.value.depth > 1
                             else r.Some? && r.value.propagate && r.value.maxDepth > 0;
            s.captureChildren == (if o.Some? then o.value.captureChildren
                                  else if depthLeft then true
                                  else if f.Some? && f.value.captureChildren.Some? then f.value.captureChildren.value
                                  else inp.cfg.Some? ==> inp.cfg.value.captureChildren)
  {}

  /** What else is recorded: ids, the inherited rule or else the one found, and the arguments if
      they are captured within a limit that is not zero, expanded if wanted. */
  lemma SpanRecords(ctx: Ctx, inp: Inputs)
    requires !Started(ctx, inp).noop
    ensures var s := Started(ctx, inp);
            var kept := s.settings.captureArgs
                        && (s.settings.argLimit < 0 || 0 <= |inp.args| <= s.settings.argLimit != 0);
            && s.spanID == inp.spanID
            && s.parentSpanID == (match Value(ctx, ParentSpanID) case Some(Str(id)) => id case _ => "")
            && s.ruleID == (if Inherited(ctx).Some? then Inherited(ctx).value.ruleID
                            else if inp.rule.Some? then inp.rule.value.ruleID else "")
            && (s.hasPostCall <==> Inherited(ctx).None? && inp.rule.Some? && inp.rule.value.hasPostCall)
            && s.argsJSON == (if !kept || inp.args == EMPTY_OBJECT then EMPTY_OBJECT
                              else if s.settings.parseJSON then inp.expandJSON(inp.args) else inp.args)
  {}

  /** What the children's context holds: this span's id, suppression if children are not
      captured, the inherited propagation one deeper or that of a rule found, with the limits
      below the override, and everything else as it was. */
  lemma ContextHandedOn(ctx: Ctx, inp: Inputs, key: Key)
    ensures var s, p, r := Started(ctx, inp), Inherited(ctx), inp.rule;
            Value(s.ctx, key) ==
            match key
            case ParentSpanID => Some(Str(inp.spanID))
            case SuppressChildren =>
              if !s.noop && !s.settings.captureChildren then Some(Flag(true)) else Value(ctx, key)
            case FuncSpanPropagation =>
              if s.noop then Value(ctx, key)
              else if p.Some? then Some(Prop(p.value.(depth := p.value.depth - 1)))
              else if r.Some? && r.value.propagate && r.value.maxDepth > 0 then
                var argLimit := if r.value.argLimitMB > 0 then r.value.argLimitMB * 1_048_576 else FileArgLimit(inp);
                var retLimit := if r.value.returnLimitMB > 0 then r.value.returnLimitMB * 1_048_576 else FileRetLimit(inp);
                Some(Prop(Propagation(r.value.ruleID, r.value.captureArgs, r.value.captureReturn,
                                      argLimit, retLimit, r.value.maxDepth)))
              else Value(ctx, key)
            case _ => Value(ctx, key)
  {
    if Rejected(ctx, inp) {
      assert Started(ctx, inp).ctx == With(ctx, ParentSpanID, Str(inp.spanID));
    } else {
      ChildCtxValue(ctx, inp, Resolved(ctx, inp).captureChildren, Outgoing(ctx, inp), key);
    }
  }

  lemma ChildCtxValue(ctx: Ctx, inp: Inputs, captureChildren: bool, out: Option<Propagation>, key: Key)
    ensures Value(ChildCtx(ctx, inp, captureChildren, out), key) ==
            if key.FuncSpanPropagation? && out.Some? then Some(Prop(out.value))
            else if key.SuppressChildren? && !captureChildren then Some(Flag(true))
            else if key.ParentSpanID? then Some(Str(inp.spanID))
            else Value(ctx, key)
  {
    var c1 := With(ctx, ParentSpanID, Str(inp.spanID));
    var c2 := if captureChildren then c1 else With(c1, SuppressChildren, Flag(true));
    assert Value(c1, key) == if key.ParentSpanID? then Some(Str(inp.spanID)) else Value(ctx, key);
    assert Value(c2, key) == if key.SuppressChildren? && !captureChildren then Some(Flag(true)) else Value(c1, key);
  }

  // ---- Chains of spans ----

  /** The next call: bindings the program adds to the parent's context, then a span. */
  datatype Link = Link(bindings: seq<(Key, Val)>, inp: Inputs)

  function BindAll(ctx: Ctx, bindings: seq<(Key, Val)>): Ctx
    decreases |bindings|
  {
    if bindings == [] then ctx else BindAll(With(ctx, bindings[0].0, bindings[0].1), bindings[1..])
  }

  /** The program does not touch what spans hand down. */
  ghost predicate LeavesSpanKeys(links: seq<Link>) {
    forall l :: l in links ==> forall b :: b in l.bindings ==> b.0 != SuppressChildren && b.0 != FuncSpanPropagation
  }

  /** Each span is started from the context of the one before. */
  function Chain(ctx: Ctx, links: seq<Link>): (spans: seq<Span>)
    ensures |spans| == |links|
    decreases |links|
  {
    if links == [] then []
    else
      var s := Started(BindAll(ctx, links[0].bindings), links[0].inp);
      [s] + Chain(s.ctx, links[1..])
  }

  function LiveCount(spans: seq<Span>): nat {
    if spans == [] then 0 else (if spans[0].noop then 0 else 1) + LiveCount(spans[1..])
  }

  /** The propagation a context holds, used up or not. */
  function Held(ctx: Ctx): Option<Val> {
    Value(ctx, FuncSpanPropagation)
  }

  lemma {:induction false} BindAllKeeps(ctx: Ctx, bindings: seq<(Key, Val)>)
    requires forall b :: b in bindings ==> b.0 != SuppressChildren && b.0 != FuncSpanPropagation
    ensures Held(BindAll(ctx, bindings)) == Held(ctx)
    ensures Suppressed(BindAll(ctx, bindings)) == Suppressed(ctx)
    decreases |bindings|
  {
    if bindings != [] {
      BindAllKeeps(With(ctx, bindings[0].0, bindings[0].1), bindings[1..]);
    }
  }

  /** Below a suppressing span every descendant is a no-op, and ends without emitting. */
  lemma {:induction false} SuppressionIsSticky(ctx: Ctx, links: seq<Link>)
    requires Suppressed(ctx) && LeavesSpanKeys(links)
    ensures forall i :: 0 <= i < |links| ==> Chain(ctx, links)[i].noop
    ensures forall i, value, holds :: 0 <= i < |links| ==> End(Chain(ctx, links)[i], value, holds) == Dropped
    decreases |links|
  {
    if links != [] {
      assert links[0] in links;
      BindAllKeeps(ctx, links[0].bindings);
      var s := Started(BindAll(ctx, links[0].bindings), links[0].inp);
      SuppressionIsSticky(s.ctx, links[1..]);
      assert Chain(ctx, links) == [s] + Chain(s.ctx, links[1..]);
    }
  }

  /** A recorded span suppresses its children exactly when its settings say so; and without an
      override header never while it has depth left to hand down. */
  lemma SuppressesIff(ctx: Ctx, inp: Inputs)
    requires !Rejected(ctx, inp)
    ensures Suppressed(Started(ctx, inp).ctx) <==> !Started(ctx, inp).settings.captureChildren
    ensures OverrideOf(ctx, inp).None? && Outgoing(ctx, inp).Some? && Outgoing(ctx, inp).value.depth > 0 ==>
              !Suppressed(Started(ctx, inp).ctx)
  {
    ChildCtxHolds(ctx, inp, Resolved(ctx, inp).captureChildren, Outgoing(ctx, inp));
  }

  /** What a child context answers for the keys spans hand down. */
  lemma ChildCtxHolds(ctx: Ctx, inp: Inputs, captureChildren: bool, out: Option<Propagation>)
    ensures var c := ChildCtx(ctx, inp, captureChildren, out);
            && Value(c, SuppressChildren) == (if captureChildren then Value(ctx, SuppressChildren) else Some(Flag(true)))
            && Held(c) == (if out.Some? then Some(Prop(out.value)) else Held(ctx))
            && CurrentSpanID(c) == inp.spanID
  {
    var c1 := With(ctx, ParentSpanID, Str(inp.spanID));
    var c2 := if captureChildren then c1 else With(c1, SuppressChildren, Flag(true));
    assert Value(c1, SuppressChildren) == Value(ctx, SuppressChildren) && Held(c1) == Held(ctx);
    assert Held(c2) == Held(ctx) && Value(c2, ParentSpanID) == Some(Str(inp.spanID));
  }

  /** What a span hands down when its parent context holds `p` with depth d. */
  lemma HandsDown(p: Propagation, d: nat, ctx: Ctx, inp: Inputs)
    requires Held(ctx) == Some(Prop(p.(depth := d)))
    ensures var s := Started(ctx, inp);
            && (s.noop ==> Held(s.ctx) == Held(ctx))
            && (!s.noop && d > 0 ==> Held(s.ctx) == Some(Prop(p.(depth := d - 1))))
  {
    if !Rejected(ctx, inp) {
      ChildCtxHolds(ctx, inp, Resolved(ctx, inp).captureChildren, Outgoing(ctx, inp));
    }
  }

  /** What descendant i of the chain inherits when `p` is handed down with depth d: spans that
      are not recorded use up no depth; the first d recorded ones take the rule and its
      capture flags; recorded descendant d+1 inherits nothing and looks for a rule afresh. */
  ghost predicate InheritsExactly(p: Propagation, d: nat, ctx: Ctx, links: seq<Link>, i: nat)
    requires i < |links|
  {
    var spans := Chain(ctx, links);
    var s, inp := spans[i], links[i].inp;
    var live := LiveCount(spans[..i]);
    !s.noop ==>
      && (live < d ==>
            && s.ruleID == p.ruleID && !s.hasPostCall
            && (OverrideOf(ParentCtx(ctx, links, i), inp).None? ==>
                  s.settings.captureArgs == p.captureArgs && s.settings.captureReturn == p.captureReturn))
      && (live == d ==>
            && GetPropagation(ParentCtx(ctx, links, i)).None?
            && s.ruleID == (if inp.rule.Some? then inp.rule.value.ruleID else ""))
  }

  /** The context span i of the chain is started from. */
  function ParentCtx(ctx: Ctx, links: seq<Link>, i: nat): Ctx
    requires i < |links|
  {
    BindAll(if i == 0 then ctx else Chain(ctx, links)[i - 1].ctx, links[i].bindings)
  }

  lemma ParentCtxTail(ctx: Ctx, links: seq<Link>, i: nat)
    requires 0 < i < |links|
    ensures var s := Started(BindAll(ctx, links[0].bindings), links[0].inp);
            && Chain(ctx, links)[i] == Chain(s.ctx, links[1..])[i - 1]
            && ParentCtx(ctx, links, i) == ParentCtx(s.ctx, links[1..], i - 1)
  {}

  lemma LiveCountTail(ctx: Ctx, links: seq<Link>, i: nat)
    requires 0 < i < |links|
    ensures var s := Started(BindAll(ctx, links[0].bindings), links[0].inp);
            LiveCount(Chain(ctx, links)[..i]) ==
            (if s.noop then 0 else 1) + LiveCount(Chain(s.ctx, links[1..])[..i - 1])
  {
    var s := Started(BindAll(ctx, links[0].bindings), links[0].inp);
    var spans, rest := Chain(ctx, links), Chain(s.ctx, links[1..]);
    assert spans == [s] + rest;
    assert spans[..i] == [s] + rest[..i - 1];
    assert spans[..i][0] == s && spans[..i][1..] == rest[..i - 1];
  }

  /** The first span of a chain whose context holds `p` with depth d. */
  lemma FirstInherits(p: Propagation, d: nat, ctx: Ctx, links: seq<Link>)
    requires links != [] && Held(BindAll(ctx, links[0].bindings)) == Some(Prop(p.(depth := d)))
    ensures InheritsExactly(p, d, ctx, links, 0)
  {
    assert Chain(ctx, links)[..0] == [];
    assert Chain(ctx, links)[0] == Started(BindAll(ctx, links[0].bindings), links[0].inp);
  }

  /** From the chain below the first span to the whole chain. */
  lemma LaterInherits(p: Propagation, d: nat, below: nat, ctx: Ctx, links: seq<Link>, i: nat)
    requires 0 < i < |links|
    requires var s := Started(BindAll(ctx, links[0].bindings), links[0].inp);
             && d == below + (if s.noop then 0 else 1)
             && InheritsExactly(p, below, s.ctx, links[1..], i - 1)
    ensures InheritsExactly(p, d, ctx, links, i)
  {
    ParentCtxTail(ctx, links, i);
    LiveCountTail(ctx, links, i);
  }

  lemma {:induction false} DepthFrom(p: Propagation, d: nat, ctx: Ctx, links: seq<Link>, i: nat)
    requires LeavesSpanKeys(links) && i < |links|
    requires Held(ctx) == Some(Prop(p.(depth := d)))
    ensures InheritsExactly(p, d, ctx, links, i)
    decreases |links|
  {
    assert links[0] in links;
    BindAllKeeps(ctx, links[0].bindings);
    var from := BindAll(ctx, links[0].bindings);
    var s := Started(from, links[0].inp);
    HandsDown(p, d, from, links[0].inp);
    if i == 0 {
      FirstInherits(p, d, ctx, links);
    } else if s.noop || d > 0 {
      var below := if s.noop then d else d - 1;
      DepthFrom(p, below, s.ctx, links[1..], i - 1);
      LaterInherits(p, d, below, ctx, links, i);
    } else {
      LiveCountTail(ctx, links, i);
    }
  }

  /** Propagation depth is exact along every chain of spans below one that matched a rule with
      depth d, whatever the program binds in between and however the spans are configured. */
  lemma PropagationDepthExact(ctx: Ctx, inp: Inputs, links: seq<Link>, i: nat)
    requires !Rejected(ctx, inp) && GetPropagation(ctx).None?
    requires inp.rule.Some? && inp.rule.value.propagate && inp.rule.value.maxDepth > 0
    requires LeavesSpanKeys(links) && i < |links|
    ensures Started(ctx, inp).ruleID == inp.rule.value.ruleID
    ensures InheritsExactly(Outgoing(ctx, inp).value, inp.rule.value.maxDepth, Started(ctx, inp).ctx, links, i)
    ensures Outgoing(ctx, inp).value.ruleID == inp.rule.value.ruleID
    ensures Outgoing(ctx, inp).value.captureArgs == inp.rule.value.captureArgs
    ensures Outgoing(ctx, inp).value.captureReturn == inp.rule.value.captureReturn
  {
    ChildCtxHolds(ctx, inp, Resolved(ctx, inp).captureChildren, Outgoing(ctx, inp));
    DepthFrom(Outgoing(ctx, inp).value, inp.rule.value.maxDepth, Started(ctx, inp).ctx, links, i);
  }
}
