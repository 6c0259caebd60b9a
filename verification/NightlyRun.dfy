/** The program that a scheduler is handed (scripts/cwk_nightly_pipeline.py:26-41, 78-95, 192-210
    and 447-680), called with nothing but a configuration, a run name and a date: how it loads
    `.env`, what its command line defaults to, and which value each setting ends up with.

    Python values are written as values of a configuration file; `None` is `JNull`. */
module NightlyRun {
  import opened Wrappers
  import opened RuntimeContract

  // ---------------------------------------------------------------------
  // The environment
  // ---------------------------------------------------------------------

  /** Puts each assignment of `.env` into the process, unless the name is there already. */
  method LoadLocalEnv(lines: seq<Line>, environ: Env) returns (loaded: Env)
    ensures loaded == FirstWins(lines) + environ
  {
    loaded := environ;
    var i := 0;
    while i < |lines|
      invariant 0 <= i <= |lines| && loaded == FirstWins(lines[..i]) + environ
    {
      assert lines[..i + 1][..i] == lines[..i];
      if lines[i].name !in loaded { loaded := loaded[lines[i].name := lines[i].value]; }
      i := i + 1;
    }
    assert lines[..i] == lines;
  }

  function OsGet(env: Env, n: Name, fallback: Json): Json { if n in env then JText(env[n]) else fallback }

  function EnvBool(env: Env, n: Name): Option<bool> { if n in env then Some(env[n].on) else None }

  // ---------------------------------------------------------------------
  // The command line
  // ---------------------------------------------------------------------

  /** The default of an option; none is given on the command line. */
  datatype ArgDefault = Absent | Flag | FromEnv(name: Name) | IntFromEnv(name: Name) | FirstOf(names: seq<Name>)

  function FirstText(names: seq<Name>, env: Env): Json
    decreases |names|
  {
    if names == [] then JText(EMPTY_TEXT)
    else if names[0] in env && !env[names[0]].empty then JText(env[names[0]])
    else FirstText(names[1..], env)
  }

  /** No result when building the parser fails. */
  function ArgValue(d: ArgDefault, env: Env): Option<Json> {
    match d
    case Absent => Some(JNull)
    case Flag => Some(JBool(false))
    case FromEnv(n) => Some(OsGet(env, n, JNull))
    case IntFromEnv(n) =>
      if n !in env || env[n].empty then Some(JNull)
      else if env[n].number.Some? then Some(JInt(env[n].number.value)) else None
    case FirstOf(names) => Some(FirstText(names, env))
  }

  // ---------------------------------------------------------------------
  // The statements of `main`
  // ---------------------------------------------------------------------

  datatype Expr = Const(v: Json) | Get(k: nat) | Or(a: Expr, b: Expr) | And(a: Expr, b: Expr)

  type Args = map<nat, Json>

  function Eval(e: Expr, args: Args): Json {
    match e
    case Const(v) => v
    case Get(k) => if k in args then args[k] else JNull
    case Or(a, b) => var x := Eval(a, args); if JsonTruth(x) then x else Eval(b, args)
    case And(a, b) => var x := Eval(a, args); if JsonTruth(x) then Eval(b, args) else x
  }

  function PyInt(v: Json): Option<int> {
    match v
    case JText(t) => t.number
    case JInt(n) => Some(n)
    case JBool(b) => Some(if b then 1 else 0)
    case JReal(whole, _) => whole
    case JNull => None
    case JOther(_) => None
  }

  function ConfigGet(cfg: Config, k: nat, fallback: Json): Json { if Known(k) in cfg then cfg[Known(k)] else fallback }

  /** The option's value unless it is missing or empty, else the configuration's, else the
      fallback. */
  function ConfigValue(arg: Json, cfg: Config, k: nat, fallback: Json): Json {
    if arg != JNull && arg != JText(EMPTY_TEXT) && arg != JOther(false) then arg else ConfigGet(cfg, k, fallback)
  }

  datatype Statement =
    | Scalar(convert: bool, env: Option<Name>, fallback: Expr)
    | FirstScalar(names: seq<Name>)
    | Toggle(name: Name, fallback: Expr)
    | DocdbToggle(name: Name)

  function Execute(st: Statement, arg: Json, k: nat, cfg: Config, env: Env, args: Args): Option<Json> {
    match st
    case Scalar(convert, name, fallback) =>
      var v := ConfigValue(arg, cfg, k, if name.Some? then OsGet(env, name.value, Eval(fallback, args)) else Eval(fallback, args));
      if !convert then Some(v) else if PyInt(v).Some? then Some(JInt(PyInt(v).value)) else None
    case FirstScalar(names) => Some(ConfigValue(arg, cfg, k, FirstText(names, env)))
    case Toggle(name, fallback) =>
      if arg != JNull then Some(arg)
      else if EnvBool(env, name).Some? then Some(JBool(EnvBool(env, name).value))
      else Some(JBool(JsonTruth(ConfigGet(cfg, k, Eval(fallback, args)))))
    case DocdbToggle(name) =>
      if JsonTruth(arg) then Some(arg)
      else Some(JBool(JsonTruth(ConfigGet(cfg, k, JBool(EnvBool(env, name) == Some(true))))))
  }

  datatype Row = Row(arg: ArgDefault, statement: Statement)

  // How the rows of the program look.
  function NumberRow(k: nat, n: int): Row { Row(Absent, Scalar(true, Some(Var(k)), Const(JInt(n)))) }
  function TextRow(k: nat, v: Json): Row { Row(Absent, Scalar(false, Some(Var(k)), Const(v))) }
  function ModelRow(k: nat, t: Text): Row { Row(FromEnv(Var(k)), Scalar(false, Some(Var(k)), Const(JText(t)))) }
  function LimitRow(k: nat, n: int): Row { Row(IntFromEnv(Var(k)), Scalar(true, Some(Var(k)), Const(JInt(n)))) }
  function ToggleRow(k: nat, e: Expr): Row { Row(Absent, Toggle(Var(k), e)) }

  const NO_TEXT: Json := JText(EMPTY_TEXT)

  function Literal(text: nat, kind: Kind): Json { JText(Word(text, kind)) }

  /** The settings in the order of the contract's table; `PROGRAM` is the order of `main`. */
  function SourceRows(): seq<Row> {
    [ Row(FirstOf([Var(0), AppKeyFallback]), FirstScalar([Var(0), AppKeyFallback])),
      TextRow(1, NO_TEXT), TextRow(2, NO_TEXT), TextRow(3, NO_TEXT), NumberRow(4, 60), NumberRow(5, 15),
      ToggleRow(6, Const(JBool(true))), NumberRow(7, 20), NumberRow(8, 20), TextRow(9, Literal(9, Path)),
      ToggleRow(10, Const(JBool(true))), NumberRow(11, 2), NumberRow(12, 6), TextRow(13, Literal(13, Url)),
      TextRow(14, NO_TEXT), NumberRow(15, 30), TextRow(16, Literal(16, Path)) ]
  }

  function ProcessingRows(): seq<Row> {
    [ ToggleRow(17, Const(JBool(false))), ToggleRow(18, Const(JBool(false))),
      ModelRow(19, Word(19, Ident)), ModelRow(20, Word(20, Ident)), ModelRow(21, Word(21, Ident)),
      LimitRow(22, 4), LimitRow(23, 120),
      Row(Flag, DocdbToggle(Var(24))), TextRow(25, JNull), TextRow(26, JNull) ]
  }

  function DerivedRows(): seq<Row> {
    [ ToggleRow(27, Const(JBool(false))), ToggleRow(28, Get(27)), ToggleRow(29, Or(Get(27), Get(28))),
      ToggleRow(30, And(Get(24), Or(Get(28), Get(29)))), Row(Absent, Scalar(false, None, Get(16))) ]
  }

  function WikiRows(): seq<Row> {
    [ TextRow(32, Literal(32, Ident)), TextRow(33, Literal(33, Ident)), NumberRow(34, 80), NumberRow(35, 1),
      ToggleRow(36, Const(JBool(false))), NumberRow(37, 180), ToggleRow(38, Const(JBool(false))),
      ToggleRow(39, Const(JBool(false))), ToggleRow(40, Const(JBool(false))) ]
  }

  function Rows(): seq<Row> { SourceRows() + ProcessingRows() + DerivedRows() + WikiRows() }

  function Range(from: nat, to: nat): (r: seq<nat>)
    requires from <= to
    ensures |r| == to - from && forall i :: 0 <= i < |r| ==> r[i] == from + i
  {
    seq(to - from, i requires 0 <= i < to - from => from + i)
  }

  /** The order in which `main` assigns the settings. */
  function Program(): seq<nat> {
    [1] + Range(4, 11) + [12, 11, 0, 2, 3] + Range(13, 16) + [25, 26, 16, 24] + Range(17, 24) + Range(27, 41)
  }

  /** One assignment; the lookback is checked on the way. */
  function Assign(k: nat, cfg: Config, env: Env, args: Args): Option<Json>
    requires k < |Rows()|
  {
    var arg := ArgValue(Rows()[k].arg, env);
    if arg.None? then None
    else
      var v := Execute(Rows()[k].statement, arg.value, k, cfg, env, args);
      if v.None? || (k == LOOKBACK_DAYS && !(v.value.JInt? && 0 <= v.value.n <= 31)) then None else v
  }

  ghost predicate OrderOk(order: seq<nat>) { forall i :: 0 <= i < |order| ==> order[i] < |Rows()| }

  /** The assignments in order; no result when one of them ends the program. */
  ghost function Assigned(order: seq<nat>, cfg: Config, env: Env): Option<Args>
    requires OrderOk(order)
    decreases |order|
  {
    if order == [] then Some(map[])
    else
      var before, k := Assigned(order[..|order| - 1], cfg, env), order[|order| - 1];
      if before.None? then None
      else
        var v := Assign(k, cfg, env, before.value);
        if v.None? then None else Some(before.value[k := v.value])
  }

  /** The values with which the run starts to collect: the paused paths end it, and so does a
      missing key. */
  ghost function Nightly(cfg: Config, env: Env): Option<Args>
    requires OrderOk(Program())
  {
    var args := Assigned(Program(), cfg, env);
    if args.None? then None
    else if JsonTruth(Eval(Get(CLOUD_FIRST), args.value)) || JsonTruth(Eval(Get(PUBLISH_CATALOG), args.value)) then None
    else if !JsonTruth(Eval(Get(APP_KEY), args.value)) then None
    else args
  }

  // ---------------------------------------------------------------------
  // Row by row against the contract's table
  // ---------------------------------------------------------------------

  predicate DefaultFits(e: Expr, d: Default) {
    match d
    case Lit(v) => e.Const? && (match v case VInt(n) => e.v == JInt(n) case VBool(b) => e.v == JBool(b)
                                case VText(t) => e.v == JText(t) || (t.empty && e.v == JNull))
    case Copy(k) => e == Get(k)
    case Either(ks) => (|ks| == 1 && e == Get(ks[0])) || (|ks| == 2 && e == Or(Get(ks[0]), Get(ks[1])))
    case BothOf(k, ks) => |ks| == 2 && e == And(Get(k), Or(Get(ks[0]), Get(ks[1])))
  }

  predicate IsText(kind: Kind) { kind != IntKind && kind != BoolKind && kind != Secret }

  /** A row of the program has the shape that its class in the table stands for. */
  predicate RowFits(s: Setting, r: Row) {
    match s.precedence
    case EnvConfigDefault => |s.names| == 1 && r.arg == Absent && r.statement.Toggle? && r.statement.name == s.names[0] && DefaultFits(r.statement.fallback, s.default)
    case DocdbSwitch => |s.names| == 1 && r == Row(Flag, DocdbToggle(s.names[0]))
    case ConfigOnly => IsText(s.kind) && s.default.Copy? && r == Row(Absent, Scalar(false, None, Get(s.default.k)))
    case EnvFirst =>
      if s.kind == Secret then s.default == Lit(VText(EMPTY_TEXT)) && r == Row(FirstOf(s.names), FirstScalar(s.names))
      else
        && |s.names| == 1 && r.statement.Scalar? && s.default.Lit? && r.statement.env == Some(s.names[0]) && r.statement.fallback.Const?
        && (if s.kind == IntKind then s.default.v.VInt? && r == Row(IntFromEnv(s.names[0]), Scalar(true, Some(s.names[0]), Const(JInt(s.default.v.n))))
            else IsText(s.kind) && s.default.v.VText? && r == Row(FromEnv(s.names[0]), Scalar(false, Some(s.names[0]), Const(JText(s.default.v.t)))))
    case ConfigEnvDefault =>
      && |s.names| == 1 && r.arg == Absent && r.statement.Scalar? && r.statement.env == Some(s.names[0])
      && r.statement.convert == (s.kind == IntKind) && DefaultFits(r.statement.fallback, s.default) && s.default.Lit?
      && (if s.kind == IntKind then s.default.v.VInt? else IsText(s.kind) && s.default.v.VText?)
  }

  lemma SourceRowsFit(k: nat)
    requires k < 17
    ensures |SourceRows()| == 17 == |SourceSettings()| && RowFits(SourceSettings()[k], SourceRows()[k])
  {
  }

  lemma ProcessingRowsFit(k: nat)
    requires k < 10
    ensures |ProcessingRows()| == 10 == |ProcessingSettings()| && RowFits(ProcessingSettings()[k], ProcessingRows()[k])
  {
  }

  lemma DerivedRowsFit(k: nat)
    requires k < 5
    ensures |DerivedRows()| == 5 == |DerivedSettings()| && RowFits(DerivedSettings()[k], DerivedRows()[k])
  {
  }

  lemma WikiRowsFit(k: nat)
    requires k < 9
    ensures |WikiRows()| == 9 == |WikiSettings()| && RowFits(WikiSettings()[k], WikiRows()[k])
  {
  }

  /** Every row of the program has the shape that the contract's table gives it. */
  lemma RowsFit(k: nat)
    requires k < 41
    ensures |Rows()| == 41 == |NightlyTable()| && RowFits(NightlyTable()[k], Rows()[k])
  {
    SourceRowsFit(if k < 17 then k else 0);
    ProcessingRowsFit(if 17 <= k < 27 then k - 17 else 0);
    DerivedRowsFit(if 27 <= k < 32 then k - 27 else 0);
    WikiRowsFit(if 32 <= k then k - 32 else 0);
    hide RowFits, SourceRows, ProcessingRows, DerivedRows, WikiRows, SourceSettings, ProcessingSettings, DerivedSettings, WikiSettings;
    Joined(SourceRows(), ProcessingRows(), DerivedRows(), WikiRows(), k);
    Joined(SourceSettings(), ProcessingSettings(), DerivedSettings(), WikiSettings(), k);
  }

  lemma Joined<T>(a: seq<T>, b: seq<T>, c: seq<T>, d: seq<T>, k: nat)
    requires k < |a| + |b| + |c| + |d|
    ensures (a + b + c + d)[k] == if k < |a| then a[k] else if k < |a| + |b| then b[k - |a|]
                                  else if k < |a| + |b| + |c| then c[k - |a| - |b|] else d[k - |a| - |b| - |c|]
  {
  }

  // ---------------------------------------------------------------------
  // When the two resolve a setting differently
  // ---------------------------------------------------------------------

  /** The program holds exactly the value that the contract was made from. */
  predicate Same(v: Value, j: Json) { match v case VInt(n) => j == JInt(n) case VBool(b) => j == JBool(b) case VText(t) => j == JText(t) }

  predicate NullInConfig(k: nat, cfg: Config) { Known(k) in cfg && cfg[Known(k)] == JNull }

  predicate SetInEnv(n: Name, env: Env) { n in env && !env[n].empty }

  /** A row and a default decide where the two part: at a null of the configuration, which the
      wizard reads as the empty text; at a missing value whose default is `None`; and at a
      variable that is set to nothing, which the wizard takes for unset but which stands before
      the program's own default. */
  predicate Parts(s: Setting, r: Row, k: nat, cfg: Config, env: Env) {
    match s.precedence
    case ConfigEnvDefault =>
      IsText(s.kind) && |s.names| == 1 && r.statement.Scalar? &&
      (if Known(k) in cfg then cfg[Known(k)] == JNull else s.names[0] !in env && r.statement.fallback == Const(JNull))
    case EnvFirst =>
      IsText(s.kind) && |s.names| == 1 && s.default.Lit? && !SetInEnv(s.names[0], env) &&
      (if Known(k) in cfg then cfg[Known(k)] == JNull else s.names[0] in env && Truth(s.default.v))
    case _ => false
  }

  /** The program ends when a limit's variable is set to nothing and nothing else sets it. */
  predicate Aborts(s: Setting, k: nat, cfg: Config, env: Env) {
    s.precedence == EnvFirst && s.kind == IntKind && |s.names| == 1 && Known(k) !in cfg && s.names[0] in env && env[s.names[0]].empty
  }

  lemma FirstTextIsFirstSet(names: seq<Name>, env: Env)
    ensures FirstText(names, env) == match FirstSet(names, env) case None => JText(EMPTY_TEXT) case Some(n) => if n in env then JText(env[n]) else JText(EMPTY_TEXT)
    ensures FirstSet(names, env).Some? ==> FirstSet(names, env).value in env && !env[FirstSet(names, env).value].empty
    decreases |names|
  {
    if names != [] { FirstTextIsFirstSet(names[1..], env); }
  }

  // One lemma per class.

  lemma ToggleAgrees(s: Setting, r: Row, k: nat, cfg: Config, env: Env, shell: Env, settings: seq<Value>, args: Args)
    requires SettingOk(s, |settings|) && RowFits(s, r) && s.precedence == EnvConfigDefault
    requires JsonTruth(Eval(r.statement.fallback, args)) == Truth(DefaultValue(s.default, settings))
    ensures ArgValue(r.arg, env) == Some(JNull)
    ensures var pick, v := ResolveOne(s, k, cfg, env, shell, settings), Execute(r.statement, JNull, k, cfg, env, args);
            pick.Some? && pick.value.value.VBool? && v == Some(JBool(pick.value.value.b))
  {
  }

  lemma DocdbAgrees(s: Setting, r: Row, k: nat, cfg: Config, env: Env, shell: Env, settings: seq<Value>, args: Args)
    requires SettingOk(s, |settings|) && RowFits(s, r) && s.precedence == DocdbSwitch
    ensures ArgValue(r.arg, env) == Some(JBool(false))
    ensures var pick, v := ResolveOne(s, k, cfg, env, shell, settings), Execute(r.statement, JBool(false), k, cfg, env, args);
            pick.Some? && pick.value.value.VBool? && v == Some(JBool(pick.value.value.b))
  {
  }

  lemma AnyOfFew(ks: seq<nat>, settings: seq<Value>)
    requires forall i :: 0 <= i < |ks| ==> ks[i] < |settings|
    ensures |ks| == 1 ==> (AnyTrue(ks, settings) <==> Truth(settings[ks[0]]))
    ensures |ks| == 2 ==> (AnyTrue(ks, settings) <==> Truth(settings[ks[0]]) || Truth(settings[ks[1]]))
  {
  }

  lemma DefaultsAgree(e: Expr, d: Default, settings: seq<Value>, args: Args)
    requires DefaultOk(d, |settings|) && DefaultFits(e, d)
    requires forall i :: 0 <= i < |Refs(d)| ==> Refs(d)[i] in args && JsonTruth(args[Refs(d)[i]]) == Truth(settings[Refs(d)[i]])
    ensures JsonTruth(Eval(e, args)) == Truth(DefaultValue(d, settings))
  {
    match d {
      case Lit(_) =>
      case Copy(k) => assert Refs(d)[0] == k;
      case Either(ks) =>
        assert Refs(d) == ks && Refs(d)[0] == ks[0];
        if |ks| == 2 { assert Refs(d)[1] == ks[1]; }
        AnyOfFew(ks, settings);
      case BothOf(k, ks) =>
        assert Refs(d)[0] == k && Refs(d)[1] == ks[0] && Refs(d)[2] == ks[1];
        AnyOfFew(ks, settings);
        assert Eval(e.b, args) == (if JsonTruth(args[ks[0]]) then args[ks[0]] else args[ks[1]]);
    }
  }

  /** What the two hold for one setting, given what they hold for the settings it refers to. */
  predicate Agrees(v: Value, j: Json, parts: bool) { if parts then !Same(v, j) else Same(v, j) }

  lemma NumberAgrees(s: Setting, r: Row, k: nat, cfg: Config, env: Env, shell: Env, settings: seq<Value>, args: Args)
    requires SettingOk(s, |settings|) && RowFits(s, r) && s.precedence == ConfigEnvDefault && s.kind == IntKind
    requires ResolveOne(s, k, cfg, env, shell, settings).Some?
    ensures ArgValue(r.arg, env) == Some(JNull)
    ensures var v := Execute(r.statement, JNull, k, cfg, env, args);
            v.Some? && Same(ResolveOne(s, k, cfg, env, shell, settings).value.value, v.value)
  {
  }

  lemma LimitAgrees(s: Setting, r: Row, k: nat, cfg: Config, env: Env, shell: Env, settings: seq<Value>, args: Args)
    requires SettingOk(s, |settings|) && RowFits(s, r) && s.precedence == EnvFirst && s.kind == IntKind
    requires ResolveOne(s, k, cfg, env, shell, settings).Some?
    ensures ArgValue(r.arg, env).Some?
    ensures var v := Execute(r.statement, ArgValue(r.arg, env).value, k, cfg, env, args);
            && (v.None? <==> Aborts(s, k, cfg, env))
            && (v.Some? ==> Same(ResolveOne(s, k, cfg, env, shell, settings).value.value, v.value))
  {
    assert s.names == [s.names[0]];
    assert FirstSet(s.names[1..], env) == None;
  }

  lemma TextAgrees(s: Setting, r: Row, k: nat, cfg: Config, env: Env, shell: Env, settings: seq<Value>, args: Args)
    requires SettingOk(s, |settings|) && RowFits(s, r) && s.precedence == ConfigEnvDefault && s.kind != IntKind
    requires ResolveOne(s, k, cfg, env, shell, settings).Some?
    ensures ArgValue(r.arg, env) == Some(JNull)
    ensures var v, w := Execute(r.statement, JNull, k, cfg, env, args), ResolveOne(s, k, cfg, env, shell, settings).value.value;
            v.Some? && Agrees(w, v.value, Parts(s, r, k, cfg, env)) && JsonTruth(v.value) == Truth(w)
  {
  }

  lemma ModelAgrees(s: Setting, r: Row, k: nat, cfg: Config, env: Env, shell: Env, settings: seq<Value>, args: Args)
    requires SettingOk(s, |settings|) && RowFits(s, r) && s.precedence == EnvFirst && IsText(s.kind)
    requires ResolveOne(s, k, cfg, env, shell, settings).Some?
    ensures ArgValue(r.arg, env).Some?
    ensures var v, w := Execute(r.statement, ArgValue(r.arg, env).value, k, cfg, env, args), ResolveOne(s, k, cfg, env, shell, settings).value.value;
            v.Some? && Agrees(w, v.value, Parts(s, r, k, cfg, env))
  {
    assert s.names == [s.names[0]];
    assert FirstSet(s.names[1..], env) == None;
  }

  /** The key is never taken from the configuration: a text there is refused unless empty. */
  lemma KeyAgrees(s: Setting, r: Row, k: nat, cfg: Config, env: Env, shell: Env, settings: seq<Value>, args: Args)
    requires SettingOk(s, |settings|) && RowFits(s, r) && s.precedence == EnvFirst && s.kind == Secret
    requires ResolveOne(s, k, cfg, env, shell, settings).Some?
    requires !(Known(k) in cfg && cfg[Known(k)].JText? && !cfg[Known(k)].t.empty)
    ensures ArgValue(r.arg, env).Some?
    ensures var v, w := Execute(r.statement, ArgValue(r.arg, env).value, k, cfg, env, args), ResolveOne(s, k, cfg, env, shell, settings).value.value;
            v.Some? && Same(w, v.value) && (Truth(w) <==> FirstSet(s.names, env).Some?)
  {
    FirstTextIsFirstSet(s.names, env);
  }

  lemma CopyAgrees(s: Setting, r: Row, k: nat, cfg: Config, env: Env, shell: Env, settings: seq<Value>, args: Args, parts: bool)
    requires SettingOk(s, |settings|) && RowFits(s, r) && s.precedence == ConfigOnly
    requires ResolveOne(s, k, cfg, env, shell, settings).Some?
    requires s.default.k in args && s.default.k < |settings| && Agrees(settings[s.default.k], args[s.default.k], parts)
    requires JsonTruth(args[s.default.k]) == Truth(settings[s.default.k])
    ensures ArgValue(r.arg, env) == Some(JNull)
    ensures var v, w := Execute(r.statement, JNull, k, cfg, env, args), ResolveOne(s, k, cfg, env, shell, settings).value.value;
            && v.Some? && Agrees(w, v.value, if Known(k) in cfg then cfg[Known(k)] == JNull else parts)
            && JsonTruth(v.value) == Truth(w)
  {
    assert Refs(s.default) == [s.default.k];
  }

  // ---------------------------------------------------------------------
  // The whole program
  // ---------------------------------------------------------------------

  const MIRROR_ROOT: nat := 16
  const WIKI_MIRROR_ROOT: nat := 31

  /** The models are the only texts whose option reads the environment. */
  predicate IsModel(k: nat) { 19 <= k <= 21 }

  predicate Diverges(k: nat, cfg: Config, env: Env)
    requires k < |NightlyTable()| && k < |Rows()| && MIRROR_ROOT < |NightlyTable()| && MIRROR_ROOT < |Rows()|
  {
    if k == WIKI_MIRROR_ROOT then
      if Known(k) in cfg then cfg[Known(k)] == JNull else Parts(NightlyTable()[MIRROR_ROOT], Rows()[MIRROR_ROOT], MIRROR_ROOT, cfg, env)
    else Parts(NightlyTable()[k], Rows()[k], k, cfg, env)
  }

  /** What the program holds for setting `k`, against the wizard's value. */
  predicate Kept(k: nat, cfg: Config, env: Env, v: Value, j: Json)
    requires k < |NightlyTable()| && k < |Rows()| && MIRROR_ROOT < |NightlyTable()| && MIRROR_ROOT < |Rows()|
  {
    && Agrees(v, j, Diverges(k, cfg, env))
    && (!IsModel(k) ==> JsonTruth(j) == Truth(v))
    && (k == APP_KEY ==> (Truth(v) <==> FirstSet([Var(0), AppKeyFallback], env).Some?))
  }

  /** What is special in the table: the one path that follows another, the one secret, the three
      models, and which settings others refer to. */
  predicate SpecialOk(s: Setting, k: nat) {
    && (s.precedence == ConfigOnly <==> k == WIKI_MIRROR_ROOT)
    && (k == WIKI_MIRROR_ROOT ==> s.default == Copy(MIRROR_ROOT))
    && (s.precedence == EnvFirst && s.kind == Secret <==> k == APP_KEY)
    && (k == APP_KEY ==> s.names == [Var(0), AppKeyFallback])
    && (s.precedence == EnvFirst && IsText(s.kind) <==> IsModel(k))
    && (forall i :: 0 <= i < |Refs(s.default)| ==> Refs(s.default)[i] in {MIRROR_ROOT, 24, 27, 28, 29})
  }

  lemma SourceSpecial(k: nat)
    requires k < 17
    ensures |SourceSettings()| == 17 && SpecialOk(SourceSettings()[k], k)
  {
  }

  lemma ProcessingSpecial(k: nat)
    requires k < 10
    ensures |ProcessingSettings()| == 10 && SpecialOk(ProcessingSettings()[k], k + 17)
  {
  }

  lemma DerivedSpecial(k: nat)
    requires k < 5
    ensures |DerivedSettings()| == 5 && SpecialOk(DerivedSettings()[k], k + 27)
  {
    assert Refs(Either([27])) == [27] && Refs(Either([27, 28])) == [27, 28] && Refs(BothOf(24, [28, 29])) == [24, 28, 29];
  }

  lemma WikiSpecial(k: nat)
    requires k < 9
    ensures |WikiSettings()| == 9 && SpecialOk(WikiSettings()[k], k + 32)
  {
  }

  lemma TableSpecial(k: nat)
    requires k < 41
    ensures |NightlyTable()| == 41 && SpecialOk(NightlyTable()[k], k)
  {
    SourceSpecial(if k < 17 then k else 0);
    ProcessingSpecial(if 17 <= k < 27 then k - 17 else 0);
    DerivedSpecial(if 27 <= k < 32 then k - 27 else 0);
    WikiSpecial(if 32 <= k then k - 32 else 0);
    hide SpecialOk, SourceSettings, ProcessingSettings, DerivedSettings, WikiSettings;
    Joined(SourceSettings(), ProcessingSettings(), DerivedSettings(), WikiSettings(), k);
  }

  lemma {:induction false} ResolvedPrefix(t: seq<Setting>, n: nat, k: nat, cfg: Config, env: Env, shell: Env)
    requires TableOk(t) && k <= n <= |t| && Resolved(t, n, cfg, env, shell).Some?
    ensures Resolved(t, k, cfg, env, shell) == Some(Resolved(t, n, cfg, env, shell).value[..k])
    decreases n
  {
    hide ResolveOne;
    if k < n {
      ResolvedPrefix(t, n - 1, k, cfg, env, shell);
      assert Resolved(t, n, cfg, env, shell).value[..n - 1] == Resolved(t, n - 1, cfg, env, shell).value;
      assert Resolved(t, n, cfg, env, shell).value[..n - 1][..k] == Resolved(t, n, cfg, env, shell).value[..k];
    } else {
      assert Resolved(t, n, cfg, env, shell).value[..k] == Resolved(t, n, cfg, env, shell).value;
    }
  }

  /** The wizard resolved the whole table, refused no key and saw a legal lookback. */
  ghost predicate WizardOk(cfg: Config, env: Env, shell: Env, vs: seq<Value>) {
    && TableOk(NightlyTable()) && |NightlyTable()| == 41 == |Rows()| == |vs|
    && Resolved(NightlyTable(), 41, cfg, env, shell).Some?
    && vs == Values(Resolved(NightlyTable(), 41, cfg, env, shell).value)
    && !(Known(APP_KEY) in cfg && cfg[Known(APP_KEY)].JText? && !cfg[Known(APP_KEY)].t.empty)
    && vs[LOOKBACK_DAYS].VInt? && 0 <= vs[LOOKBACK_DAYS].n <= 31
  }

  lemma OneSetting(k: nat, cfg: Config, env: Env, shell: Env, vs: seq<Value>)
    requires WizardOk(cfg, env, shell, vs) && k < 41
    ensures SettingOk(NightlyTable()[k], |vs[..k]|)
    ensures ResolveOne(NightlyTable()[k], k, cfg, env, shell, vs[..k]).Some?
    ensures ResolveOne(NightlyTable()[k], k, cfg, env, shell, vs[..k]).value.value == vs[k]
  {
    hide ResolveOne;
    var t, picks := NightlyTable(), Resolved(NightlyTable(), 41, cfg, env, shell).value;
    PickAt(t, 41, k, cfg, env, shell);
    ResolvedPrefix(t, 41, k, cfg, env, shell);
    assert Values(picks[..k]) == Values(picks)[..k];
  }

  ghost predicate RefsKept(k: nat, cfg: Config, env: Env, vs: seq<Value>, args: Args)
    requires k < |NightlyTable()| == |Rows()| == |vs| == 41
  {
    forall i :: 0 <= i < |Refs(NightlyTable()[k].default)| ==>
      var r := Refs(NightlyTable()[k].default)[i];
      r in args && r < 41 && Kept(r, cfg, env, vs[r], args[r])
  }

  /** What one assignment of the program does, against the wizard's value. */
  ghost predicate Matches(k: nat, s: Setting, r: Row, cfg: Config, env: Env, w: Value, args: Args)
    requires k < |NightlyTable()| && k < |Rows()| && MIRROR_ROOT < |NightlyTable()| && MIRROR_ROOT < |Rows()|
  {
    ArgValue(r.arg, env).Some? &&
    var v := Execute(r.statement, ArgValue(r.arg, env).value, k, cfg, env, args);
    (v.None? <==> Aborts(s, k, cfg, env)) && (v.Some? ==> Kept(k, cfg, env, w, v.value))
  }

  ghost predicate Ready(k: nat, s: Setting, r: Row, cfg: Config, env: Env, shell: Env, vs: seq<Value>) {
    && |NightlyTable()| == 41 == |Rows()| == |vs| && k < 41 && s == NightlyTable()[k] && r == Rows()[k]
    && SettingOk(s, |vs[..k]|) && RowFits(s, r) && SpecialOk(s, k)
    && ResolveOne(s, k, cfg, env, shell, vs[..k]).Some? && ResolveOne(s, k, cfg, env, shell, vs[..k]).value.value == vs[k]
  }

  lemma SwitchMatches(k: nat, s: Setting, r: Row, cfg: Config, env: Env, shell: Env, vs: seq<Value>, args: Args)
    requires Ready(k, s, r, cfg, env, shell, vs) && RefsKept(k, cfg, env, vs, args)
    requires s.precedence == EnvConfigDefault || s.precedence == DocdbSwitch
    ensures Matches(k, s, r, cfg, env, vs[k], args)
  {
    hide NightlyTable, Rows, ResolveOne, Execute, ArgValue;
    if s.precedence == EnvConfigDefault { ToggleAssigned(k, s, r, cfg, env, shell, vs, args); } else { DocdbAgrees(s, r, k, cfg, env, shell, vs[..k], args); }
  }

  lemma CopyMatches(k: nat, s: Setting, r: Row, cfg: Config, env: Env, shell: Env, vs: seq<Value>, args: Args)
    requires Ready(k, s, r, cfg, env, shell, vs) && RefsKept(k, cfg, env, vs, args) && s.precedence == ConfigOnly
    ensures Matches(k, s, r, cfg, env, vs[k], args)
  {
    hide NightlyTable, Rows, ResolveOne, Execute, ArgValue, RowFits, Diverges, Agrees;
    CopyAssigned(k, s, r, cfg, env, shell, vs, args);
  }

  lemma ScalarMatches(k: nat, s: Setting, r: Row, cfg: Config, env: Env, shell: Env, vs: seq<Value>, args: Args)
    requires Ready(k, s, r, cfg, env, shell, vs) && s.precedence == ConfigEnvDefault
    ensures Matches(k, s, r, cfg, env, vs[k], args)
  {
    hide NightlyTable, Rows, ResolveOne, Execute, ArgValue, RowFits;
    if s.kind == IntKind {
      NumberAgrees(s, r, k, cfg, env, shell, vs[..k], args);
      NumbersAreTrue(vs[k], Execute(r.statement, JNull, k, cfg, env, args).value);
    } else {
      TextAgrees(s, r, k, cfg, env, shell, vs[..k], args);
    }
  }

  lemma NumbersAreTrue(v: Value, j: Json)
    requires Same(v, j)
    ensures JsonTruth(j) == Truth(v)
  {
  }

  lemma FirstMatches(k: nat, s: Setting, r: Row, cfg: Config, env: Env, shell: Env, vs: seq<Value>, args: Args)
    requires Ready(k, s, r, cfg, env, shell, vs) && s.precedence == EnvFirst
    requires !(Known(APP_KEY) in cfg && cfg[Known(APP_KEY)].JText? && !cfg[Known(APP_KEY)].t.empty)
    ensures Matches(k, s, r, cfg, env, vs[k], args)
  {
    hide NightlyTable, Rows, ResolveOne, Execute, ArgValue, RowFits;
    if s.kind == IntKind {
      LimitAgrees(s, r, k, cfg, env, shell, vs[..k], args);
      var v := Execute(r.statement, ArgValue(r.arg, env).value, k, cfg, env, args);
      if v.Some? { NumbersAreTrue(vs[k], v.value); }
    } else if s.kind == Secret {
      KeyAgrees(s, r, k, cfg, env, shell, vs[..k], args);
      NumbersAreTrue(vs[k], Execute(r.statement, ArgValue(r.arg, env).value, k, cfg, env, args).value);
    } else {
      FirstKind(s, r);
      ModelAgrees(s, r, k, cfg, env, shell, vs[..k], args);
    }
  }

  /** One assignment of the program, against one setting of the wizard. */
  lemma AssignAgrees(k: nat, cfg: Config, env: Env, shell: Env, vs: seq<Value>, args: Args)
    requires WizardOk(cfg, env, shell, vs) && k < 41 && RefsKept(k, cfg, env, vs, args)
    ensures Assign(k, cfg, env, args).None? <==> Aborts(NightlyTable()[k], k, cfg, env)
    ensures Assign(k, cfg, env, args).Some? ==> Kept(k, cfg, env, vs[k], Assign(k, cfg, env, args).value)
  {
    var s, r := NightlyTable()[k], Rows()[k];
    OneSetting(k, cfg, env, shell, vs);
    RowsFit(k);
    TableSpecial(k);
    LookbackOk(k, cfg, env, shell, vs);
    KeyIsNotConfigured(cfg, env, shell, vs);
    hide NightlyTable, Rows, WizardOk, ResolveOne, RowFits, Execute, Resolved, SpecialOk, SettingOk, RefsKept, Matches;
    if s.precedence == EnvConfigDefault || s.precedence == DocdbSwitch { SwitchMatches(k, s, r, cfg, env, shell, vs, args); }
    else if s.precedence == ConfigOnly { CopyMatches(k, s, r, cfg, env, shell, vs, args); }
    else if s.precedence == ConfigEnvDefault { ScalarMatches(k, s, r, cfg, env, shell, vs, args); }
    else { FirstMatches(k, s, r, cfg, env, shell, vs, args); }
    MatchIsAssigned(k, s, r, cfg, env, vs, args);
  }

  lemma MatchIsAssigned(k: nat, s: Setting, r: Row, cfg: Config, env: Env, vs: seq<Value>, args: Args)
    requires |NightlyTable()| == 41 == |Rows()| == |vs| && k < 41 && s == NightlyTable()[k] && r == Rows()[k]
    requires Matches(k, s, r, cfg, env, vs[k], args) && SpecialOk(s, k)
    requires k == LOOKBACK_DAYS ==> vs[k].VInt? && 0 <= vs[k].n <= 31 && !Diverges(k, cfg, env)
    ensures Assign(k, cfg, env, args).None? <==> Aborts(s, k, cfg, env)
    ensures Assign(k, cfg, env, args).Some? ==> Kept(k, cfg, env, vs[k], Assign(k, cfg, env, args).value)
  {
    hide NightlyTable, Rows, Execute, ArgValue, Diverges, Aborts;
  }

  lemma KeyIsNotConfigured(cfg: Config, env: Env, shell: Env, vs: seq<Value>)
    requires WizardOk(cfg, env, shell, vs)
    ensures !(Known(APP_KEY) in cfg && cfg[Known(APP_KEY)].JText? && !cfg[Known(APP_KEY)].t.empty)
  {
  }

  lemma FirstKind(s: Setting, r: Row)
    requires RowFits(s, r) && s.precedence == EnvFirst && s.kind != IntKind && s.kind != Secret
    ensures IsText(s.kind)
  {
  }

  lemma LookbackOk(k: nat, cfg: Config, env: Env, shell: Env, vs: seq<Value>)
    requires WizardOk(cfg, env, shell, vs) && k < 41
    ensures k == LOOKBACK_DAYS ==> vs[k].VInt? && 0 <= vs[k].n <= 31 && !Diverges(k, cfg, env)
  {
    if k == LOOKBACK_DAYS { DivergesAt(k, cfg, env); }
  }

  lemma ToggleAssigned(k: nat, s: Setting, r: Row, cfg: Config, env: Env, shell: Env, vs: seq<Value>, args: Args)
    requires |NightlyTable()| == 41 == |Rows()| == |vs| && k < 41 && s == NightlyTable()[k] && r == Rows()[k]
    requires SettingOk(s, |vs[..k]|) && RowFits(s, r) && s.precedence == EnvConfigDefault && SpecialOk(s, k)
    requires RefsKept(k, cfg, env, vs, args)
    ensures ArgValue(r.arg, env) == Some(JNull)
    ensures var pick, v := ResolveOne(s, k, cfg, env, shell, vs[..k]), Execute(r.statement, JNull, k, cfg, env, args);
            pick.Some? && pick.value.value.VBool? && v == Some(JBool(pick.value.value.b))
  {
    hide NightlyTable, Rows, ResolveOne, Execute;
    forall i | 0 <= i < |Refs(s.default)| ensures Refs(s.default)[i] in args && JsonTruth(args[Refs(s.default)[i]]) == Truth(vs[..k][Refs(s.default)[i]]) {
      assert Kept(Refs(s.default)[i], cfg, env, vs[Refs(s.default)[i]], args[Refs(s.default)[i]]);
    }
    DefaultsAgree(r.statement.fallback, s.default, vs[..k], args);
    ToggleAgrees(s, r, k, cfg, env, shell, vs[..k], args);
  }

  lemma CopyAssigned(k: nat, s: Setting, r: Row, cfg: Config, env: Env, shell: Env, vs: seq<Value>, args: Args)
    requires |NightlyTable()| == 41 == |Rows()| == |vs| && k < 41 && s == NightlyTable()[k] && r == Rows()[k]
    requires SettingOk(s, |vs[..k]|) && RowFits(s, r) && s.precedence == ConfigOnly && SpecialOk(s, k)
    requires RefsKept(k, cfg, env, vs, args) && ResolveOne(s, k, cfg, env, shell, vs[..k]).Some?
    ensures ArgValue(r.arg, env) == Some(JNull) && k == WIKI_MIRROR_ROOT
    ensures var v, w := Execute(r.statement, JNull, k, cfg, env, args), ResolveOne(s, k, cfg, env, shell, vs[..k]).value.value;
            v.Some? && Agrees(w, v.value, Diverges(k, cfg, env)) && JsonTruth(v.value) == Truth(w)
  {
    hide NightlyTable, Rows, ResolveOne, Execute;
    assert Refs(s.default) == [MIRROR_ROOT] && Refs(s.default)[0] == MIRROR_ROOT;
    assert Kept(MIRROR_ROOT, cfg, env, vs[MIRROR_ROOT], args[MIRROR_ROOT]);
    CopyAgrees(s, r, k, cfg, env, shell, vs[..k], args, Diverges(MIRROR_ROOT, cfg, env));
  }

  /** Settings that a default refers to are assigned before. */
  ghost predicate DependenciesFirst(order: seq<nat>) {
    |NightlyTable()| == 41 &&
    forall i :: 0 <= i < |order| ==>
      order[i] < 41 && forall j :: 0 <= j < |Refs(NightlyTable()[order[i]].default)| ==> Refs(NightlyTable()[order[i]].default)[j] in order[..i]
  }

  ghost predicate SomeoneAborts(order: seq<nat>, cfg: Config, env: Env) {
    exists i :: 0 <= i < |order| && order[i] < |NightlyTable()| && Aborts(NightlyTable()[order[i]], order[i], cfg, env)
  }

  lemma {:induction false} RunAgrees(order: seq<nat>, cfg: Config, env: Env, shell: Env, vs: seq<Value>)
    requires WizardOk(cfg, env, shell, vs) && DependenciesFirst(order) && OrderOk(order)
    ensures Assigned(order, cfg, env).None? <==> SomeoneAborts(order, cfg, env)
    ensures Assigned(order, cfg, env).Some? ==>
              forall k :: k in order ==> k in Assigned(order, cfg, env).value && Kept(k, cfg, env, vs[k], Assigned(order, cfg, env).value[k])
    decreases |order|
  {
    hide NightlyTable, Rows, WizardOk, Kept, Assign, Aborts;
    if order != [] {
      var rest, k := order[..|order| - 1], order[|order| - 1];
      RestOfOrder(order);
      WizardSizes(cfg, env, shell, vs);
      RunAgrees(rest, cfg, env, shell, vs);
      LastAborts(order, cfg, env);
      var before := Assigned(rest, cfg, env);
      if before.Some? {
        LastRefs(order, cfg, env, vs, before.value);
        AssignAgrees(k, cfg, env, shell, vs, before.value);
      }
    }
  }

  lemma WizardSizes(cfg: Config, env: Env, shell: Env, vs: seq<Value>)
    requires WizardOk(cfg, env, shell, vs)
    ensures |NightlyTable()| == 41 == |Rows()| == |vs|
  {
  }

  lemma RestOfOrder(order: seq<nat>)
    requires DependenciesFirst(order) && OrderOk(order) && order != []
    ensures DependenciesFirst(order[..|order| - 1]) && OrderOk(order[..|order| - 1])
    ensures forall k :: k in order <==> k in order[..|order| - 1] || k == order[|order| - 1]
    ensures order[|order| - 1] < 41
  {
    hide NightlyTable, Rows, Refs;
    var rest := order[..|order| - 1];
    assert order == rest + [order[|order| - 1]];
    assert forall i :: 0 <= i < |rest| ==> rest[i] == order[i] && rest[..i] == order[..i];
  }

  lemma LastAborts(order: seq<nat>, cfg: Config, env: Env)
    requires order != [] && order[|order| - 1] < |NightlyTable()|
    ensures SomeoneAborts(order, cfg, env) <==>
              SomeoneAborts(order[..|order| - 1], cfg, env) || Aborts(NightlyTable()[order[|order| - 1]], order[|order| - 1], cfg, env)
  {
    hide NightlyTable, Aborts;
    var rest := order[..|order| - 1];
    assert forall i :: 0 <= i < |rest| ==> rest[i] == order[i];
    if SomeoneAborts(rest, cfg, env) {
      var i :| 0 <= i < |rest| && rest[i] < |NightlyTable()| && Aborts(NightlyTable()[rest[i]], rest[i], cfg, env);
      assert Aborts(NightlyTable()[order[i]], order[i], cfg, env);
    }
    if SomeoneAborts(order, cfg, env) {
      var i :| 0 <= i < |order| && order[i] < |NightlyTable()| && Aborts(NightlyTable()[order[i]], order[i], cfg, env);
      if i < |rest| { assert Aborts(NightlyTable()[rest[i]], rest[i], cfg, env); }
    }
  }

  lemma LastRefs(order: seq<nat>, cfg: Config, env: Env, vs: seq<Value>, args: Args)
    requires DependenciesFirst(order) && order != [] && |Rows()| == 41 == |vs| && order[|order| - 1] < 41
    requires forall k :: k in order[..|order| - 1] ==> k < 41 && k in args && Kept(k, cfg, env, vs[k], args[k])
    ensures RefsKept(order[|order| - 1], cfg, env, vs, args)
  {
    hide NightlyTable, Rows, Refs, Kept;
  }

  // The order of `main`.

  lemma RangeHas(from: nat, to: nat, k: nat)
    requires from <= to
    ensures k in Range(from, to) <==> from <= k < to
  {
    if from <= k < to { assert Range(from, to)[k - from] == k; }
  }

  lemma ProgramMembers(k: nat)
    ensures k in Program() <==> k < 41
  {
    RangeHas(4, 11, k);
    RangeHas(13, 16, k);
    RangeHas(17, 24, k);
    RangeHas(27, 41, k);
  }

  lemma ProgramPlaces(i: nat)
    ensures |Program()| == 41 && Program()[18] == MIRROR_ROOT && Program()[19] == 24
    ensures 27 <= i < 41 ==> Program()[i] == i
    ensures i < 27 ==> Program()[i] !in {27, 28, 29, 30, 31}
  {
    var a, b := [1] + Range(4, 11) + [12, 11, 0, 2, 3] + Range(13, 16) + [25, 26, 16, 24] + Range(17, 24), Range(27, 41);
    assert |a| == 27 && Program() == a + b;
    if i < 27 {
      RangeHas(4, 11, a[i]);
      RangeHas(13, 16, a[i]);
      RangeHas(17, 24, a[i]);
      assert a[i] in a;
    }
  }

  /** Only the derived settings refer to others. */
  lemma WhoRefers(k: nat)
    requires k < 41
    ensures |NightlyTable()| == 41
    ensures k !in {28, 29, 30, 31} ==> Refs(NightlyTable()[k].default) == []
    ensures k == 28 ==> Refs(NightlyTable()[k].default) == [27]
    ensures k == 29 ==> Refs(NightlyTable()[k].default) == [27, 28]
    ensures k == 30 ==> Refs(NightlyTable()[k].default) == [24, 28, 29]
    ensures k == 31 ==> Refs(NightlyTable()[k].default) == [MIRROR_ROOT]
  {
    SourceRefs(if k < 17 then k else 0);
    ProcessingRefs(if 17 <= k < 27 then k - 17 else 0);
    WikiRefs(if 32 <= k then k - 32 else 0);
    DerivedSettingsOk();
    SourceSettingsOk();
    OtherSettingsOk();
    hide SourceSettings, ProcessingSettings, WikiSettings;
    Joined(SourceSettings(), ProcessingSettings(), DerivedSettings(), WikiSettings(), k);
  }

  lemma SourceRefs(k: nat)
    requires k < 17
    ensures |SourceSettings()| == 17 && Refs(SourceSettings()[k].default) == []
  {
  }

  lemma ProcessingRefs(k: nat)
    requires k < 10
    ensures |ProcessingSettings()| == 10 && Refs(ProcessingSettings()[k].default) == []
  {
  }

  lemma WikiRefs(k: nat)
    requires k < 9
    ensures |WikiSettings()| == 9 && Refs(WikiSettings()[k].default) == []
  {
  }

  lemma ProgramOk()
    ensures |NightlyTable()| == 41 == |Rows()| && OrderOk(Program()) && DependenciesFirst(Program())
  {
    RowsFit(0);
    hide NightlyTable, Rows;
    var order := Program();
    ProgramPlaces(0);
    forall i | 0 <= i < |order| ensures order[i] < 41 {
      assert order[i] in order;
      ProgramMembers(order[i]);
    }
    forall i, j | 0 <= i < |order| && 0 <= j < |Refs(NightlyTable()[order[i]].default)|
      ensures Refs(NightlyTable()[order[i]].default)[j] in order[..i]
    {
      RefIsEarlier(i, j);
    }
  }

  lemma RefIsEarlier(i: nat, j: nat)
    requires i < |Program()| && Program()[i] < 41 == |NightlyTable()| && j < |Refs(NightlyTable()[Program()[i]].default)|
    ensures Refs(NightlyTable()[Program()[i]].default)[j] in Program()[..i]
  {
    var order := Program();
    ProgramPlaces(i);
    ProgramPlaces(27);
    ProgramPlaces(28);
    ProgramPlaces(29);
    WhoRefers(order[i]);
    hide NightlyTable, Program;
    assert i >= 28;
    assert order[..i][18] == MIRROR_ROOT && order[..i][19] == 24 && order[..i][27] == 27;
    if i > 28 { assert order[..i][28] == 28; }
    if i > 29 { assert order[..i][29] == 29; }
  }

  // ---------------------------------------------------------------------
  // What a handoff promises about the night
  // ---------------------------------------------------------------------

  /** The limits' variables, set to nothing and not overruled, end the program. */
  predicate LimitIsBlank(cfg: Config, env: Env) {
    exists k :: 22 <= k <= 23 && Known(k) !in cfg && Var(k) in env && env[Var(k)].empty
  }

  /** A key is given in the environment. */
  predicate KeyGiven(env: Env) { SetInEnv(Var(0), env) || SetInEnv(AppKeyFallback, env) }

  /** Where the two part, setting by setting: a null of the configuration for a text; the two
      publication ids when nobody sets them; and a model whose variable is set to nothing. */
  predicate PartsAt(k: nat, cfg: Config, env: Env) {
    if IsModel(k) then !SetInEnv(Var(k), env) && (if Known(k) in cfg then cfg[Known(k)] == JNull else Var(k) in env)
    else if k == 25 || k == 26 then if Known(k) in cfg then cfg[Known(k)] == JNull else Var(k) !in env
    else if k == WIKI_MIRROR_ROOT then if Known(k) in cfg then cfg[Known(k)] == JNull else NullInConfig(MIRROR_ROOT, cfg)
    else k in {1, 2, 3, 9, 13, 14, 16, 32, 33} && NullInConfig(k, cfg)
  }

  lemma SourceParts(k: nat, cfg: Config, env: Env)
    requires k < 17
    ensures |SourceSettings()| == 17 == |SourceRows()| && (Parts(SourceSettings()[k], SourceRows()[k], k, cfg, env) <==> PartsAt(k, cfg, env))
    ensures !Aborts(SourceSettings()[k], k, cfg, env)
  {
    SourceLimits(k, cfg, env);
    hide Parts, PartsAt, Aborts;
    if k < 9 { SourcePartsLow(k, cfg, env); } else { SourcePartsHigh(k, cfg, env); }
  }

  lemma SourceLimits(k: nat, cfg: Config, env: Env)
    requires k < 17
    ensures |SourceSettings()| == 17 && !Aborts(SourceSettings()[k], k, cfg, env)
  {
  }

  lemma SourcePartsLow(k: nat, cfg: Config, env: Env)
    requires k < 9
    ensures |SourceSettings()| == 17 == |SourceRows()| && (Parts(SourceSettings()[k], SourceRows()[k], k, cfg, env) <==> PartsAt(k, cfg, env))
  {
  }

  lemma SourcePartsHigh(k: nat, cfg: Config, env: Env)
    requires 9 <= k < 17
    ensures |SourceSettings()| == 17 == |SourceRows()| && (Parts(SourceSettings()[k], SourceRows()[k], k, cfg, env) <==> PartsAt(k, cfg, env))
  {
  }

  lemma ProcessingParts(k: nat, cfg: Config, env: Env)
    requires k < 10
    ensures |ProcessingSettings()| == 10 == |ProcessingRows()|
    ensures Parts(ProcessingSettings()[k], ProcessingRows()[k], k + 17, cfg, env) <==> PartsAt(k + 17, cfg, env)
    ensures Aborts(ProcessingSettings()[k], k + 17, cfg, env) <==>
              (k == 5 || k == 6) && Known(k + 17) !in cfg && Var(k + 17) in env && env[Var(k + 17)].empty
  {
  }

  lemma DerivedParts(k: nat, cfg: Config, env: Env)
    requires k < 5
    ensures |DerivedSettings()| == 5 == |DerivedRows()| && !Parts(DerivedSettings()[k], DerivedRows()[k], k + 27, cfg, env)
    ensures !Aborts(DerivedSettings()[k], k + 27, cfg, env)
  {
  }

  lemma WikiParts(k: nat, cfg: Config, env: Env)
    requires k < 9
    ensures |WikiSettings()| == 9 == |WikiRows()| && (Parts(WikiSettings()[k], WikiRows()[k], k + 32, cfg, env) <==> PartsAt(k + 32, cfg, env))
    ensures !Aborts(WikiSettings()[k], k + 32, cfg, env)
  {
  }

  lemma WhereTheyPart(k: nat, cfg: Config, env: Env)
    requires k < 41
    ensures |NightlyTable()| == 41 == |Rows()|
    ensures Parts(NightlyTable()[k], Rows()[k], k, cfg, env) <==> k != WIKI_MIRROR_ROOT && PartsAt(k, cfg, env)
    ensures Aborts(NightlyTable()[k], k, cfg, env) <==> (k == 22 || k == 23) && Known(k) !in cfg && Var(k) in env && env[Var(k)].empty
  {
    SourceParts(if k < 17 then k else 0, cfg, env);
    ProcessingParts(if 17 <= k < 27 then k - 17 else 0, cfg, env);
    DerivedParts(if 27 <= k < 32 then k - 27 else 0, cfg, env);
    WikiParts(if 32 <= k then k - 32 else 0, cfg, env);
    NoPartsInDerived(k, cfg, env);
    hide Parts, Aborts, PartsAt, SourceRows, ProcessingRows, DerivedRows, WikiRows, SourceSettings, ProcessingSettings, DerivedSettings, WikiSettings;
    Joined(SourceRows(), ProcessingRows(), DerivedRows(), WikiRows(), k);
    Joined(SourceSettings(), ProcessingSettings(), DerivedSettings(), WikiSettings(), k);
  }

  lemma NoPartsInDerived(k: nat, cfg: Config, env: Env)
    ensures 27 <= k < 32 && k != WIKI_MIRROR_ROOT ==> !PartsAt(k, cfg, env)
  {
  }

  lemma DivergesAt(k: nat, cfg: Config, env: Env)
    requires k < 41
    ensures |NightlyTable()| == 41 == |Rows()|
    ensures Diverges(k, cfg, env) <==> PartsAt(k, cfg, env)
  {
    WhereTheyPart(k, cfg, env);
    WhereTheyPart(MIRROR_ROOT, cfg, env);
    hide NightlyTable, Rows, Parts;
  }

  lemma WhoAborts(cfg: Config, env: Env)
    ensures SomeoneAborts(Program(), cfg, env) <==> LimitIsBlank(cfg, env)
  {
    hide NightlyTable, Program, Aborts;
    if SomeoneAborts(Program(), cfg, env) {
      var i :| 0 <= i < |Program()| && Program()[i] < |NightlyTable()| && Aborts(NightlyTable()[Program()[i]], Program()[i], cfg, env);
      assert Program()[i] in Program();
      ProgramMembers(Program()[i]);
      WhereTheyPart(Program()[i], cfg, env);
    }
    if LimitIsBlank(cfg, env) {
      var k :| 22 <= k <= 23 && Known(k) !in cfg && Var(k) in env && env[Var(k)].empty;
      WhereTheyPart(k, cfg, env);
      ProgramMembers(k);
      var i :| 0 <= i < |Program()| && Program()[i] == k;
      assert Aborts(NightlyTable()[Program()[i]], Program()[i], cfg, env);
    }
  }

  lemma KeyNames(env: Env)
    ensures FirstSet([Var(0), AppKeyFallback], env).Some? <==> KeyGiven(env)
  {
    assert [Var(0), AppKeyFallback][1..] == [AppKeyFallback];
    assert [AppKeyFallback][1..] == [];
    assert FirstSet([], env) == None;
  }

  /** A handoff of the nightly table that succeeds. */
  ghost predicate NightlyHandsOff(confirmed: Contract, stored: Contract, cfg: Config, shell: Env, project: Env, profile: nat, runAt: nat) {
    NightlyTableOk();
    HandsOff(NightlyTable(), confirmed, stored, cfg, shell, project, profile, runAt)
  }

  /** What the wizard resolves. */
  ghost function WizardValues(cfg: Config, shell: Env, project: Env): (r: Option<seq<Value>>)
    ensures r.Some? ==> |r.value| == |NightlyTable()| == 41
  {
    NightlyTableOk();
    ValuesOf(Runtime(NightlyTable(), cfg, shell, project))
  }

  /** What the program holds when it starts to collect. */
  ghost function Night(cfg: Config, env: Env): Option<Args> {
    ProgramOk();
    Nightly(cfg, env)
  }

  /** What a handoff promises about the night.  Take a handoff that succeeded, and tonight's
      process: the one shell variable it is given, and the same `.env`.  The program starts to
      collect exactly when a key is given and no limit's variable is blank.  When it does, it
      holds for each of the 41 settings exactly the value that the wizard resolved and the
      confirmed contract shows, except where `PartsAt` says, and there it does not; and whether
      a value is set at all is the same everywhere but for the three models. */
  lemma HandoffDescribesTonight(confirmed: Contract, stored: Contract, cfg: Config, shell: Env, lines: seq<Line>, profile: nat, runAt: nat)
    requires NightlyHandsOff(confirmed, stored, cfg, shell, FirstWins(lines), profile, runAt)
    ensures var env := FirstWins(lines) + Scheduled(shell);
            var now, night := WizardValues(cfg, shell, FirstWins(lines)), Night(cfg, env);
            && now.Some? && confirmed.rendered == RenderAll(NightlyTable(), now.value)
            && (night.Some? <==> KeyGiven(env) && !LimitIsBlank(cfg, env))
            && (night.Some? ==> forall k :: 0 <= k < 41 ==>
                  && k in night.value
                  && (Same(now.value[k], night.value[k]) <==> !PartsAt(k, cfg, env))
                  && (!IsModel(k) ==> JsonTruth(night.value[k]) == Truth(now.value[k])))
  {
    NightlyTableOk();
    ProgramOk();
    var project, tonight := FirstWins(lines), Scheduled(shell);
    var env := project + tonight;
    HandsOffWithoutShell(NightlyTable(), confirmed, stored, cfg, shell, project, profile, runAt);
    var vs := Values(Runtime(NightlyTable(), cfg, tonight, project).value);
    TonightIsOk(cfg, tonight, project, vs);
    hide NightlyTable, Rows, Program, HandsOff, Runtime, WizardOk, Kept, Scheduled;
    RunAgrees(Program(), cfg, env, tonight, vs);
    WhoAborts(cfg, env);
    NightStarts(cfg, env, tonight, vs);
    var args := Assigned(Program(), cfg, env);
    if args.Some? {
      forall k | 0 <= k < 41
        ensures k in args.value && (Same(vs[k], args.value[k]) <==> !PartsAt(k, cfg, env)) && (!IsModel(k) ==> JsonTruth(args.value[k]) == Truth(vs[k]))
      {
        ProgramMembers(k);
        KeptMeans(k, cfg, env, vs[k], args.value[k]);
      }
    }
  }

  lemma TonightIsOk(cfg: Config, tonight: Env, project: Env, vs: seq<Value>)
    requires TableOk(NightlyTable()) && |NightlyTable()| == 41 == |Rows()|
    requires Runtime(NightlyTable(), cfg, tonight, project).Some? && vs == Values(Runtime(NightlyTable(), cfg, tonight, project).value)
    ensures WizardOk(cfg, project + tonight, tonight, vs) && !Truth(vs[CLOUD_FIRST]) && !Truth(vs[PUBLISH_CATALOG])
  {
    hide NightlyTable, Rows, TableOk, Resolved;
  }

  lemma KeptMeans(k: nat, cfg: Config, env: Env, v: Value, j: Json)
    requires k < 41 == |NightlyTable()| == |Rows()| && Kept(k, cfg, env, v, j)
    ensures Same(v, j) <==> !PartsAt(k, cfg, env)
    ensures !IsModel(k) ==> JsonTruth(j) == Truth(v)
    ensures k == APP_KEY ==> (JsonTruth(j) <==> KeyGiven(env))
  {
    DivergesAt(k, cfg, env);
    KeyNames(env);
    hide NightlyTable, Rows, Diverges, PartsAt;
  }

  /** The last checks of the program: the paused paths are off, and the key decides. */
  lemma NightStarts(cfg: Config, env: Env, shell: Env, vs: seq<Value>)
    requires |NightlyTable()| == 41 == |Rows()| == |vs| && OrderOk(Program())
    requires !Truth(vs[CLOUD_FIRST]) && !Truth(vs[PUBLISH_CATALOG])
    requires Assigned(Program(), cfg, env).Some? ==>
               forall k :: k in Program() ==> k in Assigned(Program(), cfg, env).value && Kept(k, cfg, env, vs[k], Assigned(Program(), cfg, env).value[k])
    ensures Nightly(cfg, env).Some? <==> Assigned(Program(), cfg, env).Some? && KeyGiven(env)
    ensures Nightly(cfg, env).Some? ==> Nightly(cfg, env) == Assigned(Program(), cfg, env)
  {
    hide NightlyTable, Rows, Program, Kept, Assigned;
    var args := Assigned(Program(), cfg, env);
    if args.Some? {
      ProgramMembers(CLOUD_FIRST);
      ProgramMembers(PUBLISH_CATALOG);
      ProgramMembers(APP_KEY);
      KeptMeans(CLOUD_FIRST, cfg, env, vs[CLOUD_FIRST], args.value[CLOUD_FIRST]);
      KeptMeans(PUBLISH_CATALOG, cfg, env, vs[PUBLISH_CATALOG], args.value[PUBLISH_CATALOG]);
      KeptMeans(APP_KEY, cfg, env, vs[APP_KEY], args.value[APP_KEY]);
    }
  }
}
