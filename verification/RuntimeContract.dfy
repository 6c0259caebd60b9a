/** What a nightly run will actually do (scripts/activation_contract.py:283-345, 420-490,
    526-546, 555-588, 648-731, 1113-1128 and 1690-1697): how each setting is resolved from
    configuration, shell and `.env`, and what a scheduler handoff may promise.

    Text is represented by what the code reads off it: its truth as a switch, its integer
    value if it has one, whether it is empty, which closed vocabularies admit it, and how the
    contract shows it.  The table's keys are positions in the table. */
module RuntimeContract {
  import opened Wrappers

  datatype Kind = IntKind | BoolKind | Ident | Url | Path | Opaque | Secret

  datatype Chars = Chars(id: nat, on: bool, number: Option<int>, empty: bool, admits: set<Kind>, shown: nat)

  const EMPTY_TEXT: Text := Chars(0, false, None, true, {Ident, Url, Path, Opaque, Secret}, 0)

  /** There is only one empty text; it is no number, and every vocabulary admits it. */
  type Text = c: Chars | c.empty ==> c == Chars(0, false, None, true, {Ident, Url, Path, Opaque, Secret}, 0)
    witness Chars(0, false, None, true, {Ident, Url, Path, Opaque, Secret}, 0)

  datatype Value = VInt(n: int) | VBool(b: bool) | VText(t: Text)

  /** A value of the configuration file.  `whole` is what a real number is cut to, if it is
      finite; lists and objects only matter by being empty or not. */
  datatype Json = JText(t: Text) | JInt(n: int) | JBool(b: bool) | JReal(whole: Option<int>, zero: bool) | JNull | JOther(full: bool)

  datatype Precedence = EnvConfigDefault | DocdbSwitch | ConfigOnly | EnvFirst | ConfigEnvDefault

  /** A default: a literal, another setting, or a switch derived from others. */
  datatype Default = Lit(v: Value) | Copy(k: nat) | Either(ks: seq<nat>) | BothOf(k: nat, ks: seq<nat>)

  datatype Name = Var(k: nat) | AppKeyFallback | Unregistered(n: nat)

  datatype Setting = Setting(kind: Kind, precedence: Precedence, names: seq<Name>, default: Default)

  datatype Key = Known(k: nat) | WizardOnly | Unknown(n: nat)

  datatype Source = FromConfig | FromShell | FromProjectEnv | FromDefault

  type Env = map<Name, Text>
  type Config = map<Key, Json>

  // ---------------------------------------------------------------------
  // The environment that the run sees
  // ---------------------------------------------------------------------

  /** A line of `.env` that assigns a well-formed name; other lines are dropped before. */
  datatype Line = Line(name: Name, value: Text)

  function FirstWins(lines: seq<Line>): Env
    decreases |lines|
  {
    if lines == [] then map[]
    else
      var rest, last := FirstWins(lines[..|lines| - 1]), lines[|lines| - 1];
      if last.name in rest then rest else rest[last.name := last.value]
  }

  method ParseProjectEnv(lines: seq<Line>) returns (values: Env)
    ensures values == FirstWins(lines)
  {
    values := map[];
    var i := 0;
    while i < |lines|
      invariant 0 <= i <= |lines| && values == FirstWins(lines[..i])
    {
      assert lines[..i + 1][..i] == lines[..i];
      if lines[i].name !in values { values := values[lines[i].name := lines[i].value]; }
      i := i + 1;
    }
    assert lines[..i] == lines;
  }

  /** Each name has the value of the first line that assigns it. */
  lemma {:induction false} FirstLineWins(lines: seq<Line>, i: nat)
    requires i < |lines| && forall j :: 0 <= j < i ==> lines[j].name != lines[i].name
    ensures lines[i].name in FirstWins(lines) && FirstWins(lines)[lines[i].name] == lines[i].value
    decreases |lines|
  {
    var rest := lines[..|lines| - 1];
    if i == |lines| - 1 {
      NotAssigned(rest, lines[i].name);
    } else {
      FirstLineWins(rest, i);
    }
  }

  lemma {:induction false} NotAssigned(lines: seq<Line>, n: Name)
    requires forall j :: 0 <= j < |lines| ==> lines[j].name != n
    ensures n !in FirstWins(lines)
    decreases |lines|
  {
    if lines != [] { NotAssigned(lines[..|lines| - 1], n); }
  }

  /** What is in the process wins over the file; `origin` says which layer gave each name. */
  method MergeRuntimeEnv(shell: Env, project: Env) returns (merged: Env, origin: map<Name, Source>)
    ensures merged == project + shell
    ensures origin.Keys == merged.Keys
    ensures forall n :: n in origin ==> origin[n] == if n in shell then FromShell else FromProjectEnv
  {
    merged, origin := CopyShell(shell);
    var todo := project.Keys;
    MergedAtFirst(shell, project, merged, origin);
    hide MergedSoFar;
    while todo != {}
      invariant todo <= project.Keys && MergedSoFar(shell, project, todo, merged, origin)
      decreases |todo|
    {
      var n :| n in todo;
      MergeOne(shell, project, todo, merged, origin, n);
      if n !in merged {
        merged, origin := merged[n := project[n]], origin[n := FromProjectEnv];
      }
      todo := todo - {n};
    }
    MergedAtLast(shell, project, merged, origin);
  }

  /** All of the shell, and of the file what is not in `todo`. */
  ghost predicate MergedSoFar(shell: Env, project: Env, todo: set<Name>, merged: Env, origin: map<Name, Source>) {
    && (forall n :: n in merged <==> n in shell || (n in project && n !in todo))
    && (forall n :: n in merged ==> merged[n] == if n in shell then shell[n] else project[n])
    && (forall n :: n in origin <==> n in merged)
    && (forall n :: n in origin ==> origin[n] == Origin(shell, n))
  }

  lemma MergedAtFirst(shell: Env, project: Env, merged: Env, origin: map<Name, Source>)
    requires merged == shell && origin.Keys == shell.Keys && forall n :: n in origin ==> origin[n] == FromShell
    ensures MergedSoFar(shell, project, project.Keys, merged, origin)
  {
  }

  lemma MergeOne(shell: Env, project: Env, todo: set<Name>, merged: Env, origin: map<Name, Source>, n: Name)
    requires n in todo && n in project && MergedSoFar(shell, project, todo, merged, origin)
    ensures if n in merged then MergedSoFar(shell, project, todo - {n}, merged, origin)
            else MergedSoFar(shell, project, todo - {n}, merged[n := project[n]], origin[n := FromProjectEnv])
  {
  }

  lemma MergedAtLast(shell: Env, project: Env, merged: Env, origin: map<Name, Source>)
    requires MergedSoFar(shell, project, {}, merged, origin)
    ensures merged == project + shell && origin.Keys == merged.Keys && forall n :: n in origin ==> origin[n] == Origin(shell, n)
  {
  }

  method CopyShell(shell: Env) returns (merged: Env, origin: map<Name, Source>)
    ensures merged == shell && origin.Keys == shell.Keys && forall n :: n in origin ==> origin[n] == FromShell
  {
    merged, origin := map[], map[];
    var todo := shell.Keys;
    while todo != {}
      invariant todo <= shell.Keys
      invariant merged.Keys == shell.Keys - todo && origin.Keys == merged.Keys
      invariant forall n :: n in merged ==> merged[n] == shell[n]
      invariant forall n :: n in origin ==> origin[n] == FromShell
      decreases |todo|
    {
      var n :| n in todo;
      todo := todo - {n};
      merged, origin := merged[n := shell[n]], origin[n := FromShell];
    }
  }

  function Origin(shell: Env, n: Name): Source { if n in shell then FromShell else FromProjectEnv }

  // ---------------------------------------------------------------------
  // One setting
  // ---------------------------------------------------------------------

  function Truth(v: Value): bool {
    match v case VInt(n) => n != 0 case VBool(b) => b case VText(t) => !t.empty
  }

  function JsonTruth(j: Json): bool {
    match j case JText(t) => !t.empty case JInt(n) => n != 0 case JBool(b) => b case JReal(_, zero) => !zero case JNull => false case JOther(full) => full
  }

  function CoerceText(kind: Kind, t: Text): Option<Value> {
    match kind
    case IntKind => if t.number.Some? then Some(VInt(t.number.value)) else None
    case BoolKind => Some(VBool(!t.empty))
    case Secret => Some(VText(t))
    case _ => if kind in t.admits then Some(VText(t)) else None
  }

  function Coerce(kind: Kind, j: Json): Option<Value> {
    match j
    case JText(t) => CoerceText(kind, t)
    case JInt(n) => if kind == IntKind then Some(VInt(n)) else if kind == BoolKind then Some(VBool(n != 0)) else None
    case JBool(b) => if kind == BoolKind then Some(VBool(b)) else None
    case JReal(whole, zero) => if kind == IntKind && whole.Some? then Some(VInt(whole.value)) else if kind == BoolKind then Some(VBool(!zero)) else None
    case JOther(full) => if kind == BoolKind then Some(VBool(full)) else None
    case JNull => if kind == IntKind || kind == Secret then None else if kind == BoolKind then Some(VBool(false)) else Some(VText(EMPTY_TEXT))
  }

  function Refs(d: Default): seq<nat> {
    match d case Lit(_) => [] case Copy(k) => [k] case Either(ks) => ks case BothOf(k, ks) => [k] + ks
  }

  /** Defaults refer only to settings before them. */
  ghost predicate DefaultOk(d: Default, n: nat) { forall i :: 0 <= i < |Refs(d)| ==> Refs(d)[i] < n }

  predicate AnyTrue(ks: seq<nat>, settings: seq<Value>)
    requires forall i :: 0 <= i < |ks| ==> ks[i] < |settings|
  {
    exists i :: 0 <= i < |ks| && Truth(settings[ks[i]])
  }

  function DefaultValue(d: Default, settings: seq<Value>): Value
    requires DefaultOk(d, |settings|)
  {
    match d
    case Lit(v) => v
    case Copy(k) =>
      assert Refs(d)[0] == k;
      settings[k]
    case Either(ks) =>
      assert forall i :: 0 <= i < |ks| ==> Refs(d)[i] == ks[i];
      VBool(AnyTrue(ks, settings))
    case BothOf(k, ks) =>
      assert Refs(d)[0] == k && forall i :: 0 <= i < |ks| ==> Refs(d)[i + 1] == ks[i];
      VBool(Truth(settings[k]) && AnyTrue(ks, settings))
  }

  /** A resolved value and where it came from; no result when the value cannot be used. */
  datatype Pick = Pick(value: Value, source: Source)

  function Made(v: Option<Value>, source: Source): Option<Pick> {
    if v.Some? then Some(Pick(v.value, source)) else None
  }

  /** The first of a setting's variables that has text. */
  function FirstSet(names: seq<Name>, env: Env): Option<Name>
    decreases |names|
  {
    if names == [] then None
    else if names[0] in env && !env[names[0]].empty then Some(names[0])
    else FirstSet(names[1..], env)
  }

  predicate SettingOk(s: Setting, n: nat) {
    && (s.precedence == EnvConfigDefault || s.precedence == DocdbSwitch || s.precedence == ConfigEnvDefault ==> |s.names| == 1)
    && forall i :: 0 <= i < |Refs(s.default)| ==> Refs(s.default)[i] < n
  }

  function ResolveOne(s: Setting, k: nat, cfg: Config, env: Env, shell: Env, settings: seq<Value>): Option<Pick>
    requires SettingOk(s, |settings|)
  {
    var fallback := DefaultValue(s.default, settings);
    var key := Known(k);
    match s.precedence
    case EnvConfigDefault =>
      if s.names[0] in env then Some(Pick(VBool(env[s.names[0]].on), Origin(shell, s.names[0])))
      else if key in cfg then Some(Pick(VBool(JsonTruth(cfg[key])), FromConfig))
      else Some(Pick(VBool(Truth(fallback)), FromDefault))
    case DocdbSwitch =>
      if key in cfg then Some(Pick(VBool(JsonTruth(cfg[key])), FromConfig))
      else if s.names[0] in env then Some(Pick(VBool(env[s.names[0]].on), Origin(shell, s.names[0])))
      else Some(Pick(VBool(false), FromDefault))
    case ConfigOnly =>
      if key in cfg then Made(Coerce(s.kind, cfg[key]), FromConfig) else Some(Pick(fallback, FromDefault))
    case EnvFirst =>
      var name := FirstSet(s.names, env);
      if name.Some? && name.value in env then Made(CoerceText(s.kind, env[name.value]), Origin(shell, name.value))
      else if key in cfg then Made(Coerce(s.kind, cfg[key]), FromConfig)
      else Some(Pick(fallback, FromDefault))
    case ConfigEnvDefault =>
      if key in cfg then Made(Coerce(s.kind, cfg[key]), FromConfig)
      else if s.names[0] in env then Made(CoerceText(s.kind, env[s.names[0]]), Origin(shell, s.names[0]))
      else Some(Pick(fallback, FromDefault))
  }

  // The five classes, told as an order of layers.
  datatype Layer = ConfigLayer | EnvLayer | DefaultLayer

  function Order(p: Precedence): seq<Layer> {
    match p
    case EnvConfigDefault => [EnvLayer, ConfigLayer, DefaultLayer]
    case DocdbSwitch => [ConfigLayer, EnvLayer, DefaultLayer]
    case ConfigOnly => [ConfigLayer, DefaultLayer]
    case EnvFirst => [EnvLayer, ConfigLayer, DefaultLayer]
    case ConfigEnvDefault => [ConfigLayer, EnvLayer, DefaultLayer]
  }

  /** A layer speaks when it has a value; only the scalars that the command line reads from the
      environment need that value to be non-empty. */
  predicate Speaks(l: Layer, s: Setting, k: nat, cfg: Config, env: Env) {
    match l
    case ConfigLayer => Known(k) in cfg
    case EnvLayer => exists i :: 0 <= i < |s.names| && s.names[i] in env && (s.precedence == EnvFirst ==> !env[s.names[i]].empty)
    case DefaultLayer => true
  }

  function LayerOf(source: Source): Layer {
    match source case FromConfig => ConfigLayer case FromDefault => DefaultLayer case _ => EnvLayer
  }

  lemma {:induction false} FirstSetSpeaks(names: seq<Name>, env: Env)
    ensures FirstSet(names, env).Some? <==> exists i :: 0 <= i < |names| && names[i] in env && !env[names[i]].empty
    ensures FirstSet(names, env).Some? ==> FirstSet(names, env).value in names && FirstSet(names, env).value in env
    decreases |names|
  {
    if names != [] {
      FirstSetSpeaks(names[1..], env);
      if exists i :: 0 <= i < |names| && names[i] in env && !env[names[i]].empty {
        var i :| 0 <= i < |names| && names[i] in env && !env[names[i]].empty;
        if i > 0 { assert names[1..][i - 1] == names[i]; }
      }
      if FirstSet(names[1..], env).Some? {
        var j :| 0 <= j < |names[1..]| && names[1..][j] in env && !env[names[1..][j]].empty;
        assert names[j + 1] == names[1..][j];
      }
    }
  }

  /** Whichever class a setting has, its value comes from the first layer of the class's order
      that speaks, and every earlier layer is silent. */
  lemma ResolvesByOrder(s: Setting, k: nat, cfg: Config, env: Env, shell: Env, settings: seq<Value>, i: nat)
    requires SettingOk(s, |settings|) && i < |Order(s.precedence)|
    ensures match ResolveOne(s, k, cfg, env, shell, settings)
            case None => true
            case Some(pick) =>
              && Speaks(LayerOf(pick.source), s, k, cfg, env)
              && (Order(s.precedence)[i] == LayerOf(pick.source) ==> forall j :: 0 <= j < i ==> !Speaks(Order(s.precedence)[j], s, k, cfg, env))
  {
    FirstSetSpeaks(s.names, env);
  }

  /** The value and its source belong together: a value of the configuration is what the kind makes
      of its entry; one of the environment is what the kind makes of a variable of the setting, and
      says whether the shell or the file gave it; any other is the setting's default. */
  lemma WhereAValueComesFrom(s: Setting, k: nat, cfg: Config, env: Env, shell: Env, settings: seq<Value>)
    requires SettingOk(s, |settings|) && ResolveOne(s, k, cfg, env, shell, settings).Some?
    ensures var pick := ResolveOne(s, k, cfg, env, shell, settings).value;
            match pick.source
            case FromConfig =>
              && Known(k) in cfg
              && (if s.precedence == EnvConfigDefault || s.precedence == DocdbSwitch then pick.value == VBool(JsonTruth(cfg[Known(k)]))
                  else Coerce(s.kind, cfg[Known(k)]) == Some(pick.value))
            case FromDefault =>
              pick.value == (if s.precedence == EnvConfigDefault then VBool(Truth(DefaultValue(s.default, settings)))
                             else if s.precedence == DocdbSwitch then VBool(false) else DefaultValue(s.default, settings))
            case _ =>
              exists i :: 0 <= i < |s.names| && s.names[i] in env && (s.names[i] in shell <==> pick.source == FromShell)
                && (if s.precedence == EnvConfigDefault || s.precedence == DocdbSwitch then pick.value == VBool(env[s.names[i]].on)
                    else CoerceText(s.kind, env[s.names[i]]) == Some(pick.value))
  {
    FirstSetSpeaks(s.names, env);
    hide Coerce, CoerceText, DefaultValue, JsonTruth;
    var pick := ResolveOne(s, k, cfg, env, shell, settings).value;
    if pick.source == FromShell || pick.source == FromProjectEnv {
      if s.precedence == EnvFirst {
        var n := FirstSet(s.names, env).value;
        var i :| 0 <= i < |s.names| && s.names[i] == n;
      } else {
        assert s.names[0] in env;
      }
    }
  }

  /** A setting cannot be resolved exactly when the entry or the text that decides it is of no use
      to its kind: one switched by a variable always can. */
  lemma WhenASettingResolves(s: Setting, k: nat, cfg: Config, env: Env, shell: Env, settings: seq<Value>)
    requires SettingOk(s, |settings|)
    ensures var byEntry := Known(k) in cfg ==> Coerce(s.kind, cfg[Known(k)]).Some?;
            ResolveOne(s, k, cfg, env, shell, settings).Some? <==>
              match s.precedence
              case EnvConfigDefault => true
              case DocdbSwitch => true
              case ConfigOnly => byEntry
              case EnvFirst => (match FirstSet(s.names, env) case Some(n) => n in env && CoerceText(s.kind, env[n]).Some? case None => byEntry)
              case ConfigEnvDefault => byEntry && (Known(k) !in cfg && s.names[0] in env ==> CoerceText(s.kind, env[s.names[0]]).Some?)
  {
    FirstSetSpeaks(s.names, env);
    hide Coerce, CoerceText, DefaultValue, JsonTruth;
  }

  /** What each kind makes of a text, and of an entry of the configuration. */
  lemma WhatKindsMake(t: Text, kind: Kind, n: int, b: bool)
    ensures CoerceText(IntKind, t) == (if t.number.Some? then Some(VInt(t.number.value)) else None)
    ensures CoerceText(BoolKind, t) == Some(VBool(!t.empty)) && CoerceText(Secret, t) == Some(VText(t))
    ensures kind in {Ident, Url, Path, Opaque} ==> CoerceText(kind, t) == (if kind in t.admits then Some(VText(t)) else None)
    ensures Coerce(kind, JText(t)) == CoerceText(kind, t)
    ensures Coerce(kind, JInt(n)) == match kind case IntKind => Some(VInt(n)) case BoolKind => Some(VBool(n != 0)) case _ => None
    ensures Coerce(kind, JBool(b)) == match kind case BoolKind => Some(VBool(b)) case _ => None
    ensures Coerce(kind, JNull) == match kind case IntKind => None case Secret => None case BoolKind => Some(VBool(false)) case _ => Some(VText(EMPTY_TEXT))
    ensures Coerce(kind, JOther(b)) == match kind case BoolKind => Some(VBool(b)) case _ => None
    ensures JsonTruth(JText(t)) == !t.empty && JsonTruth(JInt(n)) == (n != 0) && JsonTruth(JBool(b)) == b && !JsonTruth(JNull) && JsonTruth(JOther(b)) == b
    ensures forall whole :: JsonTruth(JReal(whole, b)) == !b
    ensures forall whole :: Coerce(kind, JReal(whole, b))
              == match kind case IntKind => (if whole.Some? then Some(VInt(whole.value)) else None) case BoolKind => Some(VBool(!b)) case _ => None
    ensures Truth(VInt(n)) == (n != 0) && Truth(VBool(b)) == b && Truth(VText(t)) == !t.empty
  {
  }

  // ---------------------------------------------------------------------
  // The table
  // ---------------------------------------------------------------------

  ghost predicate TableOk(t: seq<Setting>) { forall i :: 0 <= i < |t| ==> SettingOk(t[i], i) }

  /** The settings before position `n`, in table order; later ones may use earlier ones. */
  function Resolved(t: seq<Setting>, n: nat, cfg: Config, env: Env, shell: Env): (r: Option<seq<Pick>>)
    requires TableOk(t) && n <= |t|
    ensures r.Some? ==> |r.value| == n
    decreases n
  {
    if n == 0 then Some([])
    else
      var before := Resolved(t, n - 1, cfg, env, shell);
      if before.None? then None
      else
        var pick := ResolveOne(t[n - 1], n - 1, cfg, env, shell, Values(before.value));
        if pick.None? then None else Some(before.value + [pick.value])
  }

  /** Each pick is what its setting makes of the picks before it. */
  ghost predicate Follows(t: seq<Setting>, picks: seq<Pick>, cfg: Config, env: Env, shell: Env)
    requires TableOk(t)
  {
    |picks| <= |t| && forall k :: 0 <= k < |picks| ==> ResolveOne(t[k], k, cfg, env, shell, Values(picks[..k])) == Some(picks[k])
  }

  /** The picks stop at a setting that cannot be resolved. */
  ghost predicate StopsAt(t: seq<Setting>, picks: seq<Pick>, cfg: Config, env: Env, shell: Env)
    requires TableOk(t)
  {
    Follows(t, picks, cfg, env, shell) && |picks| < |t| && ResolveOne(t[|picks|], |picks|, cfg, env, shell, Values(picks)).None?
  }

  /** The settings resolve to the one sequence in which each follows from those before it, and there
      is none exactly when such a sequence stops at a setting that cannot be resolved. */
  lemma {:induction false} ResolvesInTableOrder(t: seq<Setting>, n: nat, cfg: Config, env: Env, shell: Env)
    requires TableOk(t) && n <= |t|
    ensures match Resolved(t, n, cfg, env, shell)
            case Some(picks) => |picks| == n && Follows(t, picks, cfg, env, shell)
            case None => exists picks :: |picks| < n && StopsAt(t, picks, cfg, env, shell)
    decreases n
  {
    hide ResolveOne, Follows;
    if n == 0 {
      FollowsFromNothing(t, cfg, env, shell);
    } else {
      ResolvesInTableOrder(t, n - 1, cfg, env, shell);
      var before := Resolved(t, n - 1, cfg, env, shell);
      if before.Some? {
        var pick := ResolveOne(t[n - 1], n - 1, cfg, env, shell, Values(before.value));
        if pick.None? { assert StopsAt(t, before.value, cfg, env, shell); } else { FollowsOn(t, before.value, pick.value, cfg, env, shell); }
      }
    }
  }

  lemma FollowsFromNothing(t: seq<Setting>, cfg: Config, env: Env, shell: Env)
    requires TableOk(t)
    ensures Follows(t, [], cfg, env, shell)
  {
  }

  lemma FollowsOn(t: seq<Setting>, picks: seq<Pick>, pick: Pick, cfg: Config, env: Env, shell: Env)
    requires TableOk(t) && |picks| < |t| && Follows(t, picks, cfg, env, shell)
    requires ResolveOne(t[|picks|], |picks|, cfg, env, shell, Values(picks)) == Some(pick)
    ensures Follows(t, picks + [pick], cfg, env, shell)
  {
    hide ResolveOne;
    var next := picks + [pick];
    forall k | 0 <= k < |next| ensures ResolveOne(t[k], k, cfg, env, shell, Values(next[..k])) == Some(next[k]) {
      if k < |picks| { assert next[..k] == picks[..k]; } else { assert next[..k] == picks; }
    }
  }

  function Values(picks: seq<Pick>): (vs: seq<Value>)
    ensures |vs| == |picks|
  {
    seq(|picks|, i requires 0 <= i < |picks| => picks[i].value)
  }

  method ResolveAll(t: seq<Setting>, cfg: Config, shell: Env, project: Env) returns (r: Option<seq<Pick>>)
    requires TableOk(t)
    ensures r == Resolved(t, |t|, cfg, project + shell, shell)
    ensures match r
            case Some(picks) => |picks| == |t| && Follows(t, picks, cfg, project + shell, shell)
            case None => exists picks :: StopsAt(t, picks, cfg, project + shell, shell)
  {
    hide ResolveOne, Follows, StopsAt, SettingOk, Values;
    ResolvesInTableOrder(t, |t|, cfg, project + shell, shell);
    var env, origin := MergeRuntimeEnv(shell, project);
    var picks: seq<Pick> := [];
    var n := 0;
    while n < |t|
      invariant 0 <= n <= |t|
      invariant |picks| == n && Resolved(t, n, cfg, env, shell) == Some(picks)
    {
      var pick := ResolveOne(t[n], n, cfg, env, shell, Values(picks));
      if pick.None? {
        Unresolved(t, n + 1, |t|, cfg, env, shell);
        return None;
      }
      picks := picks + [pick.value];
      n := n + 1;
    }
    return Some(picks);
  }

  lemma {:induction false} Unresolved(t: seq<Setting>, n: nat, m: nat, cfg: Config, env: Env, shell: Env)
    requires TableOk(t) && n <= m <= |t| && Resolved(t, n, cfg, env, shell).None?
    ensures Resolved(t, m, cfg, env, shell).None?
    decreases m
  {
    if n < m { Unresolved(t, n, m - 1, cfg, env, shell); }
  }

  /** Only the names that the table registers matter. */
  ghost predicate Registered(t: seq<Setting>, n: Name) { exists k :: 0 <= k < |t| && n in t[k].names }

  ghost predicate AgreeOn(t: seq<Setting>, a: Env, b: Env) {
    forall n :: Registered(t, n) ==> (n in a <==> n in b) && (n in a ==> a[n] == b[n])
  }

  lemma {:induction false} FirstSetAgrees(names: seq<Name>, a: Env, b: Env)
    requires forall i :: 0 <= i < |names| ==> (names[i] in a <==> names[i] in b) && (names[i] in a ==> a[names[i]] == b[names[i]])
    ensures FirstSet(names, a) == FirstSet(names, b)
    decreases |names|
  {
    if names != [] {
      assert names[0] in a <==> names[0] in b;
      FirstSetAgrees(names[1..], a, b);
    }
  }

  /** The values, sources aside. */
  function ValuesOf(picks: Option<seq<Pick>>): Option<seq<Value>> { if picks.Some? then Some(Values(picks.value)) else None }

  lemma OneAgrees(t: seq<Setting>, k: nat, cfg: Config, a: Env, b: Env, shellA: Env, shellB: Env, settings: seq<Value>)
    requires TableOk(t) && k < |t| && |settings| == k && AgreeOn(t, a, b)
    ensures var x, y := ResolveOne(t[k], k, cfg, a, shellA, settings), ResolveOne(t[k], k, cfg, b, shellB, settings);
            (x.Some? <==> y.Some?) && (x.Some? ==> x.value.value == y.value.value)
  {
    var names := t[k].names;
    forall i | 0 <= i < |names| ensures (names[i] in a <==> names[i] in b) && (names[i] in a ==> a[names[i]] == b[names[i]]) {
      assert names[i] in t[k].names;
      assert Registered(t, names[i]);
    }
    FirstSetAgrees(names, a, b);
    FirstSetSpeaks(names, a);
  }

  lemma ValuesAppend(picks: seq<Pick>, p: Pick)
    ensures Values(picks + [p]) == Values(picks) + [p.value]
  {
  }

  /** Two environments that agree on the registered names resolve to the same values. */
  lemma {:induction false} OnlyRegisteredNamesMatter(t: seq<Setting>, n: nat, cfg: Config, a: Env, b: Env, shellA: Env, shellB: Env)
    requires TableOk(t) && n <= |t| && AgreeOn(t, a, b)
    ensures ValuesOf(Resolved(t, n, cfg, a, shellA)) == ValuesOf(Resolved(t, n, cfg, b, shellB))
    decreases n
  {
    hide ResolveOne, AgreeOn, Values;
    if n > 0 {
      OnlyRegisteredNamesMatter(t, n - 1, cfg, a, b, shellA, shellB);
      var x, y := Resolved(t, n - 1, cfg, a, shellA), Resolved(t, n - 1, cfg, b, shellB);
      if x.Some? {
        OneAgrees(t, n - 1, cfg, a, b, shellA, shellB, Values(x.value));
        var p, q := ResolveOne(t[n - 1], n - 1, cfg, a, shellA, Values(x.value)), ResolveOne(t[n - 1], n - 1, cfg, b, shellB, Values(y.value));
        if p.Some? {
          ValuesAppend(x.value, p.value);
          ValuesAppend(y.value, q.value);
        }
      }
    }
  }

  // ---------------------------------------------------------------------
  // The contract
  // ---------------------------------------------------------------------

  /** The nightly table: 41 settings, in the order that defaults rely on. */
  const APP_KEY: nat := 0
  const LOOKBACK_DAYS: nat := 11
  const CLOUD_FIRST: nat := 39
  const PUBLISH_CATALOG: nat := 40

  function Number(k: nat, p: Precedence, n: int): Setting { Setting(IntKind, p, [Var(k)], Lit(VInt(n))) }

  function Switch(k: nat, d: Default): Setting { Setting(BoolKind, EnvConfigDefault, [Var(k)], d) }

  /** A literal text of the table; 0 stands for the empty one. */
  function Word(text: nat, kind: Kind): Text { if text == 0 then EMPTY_TEXT else Chars(text, false, None, false, {kind}, text) }

  function Words(k: nat, kind: Kind, p: Precedence, text: nat): Setting {
    Setting(kind, p, [Var(k)], Lit(VText(Word(text, kind))))
  }

  function SourceSettings(): seq<Setting> {
    [ Setting(Secret, EnvFirst, [Var(0), AppKeyFallback], Lit(VText(EMPTY_TEXT))),
      Words(1, Ident, ConfigEnvDefault, 0), Words(2, Ident, ConfigEnvDefault, 0), Words(3, Opaque, ConfigEnvDefault, 0),
      Number(4, ConfigEnvDefault, 60), Number(5, ConfigEnvDefault, 15),
      Switch(6, Lit(VBool(true))), Number(7, ConfigEnvDefault, 20), Number(8, ConfigEnvDefault, 20),
      Words(9, Path, ConfigEnvDefault, 9), Switch(10, Lit(VBool(true))), Number(11, ConfigEnvDefault, 2),
      Number(12, ConfigEnvDefault, 6), Words(13, Url, ConfigEnvDefault, 13), Words(14, Ident, ConfigEnvDefault, 0),
      Number(15, ConfigEnvDefault, 30), Words(16, Path, ConfigEnvDefault, 16) ]
  }

  function ProcessingSettings(): seq<Setting> {
    [ Switch(17, Lit(VBool(false))), Switch(18, Lit(VBool(false))),
      Words(19, Ident, EnvFirst, 19), Words(20, Ident, EnvFirst, 20), Words(21, Ident, EnvFirst, 21),
      Number(22, EnvFirst, 4), Number(23, EnvFirst, 120),
      Setting(BoolKind, DocdbSwitch, [Var(24)], Lit(VBool(false))),
      Words(25, Ident, ConfigEnvDefault, 0), Words(26, Ident, ConfigEnvDefault, 0) ]
  }

  /** The switches whose defaults are derived, and the path that follows the mirror root. */
  function DerivedSettings(): seq<Setting> {
    [ Switch(27, Lit(VBool(false))), Switch(28, Either([27])), Switch(29, Either([27, 28])), Switch(30, BothOf(24, [28, 29])),
      Setting(Path, ConfigOnly, [], Copy(16)) ]
  }

  function WikiSettings(): seq<Setting> {
    [ Words(32, Ident, ConfigEnvDefault, 32), Words(33, Ident, ConfigEnvDefault, 33),
      Number(34, ConfigEnvDefault, 80), Number(35, ConfigEnvDefault, 1), Switch(36, Lit(VBool(false))),
      Number(37, ConfigEnvDefault, 180), Switch(38, Lit(VBool(false))), Switch(39, Lit(VBool(false))), Switch(40, Lit(VBool(false))) ]
  }

  function NightlyTable(): seq<Setting> { SourceSettings() + ProcessingSettings() + DerivedSettings() + WikiSettings() }

  ghost predicate PartOk(part: seq<Setting>, offset: nat) { forall i :: 0 <= i < |part| ==> SettingOk(part[i], offset + i) }

  lemma PartsJoin(a: seq<Setting>, b: seq<Setting>)
    requires TableOk(a) && PartOk(b, |a|)
    ensures TableOk(a + b)
  {
  }

  lemma SourceSettingsOk()
    ensures TableOk(SourceSettings()) && |SourceSettings()| == 17
  {
  }

  lemma DerivedSettingsOk()
    ensures PartOk(DerivedSettings(), 27) && |DerivedSettings()| == 5
  {
    assert Refs(Either([27])) == [27] && Refs(Either([27, 28])) == [27, 28] && Refs(BothOf(24, [28, 29])) == [24, 28, 29];
  }

  lemma OtherSettingsOk()
    ensures PartOk(ProcessingSettings(), 17) && |ProcessingSettings()| == 10
    ensures PartOk(WikiSettings(), 32) && |WikiSettings()| == 9
  {
  }

  /** Every derived default of the nightly table refers to settings before it. */
  lemma NightlyTableOk()
    ensures TableOk(NightlyTable()) && |NightlyTable()| == 41
  {
    hide SourceSettings, ProcessingSettings, DerivedSettings, WikiSettings, TableOk, PartOk;
    SourceSettingsOk();
    DerivedSettingsOk();
    OtherSettingsOk();
    PartsJoin(SourceSettings(), ProcessingSettings());
    PartsJoin(SourceSettings() + ProcessingSettings(), DerivedSettings());
    PartsJoin(SourceSettings() + ProcessingSettings() + DerivedSettings(), WikiSettings());
  }

  /** Of the nightly table only the application key is a secret, one setting is a person's name, and
      three are paths; which are switches and which are numbers; and
      in which order the layers of each are asked. */
  lemma WhichKindEachIs(k: nat)
    requires k < |NightlyTable()|
    ensures NightlyTable()[k].kind == Secret <==> k == 0
    ensures NightlyTable()[k].kind == Opaque <==> k == 3
    ensures NightlyTable()[k].kind == Path <==> k in {9, 16, 31}
    ensures NightlyTable()[k].kind == Url <==> k == 13
    ensures NightlyTable()[k].kind == BoolKind <==> k in {6, 10, 17, 18, 24, 27, 28, 29, 30, 36, 38, 39, 40}
    ensures NightlyTable()[k].kind == IntKind <==> k in {4, 5, 7, 8, 11, 12, 15, 22, 23, 34, 35, 37}
    ensures NightlyTable()[k].precedence == EnvFirst <==> k in {0, 19, 20, 21, 22, 23}
    ensures NightlyTable()[k].precedence == DocdbSwitch <==> k == 24
    ensures NightlyTable()[k].precedence == ConfigOnly <==> k == 31
    ensures NightlyTable()[k].precedence == EnvConfigDefault <==> k in {6, 10, 17, 18, 27, 28, 29, 30, 36, 38, 39, 40}
    ensures NightlyTable()[k].names == match k case 0 => [Var(0), AppKeyFallback] case 31 => [] case _ => [Var(k)]
  {
    if k < 17 {
      assert NightlyTable()[k] == SourceSettings()[k];
    } else if k < 27 {
      assert NightlyTable()[k] == ProcessingSettings()[k - 17];
    } else if k < 32 {
      assert NightlyTable()[k] == DerivedSettings()[k - 27];
    } else {
      assert NightlyTable()[k] == WikiSettings()[k - 32];
    }
  }

  /** How the contract shows a value: it never repeats a secret, a person's name or a path
      outside the project. */
  datatype Rendered = Plain(value: Value) | SetOrUnset(set_: bool) | Print(shown: nat)

  function Render(kind: Kind, v: Value): Rendered {
    match kind
    case Secret => SetOrUnset(Truth(v))
    case Opaque => Print(match v case VText(t) => t.shown case _ => 0)
    case Path => Print(match v case VText(t) => t.shown case _ => 0)
    case _ => Plain(v)
  }

  function RenderAll(t: seq<Setting>, vs: seq<Value>): (r: seq<Rendered>)
    requires |vs| == |t|
    ensures |r| == |t| && forall k :: 0 <= k < |t| ==> r[k] == Render(t[k].kind, vs[k])
  {
    seq(|t|, k requires 0 <= k < |t| => Render(t[k].kind, vs[k]))
  }

  /** Two values of a secret setting show the same when both are set; a person's name and a path
      show only their fingerprint, and everything else shows exactly. */
  lemma WhatTheContractShows(kind: Kind, a: Text, b: Text)
    ensures var same := Render(kind, VText(a)) == Render(kind, VText(b));
            match kind
            case Secret => same <==> a.empty == b.empty
            case Opaque => same <==> a.shown == b.shown
            case Path => same <==> a.shown == b.shown
            case _ => same <==> a == b
  {
  }

  predicate ConfigKnown(t: seq<Setting>, cfg: Config) {
    forall key :: key in cfg ==> key == WizardOnly || (key.Known? && key.k < |t|)
  }

  /** The values of a run, or nothing when the run would not start as described. */
  ghost function Runtime(t: seq<Setting>, cfg: Config, shell: Env, project: Env): (r: Option<seq<Pick>>)
    requires TableOk(t) && |t| > PUBLISH_CATALOG
    ensures r.Some? ==> |r.value| == |t| && Resolved(t, |t|, cfg, project + shell, shell) == r
  {
    var picks := Resolved(t, |t|, cfg, project + shell, shell);
    if !ConfigKnown(t, cfg) || picks.None? then None
    else
      var vs := Values(picks.value);
      if Known(APP_KEY) in cfg && cfg[Known(APP_KEY)].JText? && !cfg[Known(APP_KEY)].t.empty then None
      else if !(vs[LOOKBACK_DAYS].VInt? && 0 <= vs[LOOKBACK_DAYS].n <= 31) then None
      else if Truth(vs[CLOUD_FIRST]) || Truth(vs[PUBLISH_CATALOG]) then None
      else picks
  }

  /** A contract is built only of a configuration with known keys and no application key in plain
      text, from settings that all resolve, with a lookback of 0 to 31 days, and with neither of the
      two publishing switches on. */
  lemma WhenARunIsDescribed(t: seq<Setting>, cfg: Config, shell: Env, project: Env)
    requires TableOk(t) && |t| > PUBLISH_CATALOG
    ensures Runtime(t, cfg, shell, project).Some? <==>
              && Resolved(t, |t|, cfg, project + shell, shell).Some?
              && (forall key :: key in cfg ==> key == WizardOnly || (key.Known? && key.k < |t|))
              && (Known(0) in cfg && cfg[Known(0)].JText? ==> cfg[Known(0)].t.empty)
              && var picks := Resolved(t, |t|, cfg, project + shell, shell).value;
                 && (exists n :: picks[11].value == VInt(n) && 0 <= n <= 31)
                 && !Truth(picks[39].value) && !Truth(picks[40].value)
  {
  }

  /** Only this variable is handed to the scheduled task. */
  const ALLOWED: set<Name> := {Var(0)}

  function Scheduled(shell: Env): Env { map n | n in shell && n in ALLOWED :: shell[n] }

  /** The part of the execution contract that settings decide. */
  datatype Contract = Contract(profile: nat, rendered: seq<Rendered>, sources: seq<Source>, needsShell: set<nat>, runAt: nat)

  ghost function Differing(a: seq<Value>, b: seq<Value>): set<nat>
    requires |a| == |b|
  {
    set k: nat | 0 <= k < |a| && a[k] != b[k]
  }

  ghost function BuildContract(t: seq<Setting>, cfg: Config, shell: Env, project: Env, profile: nat, runAt: nat): Option<Contract>
    requires TableOk(t) && |t| > PUBLISH_CATALOG
  {
    var now, tonight := Runtime(t, cfg, shell, project), Runtime(t, cfg, Scheduled(shell), project);
    if now.None? || tonight.None? then None
    else Some(Contract(profile, RenderAll(t, Values(now.value)), seq(|t|, k requires 0 <= k < |t| => now.value[k].source),
                       Differing(Values(now.value), Values(tonight.value)), runAt))
  }

  /** What a contract says of each setting: its value of now, as the contract shows values, and where
      it comes from; and it needs the shell exactly for the settings whose value tonight, without
      the shell's variables, is another. */
  lemma WhatAContractSays(t: seq<Setting>, cfg: Config, shell: Env, project: Env, profile: nat, runAt: nat, k: nat)
    requires TableOk(t) && |t| > PUBLISH_CATALOG && k < |t|
    ensures BuildContract(t, cfg, shell, project, profile, runAt).Some? <==>
              Runtime(t, cfg, shell, project).Some? && Runtime(t, cfg, Scheduled(shell), project).Some?
    ensures match BuildContract(t, cfg, shell, project, profile, runAt)
            case None => true
            case Some(c) =>
              var now, tonight := Resolved(t, |t|, cfg, project + shell, shell), Resolved(t, |t|, cfg, project + Scheduled(shell), Scheduled(shell));
              && now.Some? && tonight.Some? && |c.rendered| == |c.sources| == |t| && c.profile == profile && c.runAt == runAt
              && c.rendered[k] == Render(t[k].kind, now.value[k].value) && c.sources[k] == now.value[k].source
              && (k in c.needsShell <==> now.value[k].value != tonight.value[k].value)
              && (forall j :: j in c.needsShell ==> j < |t|)
  {
  }

  /** The checks of a handoff: the stored contract is the confirmed one, the configuration
      still builds it, and nothing in it needs the shell. */
  ghost predicate HandsOff(t: seq<Setting>, confirmed: Contract, stored: Contract, cfg: Config, shell: Env, project: Env, profile: nat, runAt: nat)
    requires TableOk(t) && |t| > PUBLISH_CATALOG
  {
    stored == confirmed && BuildContract(t, cfg, shell, project, profile, runAt) == Some(confirmed) && stored.needsShell == {}
  }

  /** A handed-off contract shows what the wizard resolves without the shell. */
  lemma HandsOffWithoutShell(t: seq<Setting>, confirmed: Contract, stored: Contract, cfg: Config, shell: Env, project: Env, profile: nat, runAt: nat)
    requires TableOk(t) && |t| > PUBLISH_CATALOG
    requires HandsOff(t, confirmed, stored, cfg, shell, project, profile, runAt)
    ensures var tonight := Runtime(t, cfg, Scheduled(shell), project);
            && tonight.Some? && ValuesOf(tonight) == ValuesOf(Runtime(t, cfg, shell, project))
            && confirmed.rendered == RenderAll(t, Values(tonight.value))
            && confirmed.profile == profile
  {
    var now, tonight := Runtime(t, cfg, shell, project), Runtime(t, cfg, Scheduled(shell), project);
    var a, b := Values(now.value), Values(tonight.value);
    assert forall k: nat :: k in Differing(a, b) <==> (k < |a| && a[k] != b[k]);
    assert a == b;
  }

  /** A shell that sets no registered name but the allowed one never keeps a contract from
      being handed off. */
  lemma ShellIsTheReason(t: seq<Setting>, cfg: Config, shell: Env, project: Env, profile: nat, runAt: nat)
    requires TableOk(t) && |t| > PUBLISH_CATALOG
    requires forall n :: n in shell && Registered(t, n) ==> n in ALLOWED
    ensures match BuildContract(t, cfg, shell, project, profile, runAt)
            case None => Runtime(t, cfg, shell, project).None?
            case Some(c) => c.needsShell == {} && HandsOff(t, c, c, cfg, shell, project, profile, runAt)
  {
    var a, b := project + shell, project + Scheduled(shell);
    assert AgreeOn(t, a, b);
    OnlyRegisteredNamesMatter(t, |t|, cfg, a, b, shell, Scheduled(shell));
  }

  /** The setting reads different values from the two texts of its variable. */
  predicate ReadsApart(s: Setting, k: nat, cfg: Config, a: Text, b: Text) {
    match s.precedence
    case EnvConfigDefault => a.on != b.on
    case DocdbSwitch => Known(k) !in cfg && a.on != b.on
    case ConfigOnly => false
    case EnvFirst => CoerceText(s.kind, a) != CoerceText(s.kind, b)
    case ConfigEnvDefault => Known(k) !in cfg && CoerceText(s.kind, a) != CoerceText(s.kind, b)
  }

  /** A shell variable can also hide a value of `.env` that would rise tonight: whichever class
      that reads the environment a setting has, the contract then needs the shell exactly when
      the setting reads different values from the two texts. */
  lemma ShellMayHideTheFile(t: seq<Setting>, k: nat, cfg: Config, shell: Env, project: Env, profile: nat, runAt: nat)
    requires TableOk(t) && |t| > PUBLISH_CATALOG && k < |t| && k > 0
    requires t[k].precedence != ConfigOnly && t[k].names == [Var(k)]
    requires Var(k) in shell && Var(k) in project && Var(k) !in ALLOWED
    requires t[k].precedence == EnvFirst ==> !shell[Var(k)].empty && !project[Var(k)].empty
    requires BuildContract(t, cfg, shell, project, profile, runAt).Some?
    ensures k in BuildContract(t, cfg, shell, project, profile, runAt).value.needsShell <==> ReadsApart(t[k], k, cfg, shell[Var(k)], project[Var(k)])
  {
    var now, tonight := Runtime(t, cfg, shell, project).value, Runtime(t, cfg, Scheduled(shell), project).value;
    PickAt(t, |t|, k, cfg, project + shell, shell);
    PickAt(t, |t|, k, cfg, project + Scheduled(shell), Scheduled(shell));
    assert Values(now)[k] == now[k].value && Values(tonight)[k] == tonight[k].value;
    hide Resolved, Runtime, ResolveOne;
    var before, after := Values(Resolved(t, k, cfg, project + shell, shell).value), Values(Resolved(t, k, cfg, project + Scheduled(shell), Scheduled(shell)).value);
    ReadFrom(t[k], k, cfg, project + shell, shell, before, now[k]);
    ReadFrom(t[k], k, cfg, project + Scheduled(shell), Scheduled(shell), after, tonight[k]);
  }

  /** What a setting of one variable that has text makes of it. */
  lemma ReadFrom(s: Setting, k: nat, cfg: Config, env: Env, shell: Env, settings: seq<Value>, pick: Pick)
    requires SettingOk(s, |settings|) && s.names == [Var(k)] && s.precedence != ConfigOnly && Var(k) in env
    requires s.precedence == EnvFirst ==> !env[Var(k)].empty
    requires ResolveOne(s, k, cfg, env, shell, settings) == Some(pick)
    ensures match s.precedence
            case EnvConfigDefault => pick.value == VBool(env[Var(k)].on)
            case DocdbSwitch => pick.value == VBool(if Known(k) in cfg then JsonTruth(cfg[Known(k)]) else env[Var(k)].on)
            case ConfigOnly => true
            case EnvFirst => CoerceText(s.kind, env[Var(k)]) == Some(pick.value)
            case ConfigEnvDefault => (if Known(k) in cfg then Coerce(s.kind, cfg[Known(k)]) else CoerceText(s.kind, env[Var(k)])) == Some(pick.value)
  {
    hide Coerce, CoerceText, DefaultValue;
  }

  /** Position `k` of a resolved table is the resolution of setting `k` from those before. */
  lemma {:induction false} PickAt(t: seq<Setting>, n: nat, k: nat, cfg: Config, env: Env, shell: Env)
    requires TableOk(t) && k < n <= |t| && Resolved(t, n, cfg, env, shell).Some?
    ensures Resolved(t, k, cfg, env, shell).Some?
    ensures ResolveOne(t[k], k, cfg, env, shell, Values(Resolved(t, k, cfg, env, shell).value)) == Some(Resolved(t, n, cfg, env, shell).value[k])
    decreases n
  {
    if k < n - 1 { PickAt(t, n - 1, k, cfg, env, shell); }
  }
}
