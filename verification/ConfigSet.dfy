/** `deadeye config set`: the registry of settings, validation, and the write
    that keeps every other setting. */
module ConfigSet {
  import opened Wrappers
  import opened Floats
  import opened Text
  import opened RawConfig

  datatype Kind = Enum(allowed: seq<string>) | Bool | Int | Num | Free

  /** A setting; its key is section.name, or the name alone at the top level. */
  datatype Tunable = Tunable(section: string, name: string, kind: Kind)

  function Key(t: Tunable): string {
    if t.section == "" then t.name else t.section + ['.'] + t.name
  }

  const OFF_ON := Enum(["off", "on"])
  const THEMES := Enum(["auto", "marksman", "nightvision", "highnoon", "blueprint", "ghost", "tokyonight", "catppuccin",
                        "rosepine", "gruvbox", "dracula", "nord", "kanagawa", "everforest", "synthwave", "solarized", "dawn"])

  const ROUTING_SETTINGS := [
    Tunable("mode", "routing", Enum(["off", "advise", "enforce"])),
    Tunable("mode", "effort", Enum(["off", "advise", "enforce"])),
    Tunable("mode", "preprocess", OFF_ON),
    Tunable("mode", "plan_gate", Enum(["off", "soft", "hard"])),
    Tunable("mode", "workflow_hint", OFF_ON),
    Tunable("mode", "codemap", OFF_ON)]

  const CHECK_SETTINGS := [
    Tunable("mode", "update_check", OFF_ON),
    Tunable("mode", "routing_judge", OFF_ON),
    Tunable("mode", "catalog_check", OFF_ON),
    Tunable("mode", "tier_sample", OFF_ON),
    Tunable("mode", "mod", OFF_ON)]

  const MOD_SETTINGS := [
    Tunable("mod", "theme", THEMES),
    Tunable("mod", "repaint", OFF_ON),
    Tunable("mod", "background", OFF_ON),
    Tunable("mod", "hud", Enum(["auto", "full", "deadeye", "off"])),
    Tunable("mod", "tips", OFF_ON),
    Tunable("mod", "sounds", OFF_ON),
    Tunable("mod", "notify", OFF_ON)]

  const CODER_SETTINGS := [
    Tunable("coder", "default_level", Enum(["off", "spotter", "marksman", "sniper"])),
    Tunable("coder", "security", Enum(["off", "advise", "ask"])),
    Tunable("coder", "security_osv", Bool),
    Tunable("coder", "subagent_matcher", Free),
    Tunable("security", "exfil", Enum(["off", "advise", "ask"]))]

  const TOP_SETTINGS := [
    Tunable("", "downshift_threshold", Num),
    Tunable("", "injection_budget_tokens", Int)]

  const BUDGET_SETTINGS := [
    Tunable("coder", "injection_budget_tokens", Int),
    Tunable("plan_gate", "min_files", Int),
    Tunable("tier_sample", "rate", Int)]

  const TUNABLES := ROUTING_SETTINGS + CHECK_SETTINGS + MOD_SETTINGS + CODER_SETTINGS
                     + TOP_SETTINGS + BUDGET_SETTINGS

  function FirstWithKey(ts: seq<Tunable>, key: string): Option<Tunable> {
    if ts == [] then None else if Key(ts[0]) == key then Some(ts[0]) else FirstWithKey(ts[1..], key)
  }

  method FindIn(ts: seq<Tunable>, key: string) returns (t: Option<Tunable>)
    ensures t == FirstWithKey(ts, key)
  {
    for i := 0 to |ts|
      invariant FirstWithKey(ts[i..], key) == FirstWithKey(ts, key)
    {
      if Key(ts[i]) == key {
        return Some(ts[i]);
      }
    }
    return None;
  }

  method FindTunable(key: string) returns (t: Option<Tunable>)
    ensures t == FirstWithKey(TUNABLES, key)
  {
    t := FindIn(TUNABLES, key);
  }

  // ---- validation ----

  /** strconv.ParseBool. */
  function ParseBool(s: string): Option<bool> {
    if s in {"1", "t", "T", "TRUE", "true", "True"} then Some(true)
    else if s in {"0", "f", "F", "FALSE", "false", "False"} then Some(false)
    else None
  }

  /** The value stored for a text, None when it is refused. `number` is what
      strconv.ParseFloat makes of the text. */
  function Coerced(kind: Kind, text: string, number: Option<F64>): Option<Value> {
    match kind
    case Enum(allowed) => if text in allowed then Some(Str(text)) else None
    case Bool => var b := ParseBool(text); if b.Some? then Some(Boolean(b.value)) else None
    case Int => var n := Atoi(text); if n.Some? then Some(Whole(n.value)) else None
    case Num =>
      if number.None? || number.value.NaN? || Less(number.value, ZERO) || Less(ONE, number.value) then None
      else Some(Number(number.value))
    case Free => Some(Str(text))
  }

  /** What is accepted, and stored for it, kind by kind. */
  lemma Accepts(kind: Kind, text: string, number: Option<F64>)
    ensures kind.Enum? ==> Coerced(kind, text, number) == if text in kind.allowed then Some(Str(text)) else None
    ensures kind.Bool? ==>
      && (Coerced(kind, text, number) == Some(Boolean(true)) <==> text in {"1", "t", "T", "TRUE", "true", "True"})
      && (Coerced(kind, text, number) == Some(Boolean(false)) <==> text in {"0", "f", "F", "FALSE", "false", "False"})
      && (Coerced(kind, text, number).Some? <==>
            text in {"1", "t", "T", "TRUE", "true", "True", "0", "f", "F", "FALSE", "false", "False"})
    ensures kind.Num? ==>
      && (Coerced(kind, text, number).Some? <==> number.Some? && number.value.Fin? && 0.0 <= number.value.r <= 1.0)
      && (Coerced(kind, text, number).Some? ==> Coerced(kind, text, number).value == Number(number.value))
    ensures kind.Free? ==> Coerced(kind, text, number) == Some(Str(text))
  {
    assert "1"[0] == '1' && "t"[0] == 't' && "T"[0] == 'T' && "TRUE"[0] == 'T' && "true"[0] == 't' && "True"[0] == 'T';
    assert "0"[0] == '0' && "f"[0] == 'f' && "F"[0] == 'F' && "FALSE"[0] == 'F' && "false"[0] == 'f' && "False"[0] == 'F';
  }

  /** A whole number that fits 64 bits is stored, with its sign; a larger one refused. */
  lemma AcceptsWhole(n: nat, number: Option<F64>)
    ensures n <= 0x7FFF_FFFF_FFFF_FFFF ==>
      Coerced(Int, Itoa(n), number) == Some(Whole(n)) && Coerced(Int, "-" + Itoa(n), number) == Some(Whole(0 - n))
    ensures n > 0x8000_0000_0000_0000 ==> Coerced(Int, Itoa(n), number) == None && Coerced(Int, "-" + Itoa(n), number) == None
  {
    AtoiSigned(n);
  }

  // ---- the file ----

  /** What is at the path of config.json. Broken does not parse as an object;
      Null parses, as the JSON null. */
  datatype File = Missing | Unreadable | Blank | Broken | Null | Holds(mem: Memory)

  /** The document a write starts from. */
  function Loaded(f: File): Option<Memory> {
    match f
    case Missing => Some([map[]])
    case Blank => Some([map[]])
    case Holds(mem) => Some(mem)
    case _ => None
  }

  ghost predicate FileOk(f: File) { f.Holds? ==> Valid(f.mem) }

  datatype Attempt = Attempt(key: string, text: string, number: Option<F64>, writes: bool)

  function ValueOf(a: Attempt): Option<Value> {
    var t := FirstWithKey(TUNABLES, a.key);
    if t.None? then None else Coerced(t.value.kind, a.text, a.number)
  }

  predicate Accepted(f: File, a: Attempt) { ValueOf(a).Some? && Loaded(f).Some? && a.writes }

  function PathOf(key: string): (p: Path)
    ensures p != []
  {
    Split(key, '.')
  }

  /** The file after one attempt. */
  function AfterSet(f: File, a: Attempt): File
    requires Loaded(f).Some? ==> Loaded(f).value != []
  {
    if Accepted(f, a) then Holds(Put(Loaded(f).value, 0, PathOf(a.key), ValueOf(a).value)) else f
  }

  datatype Outcome = Done | UnknownKey | BadValue | LoadFailed | Panicked | WriteFailed

  class ConfigFile {
    var file: File

    constructor (file: File)
      requires FileOk(file)
      ensures this.file == file
    {
      this.file := file;
    }

    /** Whether the temporary file can be written and renamed is `a.writes`. */
    method ConfigSet(a: Attempt) returns (o: Outcome)
      requires FileOk(file)
      modifies this
      ensures FileOk(file)
      ensures file == AfterSet(old(file), a)
      ensures o == Done <==> Accepted(old(file), a)
      ensures o == Done <==> ValueOf(a).Some? && a.writes && (old(file).Missing? || old(file).Blank? || old(file).Holds?)
      ensures o != Done ==> file == old(file)
      ensures o == UnknownKey <==> FirstWithKey(TUNABLES, a.key).None?
      ensures o == BadValue <==> FirstWithKey(TUNABLES, a.key).Some? && ValueOf(a).None?
      ensures o == Panicked <==> ValueOf(a).Some? && old(file) == Null
    {
      var t := FindTunable(a.key);
      if t.None? {
        return UnknownKey;
      }
      var coerced := Coerced(t.value.kind, a.text, a.number);
      if coerced.None? {
        return BadValue;
      }
      if file.Null? {
        return Panicked;  // the decoder leaves a nil map, and storing in one panics
      }
      if file.Unreadable? || file.Broken? {
        return LoadFailed;
      }
      EmptyDocument();
      var doc := new Document(if file.Holds? then file.mem else [map[]]);
      doc.RawSet(Split(a.key, '.'), coerced.value);
      if !a.writes {
        return WriteFailed;
      }
      SetThenGet(Loaded(file).value, PathOf(a.key), coerced.value);
      file := Holds(doc.mem);
      return Done;
    }
  }

  lemma EmptyDocument()
    ensures Valid([map[]])
  {
    forall p ensures Get([map[]], p) == if p == [] then Some(Sub(0)) else None {
      EmptyReads(p);
    }
  }

  lemma {:induction false} EmptyReads(p: Path)
    ensures Get([map[]], p) == if p == [] then Some(Sub(0)) else None
    decreases |p|
  {
    if p != [] { EmptyReads(p[..|p| - 1]); }
  }

  // ---- the settings do not overlap ----

  predicate Undotted(s: string) { '.' !in s }

  const TOP := {"downshift_threshold", "injection_budget_tokens"}

  predicate Shaped(t: Tunable) {
    Undotted(t.section) && Undotted(t.name) && t.section !in TOP && (t.section == "" ==> t.name in TOP)
  }

  lemma RoutingShape()
    ensures forall t :: t in ROUTING_SETTINGS ==> Shaped(t)
  {}

  lemma CheckShape()
    ensures forall t :: t in CHECK_SETTINGS ==> Shaped(t)
  {}

  lemma ModShape()
    ensures forall t :: t in MOD_SETTINGS ==> Shaped(t)
  {}

  lemma CoderShape()
    ensures forall t :: t in CODER_SETTINGS ==> Shaped(t)
  {}

  lemma TopShape()
    ensures forall t :: t in TOP_SETTINGS ==> Shaped(t)
  {}

  lemma BudgetShape()
    ensures forall t :: t in BUDGET_SETTINGS ==> Shaped(t)
  {}

  lemma KeyPath(t: Tunable)
    requires Undotted(t.section) && Undotted(t.name)
    ensures PathOf(Key(t)) == if t.section == "" then [t.name] else [t.section, t.name]
  {
    SplitHead(t.name, "", '.');
    SplitHead(t.section, t.name, '.');
  }

  lemma {:induction false} KeyFound(ts: seq<Tunable>, key: string)
    ensures FirstWithKey(ts, key).Some? ==> FirstWithKey(ts, key).value in ts && Key(FirstWithKey(ts, key).value) == key
  {
    if ts != [] { KeyFound(ts[1..], key); }
  }

  predicate Known(key: string) { FirstWithKey(TUNABLES, key).Some? }

  /** A setting of the top level, or one inside a section; no section is named
      like a top-level setting. */
  predicate Placed(p: Path) { (|p| == 1 && p[0] in TOP) || (|p| == 2 && p[0] !in TOP) }

  lemma TableShape(t: Tunable)
    requires t in TUNABLES
    ensures Shaped(t)
  {
    RoutingShape();
    CheckShape();
    ModShape();
    CoderShape();
    TopShape();
    BudgetShape();
  }

  lemma ShapedPlaced(t: Tunable)
    requires Shaped(t)
    ensures Placed(PathOf(Key(t)))
  {
    KeyPath(t);
  }

  lemma KnownPlaced(key: string)
    requires Known(key)
    ensures Placed(PathOf(key))
  {
    var t := FirstWithKey(TUNABLES, key).value;
    KeyFound(TUNABLES, key);
    TableShape(t);
    ShapedPlaced(t);
  }

  lemma PlacedApart(p: Path, q: Path)
    requires Placed(p) && Placed(q) && p != q
    ensures !Related(p, q)
  {}

  /** No setting's place in the document contains another's. */
  lemma KeysApart(k: string, l: string)
    requires Known(k) && Known(l) && k != l
    ensures !Related(PathOf(k), PathOf(l))
  {
    KnownPlaced(k);
    KnownPlaced(l);
    JoinSplit(k, '.');
    JoinSplit(l, '.');
    PlacedApart(PathOf(k), PathOf(l));
  }

  // ---- runs ----

  function AfterRun(f: File, run: seq<Attempt>): (g: File)
    requires Loaded(f).Some? ==> Loaded(f).value != []
    ensures Loaded(g).Some? ==> Loaded(g).value != []
    ensures Loaded(f).Some? <==> Loaded(g).Some?
    decreases |run|
  {
    if run == [] then f
    else
      var before, a := AfterRun(f, run[..|run| - 1]), run[|run| - 1];
      if Accepted(before, a) then
        PutGrows(Loaded(before).value, 0, PathOf(a.key), ValueOf(a).value);
        AfterSet(before, a)
      else AfterSet(before, a)
  }

  function Reading(f: File, q: Path): Option<Cell> {
    if Loaded(f).Some? then Get(Loaded(f).value, q) else None
  }

  /** The last attempt on a key that is valid and gets written. */
  function LastValid(run: seq<Attempt>, key: string): Option<Value> {
    if run == [] then None
    else
      var a := run[|run| - 1];
      if a.key == key && a.writes && ValueOf(a).Some? then ValueOf(a) else LastValid(run[..|run| - 1], key)
  }

  /** One attempt: what is read afterwards, at its own place and at a place apart. */
  lemma OneAttempt(f: File, a: Attempt, q: Path)
    requires FileOk(f) && Loaded(f).Some? && Loaded(f).value != []
    ensures FileOk(AfterSet(f, a)) && Loaded(AfterSet(f, a)).Some?
    ensures a.writes && ValueOf(a).Some? && q == PathOf(a.key) ==> Reading(AfterSet(f, a), q) == Some(Leaf(ValueOf(a).value))
    ensures !(a.writes && ValueOf(a).Some?) || !Related(PathOf(a.key), q) ==> Reading(AfterSet(f, a), q) == Reading(f, q)
  {
    if Accepted(f, a) {
      EmptyDocument();
      SetThenGet(Loaded(f).value, PathOf(a.key), ValueOf(a).value);
    }
  }

  /** Over any run of attempts on a file that loads, each setting reads as its
      last valid attempt wrote it, or as at the start when there is none. */
  lemma {:induction false} SettingsIndependent(f: File, run: seq<Attempt>, key: string)
    requires FileOk(f) && Loaded(f).Some? && Known(key)
    ensures FileOk(AfterRun(f, run))
    ensures Reading(AfterRun(f, run), PathOf(key)) ==
      if LastValid(run, key).Some? then Some(Leaf(LastValid(run, key).value)) else Reading(f, PathOf(key))
    decreases |run|
  {
    if run != [] {
      var a := run[|run| - 1];
      SettingsIndependent(f, run[..|run| - 1], key);
      OneAttempt(AfterRun(f, run[..|run| - 1]), a, PathOf(key));
      if a.key != key && ValueOf(a).Some? { KeysApart(a.key, key); }
    }
  }

  /** Whatever else the document holds reads as at the start: every path that
      neither contains nor lies below a setting an attempt wrote. */
  lemma {:induction false} OthersPreserved(f: File, run: seq<Attempt>, q: Path)
    requires FileOk(f) && Loaded(f).Some?
    requires forall a :: a in run && a.writes && ValueOf(a).Some? ==> !Related(PathOf(a.key), q)
    ensures FileOk(AfterRun(f, run)) && Reading(AfterRun(f, run), q) == Reading(f, q)
    decreases |run|
  {
    if run != [] {
      var a := run[|run| - 1];
      assert a in run;
      OthersPreserved(f, run[..|run| - 1], q);
      OneAttempt(AfterRun(f, run[..|run| - 1]), a, q);
    }
  }

  /** Where there was nothing, the file then holds the setting and nothing else. */
  lemma FirstSetting(f: File, a: Attempt, q: Path)
    requires (f.Missing? || f.Blank?) && ValueOf(a).Some? && a.writes
    ensures var after := AfterSet(f, a);
      && after.Holds? && Valid(after.mem)
      && Get(after.mem, PathOf(a.key)) == Some(Leaf(ValueOf(a).value))
      && (!(q <= PathOf(a.key)) ==> Get(after.mem, q) == None)
  {
    EmptyDocument();
    EmptyReads(q);
    SetThenGet([map[]], PathOf(a.key), ValueOf(a).value);
  }

  /** A file that exists and does not load is never written. */
  lemma {:induction false} BrokenUntouched(f: File, run: seq<Attempt>)
    requires f.Unreadable? || f.Broken? || f.Null?
    ensures AfterRun(f, run) == f
    decreases |run|
  {
    if run != [] { BrokenUntouched(f, run[..|run| - 1]); }
  }
}
