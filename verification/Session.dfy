/** Session options: the engine's own, and Ballista's when the extension is present. They travel
    as key-value pairs from client to scheduler to executor and are replayed there. */
module Session {
  import opened Wrappers
  import opened Config

  /** `ballista` is the extension's settings map, `None` while the extension is absent. */
  datatype Options = Options(datafusion: map<string, string>, ballista: Option<Settings>)

  /** What a process runs with: the settings table, the float library, and the engine's rule for
      taking a text for one of its own options (the stored text, or a refusal). */
  datatype Process = Process(table: Table, floats: Floats, engine: (string, string) -> Option<string>)

  const BALLISTA_DOT := "ballista."

  /** The names in the table are all under Ballista's prefix. */
  predicate TableNames(table: Table) {
    forall key | key in table :: BALLISTA_DOT <= key
  }

  // ---------------------------------------------------------------------------
  // Setting one option by name
  // ---------------------------------------------------------------------------

  function FirstDot(s: string): (n: nat)
    ensures n <= |s|
  {
    if s == [] || s[0] == '.' then 0 else 1 + FirstDot(s[1..])
  }

  lemma {:induction false} DotAfter(a: string, b: string)
    requires '.' !in a
    ensures FirstDot(a + "." + b) == |a|
  {
    if a == [] {
      assert a + "." + b == "." + b;
    } else {
      assert (a + "." + b)[1..] == a[1..] + "." + b;
      DotAfter(a[1..], b);
    }
  }

  /** Setting an option: its namespace is what comes before the first dot. `None` is an error,
      which changes nothing. */
  function SetOption(p: Process, o: Options, key: string, value: string): Option<Options> {
    var n := FirstDot(key);
    if n == |key| then None
    else
      var namespace, rest := key[..n], key[n + 1..];
      if namespace == "datafusion" then
        (match p.engine(rest, value)
         case Some(text) => Some(o.(datafusion := o.datafusion[rest := text]))
         case None => None)
      else if namespace == "ballista" && o.ballista.Some? then
        var full := "ballista." + rest;
        if full in p.table then Some(o.(ballista := Some(o.ballista.value[full := value]))) else None
      else None
  }

  function TrySet(p: Process, o: Options, key: string, value: string): Options {
    var r := SetOption(p, o, key, value);
    if r.Some? then r.value else o
  }

  /** A known Ballista setting is stored under its name, and that is all that happens. */
  lemma SetBallista(p: Process, o: Options, key: string, value: string)
    requires key in p.table && BALLISTA_DOT <= key && o.ballista.Some?
    ensures SetOption(p, o, key, value) == Some(o.(ballista := Some(o.ballista.value[key := value])))
  {
    var rest := key[9..];
    assert key == BALLISTA_DOT + rest == "ballista" + "." + rest;
    DotAfter("ballista", rest);
    assert key[..8] == "ballista";
  }

  /** Any other name leaves Ballista's settings alone. */
  lemma SetElsewhere(p: Process, o: Options, key: string, value: string)
    requires key !in p.table
    ensures TrySet(p, o, key, value).ballista == o.ballista
  {
    var n := FirstDot(key);
    if n < |key| && key[..n] == "ballista" {
      FirstDotIsDot(key);
      assert key == key[..n] + "." + key[n + 1..] == "ballista." + key[n + 1..];
    }
  }

  lemma {:induction false} FirstDotIsDot(s: string)
    requires FirstDot(s) < |s|
    ensures s[FirstDot(s)] == '.'
  {
    if s[0] != '.' { FirstDotIsDot(s[1..]); }
  }

  // ---------------------------------------------------------------------------
  // Propagation
  // ---------------------------------------------------------------------------

  datatype Pair = Pair(key: string, value: Option<string>)

  predicate DistinctKeys(pairs: seq<Pair>) {
    forall i, j | 0 <= i < j < |pairs| :: pairs[i].key != pairs[j].key
  }

  /** `pairs` is an export of `o`: every Ballista setting once with its value or default, in any
      order, among any pairs of other namespaces. */
  ghost predicate IsExport(p: Process, o: Options, pairs: seq<Pair>) {
    && o.ballista.Some?
    && DistinctKeys(pairs)
    && (forall key | key in p.table :: exists i :: 0 <= i < |pairs| && pairs[i].key == key)
    && (forall i | 0 <= i < |pairs| && pairs[i].key in p.table ::
          pairs[i].value == Effective(p.table, o.ballista.value, pairs[i].key))
  }

  const NORMALIZATION := "datafusion." + "sql_parser.enable_options_value_normalization"

  function Sent(pairs: seq<Pair>): (r: seq<Pair>)
    ensures forall x :: x in r <==> x in pairs && x.key != NORMALIZATION
  {
    if pairs == [] then []
    else if pairs[0].key != NORMALIZATION then [pairs[0]] + Sent(pairs[1..])
    else Sent(pairs[1..])
  }

  /** The pairs a sender makes, with its settings enumerated in some `order` after the engine's. */
  function Export(p: Process, o: Options, engine: seq<Pair>, order: seq<string>): seq<Pair>
    requires o.ballista.Some? && forall i | 0 <= i < |order| :: order[i] in p.table
  {
    Sent(engine + seq(|order|, i requires 0 <= i < |order| => Pair(order[i], Effective(p.table, o.ballista.value, order[i]))))
  }

  lemma {:induction false} SentKeepsDistinct(pairs: seq<Pair>)
    requires DistinctKeys(pairs)
    ensures DistinctKeys(Sent(pairs))
  {
    if pairs != [] {
      SentKeepsDistinct(pairs[1..]);
      var rest := Sent(pairs[1..]);
      assert forall j | 0 <= j < |rest| :: rest[j] in pairs[1..];
    }
  }

  lemma ExportIsExport(p: Process, o: Options, engine: seq<Pair>, order: seq<string>)
    requires o.ballista.Some? && TableNames(p.table)
    requires DistinctKeys(engine) && forall i | 0 <= i < |engine| :: "datafusion." <= engine[i].key
    requires (forall i, j | 0 <= i < j < |order| :: order[i] != order[j]) && (set k <- order) == p.table.Keys
    ensures (forall i | 0 <= i < |order| :: order[i] in p.table) && IsExport(p, o, Export(p, o, engine, order))
  {
    assert forall i | 0 <= i < |order| :: order[i] in (set k <- order);
    var own := seq(|order|, i requires 0 <= i < |order| => Pair(order[i], Effective(p.table, o.ballista.value, order[i])));
    var all := engine + own;
    forall i | 0 <= i < |own| ensures own[i].key != [] && own[i].key[0] == 'b' {
      assert order[i] in p.table && BALLISTA_DOT <= order[i] && BALLISTA_DOT[0] == 'b';
    }
    forall i | 0 <= i < |engine| ensures engine[i].key != [] && engine[i].key[0] == 'd' {
      assert "datafusion." <= engine[i].key && "datafusion."[0] == 'd';
    }
    assert NORMALIZATION[0] == "datafusion."[0] == 'd';
    SentKeepsDistinct(all);
    var pairs := Sent(all);
    forall key | key in p.table ensures exists i :: 0 <= i < |pairs| && pairs[i].key == key {
      var j :| 0 <= j < |order| && order[j] == key;
      assert own[j] in all by { assert all[|engine| + j] == own[j]; }
      assert own[j] in pairs;
    }
    forall i | 0 <= i < |pairs| && pairs[i].key in p.table
      ensures pairs[i].value == Effective(p.table, o.ballista.value, pairs[i].key)
    {
      assert pairs[i] in all;
    }
  }

  function Replay(p: Process, o: Options, pairs: seq<Pair>): Options {
    if pairs == [] then o
    else
      var last := pairs[|pairs| - 1];
      var before := Replay(p, o, pairs[..|pairs| - 1]);
      if last.value.Some? then TrySet(p, before, last.key, last.value.value) else before
  }

  class SessionConfig {
    const process: Process
    var options: Options

    constructor (process: Process, options: Options)
      ensures this.process == process && this.options == options
    {
      this.process, this.options := process, options;
    }

    /** Pairs without a value are skipped, and so are those that cannot be set. */
    method UpdateFromPairs(pairs: seq<Pair>)
      modifies this
      ensures options == Replay(process, old(options), pairs)
    {
      for i := 0 to |pairs|
        invariant options == Replay(process, old(options), pairs[..i])
      {
        assert pairs[..i + 1][..i] == pairs[..i];
        var Pair(key, value) := pairs[i];
        if value.Some? {
          var r := SetOption(process, options, key, value.value);
          if r.Some? {
            options := r.value;
          }
        }
      }
      assert pairs[..|pairs|] == pairs;
    }
  }

  /** The value that `pairs` carry for `key`. */
  function Carried(pairs: seq<Pair>, key: string): Option<string> {
    if pairs == [] then None
    else if pairs[|pairs| - 1].key == key && pairs[|pairs| - 1].value.Some? then pairs[|pairs| - 1].value
    else Carried(pairs[..|pairs| - 1], key)
  }

  lemma {:induction false} ReplayCarries(p: Process, o: Options, pairs: seq<Pair>, key: string)
    requires TableNames(p.table) && o.ballista.Some? && key in p.table
    ensures var r := Replay(p, o, pairs);
      r.ballista.Some? &&
      match Carried(pairs, key)
      case Some(text) => key in r.ballista.value && r.ballista.value[key] == text
      case None => (key in r.ballista.value <==> key in o.ballista.value) &&
                   (key in o.ballista.value ==> r.ballista.value[key] == o.ballista.value[key])
  {
    if pairs != [] {
      var last, earlier := pairs[|pairs| - 1], pairs[..|pairs| - 1];
      ReplayCarries(p, o, earlier, key);
      if last.value.Some? {
        if last.key in p.table { SetBallista(p, Replay(p, o, earlier), last.key, last.value.value); }
        else { SetElsewhere(p, Replay(p, o, earlier), last.key, last.value.value); }
      }
    }
  }

  lemma {:induction false} CarriedOnce(pairs: seq<Pair>, i: nat)
    requires DistinctKeys(pairs) && i < |pairs|
    ensures Carried(pairs, pairs[i].key) == pairs[i].value
  {
    var n := |pairs| - 1;
    if i < n {
      assert pairs[..n][i] == pairs[i] && pairs[n].key != pairs[i].key;
      CarriedOnce(pairs[..n], i);
    } else if pairs[n].value.None? {
      CarriedNever(pairs[..n], pairs[n].key);
    }
  }

  lemma {:induction false} CarriedNever(pairs: seq<Pair>, key: string)
    requires forall i | 0 <= i < |pairs| :: pairs[i].key != key
    ensures Carried(pairs, key) == None
  {
    if pairs != [] { CarriedNever(pairs[..|pairs| - 1], key); }
  }

  /** Two processes of one release know the same settings with the same types; their defaults
      may differ. */
  ghost predicate SameRelease(p: Process, q: Process) {
    p.table.Keys == q.table.Keys && p.floats == q.floats &&
    forall key | key in p.table :: p.table[key].dataType == q.table[key].dataType
  }

  /** The main result. Replayed in any order on any receiver that has the extension, a sender's
      pairs make every getter return what it returns at the sender, whose own defaults travel
      along. A setting without value and default at the sender stays as it was at the receiver. */
  lemma PropagationIsFaithful(p: Process, sender: Options, q: Process, receiver: Options, pairs: seq<Pair>, key: string)
    requires SameRelease(p, q) && TableNames(p.table) && TableNames(q.table)
    requires IsExport(p, sender, pairs) && receiver.ballista.Some? && key in p.table
    ensures var r := Replay(q, receiver, pairs);
      r.ballista.Some? &&
      if Effective(p.table, sender.ballista.value, key).Some? then
        && Effective(q.table, r.ballista.value, key) == Effective(p.table, sender.ballista.value, key)
        && Get(q.floats, q.table, r.ballista.value, key) == Get(p.floats, p.table, sender.ballista.value, key)
      else Effective(q.table, r.ballista.value, key) == Effective(q.table, receiver.ballista.value, key)
  {
    assert key in q.table;
    ReplayCarries(q, receiver, pairs, key);
    var i :| 0 <= i < |pairs| && pairs[i].key == key;
    CarriedOnce(pairs, i);
  }

  // ---------------------------------------------------------------------------
  // Generated setters and getters
  // ---------------------------------------------------------------------------

  function GetOf(p: Process, o: Options, key: string): Option<Value>
    requires key in p.table
  {
    Get(p.floats, p.table, if o.ballista.Some? then o.ballista.value else map[], key)
  }

  function WithExtension(o: Options): Options {
    if o.ballista.Some? then o else o.(ballista := Some(map[]))
  }

  /** A setter puts the extension in place first. */
  function WithValue(p: Process, o: Options, key: string, v: Value): Options {
    TrySet(p, WithExtension(o), key, Print(p.floats, v))
  }

  lemma SetterLaw(p: Process, o: Options, key: string, v: Value)
    requires TableNames(p.table) && key in p.table && Fits(p.floats, p.table[key].dataType, v)
    ensures var r := WithValue(p, o, key, v);
      && GetOf(p, r, key) == Some(v)
      && (forall other | other in p.table && other != key :: GetOf(p, r, other) == GetOf(p, o, other))
      && r.datafusion == o.datafusion
  {
    SetBallista(p, WithExtension(o), key, Print(p.floats, v));
    ParsePrinted(p.floats, p.table[key].dataType, v);
  }

  // ---------------------------------------------------------------------------
  // Upgrading a session for Ballista
  // ---------------------------------------------------------------------------

  /** The engine options that the first upgrade fixes, under the engine's namespace. */
  const RESTRICTED: map<string, string> := map[
    "optimizer.enable_round_robin_repartition" := "false",
    "execution.parquet.schema_force_view_types" := "false",
    "sql_parser.map_string_types_to_utf8view" := "false",
    "optimizer.hash_join_single_partition_threshold" := "134217728",
    "optimizer.hash_join_single_partition_threshold_rows" := "1000000",
    "optimizer.prefer_hash_join" := "false",
    "optimizer.enable_physical_uncorrelated_scalar_subquery" := "false",
    "optimizer.enable_dynamic_filter_pushdown" := "false"]

  function Upgrade(o: Options): Options {
    if o.ballista.Some? then o else Options(o.datafusion + RESTRICTED, Some(map[]))
  }

  /** What a user may do with a session. */
  datatype Action = Assign(key: string, value: string) | Setter(key: string, v: Value) | UpgradeAgain

  function Act(p: Process, o: Options, a: Action): Options {
    match a
    case Assign(key, value) => TrySet(p, o, key, value)
    case Setter(key, v) => WithValue(p, o, key, v)
    case UpgradeAgain => Upgrade(o)
  }

  function ActAll(p: Process, o: Options, actions: seq<Action>): Options {
    if actions == [] then o else Act(p, ActAll(p, o, actions[..|actions| - 1]), actions[|actions| - 1])
  }

  function WithoutUpgrades(actions: seq<Action>): seq<Action> {
    if actions == [] then []
    else
      var rest := WithoutUpgrades(actions[..|actions| - 1]);
      if actions[|actions| - 1].UpgradeAgain? then rest else rest + [actions[|actions| - 1]]
  }

  lemma ActKeepsExtension(p: Process, o: Options, a: Action)
    requires o.ballista.Some?
    ensures Act(p, o, a).ballista.Some?
    ensures a.UpgradeAgain? ==> Act(p, o, a) == o
  {
  }

  lemma {:induction false} UpgradesAreSkipped(p: Process, o: Options, actions: seq<Action>)
    requires o.ballista.Some?
    ensures ActAll(p, o, actions) == ActAll(p, o, WithoutUpgrades(actions))
    ensures ActAll(p, o, actions).ballista.Some?
  {
    if actions != [] {
      var n := |actions| - 1;
      UpgradesAreSkipped(p, o, actions[..n]);
      ActKeepsExtension(p, ActAll(p, o, actions[..n]), actions[n]);
      if !actions[n].UpgradeAgain? {
        var rest := WithoutUpgrades(actions[..n]);
        assert (rest + [actions[n]])[..|rest|] == rest;
      }
    }
  }

  /** After a first upgrade, further upgrades anywhere among the user's settings change nothing. */
  lemma FurtherUpgradesChangeNothing(p: Process, o: Options, actions: seq<Action>)
    ensures ActAll(p, Upgrade(o), actions) == ActAll(p, Upgrade(o), WithoutUpgrades(actions))
  {
    UpgradesAreSkipped(p, Upgrade(o), actions);
  }

  predicate HasRestrictions(o: Options) {
    forall key | key in RESTRICTED :: key in o.datafusion && o.datafusion[key] == RESTRICTED[key]
  }

  /** An upgraded session has Ballista's engine options exactly when the extension was absent
      before, or they were there already. */
  lemma UpgradeRestrictsIff(o: Options)
    ensures HasRestrictions(Upgrade(o)) <==> o.ballista.None? || HasRestrictions(o)
  {
  }

  /** So a single Ballista setter used before the upgrade keeps those options from being applied. */
  lemma SetterBeforeUpgrade(p: Process, o: Options, key: string, v: Value)
    requires TableNames(p.table) && key in p.table && Fits(p.floats, p.table[key].dataType, v)
    ensures Upgrade(WithValue(p, o, key, v)).datafusion == o.datafusion
    ensures HasRestrictions(Upgrade(WithValue(p, o, key, v))) <==> HasRestrictions(o)
  {
    SetterLaw(p, o, key, v);
    SetBallista(p, WithExtension(o), key, Print(p.floats, v));
  }
}
