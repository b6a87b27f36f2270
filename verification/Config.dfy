/** Ballista's settings: texts in a map, read through typed getters that fall back to defaults. */
module Config {
  import opened Wrappers

  datatype DataType = UInt16 | UInt32 | UInt64 | Boolean | Utf8 | Float64

  /** A float is an opaque value of the library that reads and prints it. */
  datatype Value = Usize(number: nat) | Bool(truth: bool) | Text(text: string) | Float(id: int)

  datatype Entry = Entry(dataType: DataType, default: Option<string>)

  /** The table of known settings. Its defaults may differ between machines. */
  type Table = map<string, Entry>
  type Settings = map<string, string>

  /** Reading and printing floats, as the library does it. */
  datatype Floats = Floats(parse: string -> Option<int>, render: int -> string)

  // ---------------------------------------------------------------------------
  // Texts and numbers
  // ---------------------------------------------------------------------------

  const USIZE_LIMIT: nat := 0x1_0000_0000_0000_0000

  predicate Digits(s: string) {
    forall i | 0 <= i < |s| :: '0' <= s[i] <= '9'
  }

  function Decimal(s: string): nat
    requires Digits(s)
  {
    if s == [] then 0 else 10 * Decimal(s[..|s| - 1]) + (s[|s| - 1] as int - '0' as int)
  }

  function ParseUsize(s: string): Option<nat> {
    var t := if |s| > 1 && s[0] == '+' then s[1..] else s;
    if t == [] || !Digits(t) || Decimal(t) >= USIZE_LIMIT then None else Some(Decimal(t))
  }

  function ToText(n: nat): (s: string)
    ensures s != [] && Digits(s)
  {
    var last := [('0' as int + n % 10) as char];
    if n < 10 then last else ToText(n / 10) + last
  }

  lemma {:induction false} DecimalOfText(n: nat)
    ensures Decimal(ToText(n)) == n
  {
    var s := ToText(n);
    if n < 10 {
      assert Decimal(s[..0]) == 0;
    } else {
      DecimalOfText(n / 10);
      assert s[..|s| - 1] == ToText(n / 10);
    }
  }

  function Parse(f: Floats, t: DataType, s: string): Option<Value> {
    match t
    case Boolean => if s == "true" then Some(Bool(true)) else if s == "false" then Some(Bool(false)) else None
    case Utf8 => Some(Text(s))
    case Float64 => (match f.parse(s) case Some(x) => Some(Float(x)) case None => None)
    case _ => (match ParseUsize(s) case Some(n) => Some(Usize(n)) case None => None)
  }

  function Print(f: Floats, v: Value): string {
    match v
    case Usize(n) => ToText(n)
    case Bool(b) => if b then "true" else "false"
    case Text(s) => s
    case Float(x) => f.render(x)
  }

  /** A value that a setter for this type may be given. */
  predicate Fits(f: Floats, t: DataType, v: Value) {
    match t
    case Boolean => v.Bool?
    case Utf8 => v.Text?
    case Float64 => v.Float? && f.parse(f.render(v.id)) == Some(v.id)
    case _ => v.Usize? && v.number < USIZE_LIMIT
  }

  lemma ParsePrinted(f: Floats, t: DataType, v: Value)
    requires Fits(f, t, v)
    ensures Parse(f, t, Print(f, v)) == Some(v)
  {
    if v.Usize? {
      DecimalOfText(v.number);
      assert ToText(v.number)[0] != '+';
    }
  }

  // ---------------------------------------------------------------------------
  // Getters
  // ---------------------------------------------------------------------------

  function Effective(table: Table, settings: Settings, key: string): Option<string>
    requires key in table
  {
    if key in settings then Some(settings[key]) else table[key].default
  }

  /** What a typed getter returns; `None` is a panic. */
  function Get(f: Floats, table: Table, settings: Settings, key: string): Option<Value>
    requires key in table
  {
    match Effective(table, settings, key)
    case Some(s) => Parse(f, table[key].dataType, s)
    case None => None
  }

  predicate Parses(f: Floats, e: Entry, s: string) {
    Parse(f, e.dataType, s).Some?
  }

  /** The check that a configuration passes when it is made: every known setting, or else its
      default, parses. Unknown settings are not looked at. */
  predicate Sound(f: Floats, table: Table, settings: Settings) {
    forall key | key in table ::
      var s := Effective(table, settings, key); s.Some? ==> Parses(f, table[key], s.value)
  }

  method WithSettings(f: Floats, table: Table, settings: Settings) returns (r: Result<Settings, string>)
    ensures r.Ok? <==> Sound(f, table, settings)
    ensures r.Ok? ==> r.value == settings
    ensures r.Err? ==> r.error in table && Effective(table, settings, r.error).Some?
    ensures r.Err? ==> !Parses(f, table[r.error], Effective(table, settings, r.error).value)
  {
    var names := table.Keys;
    while names != {}
      invariant names <= table.Keys
      invariant forall key | key in table && key !in names ::
        var s := Effective(table, settings, key); s.Some? ==> Parses(f, table[key], s.value)
      decreases names
    {
      var name :| name in names;
      names := names - {name};
      var entry := table[name];
      if name in settings {
        if Parse(f, entry.dataType, settings[name]).None? {
          return Err(name);
        }
      } else if entry.default.Some? {
        if Parse(f, entry.dataType, entry.default.value).None? {
          return Err(name);
        }
      }
    }
    return Ok(settings);
  }

  /** No getter of a checked configuration panics, save that of a setting with no value at all. */
  lemma SoundGettersReturn(f: Floats, table: Table, settings: Settings, key: string)
    requires Sound(f, table, settings) && key in table
    ensures Get(f, table, settings, key).Some? <==> Effective(table, settings, key).Some?
  {
    var s := Effective(table, settings, key);
    if s.Some? { assert Parses(f, table[key], s.value); }
  }

  /** Setting afterwards is not checked: the getter panics from then on exactly when the text
      does not parse, and all other getters stay as they were. */
  lemma UncheckedSet(f: Floats, table: Table, settings: Settings, key: string, text: string)
    requires key in table
    ensures Get(f, table, settings[key := text], key).None? <==> !Parses(f, table[key], text)
    ensures forall other | other in table && other != key ::
      Get(f, table, settings[key := text], other) == Get(f, table, settings, other)
  {
  }
}
