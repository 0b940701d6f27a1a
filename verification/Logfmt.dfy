/** The printer of structured tags: what `StructuredFormatter.logfmt` makes of a dict. */
module Logfmt {
  import opened Options
  import opened Sequences

  /**
    A python value, as far as the printer tells values apart. `Bytes` carries what decoding it as UTF-8
    gives, if it can be decoded. `Other` is any value of another type, with the text of that type.
   */
  datatype Value =
    | Str(s: string)
    | Bytes(decoded: Option<string>)
    | Bool(b: bool)
    | Int(i: int)
    | Dict(items: seq<(Value, Value)>)
    | Other(typeText: string, truthy: bool)

  const MAX_KEY_SIZE: nat := 256
  const MAX_VALUE_SIZE: nat := 1024
  const TRUNCATED := "..."
  const TRUNCATED_KEY := "___"
  const DICT_TYPE := "<class 'dict'>"

  // ---------- strings

  /** The characters that python's str.strip removes. */
  predicate IsSpace(c: char) {
    || '\t' <= c <= '\r' || '\U{1c}' <= c <= ' ' || c == '\U{85}' || c == '\U{a0}' || c == '\U{1680}'
    || '\U{2000}' <= c <= '\U{200a}' || c == '\U{2028}' || c == '\U{2029}' || c == '\U{202f}'
    || c == '\U{205f}' || c == '\U{3000}'
  }

  function StripLeft(s: string): string {
    if s != [] && IsSpace(s[0]) then StripLeft(s[1..]) else s
  }

  function StripRight(s: string): string {
    if s != [] && IsSpace(s[|s| - 1]) then StripRight(s[..|s| - 1]) else s
  }

  function Strip(s: string): string {
    StripRight(StripLeft(s))
  }

  function FirstLine(s: string): string {
    if s == [] || s[0] == '\n' then [] else [s[0]] + FirstLine(s[1..])
  }

  function Replace(s: string, bad: char, good: char): (r: string)
    ensures |r| == |s|
    ensures forall i :: 0 <= i < |s| ==> r[i] == if s[i] == bad then good else s[i]
  {
    seq(|s|, i requires 0 <= i < |s| => if s[i] == bad then good else s[i])
  }

  /** Put a backslash before every double quote. */
  function Escape(s: string): string {
    if s == [] then [] else (if s[0] == '"' then ['\\', '"'] else [s[0]]) + Escape(s[1..])
  }

  function Digit(d: nat): (c: char)
    requires d < 10
    ensures '0' <= c <= '9'
  {
    ('0' as int + d) as char
  }

  function ShowNat(n: nat): string {
    if n < 10 then [Digit(n)] else ShowNat(n / 10) + [Digit(n % 10)]
  }

  function ShowInt(i: int): string {
    if i < 0 then ['-'] + ShowNat(-i) else ShowNat(i)
  }

  // ---------- limits and quoting

  /** What is left of a string after stripping it and cutting it at its first newline and at `max`. */
  function Kept(s: string, max: nat): string {
    var line := FirstLine(Strip(s));
    if |line| > max then line[..max] else line
  }

  predicate Cut(s: string, max: nat) {
    '\n' in Strip(s) || |FirstLine(Strip(s))| > max
  }

  /** The text meant to reach the reader: what was kept, and a mark if that is not everything. */
  function Shown(s: string, max: nat, mark: string): string {
    Kept(s, max) + if Cut(s, max) then mark else []
  }

  function SafeString(s: string, max: nat, mark: string): string {
    Escape(Kept(s, max)) + if Cut(s, max) then mark else []
  }

  predicate Forcing(c: char) {
    c == ' ' || c == '=' || c == '"' || c == '\\'
  }

  predicate Numeric(c: char) {
    '0' <= c <= '9' || c == '.'
  }

  function Dots(s: string): nat {
    if s == [] then 0 else Dots(s[..|s| - 1]) + if s[|s| - 1] == '.' then 1 else 0
  }

  /** Quotes go around a string that would end early, or that the reader would take for a plain number. */
  predicate NeedsQuoting(s: string) {
    || (exists i :: 0 <= i < |s| && Forcing(s[i]))
    || ((forall i :: 0 <= i < |s| ==> Numeric(s[i])) && Dots(s) <= 1)
  }

  method StringNeedsQuoting(v: string) returns (r: bool)
    ensures r == NeedsQuoting(v)
  {
    var allNumeric := true;
    var decimalCount := 0;
    for i := 0 to |v|
      invariant forall j :: 0 <= j < i ==> !Forcing(v[j])
      invariant allNumeric <==> forall j :: 0 <= j < i ==> Numeric(v[j])
      invariant decimalCount == Dots(v[..i])
    {
      var c := v[i];
      assert v[..i + 1][..i] == v[..i];
      if c == ' ' || c == '=' || c == '"' || c == '\\' {
        return true;
      }
      if !('0' <= c <= '9' || c == '.') {
        allNumeric := false;
      } else if c == '.' {
        decimalCount := decimalCount + 1;
      }
    }
    assert v[..|v|] == v;
    return allNumeric && decimalCount <= 1;
  }

  // ---------- keys and values

  /** A key that prints, one that is left out, or an exception. */
  datatype KeyResult = Printable(key: string) | Unprintable | KeyRaises

  function LogfmtKey(k: Value): KeyResult {
    match k
    case Str(s) => Printable(SafeKey(s))
    case Bytes(Some(s)) => Printable(SafeKey(s))
    case Bytes(None) => KeyRaises
    case Int(i) => Printable(ShowInt(i))
    case _ => Unprintable
  }

  function SafeKey(s: string): string {
    SafeString(Replace(Replace(Replace(s, ' ', '_'), '.', '_'), '=', '_'), MAX_KEY_SIZE, TRUNCATED_KEY)
  }

  /** A value to print; `Failed` is one whose printing raised. */
  datatype Payload =
    | Quotable(s: string)
    | Truth(b: bool)
    | Number(i: int)
    | TypeName(text: string)
    | Failed

  function PayloadOf(v: Value): Payload {
    match v
    case Str(s) => Quotable(s)
    case Bytes(Some(s)) => Quotable(s)
    case Bytes(None) => Failed
    case Bool(b) => Truth(b)
    case Int(i) => Number(i)
    case Dict(_) => TypeName(DICT_TYPE)
    case Other(text, _) => TypeName(text)
  }

  function Quoted(s: string): string {
    ['"'] + s + ['"']
  }

  function SafeValue(s: string): string {
    SafeString(s, MAX_VALUE_SIZE, TRUNCATED)
  }

  function Printed(p: Payload): string {
    match p
    case Quotable(s) => if NeedsQuoting(SafeValue(s)) then Quoted(SafeValue(s)) else SafeValue(s)
    case Truth(b) => if b then "true" else "false"
    case Number(i) => ShowInt(i)
    case TypeName(text) => Quoted(text)
    case Failed => Quoted("???")
  }

  // ---------- atoms

  datatype Entry = Entry(key: string, payload: Payload)

  datatype Atom = Atom(key: string, text: string)

  /** Empty and zero values are left out, but False is not. */
  predicate Skipped(v: Value) {
    match v
    case Str(s) => s == []
    case Bytes(d) => d == Some([])
    case Bool(_) => false
    case Int(i) => i == 0
    case Dict(items) => items == []
    case Other(_, truthy) => !truthy
  }

  /** The entries of a nested dict, up to the first key or value that raises. */
  function SubEntries(key: string, items: seq<(Value, Value)>): seq<Entry> {
    if items == [] then []
    else
      match LogfmtKey(items[0].0)
      case KeyRaises => [Entry(key, Failed)]
      case Unprintable => SubEntries(key, items[1..])
      case Printable(sub) =>
        if PayloadOf(items[0].1).Failed? then [Entry(key, Failed)]
        else [Entry(key + "_" + sub, PayloadOf(items[0].1))] + SubEntries(key, items[1..])
  }

  function EntriesOf(tag: (Value, Value)): seq<Entry> {
    var key := LogfmtKey(tag.0);
    if Skipped(tag.1) || !key.Printable? then []
    else if tag.1.Dict? then SubEntries(key.key, tag.1.items)
    else [Entry(key.key, PayloadOf(tag.1))]
  }

  function Entries(structured: seq<(Value, Value)>): seq<Entry> {
    FlatMap(EntriesOf, structured)
  }

  function AtomsOf(entries: seq<Entry>): seq<Atom> {
    if entries == [] then [] else [Atom(entries[0].key, Printed(entries[0].payload))] + AtomsOf(entries[1..])
  }

  /** Nested keys left out, up to the first key or value that raises. */
  function SubErrors(items: seq<(Value, Value)>): seq<Value> {
    if items == [] then []
    else
      match LogfmtKey(items[0].0)
      case KeyRaises => []
      case Unprintable => [items[0].0] + SubErrors(items[1..])
      case Printable(_) => if PayloadOf(items[0].1).Failed? then [] else SubErrors(items[1..])
  }

  function ErrorsOf(tag: (Value, Value)): seq<Value> {
    if Skipped(tag.1) then []
    else if !LogfmtKey(tag.0).Printable? then [tag.0]
    else if tag.1.Dict? then SubErrors(tag.1.items)
    else []
  }

  /** The keys that the printer warns about, because they can not be printed. */
  function Errors(structured: seq<(Value, Value)>): seq<Value> {
    FlatMap(ErrorsOf, structured)
  }

  lemma {:induction false} AtomsOfAppend(a: seq<Entry>, b: seq<Entry>)
    ensures AtomsOf(a + b) == AtomsOf(a) + AtomsOf(b)
  {
    if a == [] {
      assert a + b == b;
    } else {
      assert (a + b)[1..] == a[1..] + b;
      AtomsOfAppend(a[1..], b);
    }
  }

  /** What the first item of a nested dict adds to the line and to the warning. */
  lemma SubStep(key: string, items: seq<(Value, Value)>)
    requires items != []
    ensures var (k, v) := items[0];
            var atoms, errors := AtomsOf(SubEntries(key, items)), SubErrors(items);
            var atoms', errors' := AtomsOf(SubEntries(key, items[1..])), SubErrors(items[1..]);
            match LogfmtKey(k)
            case KeyRaises => atoms == [Atom(key, Quoted("???"))] && errors == []
            case Unprintable => atoms == atoms' && errors == [k] + errors'
            case Printable(sub) =>
              if PayloadOf(v).Failed? then atoms == [Atom(key, Quoted("???"))] && errors == []
              else atoms == [Atom(key + "_" + sub, Printed(PayloadOf(v)))] + atoms' && errors == errors'
  {
  }

  method DictAtoms(key: string, items: seq<(Value, Value)>) returns (atoms: seq<Atom>, keyErrors: seq<Value>)
    ensures atoms == AtomsOf(SubEntries(key, items))
    ensures keyErrors == SubErrors(items)
  {
    atoms, keyErrors := [], [];
    for i := 0 to |items|
      invariant AtomsOf(SubEntries(key, items)) == atoms + AtomsOf(SubEntries(key, items[i..]))
      invariant SubErrors(items) == keyErrors + SubErrors(items[i..])
    {
      assert items[i..][0] == items[i] && items[i..][1..] == items[i + 1..];
      SubStep(key, items[i..]);
      var subkey, payload := LogfmtKey(items[i].0), PayloadOf(items[i].1);
      if subkey.KeyRaises? || (subkey.Printable? && payload.Failed?) {
        atoms := atoms + [Atom(key, Quoted("???"))];
        return;
      }
      if subkey.Printable? {
        Regroup(atoms, [Atom(key + "_" + subkey.key, Printed(payload))], AtomsOf(SubEntries(key, items[i + 1..])));
        atoms := atoms + [Atom(key + "_" + subkey.key, Printed(payload))];
      } else {
        Regroup(keyErrors, [items[i].0], SubErrors(items[i + 1..]));
        keyErrors := keyErrors + [items[i].0];
      }
    }
  }

  method LogfmtAtoms(structured: seq<(Value, Value)>) returns (atoms: seq<Atom>, keyErrors: seq<Value>)
    ensures atoms == AtomsOf(Entries(structured))
    ensures keyErrors == Errors(structured)
  {
    atoms, keyErrors := [], [];
    for i := 0 to |structured|
      invariant atoms == AtomsOf(Entries(structured[..i]))
      invariant keyErrors == Errors(structured[..i])
    {
      var (k, v) := structured[i];
      assert structured[..i + 1][..i] == structured[..i];
      AtomsOfAppend(Entries(structured[..i]), EntriesOf(structured[i]));
      if Skipped(v) {
        continue;
      }
      var key := LogfmtKey(k);
      if !key.Printable? {
        keyErrors := keyErrors + [k];
      } else if v.Dict? {
        var subAtoms, subErrors := DictAtoms(key.key, v.items);
        atoms, keyErrors := atoms + subAtoms, keyErrors + subErrors;
      } else {
        atoms := atoms + [Atom(key.key, Printed(PayloadOf(v)))];
      }
    }
    assert structured[..|structured|] == structured;
  }

  /** The printed line: atoms separated by single spaces. */
  function Line(atoms: seq<Atom>): string {
    if atoms == [] then []
    else atoms[0].key + "=" + atoms[0].text + if |atoms| == 1 then [] else " " + Line(atoms[1..])
  }
}
