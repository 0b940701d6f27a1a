/** The reader of structured tags: the character-driven state machine of the logstash filter. */
module Logstash {

  /** What the filter stores in the event for a key. A decimal keeps its text: its rounding is not modelled. */
  datatype EventValue = Text(s: string) | Whole(i: int) | Decimal(text: string) | Yes | Nil

  datatype Mode = GARBAGE | KEY | EQUAL | IVALUE | QVALUE

  datatype Reader = Reader(mode: Mode, key: string, value: EventValue, escaped: bool)

  /** One assignment to the event. */
  datatype Write = Write(key: string, value: EventValue)

  type Event = map<string, EventValue>

  const START := Reader(GARBAGE, "", Text(""), false)

  /** A character that can be part of a key, or start a bare value. */
  predicate Bare(c: char) {
    c > ' ' && c != '"' && c != '='
  }

  // ---------- numbers

  predicate AllDigits(s: string) {
    forall i :: 0 <= i < |s| ==> '0' <= s[i] <= '9'
  }

  function Unsigned(s: string): string {
    if s != [] && (s[0] == '-' || s[0] == '+') then s[1..] else s
  }

  predicate LooksInteger(s: string) {
    Unsigned(s) != [] && AllDigits(Unsigned(s))
  }

  predicate DotAt(s: string, i: nat) {
    i + 1 < |s| && s[i] == '.' && AllDigits(s[..i]) && AllDigits(s[i + 1..])
  }

  /** Digits, with at most one dot that is followed by a digit. */
  predicate Mantissa(s: string) {
    (s != [] && AllDigits(s)) || exists i :: 0 <= i < |s| && DotAt(s, i)
  }

  predicate ExponentAt(s: string, i: nat) {
    i < |s| && (s[i] == 'e' || s[i] == 'E') && Mantissa(s[..i]) && LooksInteger(s[i + 1..])
  }

  predicate LooksNumeric(s: string) {
    var u := Unsigned(s);
    Mantissa(u) || exists i :: 0 <= i < |u| && ExponentAt(u, i)
  }

  function ReadNat(s: string): nat
    requires AllDigits(s)
  {
    if s == [] then 0 else 10 * ReadNat(s[..|s| - 1]) + (s[|s| - 1] as int - '0' as int)
  }

  function ReadInt(s: string): int
    requires LooksInteger(s)
  {
    var n: int := ReadNat(Unsigned(s));
    if s[0] == '-' then -n else n
  }

  /** Numerals become numbers; a value that is a number already stays one. */
  function Classify(v: EventValue): EventValue {
    if v.Text? && LooksInteger(v.s) then Whole(ReadInt(v.s))
    else if v.Text? && LooksNumeric(v.s) then Decimal(v.s)
    else v
  }

  // ---------- the machine

  function Extend(v: EventValue, c: char): EventValue {
    if v.Text? then Text(v.s + [c]) else v
  }

  function ChopExtend(v: EventValue, c: char): EventValue {
    if v.Text? && v.s != [] then Text(v.s[..|v.s| - 1] + [c]) else v
  }

  /** One character; `last` says that the line ends with it. */
  function Step(p: Reader, c: char, last: bool): (Reader, seq<Write>) {
    match p.mode
    case GARBAGE => (if Bare(c) then p.(mode := KEY, key := [c]) else p, [])
    case KEY =>
      var q := if Bare(c) then p.(key := p.key + [c]) else if c == '=' then p.(mode := EQUAL) else p.(mode := GARBAGE);
      (q, (if Bare(c) then [] else [Write(p.key, Yes)]) + if last then [Write(q.key, Yes)] else [])
    case EQUAL =>
      var q := if Bare(c) then p.(mode := IVALUE, value := Text([c]))
               else if c == '"' then p.(mode := QVALUE, value := Text(""), escaped := false)
               else p.(mode := GARBAGE);
      var w := if q.mode.GARBAGE? then [Write(p.key, Nil)] else [];
      if last then (q.(value := Classify(q.value)), w + [Write(p.key, Classify(q.value))]) else (q, w)
    case IVALUE =>
      var q := if c > ' ' && c != '"' then p.(value := Extend(p.value, c))
               else p.(mode := GARBAGE, value := Classify(p.value));
      var w := if q.mode.GARBAGE? then [Write(p.key, q.value)] else [];
      if last then (q.(value := Classify(q.value)), w + [Write(p.key, Classify(q.value))]) else (q, w)
    case QVALUE =>
      if c == '\\' then (p.(escaped := true, value := Extend(p.value, '\\')), [])
      else if c == '"' && p.escaped then (p.(escaped := false, value := ChopExtend(p.value, c)), [])
      else if c == '"' then (p.(mode := GARBAGE), [Write(p.key, p.value)])
      else (p.(escaped := false, value := Extend(p.value, c)), [])
  }

  /** Every assignment to the event, in order, made while reading `line`. */
  function Run(p: Reader, line: string): seq<Write>
    decreases |line|
  {
    if line == [] then []
    else
      var (q, w) := Step(p, line[0], |line| == 1);
      w + Run(q, line[1..])
  }

  function Assigned(event: Event, writes: seq<Write>): Event
    decreases |writes|
  {
    if writes == [] then event else Assigned(event[writes[0].key := writes[0].value], writes[1..])
  }

  lemma {:induction false} AssignedAppend(event: Event, a: seq<Write>, b: seq<Write>)
    ensures Assigned(event, a + b) == Assigned(Assigned(event, a), b)
    decreases |a|
  {
    if a == [] {
      assert a + b == b;
    } else {
      assert (a + b)[1..] == a[1..] + b;
      AssignedAppend(event[a[0].key := a[0].value], a[1..], b);
    }
  }

  /** While a value is being built it is a text, and after an escape it ends in a backslash. */
  ghost predicate Building(p: Reader) {
    && (p.mode.IVALUE? || p.mode.QVALUE? ==> p.value.Text?)
    && (p.mode.QVALUE? && p.escaped ==> p.value.s != [] && p.value.s[|p.value.s| - 1] == '\\')
  }

  lemma AssignedTwo(event: Event, w: seq<Write>)
    requires |w| == 2
    ensures Assigned(event, w) == event[w[0].key := w[0].value][w[1].key := w[1].value]
  {
    var e := event[w[0].key := w[0].value];
    assert Assigned(event, w) == Assigned(e, w[1..]);
    assert w[1..][0] == w[1] && w[1..][1..] == [];
    assert Assigned(e, w[1..]) == Assigned(e[w[1].key := w[1].value], []);
  }

  /** The variables of the filter. */
  class Filter {
    var state: Mode
    var key: string
    var value: EventValue
    var escaped: bool
    var event: Event

    constructor (event: Event)
      ensures View() == START && this.event == event
    {
      state, key, value, escaped := GARBAGE, "", Text(""), false;
      this.event := event;
    }

    function View(): Reader
      reads this
    {
      Reader(state, key, value, escaped)
    }

    /** The body of the loop over the characters of a line. */
    method Feed(c: char, last: bool)
      requires Building(View())
      modifies this
      ensures !last ==> Building(View())
      ensures View() == Step(old(View()), c, last).0
      ensures event == Assigned(old(event), Step(old(View()), c, last).1)
    {
      ghost var writes := Step(View(), c, last).1;
      if |writes| == 2 {
        AssignedTwo(event, writes);
      }
      match state {
        case GARBAGE =>
          if c > ' ' && c != '"' && c != '=' {
            key := [c];
            state := KEY;
          }
        case KEY =>
          if c > ' ' && c != '"' && c != '=' {
            key := key + [c];
          } else if c == '=' {
            event := event[key := Yes];
            state := EQUAL;
          } else {
            event := event[key := Yes];
            state := GARBAGE;
          }
          if last {
            event := event[key := Yes];
          }
        case EQUAL =>
          if c > ' ' && c != '"' && c != '=' {
            value := Text([c]);
            state := IVALUE;
          } else if c == '"' {
            value := Text("");
            escaped := false;
            state := QVALUE;
          } else {
            event := event[key := Nil];
            state := GARBAGE;
          }
          if last {
            value := Classify(value);
            event := event[key := value];
          }
        case IVALUE =>
          FeedBare(c, last);
        case QVALUE =>
          FeedQuoted(c);
      }
    }

    /** The branch for a bare value. */
    method FeedBare(c: char, last: bool)
      requires Building(View()) && state == IVALUE
      modifies this
      ensures !last ==> Building(View())
      ensures View() == Step(old(View()), c, last).0
      ensures event == Assigned(old(event), Step(old(View()), c, last).1)
    {
      ghost var writes := Step(View(), c, last).1;
      if |writes| == 2 {
        AssignedTwo(event, writes);
      }
      if !(c > ' ' && c != '"') {
        value := Classify(value);
        event := event[key := value];
        state := GARBAGE;
      } else {
        value := Text(value.s + [c]);
      }
      if last {
        value := Classify(value);
        event := event[key := value];
      }
    }

    /** The branch for a quoted value. */
    method FeedQuoted(c: char)
      requires Building(View()) && state == QVALUE
      modifies this
      ensures Building(View())
      ensures forall last :: View() == Step(old(View()), c, last).0
      ensures forall last :: event == Assigned(old(event), Step(old(View()), c, last).1)
    {
      if c == '\\' {
        escaped := true;
        value := Text(value.s + ['\\']);
      } else if c == '"' {
        if escaped {
          escaped := false;
          value := Text(value.s[..|value.s| - 1] + [c]);
        } else {
          event := event[key := value];
          state := GARBAGE;
        }
      } else {
        escaped := false;
        value := Text(value.s + [c]);
      }
    }
  }

  method ReadLine(line: string, before: Event) returns (event: Event)
    ensures event == Assigned(before, Run(START, line))
  {
    var filter := new Filter(before);
    for i := 0 to |line|
      invariant fresh(filter) && (i < |line| ==> Building(filter.View()))
      invariant Assigned(before, Run(START, line)) == Assigned(filter.event, Run(filter.View(), line[i..]))
    {
      ghost var p, start := filter.View(), filter.event;
      var c, last := line[i], i + 1 >= |line|;
      filter.Feed(c, last);
      assert line[i..][0] == c && line[i..][1..] == line[i + 1..];
      AssignedAppend(start, Step(p, c, last).1, Run(filter.View(), line[i + 1..]));
    }
    event := filter.event;
  }
}
