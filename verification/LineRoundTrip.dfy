/** Reading back a whole printed line. */
module LineRoundTrip {
  import opened Options
  import opened Sequences
  import opened Logfmt
  import opened Logstash
  import opened RoundTrip

  // ---------- one value

  predicate NumeralChar(c: char) {
    Numeric(c) || c == 'e' || c == 'E' || c == '+' || c == '-'
  }

  lemma WordStays(word: string)
    requires word != [] && !NumeralChar(word[0])
    ensures Classify(Text(word)) == Text(word)
  {
  }

  /** The text that a payload puts between quotes, before escaping, if it prints in quotes. */
  function BetweenQuotes(p: Payload): Option<string> {
    match p
    case Quotable(s) => if NeedsQuoting(SafeValue(s)) then Some(Shown(s, MAX_VALUE_SIZE, TRUNCATED)) else None
    case TypeName(text) => Some(text)
    case Failed => Some("???")
    case _ => None
  }

  /** How bare payloads print, and what the reader makes of them. */
  lemma BarePrinted(p: Payload)
    requires BetweenQuotes(p).None?
    ensures var e := Printed(p);
            e != [] && '"' !in e && e[0] != '='
    ensures Survives(p) ==> Visible(Printed(p)) && Classify(Text(Printed(p))) == Decoded(p)
    ensures !Survives(p) ==> Decoded(p) == Text(Printed(p)) && (Visible(Printed(p)) ==> LooksNumeric(Printed(p)))
  {
    match p {
      case Quotable(s) =>
        var e := SafeValue(s);
        SafeIsEscaped(s, MAX_VALUE_SIZE, TRUNCATED);
        EscapePlain(Shown(s, MAX_VALUE_SIZE, TRUNCATED));
        BareIsItself(s);
        if LooksInteger(e) {
          IntegerIsNumeric(e);
        }
      case Truth(b) =>
        WordStays(if b then "true" else "false");
      case Number(i) =>
        ShowIntReads(i);
    }
  }

  lemma IntegerIsNumeric(s: string)
    ensures LooksInteger(s) ==> LooksNumeric(s)
  {
  }

  lemma BareIsItself(s: string)
    requires !NeedsQuoting(SafeValue(s))
    ensures SafeValue(s) == Shown(s, MAX_VALUE_SIZE, TRUNCATED)
    ensures var e := SafeValue(s); e != [] && '"' !in e && '=' !in e
  {
    var e, t := SafeValue(s), Shown(s, MAX_VALUE_SIZE, TRUNCATED);
    SafeIsEscaped(s, MAX_VALUE_SIZE, TRUNCATED);
    if '"' in t {
      var j := FirstQuote(t);
      EscapeFirstQuote(t, j);
      assert Forcing(e[j]);
    }
    EscapePlain(t);
  }

  lemma {:induction false} FirstQuote(s: string) returns (j: nat)
    requires '"' in s
    ensures j < |s| && s[j] == '"' && '"' !in s[..j]
  {
    j := 0;
    if s[0] != '"' {
      j := FirstQuote(s[1..]);
      assert s[..j + 1] == [s[0]] + s[1..][..j];
      j := j + 1;
    }
  }

  /** The opening quote starts a fresh quoted value. */
  lemma OpenQuote(p: Reader, raw: string, tail: string)
    requires p.mode.EQUAL?
    ensures Run(p, Quoted(raw) + tail) == Run(Reader(QVALUE, p.key, Text(""), false), raw + "\"" + tail)
  {
    var line := Quoted(raw) + tail;
    assert line[0] == '"' && line[1..] == raw + "\"" + tail;
  }

  lemma SkipSpace(p: Reader, tail: string)
    requires p.mode.GARBAGE? && Follows(tail)
    ensures Run(p, tail) == if tail == [] then [] else Run(p, tail[1..])
  {
  }

  lemma QuotedPrinted(p: Payload)
    requires BetweenQuotes(p).Some?
    ensures var t := BetweenQuotes(p).value;
            && Decoded(p) == Text(t)
            && Printed(p) == Quoted(if p.TypeName? then t else Escape(t))
            && (Survives(p) <==> !EndsInBackslash(t) && (p.TypeName? ==> '"' !in t))
  {
    match p {
      case Quotable(s) => SafeIsEscaped(s, MAX_VALUE_SIZE, TRUNCATED);
      case TypeName(_) =>
      case Failed => EscapePlain("???");
    }
  }

  /** A payload that survives is read back as one assignment, up to and including the space after it. */
  lemma ReadValue(p: Reader, payload: Payload, tail: string) returns (q: Reader)
    requires p.mode.EQUAL? && Survives(payload) && Follows(tail)
    ensures q.mode.GARBAGE?
    ensures Run(p, Printed(payload) + tail)
            == [Write(p.key, Decoded(payload))] + if tail == [] then [] else Run(q, tail[1..])
  {
    if BetweenQuotes(payload).Some? {
      var t := BetweenQuotes(payload).value;
      QuotedPrinted(payload);
      EscapePlain(t);
      OpenQuote(p, Escape(t), tail);
      assert "" + t == t;
      ReadQuoted(Reader(QVALUE, p.key, Text(""), false), t, tail);
      q := Reader(GARBAGE, p.key, Text(t), false);
      SkipSpace(q, tail);
    } else {
      BarePrinted(payload);
      q := p.(mode := GARBAGE, value := Classify(Text(Printed(payload))));
      ReadBareValue(p, Printed(payload), tail);
    }
  }

  lemma BadQuoted(p: Reader, payload: Payload, tail: string)
    requires p.mode.EQUAL? && !Survives(payload) && BetweenQuotes(payload).Some?
    ensures var writes := Run(p, Printed(payload) + tail);
            writes == [] || writes[0] != Write(p.key, Decoded(payload))
  {
    var t := BetweenQuotes(payload).value;
    QuotedPrinted(payload);
    if payload.TypeName? {
      BadQuotedText(p, t, t, tail);
    } else {
      BadQuotedText(p, t, Escape(t), tail);
    }
  }

  /** A quoted text that ends in a backslash, or that was not escaped and should have been, is not read back. */
  lemma BadQuotedText(p: Reader, t: string, raw: string, tail: string)
    requires p.mode.EQUAL? && (EndsInBackslash(t) || (raw == t && '"' in t))
    ensures Run(p, Quoted(raw) + tail) == [] || Run(p, Quoted(raw) + tail)[0] != Write(p.key, Text(t))
  {
    var rest := raw + "\"" + tail;
    OpenQuote(p, raw, tail);
    var n, d := FirstQuoted(Reader(QVALUE, p.key, Text(""), false), rest);
    if raw == t && '"' in t && n <= |rest| {
      Regroup(t, "\"", tail);
      EscapedIsNoPrefix(t, "\"" + tail, n);
      EmptyFront(rest[..n]);
    }
  }

  lemma EmptyFront(s: string)
    ensures Escape("") + s == s
  {
  }

  /** A text with a quote in it, escaped, is not what stands at the front when it is written unescaped. */
  lemma EscapedIsNoPrefix(t: string, rest: string, n: nat)
    requires '"' in t && n <= |t + rest|
    ensures Escape(t) != (t + rest)[..n]
  {
    var j := FirstQuote(t);
    EscapeFirstQuote(t, j);
    assert (t + rest)[j] == '"';
    if j < n {
      assert (t + rest)[..n][j] == '"';
    }
  }

  lemma BadBare(p: Reader, payload: Payload, tail: string)
    requires p.mode.EQUAL? && !Survives(payload) && BetweenQuotes(payload).None? && Follows(tail)
    ensures var writes := Run(p, Printed(payload) + tail);
            writes == [] || writes[0] != Write(p.key, Decoded(payload))
  {
    BarePrinted(payload);
    BadBareText(p, Printed(payload), tail);
  }

  /** A bare text with a control character is cut short; a numeral becomes a number. */
  lemma BadBareText(p: Reader, e: string, tail: string)
    requires p.mode.EQUAL? && e != [] && '"' !in e && e[0] != '=' && Follows(tail)
    requires Visible(e) ==> LooksNumeric(e)
    ensures Run(p, e + tail) == [] || Run(p, e + tail)[0] != Write(p.key, Text(e))
  {
    if Visible(e) {
      ReadBareValue(p, e, tail);
    } else if Bare(e[0]) {
      var j :| 0 < j < |e| && e[j] <= ' ';
      var rest := e[1..] + tail;
      HeadTail(e, tail);
      EqualChar(p, e[0], rest, [e[0]]);
      CutShort(Reader(IVALUE, p.key, Text([e[0]]), p.escaped), e, rest, j - 1);
    }
  }

  lemma CutShort(q: Reader, e: string, rest: string, j: nat)
    requires q.mode.IVALUE? && e != [] && q.value == Text([e[0]])
    requires j < |rest| && j + 1 < |e| && rest[j] <= ' '
    ensures Run(q, rest) == [] || Run(q, rest)[0] != Write(q.key, Text(e))
  {
    FirstBare(q, rest);
    OtherText([e[0]] + rest[..Span(rest)], e);
  }

  lemma OtherText(a: string, b: string)
    requires a != b
    ensures Classify(Text(a)) != Text(b)
  {
  }

  // ---------- one atom

  lemma ReadAtom(p: Reader, k: string, payload: Payload, tail: string) returns (q: Reader)
    requires p.mode.GARBAGE? && GoodKey(k) && Survives(payload) && Follows(tail)
    ensures q.mode.GARBAGE?
    ensures Run(p, k + "=" + Printed(payload) + tail)
            == [Write(k, Yes), Write(k, Decoded(payload))] + if tail == [] then [] else Run(q, tail[1..])
  {
    var text := Printed(payload);
    PrintedSomething(payload);
    q := ReadValue(p.(mode := EQUAL, key := k), payload, tail);
    ReadKeyThen(p, k, text, tail, Decoded(payload), if tail == [] then [] else Run(q, tail[1..]));
  }

  lemma ReadKeyThen(p: Reader, k: string, text: string, tail: string, v: EventValue, more: seq<Write>)
    requires p.mode.GARBAGE? && GoodKey(k) && text != []
    requires Run(p.(mode := EQUAL, key := k), text + tail) == [Write(k, v)] + more
    ensures Run(p, k + "=" + text + tail) == [Write(k, Yes), Write(k, v)] + more
  {
    assert k + "=" + text + tail == k + "=" + (text + tail);
    ReadWholeKey(p, k, text + tail);
  }

  lemma PrintedSomething(payload: Payload)
    ensures Printed(payload) != []
  {
  }

  lemma BadAtom(p: Reader, k: string, payload: Payload, tail: string)
    requires p.mode.GARBAGE? && !(GoodKey(k) && Survives(payload)) && Follows(tail)
    ensures var writes := Run(p, k + "=" + Printed(payload) + tail);
            |writes| < 2 || writes[0] != Write(k, Yes) || writes[1] != Write(k, Decoded(payload))
  {
    var rest := Printed(payload) + tail;
    var line := k + "=" + rest;
    assert k + "=" + Printed(payload) + tail == line;
    if !GoodKey(k) {
      OnlyGoodKeys(p, line);
    } else {
      var q := p.(mode := EQUAL, key := k);
      PrintedSomething(payload);
      ReadWholeKey(p, k, rest);
      if BetweenQuotes(payload).Some? {
        BadQuoted(q, payload, tail);
      } else {
        BadBare(q, payload, tail);
      }
    }
  }

  // ---------- the whole line

  predicate Good(e: Entry) {
    GoodKey(e.key) && Survives(e.payload)
  }

  predicate AllGood(entries: seq<Entry>) {
    All(Good, entries)
  }

  lemma {:induction false} EntriesRoundTrip(p: Reader, entries: seq<Entry>)
    requires p.mode.GARBAGE?
    ensures Run(p, Line(AtomsOf(entries))) == Expected(entries) <==> AllGood(entries)
    decreases |entries|
  {
    if entries != [] {
      var e, rest := entries[0], entries[1..];
      var atoms := AtomsOf(entries);
      var tail := if rest == [] then [] else " " + Line(AtomsOf(rest));
      AllHead(Good, entries);
      assert |AtomsOf(rest)| == |rest| by { AtomsLength(rest); }
      assert Line(atoms) == e.key + "=" + Printed(e.payload) + tail;
      if GoodKey(e.key) && Survives(e.payload) {
        var q := ReadAtom(p, e.key, e.payload, tail);
        EntriesRoundTrip(q, rest);
        var two := [Write(e.key, Yes), Write(e.key, Decoded(e.payload))];
        assert Expected(entries) == two + Expected(rest);
        if rest != [] {
          assert tail[1..] == Line(AtomsOf(rest));
          SamePrefix(two, Run(q, tail[1..]), Expected(rest));
        }
      } else {
        BadAtom(p, e.key, e.payload, tail);
      }
    }
  }

  lemma {:induction false} AtomsLength(entries: seq<Entry>)
    ensures |AtomsOf(entries)| == |entries|
    ensures entries != [] ==> |Line(AtomsOf(entries))| > 0
  {
    if entries != [] {
      AtomsLength(entries[1..]);
    }
  }

  /**
    For every dict of tags: the reader turns the printed line into exactly the assignments that set each
    printed key to its value, in order, if and only if every key is one the reader accepts and every
    value survives.
   */
  lemma LineRoundTrip(structured: seq<(Value, Value)>)
    ensures Run(START, Line(AtomsOf(Entries(structured)))) == Expected(Entries(structured))
            <==> AllGood(Entries(structured))
  {
    EntriesRoundTrip(START, Entries(structured));
  }

  lemma {:induction false} ExpectedAssigned(event: Event, entries: seq<Entry>, k: string)
    ensures (forall i :: 0 <= i < |entries| ==> entries[i].key != k) ==>
              (k in Assigned(event, Expected(entries)) <==> k in event)
              && (k in event ==> Assigned(event, Expected(entries))[k] == event[k])
    decreases |entries|
  {
    if entries != [] {
      ExpectedHead(event, entries);
      ExpectedAssigned(event[entries[0].key := Decoded(entries[0].payload)], entries[1..], k);
    }
  }

  lemma ExpectedHead(event: Event, entries: seq<Entry>)
    requires entries != []
    ensures var e := entries[0];
            Assigned(event, Expected(entries)) == Assigned(event[e.key := Decoded(e.payload)], Expected(entries[1..]))
  {
    var e := entries[0];
    var two := [Write(e.key, Yes), Write(e.key, Decoded(e.payload))];
    AssignedAppend(event, two, Expected(entries[1..]));
    AssignedTwo(event, two);
    assert event[e.key := Yes][e.key := Decoded(e.payload)] == event[e.key := Decoded(e.payload)];
  }

  /** In the event, a key printed once holds its value, and fields the line does not name are kept. */
  lemma {:induction false} EventHolds(event: Event, entries: seq<Entry>, i: nat)
    requires i < |entries| && forall j :: i < j < |entries| ==> entries[j].key != entries[i].key
    ensures var after := Assigned(event, Expected(entries));
            entries[i].key in after && after[entries[i].key] == Decoded(entries[i].payload)
    decreases |entries|
  {
    ExpectedHead(event, entries);
    var event' := event[entries[0].key := Decoded(entries[0].payload)];
    if i == 0 {
      ExpectedAssigned(event', entries[1..], entries[0].key);
    } else {
      EventHolds(event', entries[1..], i - 1);
    }
  }

  /** The event after reading a line whose entries all read back, under keys that are all different. */
  lemma DistinctReadBack(entries: seq<Entry>, event: Event)
    requires AllGood(entries) && forall i, j :: 0 <= i < j < |entries| ==> entries[i].key != entries[j].key
    ensures var after := Assigned(event, Run(START, Line(AtomsOf(entries))));
            && (forall e :: e in entries ==> e.key in after && after[e.key] == Decoded(e.payload))
            && (forall k :: (forall e :: e in entries ==> e.key != k) ==>
                              (k in after <==> k in event) && (k in event ==> after[k] == event[k]))
  {
    EntriesRoundTrip(START, entries);
    forall e | e in entries
      ensures var after := Assigned(event, Expected(entries)); e.key in after && after[e.key] == Decoded(e.payload)
    {
      var i :| 0 <= i < |entries| && entries[i] == e;
      EventHolds(event, entries, i);
    }
    forall k | forall e :: e in entries ==> e.key != k
      ensures var after := Assigned(event, Expected(entries));
              (k in after <==> k in event) && (k in event ==> after[k] == event[k])
    {
      ExpectedAssigned(event, entries, k);
    }
  }

  // ---------- which strings survive

  lemma {:induction false} DotsCount(s: string, i: nat)
    requires DotAt(s, i)
    ensures Dots(s) == 1
  {
    var n := |s| - 1;
    assert s[n] == s[i + 1..][n - i - 1];
    assert s[..n][..i] == s[..i];
    if i + 1 == n {
      DotsFree(s[..i]);
      assert s[..n][..n - 1] == s[..i] && Dots(s[..n]) == 1;
    } else {
      assert s[..n][i + 1..] == s[i + 1..][..n - i - 1];
      DotsCount(s[..n], i);
    }
  }

  /** A plain numeral has one dot at most, which is just what makes the printer quote it. */
  lemma PlainNumerals(s: string)
    requires LooksNumeric(s) && forall i :: 0 <= i < |s| ==> Numeric(s[i])
    ensures Dots(s) <= 1
  {
    assert Unsigned(s) == s;
    assert forall i :: 0 <= i < |s| ==> !ExponentAt(s, i);
    if AllDigits(s) {
      DotsFree(s);
    } else {
      var i :| 0 <= i < |s| && DotAt(s, i);
      DotsCount(s, i);
    }
  }

  lemma {:induction false} DotsFree(s: string)
    requires AllDigits(s)
    ensures Dots(s) == 0
  {
    if s != [] {
      DotsFree(s[..|s| - 1]);
    }
  }

  /**
    The quoting rule does its job: digits with any number of dots, truncated or not, come back as the
    string they were and not as a number.
   */
  lemma DottedDigitsSurvive(s: string)
    requires forall i :: 0 <= i < |s| ==> Numeric(s[i])
    ensures Survives(Quotable(s))
  {
    var t := Shown(s, MAX_VALUE_SIZE, TRUNCATED);
    DottedDigitsShown(s);
    assert SafeValue(s) == t by {
      SafeIsEscaped(s, MAX_VALUE_SIZE, TRUNCATED);
      EscapePlain(t);
    }
    if LooksNumeric(t) {
      PlainNumerals(t);
    }
  }

  lemma DottedDigitsShown(s: string)
    requires forall i :: 0 <= i < |s| ==> Numeric(s[i])
    ensures var t := Shown(s, MAX_VALUE_SIZE, TRUNCATED); forall i :: 0 <= i < |t| ==> Numeric(t[i])
  {
    StripLeftAll(s);
    StripRightAll(s);
    FirstLineAll(s);
    assert forall i :: 0 <= i < |Kept(s, MAX_VALUE_SIZE)| ==> Numeric(Kept(s, MAX_VALUE_SIZE)[i]);
  }

  lemma {:induction false} StripLeftAll(s: string)
    requires forall i :: 0 <= i < |s| ==> Numeric(s[i])
    ensures StripLeft(s) == s
  {
  }

  lemma {:induction false} StripRightAll(s: string)
    requires forall i :: 0 <= i < |s| ==> Numeric(s[i])
    ensures StripRight(s) == s
  {
  }

  lemma {:induction false} FirstLineAll(s: string)
    requires forall i :: 0 <= i < |s| ==> Numeric(s[i])
    ensures FirstLine(s) == s
  {
    if s != [] {
      FirstLineAll(s[1..]);
    }
  }

  /** But a negative number given as a string prints bare, and comes back as a number. */
  lemma NegativeStringsBecomeNumbers(i: int)
    requires i < 0 && |ShowInt(i)| <= MAX_VALUE_SIZE
    ensures Printed(Quotable(ShowInt(i))) == Printed(Number(i))
    ensures !Survives(Quotable(ShowInt(i)))
  {
    var s := ShowInt(i);
    ShowIntLooks(i);
    NegativeShape(i);
    SafeValueWhole(s);
    IntegerIsNumeric(s);
    BareNumeral(s);
  }

  predicate MinusOrDigit(c: char) {
    c == '-' || '0' <= c <= '9'
  }

  lemma NegativeShape(i: int)
    requires i < 0
    ensures var s := ShowInt(i);
            s != [] && s[0] == '-' && (forall j :: 0 <= j < |s| ==> MinusOrDigit(s[j])) && !NeedsQuoting(s)
  {
    var s := ShowInt(i);
    ShowNatReads(-i);
    assert forall j :: 0 < j < |s| ==> s[j] == ShowNat(-i)[j - 1];
    assert !Numeric(s[0]);
  }

  lemma BareNumeral(s: string)
    requires SafeValue(s) == s == Shown(s, MAX_VALUE_SIZE, TRUNCATED) && !NeedsQuoting(s) && LooksNumeric(s)
    ensures Printed(Quotable(s)) == s && !Survives(Quotable(s))
  {
  }

  /** A string that needs no stripping, cutting or escaping prints as it is. */
  lemma SafeValueWhole(s: string)
    requires s != [] && |s| <= MAX_VALUE_SIZE && forall j :: 0 <= j < |s| ==> MinusOrDigit(s[j])
    ensures SafeValue(s) == s == Shown(s, MAX_VALUE_SIZE, TRUNCATED)
  {
    assert !IsSpace(s[0]) && !IsSpace(s[|s| - 1]);
    assert Strip(s) == s;
    NoNewline(s);
    assert s + [] == s;
    EscapePlain(s);
  }

  lemma {:induction false} NoNewline(s: string)
    requires '\n' !in s
    ensures FirstLine(s) == s
  {
    if s != [] {
      assert forall c :: c in s[1..] ==> c in s;
      NoNewline(s[1..]);
    }
  }
}
