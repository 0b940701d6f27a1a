/** What the logstash reader gets back from a line of the logfmt printer. */
module RoundTrip {
  import opened Sequences
  import opened Logfmt
  import opened Logstash

  // ---------- what should come back, and when it does

  function Decoded(p: Payload): EventValue {
    match p
    case Quotable(s) => Text(Shown(s, MAX_VALUE_SIZE, TRUNCATED))
    case Truth(b) => Text(if b then "true" else "false")
    case Number(i) => Whole(i)
    case TypeName(text) => Text(text)
    case Failed => Text("???")
  }

  /** The assignments a reader should make: each key is first set to true, then to its value. */
  function Expected(entries: seq<Entry>): seq<Write> {
    if entries == [] then []
    else
      var e := entries[0];
      [Write(e.key, Yes), Write(e.key, Decoded(e.payload))] + Expected(entries[1..])
  }

  predicate GoodKey(k: string) {
    k != [] && forall i :: 0 <= i < |k| ==> Bare(k[i])
  }

  predicate EndsInBackslash(s: string) {
    s != [] && s[|s| - 1] == '\\'
  }

  predicate Visible(s: string) {
    forall i :: 0 <= i < |s| ==> s[i] > ' '
  }

  /**
    Quoted texts must not end in a backslash; bare ones must hold no control character and not read as
    a number. A type name, which the printer quotes without escaping it, must hold no quote either.
   */
  predicate Survives(p: Payload) {
    match p
    case Quotable(s) =>
      var text := Shown(s, MAX_VALUE_SIZE, TRUNCATED);
      if NeedsQuoting(SafeValue(s)) then !EndsInBackslash(text) else Visible(text) && !LooksNumeric(text)
    case TypeName(text) => '"' !in text && !EndsInBackslash(text)
    case _ => true
  }

  // ---------- escaping

  lemma {:induction false} EscapeAppend(a: string, b: string)
    ensures Escape(a + b) == Escape(a) + Escape(b)
  {
    if a == [] {
      assert a + b == b;
    } else {
      assert (a + b)[1..] == a[1..] + b;
      EscapeAppend(a[1..], b);
    }
  }

  lemma {:induction false} EscapePlain(s: string)
    ensures Escape(s) == s <==> '"' !in s
    ensures |Escape(s)| >= |s|
    ensures '"' in s ==> |Escape(s)| > |s|
  {
    if s != [] {
      EscapePlain(s[1..]);
      assert s == [s[0]] + s[1..];
    }
  }

  /** Up to the first quote escaping changes nothing; there it puts a backslash. */
  lemma {:induction false} EscapeFirstQuote(s: string, j: nat)
    requires j < |s| && s[j] == '"' && '"' !in s[..j]
    ensures j < |Escape(s)| && Escape(s)[j] == '\\'
  {
    if j > 0 {
      assert s[0] == s[..j][0];
      assert s[..j][1..] == s[1..][..j - 1];
      EscapeFirstQuote(s[1..], j - 1);
    }
  }

  lemma SafeIsEscaped(s: string, max: nat, mark: string)
    requires '"' !in mark
    ensures SafeString(s, max, mark) == Escape(Shown(s, max, mark))
  {
    if Cut(s, max) {
      EscapeAppend(Kept(s, max), mark);
      EscapePlain(mark);
    } else {
      assert Kept(s, max) + [] == Kept(s, max);
    }
  }

  // ---------- reading a key

  lemma {:induction false} ReadKey(p: Reader, k: string, rest: string)
    requires p.mode.KEY? && rest != [] && forall i :: 0 <= i < |k| ==> Bare(k[i])
    ensures Run(p, k + "=" + rest) == [Write(p.key + k, Yes)] + Run(p.(mode := EQUAL, key := p.key + k), rest)
    decreases |k|
  {
    var line := k + "=" + rest;
    if k == [] {
      assert line[0] == '=' && line[1..] == rest && p.key + k == p.key;
    } else {
      assert line[1..] == k[1..] + "=" + rest;
      assert p.key + [k[0]] + k[1..] == p.key + k;
      ReadKey(p.(key := p.key + [k[0]]), k[1..], rest);
    }
  }

  lemma ReadWholeKey(p: Reader, k: string, rest: string)
    requires p.mode.GARBAGE? && GoodKey(k) && rest != []
    ensures Run(p, k + "=" + rest) == [Write(k, Yes)] + Run(p.(mode := EQUAL, key := k), rest)
  {
    var line := k + "=" + rest;
    assert line[1..] == k[1..] + "=" + rest;
    assert [k[0]] + k[1..] == k;
    ReadKey(p.(mode := KEY, key := [k[0]]), k[1..], rest);
  }

  /** The reader never assigns to a key that the printer must not use. */
  lemma {:induction false} OnlyGoodKeys(p: Reader, line: string)
    requires p.mode.GARBAGE? || GoodKey(p.key)
    ensures forall w :: w in Run(p, line) ==> GoodKey(w.key)
    decreases |line|
  {
    if line != [] {
      var (q, w) := Step(p, line[0], |line| == 1);
      OnlyGoodKeys(q, line[1..]);
    }
  }

  // ---------- reading a bare value

  /** How many characters a bare value takes from the front of `line`. */
  function Span(line: string): (n: nat)
    ensures n <= |line|
    ensures forall i :: 0 <= i < n ==> line[i] > ' ' && line[i] != '"'
    ensures n < |line| ==> line[n] <= ' ' || line[n] == '"'
  {
    if line == [] || line[0] <= ' ' || line[0] == '"' then 0 else 1 + Span(line[1..])
  }

  /** One step inside a bare value. */
  lemma BareStep(p: Reader, line: string)
    requires p.mode.IVALUE? && p.value.Text? && line != []
    ensures var longer := Text(p.value.s + [line[0]]);
            if Span(line) == 0 then Run(p, line) != [] && Run(p, line)[0] == Write(p.key, Classify(p.value))
            else if |line| == 1 then Run(p, line) == [Write(p.key, Classify(longer))]
            else Run(p, line) == Run(p.(value := longer), line[1..])
  {
  }

  /** A bare value grows by one character and then by the rest of its span. */
  lemma SpanStep(s: string, line: string)
    requires line != [] && Span(line) > 0
    ensures Span(line) == 1 + Span(line[1..])
    ensures s + line[..Span(line)] == s + [line[0]] + line[1..][..Span(line[1..])]
  {
    assert line[..Span(line)] == [line[0]] + line[1..][..Span(line) - 1];
    Regroup(s, [line[0]], line[1..][..Span(line) - 1]);
  }

  lemma {:induction false} FirstBare(p: Reader, line: string)
    requires p.mode.IVALUE? && p.value.Text? && line != []
    ensures Run(p, line) != [] && Run(p, line)[0] == Write(p.key, Classify(Text(p.value.s + line[..Span(line)])))
    decreases |line|
  {
    BareStep(p, line);
    if Span(line) == 0 {
      assert p.value.s + line[..0] == p.value.s;
    } else {
      SpanStep(p.value.s, line);
      if |line| > 1 {
        FirstBare(p.(value := Text(p.value.s + [line[0]])), line[1..]);
      } else {
        assert line[1..] == [] && p.value.s + [line[0]] + [] == p.value.s + [line[0]];
      }
    }
  }

  /** What follows an atom: nothing, or a space and more. */
  predicate Follows(tail: string) {
    tail == [] || (|tail| > 1 && tail[0] == ' ')
  }

  lemma BareEnd(p: Reader, tail: string)
    requires p.mode.IVALUE? && |tail| > 1 && tail[0] == ' '
    ensures var v := Classify(p.value);
            Run(p, tail) == [Write(p.key, v)] + Run(p.(mode := GARBAGE, value := v), tail[1..])
  {
  }

  /** What a bare value `text`, followed by `tail`, amounts to. */
  function BareWrites(key: string, escaped: bool, text: string, tail: string): seq<Write> {
    var v := Classify(Text(text));
    [Write(key, v)] + if tail == [] then [] else Run(Reader(GARBAGE, key, v, escaped), tail[1..])
  }

  lemma BareChar(p: Reader, c: char, rest: string, text: string)
    requires p.mode.IVALUE? && p.value.Text? && c > ' ' && c != '"'
    requires text == p.value.s + [c]
    ensures Run(p, [c] + rest)
            == if rest == [] then BareWrites(p.key, p.escaped, text, []) else Run(p.(value := Text(text)), rest)
  {
  }

  lemma {:induction false} ReadBare(p: Reader, e: string, tail: string, text: string)
    requires p.mode.IVALUE? && p.value.Text? && Follows(tail) && e + tail != []
    requires Visible(e) && '"' !in e && text == p.value.s + e
    ensures Run(p, e + tail) == BareWrites(p.key, p.escaped, text, tail)
    decreases |e|
  {
    if e == [] {
      assert e + tail == tail && text == p.value.s;
      BareEnd(p, tail);
    } else {
      var longer, rest := p.value.s + [e[0]], e[1..] + tail;
      HeadTail(e, tail);
      Grow(p.value.s, e);
      BareChar(p, e[0], rest, longer);
      if rest != [] {
        ReadBare(p.(value := Text(longer)), e[1..], tail, text);
      }
    }
  }

  lemma EqualChar(p: Reader, c: char, rest: string, text: string)
    requires p.mode.EQUAL? && Bare(c) && text == [c]
    ensures Run(p, [c] + rest)
            == if rest == [] then BareWrites(p.key, p.escaped, text, [])
               else Run(Reader(IVALUE, p.key, Text(text), p.escaped), rest)
  {
  }

  /** From the equals sign on, a bare text becomes one assignment. */
  lemma ReadBareValue(p: Reader, e: string, tail: string)
    requires p.mode.EQUAL? && e != [] && Bare(e[0]) && Visible(e) && '"' !in e && Follows(tail)
    ensures Run(p, e + tail) == BareWrites(p.key, p.escaped, e, tail)
  {
    var first, rest := [e[0]], e[1..] + tail;
    HeadTail(e, tail);
    EqualChar(p, e[0], rest, first);
    if rest != [] {
      ReadBare(Reader(IVALUE, p.key, Text(first), p.escaped), e[1..], tail, e);
    }
  }

  // ---------- reading a quoted value

  /** The machine is inside quotes, and its flag says whether the text so far ends in a backslash. */
  ghost predicate Tracks(p: Reader) {
    p.mode.QVALUE? && p.value.Text? && p.escaped == EndsInBackslash(p.value.s)
  }

  /** One step inside quotes: a quote after a backslash replaces it, any other quote ends the value. */
  lemma QuotedStep(p: Reader, line: string)
    requires Tracks(p) && line != []
    ensures var c, x := line[0], p.value.s;
            var y := if c == '"' && x != [] then x[..|x| - 1] + [c] else x + [c];
            if c == '"' && !p.escaped
            then Run(p, line) == [Write(p.key, p.value)] + Run(p.(mode := GARBAGE), line[1..])
            else Run(p, line) == Run(Reader(QVALUE, p.key, Text(y), EndsInBackslash(y)), line[1..])
  {
  }

  lemma {:induction false} ReadQuoted(p: Reader, s: string, tail: string)
    requires Tracks(p) && !EndsInBackslash(p.value.s + s)
    ensures var t := p.value.s + s;
            Run(p, Escape(s) + "\"" + tail)
            == [Write(p.key, Text(t))] + Run(Reader(GARBAGE, p.key, Text(t), false), tail)
    decreases |s|
  {
    var x := p.value.s;
    if s == [] {
      assert Escape(s) + "\"" + tail == "\"" + tail && x + s == x;
      ClosingQuote(p, tail);
    } else {
      var q := Reader(QVALUE, p.key, Text(x + [s[0]]), EndsInBackslash(x + [s[0]]));
      var rest := Escape(s[1..]) + "\"" + tail;
      Grow(x, s);
      ReadQuoted(q, s[1..], tail);
      EscapedStep(p, s[0], rest);
      PullFront(if s[0] == '"' then ['\\', '"'] else [s[0]], Escape(s[1..]), "\"", tail);
    }
  }

  lemma ClosingQuote(p: Reader, tail: string)
    requires Tracks(p) && !p.escaped
    ensures Run(p, "\"" + tail) == [Write(p.key, p.value)] + Run(p.(mode := GARBAGE), tail)
  {
  }

  /** Reading one character in its escaped form. */
  lemma EscapedStep(p: Reader, c: char, rest: string)
    requires Tracks(p)
    ensures var y := p.value.s + [c];
            Run(p, (if c == '"' then ['\\', '"'] else [c]) + rest)
            == Run(Reader(QVALUE, p.key, Text(y), EndsInBackslash(y)), rest)
  {
  }

  lemma EscapeSnoc(x: string, c: char)
    requires c != '"'
    ensures Escape(x + [c]) == Escape(x) + [c]
  {
    EscapeAppend(x, [c]);
    assert Escape([c]) == [c];
  }

  /** A quote in place of a backslash is one more character when escaped. */
  lemma EscapeChop(y: string)
    ensures Escape(y + ['"']) == Escape(y + ['\\']) + ['"']
  {
    EscapeAppend(y, ['"']);
    EscapeSnoc(y, '\\');
    assert Escape(['"']) == ['\\'] + ['"'];
  }

  /**
    `writes` come from reading `line` inside quotes, after `x`. If there are any, the value `d` ended at the
    quote `line[n]`, and what was consumed by then is `d` escaped.
   */
  ghost predicate EndsAs(writes: seq<Write>, key: string, x: string, line: string, n: nat, d: string) {
    writes != [] ==>
      && n < |line| && writes[0] == Write(key, Text(d))
      && Escape(d) == Escape(x) + line[..n] && !EndsInBackslash(d)
  }

  lemma EndsStep(writes: seq<Write>, key: string, x: string, y: string, line: string, n: nat, d: string)
    requires line != [] && Escape(y) == Escape(x) + [line[0]]
    requires EndsAs(writes, key, y, line[1..], n, d)
    ensures EndsAs(writes, key, x, line, n + 1, d)
  {
  }

  /** Whatever stands inside quotes: a value that is read has been consumed in its escaped form. */
  lemma {:induction false} FirstQuoted(p: Reader, line: string) returns (n: nat, d: string)
    requires Tracks(p)
    ensures EndsAs(Run(p, line), p.key, p.value.s, line, n, d)
    decreases |line|
  {
    n, d := 0, p.value.s;
    if line != [] {
      var c, x := line[0], p.value.s;
      QuotedStep(p, line);
      if c == '"' && !p.escaped {
        assert Escape(x) + line[..0] == Escape(x);
      } else {
        var y := if c == '"' then x[..|x| - 1] + [c] else x + [c];
        if c == '"' {
          assert x == x[..|x| - 1] + ['\\'];
          EscapeChop(x[..|x| - 1]);
        } else {
          EscapeSnoc(x, c);
        }
        var q := Reader(QVALUE, p.key, Text(y), EndsInBackslash(y));
        n, d := FirstQuoted(q, line[1..]);
        EndsStep(Run(p, line), p.key, x, y, line, n, d);
        n := n + 1;
      }
    }
  }

  /**
    Inside fresh quotes, reading the escaped text and the closing quote gives back the text and leaves
    the remainder untouched, exactly when the text does not end in a backslash.
   */
  lemma QuotedInversion(p: Reader, s: string, tail: string)
    requires p.mode.QVALUE? && p.value == Text("") && !p.escaped
    ensures Run(p, Escape(s) + "\"" + tail)
            == [Write(p.key, Text(s))] + Run(Reader(GARBAGE, p.key, Text(s), false), tail)
            <==> !EndsInBackslash(s)
  {
    assert p.value.s + s == s;
    if EndsInBackslash(s) {
      var n, d := FirstQuoted(p, Escape(s) + "\"" + tail);
    } else {
      ReadQuoted(p, s, tail);
    }
  }

  // ---------- numbers

  lemma {:induction false} ShowNatReads(n: nat)
    ensures ShowNat(n) != [] && AllDigits(ShowNat(n)) && ReadNat(ShowNat(n)) == n
  {
    if n < 10 {
      assert ReadNat([Digit(n)]) == 10 * ReadNat([Digit(n)][..0]) + n;
    } else {
      ShowNatReads(n / 10);
      var s := ShowNat(n);
      assert s[..|s| - 1] == ShowNat(n / 10);
    }
  }

  lemma ShowIntLooks(i: int)
    ensures LooksInteger(ShowInt(i)) && ReadInt(ShowInt(i)) == i
  {
    ShowNatReads(if i < 0 then -i else i);
    assert Unsigned(ShowInt(i)) == ShowNat(if i < 0 then -i else i);
  }

  lemma ShowIntReads(i: int)
    ensures Classify(Text(ShowInt(i))) == Whole(i)
    ensures ShowInt(i) != [] && Bare(ShowInt(i)[0]) && Visible(ShowInt(i)) && '"' !in ShowInt(i)
  {
    ShowIntLooks(i);
    ShowNatReads(if i < 0 then -i else i);
  }
}
