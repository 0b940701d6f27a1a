/** The message field of a log line, the pattern that reads it, and the sizes of what is printed. */
module Message {
  import opened Logfmt

  const MAX_MSG_SIZE: nat := 10240

  function NewlinesOut(s: string): string {
    if s == [] then [] else (if s[0] == '\n' then ['\\', 'n'] else [s[0]]) + NewlinesOut(s[1..])
  }

  function CleanMessage(s: string): string {
    NewlinesOut(Escape(s))
  }

  /** What stands between the quotes of the message field. */
  function Field(msg: string): string {
    var clean := CleanMessage(msg);
    if |clean| > MAX_MSG_SIZE then clean[..MAX_MSG_SIZE] + TRUNCATED else clean
  }

  // ---------- the pattern

  /** ESCAPED_QUOTES, `(?:[^"\\]|\\.)*`, matches the whole of `s`; a dot matches any character there. */
  predicate Matches(s: string) {
    if s == [] then true
    else if s[0] == '\\' then |s| >= 2 && Matches(s[2..])
    else s[0] != '"' && Matches(s[1..])
  }

  /** Where the longest match of ESCAPED_QUOTES at the front of `s` stops. */
  function Reach(s: string): (n: nat)
    ensures n <= |s|
  {
    if s == [] || s[0] == '"' || s == ['\\'] then 0
    else if s[0] == '\\' then 2 + Reach(s[2..])
    else 1 + Reach(s[1..])
  }

  /** The match stops at the quote that closes the field exactly when it covers the whole field. */
  lemma {:induction false} ClosingQuote(field: string, rest: string)
    ensures Reach(field + "\"" + rest) == |field| <==> Matches(field)
    decreases |field|
  {
    var s := field + "\"" + rest;
    if field != [] {
      if field[0] == '\\' {
        if |field| >= 2 {
          assert s[2..] == field[2..] + "\"" + rest;
          ClosingQuote(field[2..], rest);
        }
      } else {
        assert s[1..] == field[1..] + "\"" + rest;
        ClosingQuote(field[1..], rest);
      }
    }
  }

  /** Truncation is harmless wherever it falls, even between a backslash and what it escapes. */
  lemma {:induction false} TruncatedMatches(s: string, n: nat)
    requires Matches(s) && n <= |s|
    ensures Matches(s[..n] + TRUNCATED)
    decreases |s|
  {
    var t := s[..n] + TRUNCATED;
    if n == 0 {
      assert t == TRUNCATED;
      assert t[1..] == ".." && t[1..][1..] == "." && t[1..][1..][1..] == "";
    } else if s[0] == '\\' {
      if n == 1 {
        assert t[2..] == ".." && t[2..][1..] == "." && t[2..][1..][1..] == "";
      } else {
        assert t[2..] == s[2..][..n - 2] + TRUNCATED;
        TruncatedMatches(s[2..], n - 2);
      }
    } else {
      assert t[1..] == s[1..][..n - 1] + TRUNCATED;
      TruncatedMatches(s[1..], n - 1);
    }
  }

  // ---------- runs of backslashes

  /** Whether an odd number of backslashes, with no break, stands right before position `i`. */
  predicate OddRun(s: string, i: nat, odd: bool)
    requires i <= |s|
  {
    if i == 0 then odd else s[i - 1] == '\\' && !OddRun(s, i - 1, odd)
  }

  predicate Needed(s: string, i: nat) {
    i == |s| || (i < |s| && s[i] == '"')
  }

  predicate PairedAfter(s: string, odd: bool) {
    forall i :: 0 <= i <= |s| && Needed(s, i) ==> !OddRun(s, i, odd)
  }

  /** Backslashes come in pairs before every quote and at the end. */
  predicate Paired(s: string) {
    PairedAfter(s, false)
  }

  predicate PairedFrom(s: string, odd: bool) {
    if s == [] then !odd
    else if s[0] == '"' then !odd && PairedFrom(s[1..], false)
    else PairedFrom(s[1..], s[0] == '\\' && !odd)
  }

  lemma {:induction false} OddRunTail(s: string, i: nat, odd: bool)
    requires 0 < i <= |s|
    ensures OddRun(s, i, odd) == OddRun(s[1..], i - 1, s[0] == '\\' && !odd)
  {
    if i > 1 {
      OddRunTail(s, i - 1, odd);
      assert s[1..][i - 2] == s[i - 1];
    }
  }

  lemma {:induction false} PairedIsPairedFrom(s: string, odd: bool)
    ensures PairedFrom(s, odd) <==> PairedAfter(s, odd)
    decreases |s|
  {
    if s == [] {
      assert OddRun(s, 0, odd) == odd;
    } else {
      var t, odd' := s[1..], s[0] == '\\' && !odd;
      PairedIsPairedFrom(t, odd');
      forall i | 0 < i <= |s|
        ensures OddRun(s, i, odd) == OddRun(t, i - 1, odd')
      {
        OddRunTail(s, i, odd);
      }
      assert Needed(s, 0) <==> s[0] == '"';
      assert forall i :: 0 < i <= |s| ==> (Needed(s, i) <==> Needed(t, i - 1));
      if PairedFrom(s, odd) {
        forall i | 0 <= i <= |s| && Needed(s, i)
          ensures !OddRun(s, i, odd)
        {
          if i > 0 {
            assert !OddRun(t, i - 1, odd');
          }
        }
      } else if !PairedFrom(t, odd') {
        var i :| 0 <= i <= |t| && Needed(t, i) && OddRun(t, i, odd');
        assert Needed(s, i + 1) && OddRun(s, i + 1, odd);
      } else {
        assert Needed(s, 0) && OddRun(s, 0, odd);
      }
    }
  }

  /** Matching a cleaned message, from outside an escape and from inside one. */
  lemma {:induction false} CleanMatches(s: string)
    ensures PairedFrom(s, false) <==> Matches(CleanMessage(s))
    ensures PairedFrom(s, true) <==> CleanMessage(s) != [] && Matches(CleanMessage(s)[1..])
    decreases |s|
  {
    if s != [] {
      var clean, rest := CleanMessage(s), CleanMessage(s[1..]);
      CleanHead(s);
      CleanMatches(s[1..]);
      if s[0] == '"' || s[0] == '\n' {
        assert clean[2..] == rest && clean[1..][1..] == rest;
      } else {
        assert clean[1..] == rest;
        assert s[0] == '\\' && rest != [] ==> clean[2..] == rest[1..];
      }
    }
  }

  lemma CleanHead(s: string)
    requires s != []
    ensures CleanMessage(s)
            == (if s[0] == '"' then ['\\', '"'] else if s[0] == '\n' then ['\\', 'n'] else [s[0]])
               + CleanMessage(s[1..])
  {
    var tail := Escape(s[1..]);
    if s[0] == '"' {
      assert Escape(s) == ['\\', '"'] + tail;
      assert Escape(s)[1..] == ['"'] + tail && (['"'] + tail)[1..] == tail;
      assert NewlinesOut(Escape(s)) == ['\\'] + NewlinesOut(['"'] + tail);
      assert NewlinesOut(['"'] + tail) == ['"'] + NewlinesOut(tail);
    } else {
      assert Escape(s) == [s[0]] + tail && Escape(s)[1..] == tail;
    }
  }

  // ---------- which truncated fields are read back whole

  /** Every quote has an odd run of backslashes right before it; what stands at the end does not matter. */
  predicate QuotesEscaped(s: string, odd: bool) {
    forall i :: 0 <= i < |s| && s[i] == '"' ==> OddRun(s, i, odd)
  }

  lemma QuotesEscapedTail(s: string, odd: bool)
    requires s != []
    ensures QuotesEscaped(s, odd)
            <==> (s[0] == '"' ==> odd) && QuotesEscaped(s[1..], s[0] == '\\' && !odd)
  {
    var t, odd' := s[1..], s[0] == '\\' && !odd;
    forall i | 0 < i < |s|
      ensures OddRun(s, i, odd) == OddRun(t, i - 1, odd') && s[i] == t[i - 1]
    {
      OddRunTail(s, i, odd);
    }
    if QuotesEscaped(s, odd) {
      assert s[0] == '"' ==> OddRun(s, 0, odd);
      forall i | 0 <= i < |t| && t[i] == '"'
        ensures OddRun(t, i, odd')
      {
        assert s[i + 1] == '"' && OddRun(s, i + 1, odd);
      }
    } else {
      var i :| 0 <= i < |s| && s[i] == '"' && !OddRun(s, i, odd);
      assert i > 0 ==> t[i - 1] == '"' && !OddRun(t, i - 1, odd');
    }
  }

  /** The truncation mark leaves the escapes before it alone, and is itself matched, escaped or not. */
  lemma {:induction false} MarkedMatches(s: string)
    ensures Matches(s + TRUNCATED) <==> QuotesEscaped(s, false)
    decreases |s|
  {
    var t := s + TRUNCATED;
    if s == [] {
      assert t == TRUNCATED;
      assert t[1..] == ".." && t[1..][1..] == "." && t[1..][1..][1..] == "";
    } else {
      QuotesEscapedTail(s, false);
      assert t[1..] == s[1..] + TRUNCATED;
      if s[0] != '\\' {
        MarkedMatches(s[1..]);
      } else if |s| == 1 {
        assert t[2..] == ".." && t[2..][1..] == "." && t[2..][1..][1..] == "";
        assert Matches(t[2..]) && QuotesEscaped(s, false);
      } else {
        QuotesEscapedTail(s[1..], true);
        assert s[1..][1..] == s[2..] && t[2..] == s[2..] + TRUNCATED;
        MarkedMatches(s[2..]);
      }
    }
  }

  // ---------- which messages are read back whole

  /** The reader's pattern covers the whole field, and so stops at the quote that closes it. */
  predicate ReadWhole(field: string, rest: string) {
    Matches(field) && Reach(field + "\"" + rest) == |field|
  }

  /**
    Which messages are read whole: those that fit exactly if their backslashes are paired before every
    quote and at the end; those truncated exactly if every quote of the part that is left is escaped,
    which it always is if the backslashes of the message are paired.
   */
  lemma MessageReadable(msg: string, rest: string)
    ensures var clean := CleanMessage(msg);
            && (Reach(Field(msg) + "\"" + rest) == |Field(msg)| <==> Matches(Field(msg)))
            && (ReadWhole(Field(msg), rest)
                <==> if |clean| <= MAX_MSG_SIZE then Paired(msg) else QuotesEscaped(clean[..MAX_MSG_SIZE], false))
            && (Paired(msg) ==> ReadWhole(Field(msg), rest))
  {
    var clean := CleanMessage(msg);
    PairedIsPairedFrom(msg, false);
    CleanMatches(msg);
    if |clean| > MAX_MSG_SIZE {
      MarkedMatches(clean[..MAX_MSG_SIZE]);
      if Paired(msg) {
        TruncatedMatches(clean, MAX_MSG_SIZE);
      }
    }
    ClosingQuote(Field(msg), rest);
  }

  /** A backslash and a quote, then anything: the reader takes the message to end after the two backslashes. */
  lemma BackslashQuoteUnreadable(tail: string, rest: string)
    ensures var field := Field("\\\"" + tail);
            !Matches(field) && Reach(field + "\"" + rest) == 2
  {
    var msg := "\\\"" + tail;
    assert msg[1..] == "\"" + tail && msg[1..][1..] == tail;
    CleanHead(msg);
    CleanHead(msg[1..]);
    var field := Field(msg);
    assert field[0] == '\\' && field[1] == '\\' && field[2] == '"';
    var line := field + "\"" + rest;
    assert line[0] == '\\' && line[2..][0] == '"';
    assert field[2..][0] == '"';
  }

  /** In particular, a message without backslashes is always read whole, truncated or not. */
  lemma NoBackslashReadable(msg: string, rest: string)
    requires '\\' !in msg
    ensures ReadWhole(Field(msg), rest)
  {
    forall i | 0 <= i <= |msg|
      ensures !OddRun(msg, i, false)
    {
      if i > 0 {
        assert msg[i - 1] in msg;
      }
    }
    MessageReadable(msg, rest);
  }

  // ---------- sizes

  lemma {:induction false} EscapeShape(s: string)
    ensures |Escape(s)| <= 2 * |s|
    ensures '\n' !in s ==> '\n' !in Escape(s)
  {
    if s != [] {
      EscapeShape(s[1..]);
      assert s == [s[0]] + s[1..];
    }
  }

  /** The field is the cleaned message, or its first 10240 characters and a mark. */
  lemma FieldSize(msg: string)
    ensures var (clean, field) := (CleanMessage(msg), Field(msg));
            if |clean| <= 10240 then field == clean
            else |field| == 10243 && field[..10240] == clean[..10240] && field[10240..] == "..."
  {
  }

  lemma {:induction false} FirstLineShape(s: string)
    ensures FirstLine(s) <= s
    ensures FirstLine(s) == s <==> '\n' !in s
    ensures '\n' in s ==> s[|FirstLine(s)|] == '\n'
    ensures '\n' !in FirstLine(s)
  {
    if s != [] {
      FirstLineShape(s[1..]);
      assert s == [s[0]] + s[1..];
    }
  }

  /** However long or many-lined a string is, it prints on one line and within its limit. */
  lemma SafeStringShape(s: string, max: nat, mark: string)
    requires '\n' !in mark
    ensures '\n' !in SafeString(s, max, mark)
    ensures |SafeString(s, max, mark)| <= 2 * max + |mark|
  {
    FirstLineShape(Strip(s));
    EscapeShape(Kept(s, max));
  }

  lemma PrintedShape(p: Payload)
    requires p.Quotable?
    ensures '\n' !in Printed(p) && 1 <= |Printed(p)| <= 2 * 1024 + 3 + 2
  {
    SafeStringShape(p.s, MAX_VALUE_SIZE, TRUNCATED);
    if SafeValue(p.s) == [] {
      assert NeedsQuoting(SafeValue(p.s));
    }
  }

  lemma KeyShape(k: Value)
    requires k.Str? && LogfmtKey(k).Printable?
    ensures var key := LogfmtKey(k).key;
            && '\n' !in key && |key| <= 2 * 256 + 3
            && ' ' !in key && '.' !in key && '=' !in key
  {
    var s := Replace(Replace(Replace(k.s, ' ', '_'), '.', '_'), '=', '_');
    SafeStringShape(s, MAX_KEY_SIZE, TRUNCATED_KEY);
    KeptShape(s, MAX_KEY_SIZE);
    EscapeChars(Kept(s, MAX_KEY_SIZE));
  }

  lemma {:induction false} EscapeChars(s: string)
    ensures forall c :: c in Escape(s) ==> c in s || c == '\\'
  {
    if s != [] {
      EscapeChars(s[1..]);
      assert forall c :: c in s[1..] ==> c in s;
    }
  }

  predicate AllSpace(s: string) {
    forall i :: 0 <= i < |s| ==> IsSpace(s[i])
  }

  /** Stripping takes white space off both ends, all of it and nothing else. */
  lemma StripShape(s: string) returns (a: string, b: string)
    ensures s == a + Strip(s) + b && AllSpace(a) && AllSpace(b)
    ensures var t := Strip(s); t != [] ==> !IsSpace(t[0]) && !IsSpace(t[|t| - 1])
  {
    a := StripLeftShape(s);
    b := StripRightShape(StripLeft(s));
  }

  lemma {:induction false} StripLeftShape(s: string) returns (a: string)
    ensures s == a + StripLeft(s) && AllSpace(a)
    ensures StripLeft(s) != [] ==> !IsSpace(StripLeft(s)[0])
  {
    a := [];
    if s != [] && IsSpace(s[0]) {
      a := StripLeftShape(s[1..]);
      a := [s[0]] + a;
    }
  }

  lemma {:induction false} StripRightShape(s: string) returns (b: string)
    ensures s == StripRight(s) + b && AllSpace(b)
    ensures StripRight(s) != [] ==> !IsSpace(StripRight(s)[|StripRight(s)| - 1])
  {
    b := [];
    if s != [] && IsSpace(s[|s| - 1]) {
      b := StripRightShape(s[..|s| - 1]);
      b := b + [s[|s| - 1]];
    }
  }

  /**
    What is kept is a prefix of the stripped string, on one line and within the limit, and the longest such;
    the truncation mark shows exactly when something is missing.
   */
  lemma KeptShape(s: string, max: nat)
    ensures Kept(s, max) <= Strip(s) && '\n' !in Kept(s, max) && |Kept(s, max)| <= max
    ensures Cut(s, max) <==> Kept(s, max) != Strip(s)
    ensures var n := |Kept(s, max)|; n < max && n < |Strip(s)| ==> Strip(s)[n] == '\n'
    ensures forall c :: c in Kept(s, max) ==> c in s
  {
    FirstLineShape(Strip(s));
    var a, b := StripShape(s);
  }
}
