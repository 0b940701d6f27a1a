/** What the reader makes of input that the printer does not write. */
module ReaderCases {
  import opened Sequences
  import opened Logfmt
  import opened Logstash
  import opened RoundTrip

  lemma {:induction false} ReadFlag(p: Reader, k: string, c: char, tail: string)
    requires p.mode.KEY? && (forall i :: 0 <= i < |k| ==> Bare(k[i])) && (c <= ' ' || c == '"') && tail != []
    ensures Run(p, k + [c] + tail)
            == [Write(p.key + k, Yes)] + Run(p.(mode := GARBAGE, key := p.key + k), tail)
    decreases |k|
  {
    var line := k + [c] + tail;
    if k == [] {
      assert line[0] == c && line[1..] == tail && p.key + k == p.key;
    } else {
      assert line[1..] == k[1..] + [c] + tail;
      assert p.key + [k[0]] + k[1..] == p.key + k;
      ReadFlag(p.(key := p.key + [k[0]]), k[1..], c, tail);
    }
  }

  /** A key without a value is set to true. */
  lemma FlagIsTrue(p: Reader, k: string, tail: string)
    requires p.mode.GARBAGE? && GoodKey(k) && tail != []
    ensures Run(p, k + " " + tail) == [Write(k, Yes)] + Run(p.(key := k), tail)
  {
    var line := k + " " + tail;
    assert line[0] == k[0] && line[1..] == k[1..] + [' '] + tail;
    assert [k[0]] + k[1..] == k;
    ReadFlag(p.(mode := KEY, key := [k[0]]), k[1..], ' ', tail);
  }

  lemma {:induction false} ReadLastFlag(p: Reader, k: string)
    requires p.mode.KEY? && k != [] && forall i :: 0 <= i < |k| ==> Bare(k[i])
    ensures Run(p, k) == [Write(p.key + k, Yes)]
    decreases |k|
  {
    if |k| == 1 {
      assert k[1..] == [] && [k[0]] == k;
    } else {
      assert p.key + [k[0]] + k[1..] == p.key + k;
      ReadLastFlag(p.(key := p.key + [k[0]]), k[1..]);
    }
  }

  /** So is one that ends the line, except when it is a single character, which is lost. */
  lemma LastFlag(k: string)
    requires GoodKey(k)
    ensures Run(START, k) == if |k| == 1 then [] else [Write(k, Yes)]
  {
    assert [k[0]] + k[1..] == k;
    if |k| == 1 {
      assert k[1..] == [];
    } else {
      ReadLastFlag(START.(mode := KEY, key := [k[0]]), k[1..]);
    }
  }

  /** `foo= ` is read as nil. */
  lemma NoValue(p: Reader, k: string, tail: string)
    requires p.mode.GARBAGE? && GoodKey(k) && tail != []
    ensures Run(p, k + "=" + ([' '] + tail)) == [Write(k, Yes)] + ([Write(k, Nil)] + Run(p.(key := k), tail))
  {
    ReadWholeKey(p, k, [' '] + tail);
    NilStep(p.(mode := EQUAL, key := k), tail);
    assert p.(mode := EQUAL, key := k).(mode := GARBAGE) == p.(key := k);
  }

  lemma NilStep(p: Reader, tail: string)
    requires p.mode.EQUAL? && tail != []
    ensures Run(p, [' '] + tail) == [Write(p.key, Nil)] + Run(p.(mode := GARBAGE), tail)
  {
    assert ([' '] + tail)[1..] == tail;
  }

  /** `foo=` that ends the line is read as true. */
  lemma LastEquals(p: Reader, k: string)
    requires p.mode.GARBAGE? && GoodKey(k)
    ensures Run(p, k + "=") == [Write(k, Yes), Write(k, Yes)]
  {
    var line := k + "=";
    assert line[1..] == k[1..] + "=";
    assert [k[0]] + k[1..] == k;
    ReadEquals(p.(mode := KEY, key := [k[0]]), k[1..]);
  }

  lemma {:induction false} ReadEquals(p: Reader, k: string)
    requires p.mode.KEY? && forall i :: 0 <= i < |k| ==> Bare(k[i])
    ensures Run(p, k + "=") == [Write(p.key + k, Yes), Write(p.key + k, Yes)]
    decreases |k|
  {
    var line := k + "=";
    if k == [] {
      assert line == "=" && line[1..] == [] && p.key + k == p.key;
    } else {
      assert line[1..] == k[1..] + "=";
      assert p.key + [k[0]] + k[1..] == p.key + k;
      ReadEquals(p.(key := p.key + [k[0]]), k[1..]);
    }
  }

  /** A quoted value that is never closed is not stored. */
  lemma {:induction false} Unclosed(p: Reader, text: string)
    requires p.mode.QVALUE? && '"' !in text
    ensures Run(p, text) == []
    decreases |text|
  {
    if text != [] {
      assert forall c :: c in text[1..] ==> c in text;
      Unclosed(Step(p, text[0], |text| == 1).0, text[1..]);
    }
  }

  /** What stands between atoms is skipped. */
  lemma {:induction false} Skips(p: Reader, noise: string, tail: string)
    requires p.mode.GARBAGE? && forall i :: 0 <= i < |noise| ==> !Bare(noise[i])
    ensures Run(p, noise + tail) == Run(p, tail)
    decreases |noise|
  {
    if noise == [] {
      assert noise + tail == tail;
    } else {
      assert (noise + tail)[1..] == noise[1..] + tail;
      Skips(p, noise[1..], tail);
    }
  }

  /** Numerals with a dot or an exponent are decimals. */
  lemma DottedNumeral(s: string, i: nat)
    requires DotAt(s, i)
    ensures Classify(Text(s)) == Decimal(s)
  {
    assert i < |s| && Mantissa(s);
    assert Unsigned(s) == s by {
      assert s[0] == '.' || s[0] == s[..i][0];
    }
  }

  lemma ExponentNumeral(s: string, i: nat)
    requires ExponentAt(s, i) && '0' <= s[0] <= '9'
    ensures Classify(Text(s)) == Decimal(s)
  {
    assert Unsigned(s) == s;
  }

  /** A sign does not make a number a text. */
  lemma SignedNumeral(s: string)
    requires |s| > 1 && (s[0] == '+' || s[0] == '-') && AllDigits(s[1..])
    ensures var n: int := ReadNat(s[1..]);
            Classify(Text(s)) == Whole(if s[0] == '-' then -n else n)
  {
  }
}
