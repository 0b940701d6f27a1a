/** From a dict of tags to the event: which keys the reader ends up with, and what they hold. */
module TagsReadBack {
  import opened Options
  import opened Sequences
  import opened Logfmt
  import opened Logstash
  import opened RoundTrip
  import opened LineRoundTrip

  // ---------- what the tags say

  /** The values that are left out. False is not one of them. */
  predicate Blank(v: Value) {
    || v == Str("") || v == Bytes(Some("")) || v == Int(0) || v == Dict([])
    || (v.Other? && !v.truthy)
  }

  function KeyText(k: Value): string {
    if k.Str? then k.s else ""
  }

  /** The items of a nested dict, under the key of the dict and their own. */
  function SubLeaves(key: string, items: seq<(Value, Value)>): (r: seq<(string, Value)>)
    ensures |r| == |items|
    ensures forall i :: 0 <= i < |items| ==> r[i] == (key + "_" + KeyText(items[i].0), items[i].1)
  {
    seq(|items|, i requires 0 <= i < |items| => (key + "_" + KeyText(items[i].0), items[i].1))
  }

  /** What one tag should set: nothing, its key, or a key for each item of its dict, whatever the item. */
  function Leaves(tag: (string, Value)): seq<(string, Value)> {
    if Blank(tag.1) then []
    else if tag.1.Dict? then SubLeaves(tag.0, tag.1.items)
    else [tag]
  }

  function AllLeaves(tags: seq<(string, Value)>): seq<(string, Value)> {
    FlatMap(Leaves, tags)
  }

  /** What the reader should hold for a value. */
  function ReadAs(v: Value): EventValue {
    match v
    case Str(s) => Text(Shown(s, 1024, "..."))
    case Bytes(Some(s)) => Text(Shown(s, 1024, "..."))
    case Bytes(None) => Text("???")
    case Bool(b) => if b then Text("true") else Text("false")
    case Int(i) => Whole(i)
    case Dict(_) => Text("<class 'dict'>")
    case Other(typeText, _) => Text(typeText)
  }

  lemma ReadAsDecoded(v: Value)
    ensures Decoded(PayloadOf(v)) == ReadAs(v)
  {
  }

  /** A key that prints as it is. */
  predicate PlainKey(k: string) {
    GoodKey(k) && |k| <= MAX_KEY_SIZE && '.' !in k && forall i :: 0 <= i < |k| ==> !IsSpace(k[i])
  }

  /** A text without white space that can be left as it is up to its limit. */
  predicate Solid(s: string) {
    forall i :: 0 <= i < |s| ==> !IsSpace(s[i]) && s[i] != '"'
  }

  lemma SolidIsKept(s: string, max: nat)
    requires Solid(s)
    ensures Kept(s, max) == (if |s| > max then s[..max] else s) && (Cut(s, max) <==> |s| > max)
  {
    assert Strip(s) == s;
    NoNewline(s);
  }

  lemma SolidIsSafe(s: string, max: nat, mark: string)
    requires Solid(s)
    ensures SafeString(s, max, mark) == if |s| > max then s[..max] + mark else s
  {
    SolidIsKept(s, max);
    EscapePlain(Kept(s, max));
    assert s + [] == s;
  }

  lemma PlainKeyPrints(k: string)
    requires PlainKey(k)
    ensures SafeKey(k) == k
  {
    assert Replace(Replace(Replace(k, ' ', '_'), '.', '_'), '=', '_') == k;
    SolidIsSafe(k, MAX_KEY_SIZE, TRUNCATED_KEY);
  }

  /** An item of a nested dict that does not end it. */
  predicate PlainItem(item: (Value, Value)) {
    item.0.Str? && PlainKey(item.0.s) && item.1 != Bytes(None)
  }

  /** A plain key, and values that survive; the items of a dict have plain keys too, and decode. */
  predicate PlainTag(tag: (string, Value)) {
    && PlainKey(tag.0)
    && (tag.1.Dict? ==> forall i :: 0 <= i < |tag.1.items| ==> PlainItem(tag.1.items[i]))
    && forall leaf :: leaf in Leaves(tag) ==> Survives(PayloadOf(leaf.1))
  }

  function Tags(tags: seq<(string, Value)>): seq<(Value, Value)> {
    seq(|tags|, i requires 0 <= i < |tags| => (Str(tags[i].0), tags[i].1))
  }

  // ---------- what is printed

  function LeafEntry(leaf: (string, Value)): Entry {
    Entry(leaf.0, PayloadOf(leaf.1))
  }

  lemma SubEntriesStep(key: string, items: seq<(Value, Value)>)
    requires items != [] && PlainItem(items[0])
    ensures SubEntries(key, items)
            == [Entry(key + "_" + items[0].0.s, PayloadOf(items[0].1))] + SubEntries(key, items[1..])
  {
    PlainKeyPrints(items[0].0.s);
  }

  lemma SubEntriesAre(key: string, good: seq<(Value, Value)>, rest: seq<(Value, Value)>)
    requires forall i :: 0 <= i < |good| ==> PlainItem(good[i])
    ensures SubEntries(key, good + rest) == Map(LeafEntry, SubLeaves(key, good)) + SubEntries(key, rest)
  {
    var f := (items: seq<(Value, Value)>) => SubEntries(key, items);
    var m := (item: (Value, Value)) => Entry(key + "_" + KeyText(item.0), PayloadOf(item.1));
    forall i | 0 <= i < |good|
      ensures f((good + rest)[i..]) == [m(good[i])] + f((good + rest)[i + 1..])
    {
      var items := (good + rest)[i..];
      assert items[0] == good[i] && items[1..] == (good + rest)[i + 1..];
      SubEntriesStep(key, items);
    }
    Stepwise(f, m, good, rest, 0);
    assert (good + rest)[0..] == good + rest && Map(m, good)[0..] == Map(m, good);
    assert Map(m, good) == Map(LeafEntry, SubLeaves(key, good));
  }

  lemma DictEntries(key: string, items: seq<(Value, Value)>)
    requires PlainKey(key) && items != []
    ensures EntriesOf((Str(key), Dict(items))) == SubEntries(key, items)
  {
    PlainKeyPrints(key);
  }

  lemma AllItems(key: string, items: seq<(Value, Value)>)
    requires forall i :: 0 <= i < |items| ==> PlainItem(items[i])
    ensures SubEntries(key, items) == Map(LeafEntry, SubLeaves(key, items))
  {
    SubEntriesAre(key, items, []);
    assert items + [] == items;
  }

  lemma OneEntry(k: string, v: Value)
    requires PlainKey(k) && !v.Dict?
    ensures EntriesOf((Str(k), v)) == if Blank(v) then [] else [Entry(k, PayloadOf(v))]
  {
    PlainKeyPrints(k);
  }

  lemma TagPrints(tag: (string, Value))
    requires PlainTag(tag)
    ensures EntriesOf((Str(tag.0), tag.1)) == Map(LeafEntry, Leaves(tag))
  {
    var (k, v) := tag;
    if !v.Dict? {
      OneEntry(k, v);
    } else if v.items != [] {
      DictEntries(k, v.items);
      AllItems(k, v.items);
    }
  }

  lemma TagsPrint(tags: seq<(string, Value)>)
    requires forall i :: 0 <= i < |tags| ==> PlainTag(tags[i])
    ensures Entries(Tags(tags)) == Map(LeafEntry, AllLeaves(tags))
  {
    forall i | 0 <= i < |tags|
      ensures EntriesOf(Tags(tags)[i]) == Map(LeafEntry, Leaves(tags[i]))
    {
      TagPrints(tags[i]);
    }
    FlatMapMap(EntriesOf, Tags(tags), Leaves, tags, LeafEntry);
  }

  lemma LeafKeys(tag: (string, Value), leaf: (string, Value))
    requires PlainTag(tag) && leaf in Leaves(tag)
    ensures Good(LeafEntry(leaf))
  {
    if tag.1.Dict? {
      var i :| 0 <= i < |tag.1.items| && leaf == SubLeaves(tag.0, tag.1.items)[i];
      assert PlainItem(tag.1.items[i]);
      GoodJoin(tag.0, tag.1.items[i].0.s);
    }
  }

  lemma GoodJoin(a: string, b: string)
    requires GoodKey(a) && GoodKey(b)
    ensures GoodKey(a + "_" + b)
  {
  }

  lemma LeavesAreGood(tags: seq<(string, Value)>)
    requires forall i :: 0 <= i < |tags| ==> PlainTag(tags[i])
    ensures AllGood(Map(LeafEntry, AllLeaves(tags)))
  {
    MapHas(LeafEntry, AllLeaves(tags));
    forall e | e in Map(LeafEntry, AllLeaves(tags))
      ensures Good(e)
    {
      var j :| 0 <= j < |AllLeaves(tags)| && LeafEntry(AllLeaves(tags)[j]) == e;
      FlatMapHas(Leaves, tags, AllLeaves(tags)[j]);
      var i :| 0 <= i < |tags| && AllLeaves(tags)[j] in Leaves(tags[i]);
      LeafKeys(tags[i], AllLeaves(tags)[j]);
    }
  }

  /**
    From a dict to the event: if keys are plain and the printed ones distinct, and what is printed
    survives, then after reading the line every tag that is not blank is held under its key, or, if it
    is a dict, under the keys of its items; and every other field of the event is what it was.
   */
  lemma DictReadBack(tags: seq<(string, Value)>, event: Event)
    requires forall i :: 0 <= i < |tags| ==> PlainTag(tags[i])
    requires forall i, j :: 0 <= i < j < |AllLeaves(tags)| ==> AllLeaves(tags)[i].0 != AllLeaves(tags)[j].0
    ensures var after := Assigned(event, Run(START, Line(AtomsOf(Entries(Tags(tags))))));
            && (forall leaf :: leaf in AllLeaves(tags) ==> leaf.0 in after && after[leaf.0] == ReadAs(leaf.1))
            && (forall k :: (forall leaf :: leaf in AllLeaves(tags) ==> leaf.0 != k) ==>
                              (k in after <==> k in event) && (k in event ==> after[k] == event[k]))
  {
    var leaves := AllLeaves(tags);
    var entries := Map(LeafEntry, leaves);
    TagsPrint(tags);
    LeavesAreGood(tags);
    DistinctReadBack(entries, event);
    MapHas(LeafEntry, leaves);
    forall leaf | leaf in leaves
      ensures LeafEntry(leaf) in entries && Decoded(PayloadOf(leaf.1)) == ReadAs(leaf.1)
    {
      ReadAsDecoded(leaf.1);
    }
  }

  /** Which leaves there are: exactly the tags that are not blank, and the items of dicts. */
  lemma LeavesAre(tags: seq<(string, Value)>, k: string, v: Value)
    ensures (k, v) in AllLeaves(tags)
            <==> || ((k, v) in tags && !v.Dict? && !Blank(v))
                 || exists i, j :: 0 <= i < |tags| && tags[i].1.Dict? && 0 <= j < |tags[i].1.items|
                                   && SubLeaves(tags[i].0, tags[i].1.items)[j] == (k, v)
  {
    FlatMapHas(Leaves, tags, (k, v));
    if (k, v) in AllLeaves(tags) {
      var i :| 0 <= i < |tags| && (k, v) in Leaves(tags[i]);
      if tags[i].1.Dict? {
        var j :| 0 <= j < |tags[i].1.items| && SubLeaves(tags[i].0, tags[i].1.items)[j] == (k, v);
      }
    }
    if i, j :| 0 <= i < |tags| && tags[i].1.Dict? && 0 <= j < |tags[i].1.items|
               && SubLeaves(tags[i].0, tags[i].1.items)[j] == (k, v) {
      assert (k, v) in Leaves(tags[i]);
    }
    if (k, v) in tags && !v.Dict? && !Blank(v) {
      var i :| 0 <= i < |tags| && tags[i] == (k, v);
      assert (k, v) in Leaves(tags[i]);
    }
  }

  // ---------- single tags

  /** The text of an atom's value. */
  function Literal(v: Value): string {
    match v
    case Str(s) => Printed(Quotable(s))
    case Bytes(Some(s)) => Printed(Quotable(s))
    case Bytes(None) => Quoted("???")
    case Bool(b) => if b then "true" else "false"
    case Int(i) => ShowInt(i)
    case Dict(_) => Quoted("<class 'dict'>")
    case Other(typeText, _) => Quoted(typeText)
  }

  lemma LiteralPrinted(v: Value)
    ensures Printed(PayloadOf(v)) == Literal(v)
  {
  }

  /** The line of one tag that is not a dict: nothing if it is blank, and else the key and its value. */
  lemma TagLine(k: string, v: Value)
    requires PlainKey(k) && !v.Dict?
    ensures Line(AtomsOf(Entries([(Str(k), v)]))) == if Blank(v) then "" else k + "=" + Literal(v)
  {
    var e := Entry(k, PayloadOf(v));
    assert Entries([(Str(k), v)]) == if Blank(v) then [] else [e] by {
      FlatMapOne(EntriesOf, (Str(k), v));
      OneEntry(k, v);
    }
    LineOne(e);
    LiteralPrinted(v);
  }

  lemma LineOne(e: Entry)
    ensures Line(AtomsOf([e])) == e.key + "=" + Printed(e.payload)
  {
    var head := e.key + "=" + Printed(e.payload);
    assert AtomsOf([e]) == [Atom(e.key, Printed(e.payload))];
    assert head + [] == head;
  }

  /** False is printed, as is True. */
  lemma BoolLine(k: string, b: bool)
    requires PlainKey(k)
    ensures Line(AtomsOf(Entries([(Str(k), Bool(b))]))) == k + "=" + if b then "true" else "false"
  {
    TagLine(k, Bool(b));
  }

  /** A nested dict up to a value that can not be decoded: the items before it, and "???" under the dict's own key. */
  lemma NestedFailure(key: string, good: seq<(Value, Value)>, sub: string, rest: seq<(Value, Value)>)
    requires forall i :: 0 <= i < |good| ==> PlainItem(good[i])
    ensures SubEntries(key, good + ([(Str(sub), Bytes(None))] + rest))
            == Map(LeafEntry, SubLeaves(key, good)) + [Entry(key, Failed)]
  {
    var last := [(Str(sub), Bytes(None))] + rest;
    SubEntriesAre(key, good, last);
    assert SubEntries(key, last) == [Entry(key, Failed)] by {
      FailedItem(key, last);
    }
  }

  lemma FailedItem(key: string, items: seq<(Value, Value)>)
    requires items != [] && items[0].0.Str? && items[0].1 == Bytes(None)
    ensures SubEntries(key, items) == [Entry(key, Failed)]
  {
  }

  /** Lines of two groups of atoms are joined by one space. */
  lemma {:induction false} LineJoins(a: seq<Atom>, b: seq<Atom>)
    ensures Line(a + b) == if a == [] then Line(b) else if b == [] then Line(a) else Line(a) + " " + Line(b)
  {
    if a == [] {
      assert a + b == b;
    } else if b == [] {
      assert a + b == a;
    } else {
      assert (a + b)[1..] == a[1..] + b;
      LineJoins(a[1..], b);
      var head := a[0].key + "=" + a[0].text;
      if |a| == 1 {
        assert a[1..] == [] && head + [] == head;
        Regroup(head, " ", Line(b));
      } else {
        Regroup(" ", Line(a[1..]) + " ", Line(b));
        Regroup(" ", Line(a[1..]), " ");
        PullFront(head, " " + Line(a[1..]), " ", Line(b));
      }
    }
  }

  // ---------- keys that are not plain

  /** A tag is refused, and its key warned about, exactly if the key is no string, no number, or does not decode. */
  lemma RefusedKey(k: Value, v: Value)
    requires !Blank(v) && !v.Dict?
    ensures var refused := k.Bool? || k.Dict? || k.Other? || k == Bytes(None);
            && Errors([(k, v)]) == (if refused then [k] else [])
            && Entries([(k, v)])
               == if refused then []
                  else
                    match k
                    case Int(i) => [Entry(ShowInt(i), PayloadOf(v))]
                    case Str(s) => [Entry(SafeKey(s), PayloadOf(v))]
                    case Bytes(d) => [Entry(SafeKey(d.value), PayloadOf(v))]
  {
    FlatMapOne(ErrorsOf, (k, v));
    FlatMapOne(EntriesOf, (k, v));
  }

  /**
    When a string is printed in quotes: if it has a space, an equals sign, a quote or a backslash, or if it
    has nothing but digits and at most one dot.
   */
  lemma QuotedWhen(s: string)
    ensures var e := SafeValue(s);
            Literal(Str(s)) == if Special(e) || PlainNumber(e) then Quoted(e) else e
  {
    SpecialIs(SafeValue(s));
    PlainNumberIs(SafeValue(s));
  }

  predicate Special(e: string) {
    ' ' in e || '=' in e || '"' in e || '\\' in e
  }

  predicate PlainNumber(e: string) {
    && (forall c :: c in e ==> c == '.' || '0' <= c <= '9')
    && forall i, j :: 0 <= i < j < |e| ==> !(e[i] == '.' && e[j] == '.')
  }

  lemma SpecialIs(e: string)
    ensures Special(e) <==> exists i :: 0 <= i < |e| && Forcing(e[i])
  {
    if Special(e) {
      var c := if ' ' in e then ' ' else if '=' in e then '=' else if '"' in e then '"' else '\\';
      var i :| 0 <= i < |e| && e[i] == c;
      assert Forcing(e[i]);
    }
  }

  lemma PlainNumberIs(e: string)
    ensures PlainNumber(e) <==> (forall i :: 0 <= i < |e| ==> Numeric(e[i])) && Dots(e) <= 1
  {
    DotsAtMostOne(e);
    assert (forall i :: 0 <= i < |e| ==> e[i] in e) && forall c :: c in e ==> exists i :: 0 <= i < |e| && e[i] == c;
  }

  lemma {:induction false} DotsAtMostOne(s: string)
    ensures Dots(s) == 0 <==> '.' !in s
    ensures Dots(s) <= 1 <==> forall i, j :: 0 <= i < j < |s| ==> !(s[i] == '.' && s[j] == '.')
  {
    if s != [] {
      var n := |s| - 1;
      DotsAtMostOne(s[..n]);
      assert s == s[..n] + [s[n]];
      if Dots(s[..n]) == 1 {
        assert '.' in s[..n];
        var i :| 0 <= i < n && s[..n][i] == '.';
        assert s[i] == '.';
      }
      if Dots(s[..n]) > 1 {
        var i, j :| 0 <= i < j < n && s[..n][i] == '.' && s[..n][j] == '.';
        assert s[i] == '.' && s[j] == '.';
      }
    }
  }

  /** Spaces, dots and equals signs become underscores, and nothing else changes in a short key on one line. */
  lemma KeyReplaced(k: string)
    requires |k| <= 256 && forall i :: 0 <= i < |k| ==> k[i] != '"' && (IsSpace(k[i]) ==> k[i] == ' ')
    ensures var r := SafeKey(k);
            && |r| == |k|
            && forall i :: 0 <= i < |k| ==>
                             r[i] == if k[i] == ' ' || k[i] == '.' || k[i] == '=' then '_' else k[i]
  {
    SolidIsSafe(Replace(Replace(Replace(k, ' ', '_'), '.', '_'), '=', '_'), MAX_KEY_SIZE, TRUNCATED_KEY);
  }

  /** A longer one is cut and marked. */
  lemma KeyCut(k: string)
    requires |k| > 256 && forall i :: 0 <= i < |k| ==> k[i] != '"' && !IsSpace(k[i]) && k[i] != '.' && k[i] != '='
    ensures SafeKey(k) == k[..256] + "___"
  {
    assert Replace(Replace(Replace(k, ' ', '_'), '.', '_'), '=', '_') == k;
    SolidIsSafe(k, MAX_KEY_SIZE, TRUNCATED_KEY);
  }
}
