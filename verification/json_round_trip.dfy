/** Canonical text is JSON text of its value: a reader gets that value back, with sorted keys, and no string is written longer. */
module JsonRoundTrip {
  import opened Wrappers
  import opened CanonicalJson
  import opened CanonicalJsonProofs
  import opened JsonReader

  lemma SplitAfter(p: Text, x: Text)
    ensures (p + x)[|p|..] == x && (p + x)[..|p|] == p
  {
  }

  // ---- Strings ----

  lemma HexReadsBack(c: Code, x: Text)
    ensures FourDigits(Hex(c) + x) == Some(c)
  {
    Nibbles(c);
    var t := Hex(c) + x;
    assert HexValue(t[0]) == Some(c / 4096) && HexValue(t[1]) == Some(c / 256 % 16);
    assert HexValue(t[2]) == Some(c / 16 % 16) && HexValue(t[3]) == Some(c % 16);
  }

  lemma EscapeReadsBack(c: Code, x: Text)
    requires |Escape(c)| > 1
    ensures Escape(c)[0] == 0x5C && ReadEscape((Escape(c) + x)[1..]) == Some((c, x))
  {
    var t := (Escape(c) + x)[1..];
    if |Escape(c)| == 2 {
      assert t == [Escape(c)[1]] + x;
      assert t[1..] == x;
    } else {
      assert t == [0x75] + (Hex(c) + x);
      assert t[1..] == Hex(c) + x && t[5..] == x;
      HexReadsBack(c, x);
    }
  }

  /** One character and what follows it. */
  lemma CharacterReadsBack(u: Text, x: Text)
    requires u != [] && |u| == Width(u)
    ensures ReadBody(Character(u) + x) ==
      if |u| == 2 then Prepend(u[0], Prepend(u[1], ReadBody(x))) else Prepend(u[0], ReadBody(x))
  {
    var t := Character(u) + x;
    if |u| == 2 {
      assert t[0] == u[0] && t[1] == u[1] && t[2..] == x;
    } else if |Escape(u[0])| > 1 {
      EscapeReadsBack(u[0], x);
      assert t[0] == 0x5C;
    } else {
      assert t[0] == u[0] && t[1..] == x;
    }
  }

  lemma PrependsAll(u: Text, rest: Text, x: Text)
    requires 1 <= |u| <= 2
    ensures Some((u + rest, x)) ==
      if |u| == 2 then Prepend(u[0], Prepend(u[1], Some((rest, x)))) else Prepend(u[0], Some((rest, x)))
  {
    assert |u| == 2 ==> [u[0]] + ([u[1]] + rest) == u + rest;
    assert |u| == 1 ==> [u[0]] + rest == u + rest;
  }

  lemma {:induction false} BodyReadsBack(s: Text, x: Text)
    ensures ReadBody(BodyThen(s, x)) == Some((s, x))
    decreases |s|
  {
    BodySplit(s, x);
    if s == [] {
      assert ([QUOTE] + x)[1..] == x;
    } else {
      var (u, rest) := (s[..Width(s)], s[Width(s)..]);
      CharacterReadsBack(u, BodyThen(rest, x));
      BodyReadsBack(rest, x);
      assert s == u + rest;
      PrependsAll(u, rest, x);
    }
  }

  /** A string literal reads back as its string, whatever follows. */
  lemma StringReadsBack(s: Text, x: Text)
    ensures ReadString(Quoted(s) + x) == Some((s, x))
  {
    QuotedSplit(s, x);
    BodyReadsBack(s, x);
    assert ([QUOTE] + BodyThen(s, x))[1..] == BodyThen(s, x);
  }

  /** Only what must be escaped is, in the short form where there is one, else with lower-case digits. */
  lemma EscapeIsShort(c: Code)
    ensures |Escape(c)| ==
      if c in {0x22, 0x5C, 0x08, 0x09, 0x0A, 0x0C, 0x0D} then 2 else if c < 0x20 || Leads(c) || Trails(c) then 6 else 1
    ensures |Escape(c)| == 6 ==> forall u <- Escape(c)[2..] :: 0x30 <= u <= 0x39 || 0x61 <= u <= 0x66
  {
    if |Escape(c)| == 6 { assert Escape(c)[2..] == Hex(c); }
  }

  lemma BodyOneMore(c: Code, s: Text)
    ensures |Body([c] + s)| <= |Escape(c)| + |Body(s)|
    ensures s != [] && Leads(c) && Trails(s[0]) ==> |Body([c] + s)| == 2 + |Body(s[1..])|
  {
    var t := [c] + s;
    if s != [] && Leads(c) && Trails(s[0]) {
      assert t[2..] == s[1..] && t[..2] == [c, s[0]];
      assert s[..1] == [s[0]];
    } else {
      assert t[1..] == s && t[..1] == [c];
    }
  }

  lemma {:induction false} BodyIsShortest(t: Text)
    requires ReadBody(t).Some?
    ensures |Body(ReadBody(t).value.0)| + 1 <= |t| - |ReadBody(t).value.1|
    decreases |t|
  {
    var s := ReadBody(t).value.0;
    if t[0] == 0x22 {
    } else if t[0] == 0x5C {
      var (c, rest) := ReadEscape(t[1..]).value;
      BodyIsShortest(rest);
      BodyOneMore(c, ReadBody(rest).value.0);
      EscapeIsShort(c);
    } else if Leads(t[0]) {
      BodyIsShortest(t[2..]);
      var s' := ReadBody(t[2..]).value.0;
      BodyOneMore(t[0], [t[1]] + s');
      assert ([t[1]] + s')[1..] == s';
    } else {
      BodyIsShortest(t[1..]);
      BodyOneMore(t[0], ReadBody(t[1..]).value.0);
      EscapeIsShort(t[0]);
    }
  }

  /** No text of a string is shorter than the canonical one. */
  lemma StringIsShortest(t: Text, s: Text, x: Text)
    requires ReadString(t) == Some((s, x))
    ensures |Quoted(s) + x| <= |t|
  {
    BodyIsShortest(t[1..]);
  }

  // ---- Numbers ----

  lemma {:induction false} DigitsReadBack(n: nat)
    ensures Decimal(Digits(n)) == n && (forall c <- Digits(n) :: JsonReader.IsDigit(c))
    ensures Digits(n) != [] && (Digits(n)[0] == 0x30 <==> n == 0)
    decreases n
  {
    if n >= 10 {
      DigitsReadBack(n / 10);
      assert Digits(n)[..|Digits(n)| - 1] == Digits(n / 10);
    }
  }

  lemma {:induction false} CountOf(a: Text, x: Text)
    requires (forall c <- a :: JsonReader.IsDigit(c)) && Delimited(x)
    ensures CountDigits(a + x) == |a|
    decreases |a|
  {
    if a == [] {
      assert a + x == x;
    } else {
      CountOf(a[1..], x);
      assert (a + x)[1..] == a[1..] + x;
    }
  }

  lemma NaturalReadsBack(n: nat, x: Text)
    requires Delimited(x)
    ensures ReadNatural(Digits(n) + x) == Some((n, x))
  {
    DigitsReadBack(n);
    CountOf(Digits(n), x);
    SplitAfter(Digits(n), x);
    assert |Digits(n)| > 1 ==> n >= 10;
  }

  lemma NegativeReadsBack(t: Text, n: int, x: Text)
    requires n > 0 && t == [45] + (Digits(n) + x) && Delimited(x)
    ensures ReadNumber(t) == Some((-n, x))
  {
    assert t[0] == 0x2D && t[1..] == Digits(n) + x;
    NaturalReadsBack(n, x);
  }

  /** An integer reads back before whatever may follow a value. */
  lemma NumberReadsBack(n: int, x: Text)
    requires Delimited(x)
    ensures ReadNumber(Number(n) + x) == Some((n, x))
  {
    if n < 0 {
      Assoc([45], Digits(-n), x);
      NegativeReadsBack(Number(n) + x, -n, x);
    } else {
      DigitsReadBack(n);
      assert (Digits(n) + x)[0] == Digits(n)[0];
      NaturalReadsBack(n, x);
    }
  }

  // ---- The order of keys ----

  /** The shorter of two keys that agree comes first; else the first code unit in which they differ decides. */
  ghost predicate ComesBefore(a: Text, b: Text) {
    exists n: nat :: n <= |a| && n < |b| && a[..n] == b[..n] && (n == |a| || a[n] < b[n])
  }

  lemma LaterDifference(a: Text, b: Text, n: nat)
    requires a != [] && b != [] && a[0] == b[0]
    requires n <= |a[1..]| && n < |b[1..]| && a[1..][..n] == b[1..][..n] && (n == |a[1..]| || a[1..][n] < b[1..][n])
    ensures ComesBefore(a, b)
  {
    assert a[..n + 1] == [a[0]] + a[1..][..n] && b[..n + 1] == [b[0]] + b[1..][..n];
    assert n + 1 == |a| || a[n + 1] < b[n + 1];
  }

  lemma {:induction false} LessComesBefore(a: Text, b: Text)
    requires Less(a, b)
    ensures ComesBefore(a, b)
    decreases |a|
  {
    if a == [] || a[0] < b[0] {
      assert a[..0] == b[..0];
    } else {
      LessComesBefore(a[1..], b[1..]);
      var n: nat :| n <= |a[1..]| && n < |b[1..]| && a[1..][..n] == b[1..][..n] && (n == |a[1..]| || a[1..][n] < b[1..][n]);
      LaterDifference(a, b, n);
    }
  }

  ghost predicate KeysInOrder(keys: seq<Text>) {
    forall i, j | 0 <= i < j < |keys| :: ComesBefore(keys[i], keys[j])
  }

  /** The keys of every object in it come in the order of their code units. */
  ghost predicate InOrder(v: Value) {
    match v
    case Arr(items) => forall i | 0 <= i < |items| :: InOrder(items[i])
    case Obj(fields) => KeysInOrder(Keys(fields)) && forall i | 0 <= i < |fields| :: InOrder(fields[i].1)
    case _ => true
  }

  lemma SortedKeysAreInOrder(keys: seq<Text>)
    requires Distinct(keys)
    ensures KeysInOrder(Sort(keys)) && Distinct(Sort(keys))
  {
    SortAscends(keys);
    forall i, j | 0 <= i < j < |Sort(keys)| ensures ComesBefore(Sort(keys)[i], Sort(keys)[j]) && Sort(keys)[i] != Sort(keys)[j] {
      LessComesBefore(Sort(keys)[i], Sort(keys)[j]);
      LessIrreflexive(Sort(keys)[i]);
    }
  }

  // ---- Values ----

  /** The value read equals the one printed, up to the order of keys, which is the canonical one. */
  ghost predicate Same(v: Value, v': Value) {
    IsJson(v') && Equiv(v, v') && InOrder(v')
  }

  ghost predicate ReadsAs(r: Reading<Value>, v: Value, x: Text) {
    r.Some? && r.value.1 == x && Same(v, r.value.0)
  }

  lemma {:induction false} ValueReadsBack(v: Value, x: Text)
    requires IsJson(v) && Delimited(x)
    ensures ReadsAs(ReadValue(Print(v) + x), v, x)
    decreases v, 1, 0
  {
    var t := Print(v) + x;
    PrintStarts(v);
    assert t[0] == Print(v)[0];
    match v
    case Null => SplitAfter(NULL, x);
    case Bool(b) => SplitAfter(Print(v), x);
    case Num(n) => NumberReadsBack(n, x);
    case Str(s) => StringReadsBack(s, x);
    case Arr(items) => ArrayReadsBack(v, x);
    case Obj(fields) => ObjectReadsBack(v, x);
  }

  lemma ArrayReadsBack(v: Value, x: Text)
    requires v.Arr? && IsJson(v)
    ensures ReadsAs(ReadValue(Print(v) + x), v, x)
    decreases v, 0, |v.items| + 1
  {
    ArraySplit(v, x);
    ItemsStart(v, 0, x);
    if v.items == [] {
      EmptyArrayReads(x);
      ItemsMakeIt(v, []);
    } else {
      ItemsBegin(v, x);
      ItemsReadBack(v, 0, x);
      ArrayReads(ItemsThen(v, 0, x));
      ItemsMakeIt(v, ReadItems(ItemsThen(v, 0, x)).value.0);
    }
  }

  lemma ItemsBegin(v: Value, x: Text)
    requires v.Arr? && IsJson(v) && v.items != []
    ensures ItemsThen(v, 0, x) == Print(v.items[0]) + ItemsThen(v, 1, x)
  {
    ItemsSplit(v, 0, x);
  }

  lemma EmptyArrayReads(x: Text)
    ensures ReadValue([OPEN_ARRAY] + ([CLOSE_ARRAY] + x)) == Some((Arr([]), x))
  {
    var t := [OPEN_ARRAY] + ([CLOSE_ARRAY] + x);
    assert t[0] == 0x5B && t[1] == 0x5D && t[2..] == x;
  }

  lemma ArrayReads(items: Text)
    requires items != [] && items[0] != CLOSE_ARRAY && ReadItems(items).Some?
    ensures ReadValue([OPEN_ARRAY] + items) == Some((Arr(ReadItems(items).value.0), ReadItems(items).value.1))
  {
    var t := [OPEN_ARRAY] + items;
    assert t[0] == 0x5B && t[1] == items[0] && t[1..] == items;
  }

  lemma EmptyObjectReads(x: Text)
    ensures ReadValue([OPEN_OBJECT] + ([CLOSE_OBJECT] + x)) == Some((Obj([]), x))
  {
    var t := [OPEN_OBJECT] + ([CLOSE_OBJECT] + x);
    assert t[0] == 0x7B && t[1] == 0x7D && t[2..] == x;
  }

  lemma ObjectReads(fields: Text)
    requires fields != [] && fields[0] != CLOSE_OBJECT && ReadFields(fields).Some?
    ensures ReadValue([OPEN_OBJECT] + fields) == Some((Obj(ReadFields(fields).value.0), ReadFields(fields).value.1))
  {
    var t := [OPEN_OBJECT] + fields;
    assert t[0] == 0x7B && t[1] == fields[0] && t[1..] == fields;
  }

  ghost predicate ItemsAre(v: Value, i: nat, items: seq<Value>)
    requires v.Arr? && i <= |v.items|
  {
    |items| == |v.items| - i && forall k | 0 <= k < |items| :: Same(v.items[i + k], items[k])
  }

  lemma ItemsMakeIt(v: Value, items: seq<Value>)
    requires v.Arr? && ItemsAre(v, 0, items)
    ensures Same(v, Arr(items))
  {
    forall k | 0 <= k < |items| ensures Same(v.items[k], items[k]) {
      assert Same(v.items[0 + k], items[k]);
    }
  }

  lemma FirstItemIs(v: Value, i: nat, first: Value, rest: seq<Value>)
    requires v.Arr? && i < |v.items| && Same(v.items[i], first) && ItemsAre(v, i + 1, rest)
    ensures ItemsAre(v, i, [first] + rest)
  {
    forall k | 0 <= k < |[first] + rest| ensures Same(v.items[i + k], ([first] + rest)[k]) {
      if k > 0 { assert Same(v.items[i + 1 + (k - 1)], rest[k - 1]); }
    }
  }

  lemma {:induction false} ItemsReadBack(v: Value, i: nat, x: Text)
    requires v.Arr? && IsJson(v) && i < |v.items|
    ensures var r := ReadItems(Print(v.items[i]) + ItemsThen(v, i + 1, x));
      r.Some? && r.value.1 == x && ItemsAre(v, i, r.value.0)
    decreases v, 0, |v.items| - i
  {
    var rest := ItemsThen(v, i + 1, x);
    ItemsStart(v, i + 1, x);
    ValueReadsBack(v.items[i], rest);
    var first := ReadValue(Print(v.items[i]) + rest).value.0;
    if i + 1 == |v.items| {
      SplitAfter([CLOSE_ARRAY], x);
      FirstItemIs(v, i, first, []);
    } else {
      ItemsSplit(v, i + 1, x);
      SplitAfter([COMMA], Print(v.items[i + 1]) + ItemsThen(v, i + 2, x));
      ItemsReadBack(v, i + 1, x);
      FirstItemIs(v, i, first, ReadItems(rest[1..]).value.0);
    }
  }

  lemma ObjectReadsBack(v: Value, x: Text)
    requires v.Obj? && IsJson(v)
    ensures ReadsAs(ReadValue(Print(v) + x), v, x)
    decreases v, 0, |v.fields| + 1
  {
    var keys := Sort(Keys(v.fields));
    SortKeepsKeys(v.fields);
    ObjectSplit(v, x);
    FieldsStart(v, keys, x);
    if keys == [] {
      EmptyObjectReads(x);
      FieldsMakeIt(v, []);
    } else {
      assert |keys| == |v.fields| by { assert |multiset(keys)| == |multiset(Keys(v.fields))|; }
      FieldsReadBack(v, keys, x);
      ObjectReads(FieldsThen(v, keys, x));
      FieldsMakeIt(v, ReadFields(FieldsThen(v, keys, x)).value.0);
    }
  }

  ghost predicate FieldsAre(v: Value, keys: seq<Text>, fields: seq<(Text, Value)>)
    requires KeysOf(v, keys)
  {
    |fields| == |keys| && forall k | 0 <= k < |keys| :: fields[k].0 == keys[k] && Same(Lookup(v.fields, keys[k]), fields[k].1)
  }

  lemma FirstFieldIs(v: Value, keys: seq<Text>, first: (Text, Value), rest: seq<(Text, Value)>)
    requires KeysOf(v, keys) && keys != [] && first.0 == keys[0] && Same(Lookup(v.fields, keys[0]), first.1)
    requires FieldsAre(v, keys[1..], rest)
    ensures FieldsAre(v, keys, [first] + rest)
  {
    forall k | 0 <= k < |keys|
      ensures ([first] + rest)[k].0 == keys[k] && Same(Lookup(v.fields, keys[k]), ([first] + rest)[k].1)
    {
      if k > 0 { assert keys[1..][k - 1] == keys[k]; }
    }
  }

  lemma {:induction false} FieldsReadBack(v: Value, keys: seq<Text>, x: Text)
    requires KeysOf(v, keys) && keys != [] && |keys| <= |v.fields|
    ensures var r := ReadFields(FieldsThen(v, keys, x)); r.Some? && r.value.1 == x && FieldsAre(v, keys, r.value.0)
    decreases v, 0, |keys|
  {
    var rest := AfterField(v, keys, x);
    FieldReadsBack(v, keys, x);
    var first := ReadField(FieldsThen(v, keys, x)).value.0;
    if |keys| == 1 {
      FieldsStart(v, keys[1..], x);
      SplitAfter([CLOSE_OBJECT], x);
      assert rest == [CLOSE_OBJECT] + x;
      FirstFieldIs(v, keys, first, []);
    } else {
      SplitAfter([COMMA], FieldsThen(v, keys[1..], x));
      FieldsReadBack(v, keys[1..], x);
      FirstFieldIs(v, keys, first, ReadFields(rest[1..]).value.0);
    }
  }

  lemma FieldReadsBack(v: Value, keys: seq<Text>, x: Text)
    requires KeysOf(v, keys) && keys != []
    ensures var r := ReadField(FieldsThen(v, keys, x));
      r.Some? && r.value.1 == AfterField(v, keys, x) && r.value.0.0 == keys[0] && Same(Lookup(v.fields, keys[0]), r.value.0.1)
    decreases v, 0, 0
  {
    var (value, rest) := (Lookup(v.fields, keys[0]), AfterField(v, keys, x));
    LookupIsJson(v, keys[0]);
    FieldsSplit(v, keys, x);
    AfterFieldStart(v, keys, x);
    StringReadsBack(keys[0], [COLON] + (Print(value) + rest));
    SplitAfter([COLON], Print(value) + rest);
    ValueReadsBack(value, rest);
  }

  lemma SortHasTheKeys(keys: seq<Text>, k: Text)
    ensures k in keys <==> k in Sort(keys)
  {
    assert k in keys <==> k in multiset(keys);
    assert k in Sort(keys) <==> k in multiset(Sort(keys));
  }

  lemma FieldIsItsOwn(v: Value, fields: seq<(Text, Value)>, i: nat, j: nat)
    requires v.Obj? && IsJson(v) && KeysOf(v, Sort(Keys(v.fields))) && FieldsAre(v, Sort(Keys(v.fields)), fields)
    requires i < |v.fields| && j < |fields| && v.fields[i].0 == fields[j].0
    ensures Equiv(v.fields[i].1, fields[j].1)
  {
    LookupAt(v.fields, i);
  }

  lemma FieldsAreJson(v: Value, keys: seq<Text>, fields: seq<(Text, Value)>)
    requires KeysOf(v, keys) && FieldsAre(v, keys, fields) && KeysInOrder(keys) && Distinct(keys)
    ensures Keys(fields) == keys && IsJson(Obj(fields)) && InOrder(Obj(fields))
  {
    assert Keys(fields) == keys;
  }

  /** The fields that were read, under the sorted keys, are the object again. */
  lemma FieldsMakeIt(v: Value, fields: seq<(Text, Value)>)
    requires v.Obj? && IsJson(v) && KeysOf(v, Sort(Keys(v.fields))) && FieldsAre(v, Sort(Keys(v.fields)), fields)
    ensures Same(v, Obj(fields))
  {
    SortedKeysAreInOrder(Keys(v.fields));
    FieldsAreJson(v, Sort(Keys(v.fields)), fields);
    forall k: Text ensures k in Keys(v.fields) <==> k in Keys(fields) { SortHasTheKeys(Keys(v.fields), k); }
    forall i, j | 0 <= i < |v.fields| && 0 <= j < |fields| && v.fields[i].0 == fields[j].0
      ensures Equiv(v.fields[i].1, fields[j].1)
    {
      FieldIsItsOwn(v, fields, i, j);
    }
  }

  /** Reading canonical text gives the value that was printed, up to the order of keys; the keys then come in the order of their
      code units. */
  lemma CanonicalReadsBack(v: Value)
    requires IsJson(v)
    ensures Canonical(v).Some? && Read(Canonical(v).value).Some?
    ensures var v' := Read(Canonical(v).value).value; IsJson(v') && Equiv(v, v') && InOrder(v')
  {
    ValueReadsBack(v, []);
    assert Print(v) + [] == Print(v);
  }
}
