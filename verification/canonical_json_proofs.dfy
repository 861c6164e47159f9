/** Two JSON values have the same canonical text exactly when they are the same value up to the order of object keys. */
module CanonicalJsonProofs {
  import opened CanonicalJson

  /** Equality of JSON values: arrays are ordered, objects are not. */
  ghost predicate Equiv(a: Value, b: Value)
    decreases a
  {
    if a.Arr? && b.Arr? then
      |a.items| == |b.items| && forall i | 0 <= i < |a.items| :: Equiv(a.items[i], b.items[i])
    else if a.Obj? && b.Obj? then
      && (forall k: Text :: k in Keys(a.fields) <==> k in Keys(b.fields))
      && forall i, j | 0 <= i < |a.fields| && 0 <= j < |b.fields| && a.fields[i].0 == b.fields[j].0 ::
           Equiv(a.fields[i].1, b.fields[j].1)
    else a == b
  }

  // ---- Concatenation ----

  lemma Assoc(p: Text, q: Text, r: Text)
    ensures (p + q) + r == p + (q + r)
  {
  }

  lemma Drop(p: Text, x: Text, y: Text)
    requires p + x == p + y
    ensures x == y
  {
    assert x == (p + x)[|p|..] && y == (p + y)[|p|..];
  }

  lemma SameHead(p: Text, q: Text, x: Text, y: Text)
    requires p + x == q + y && p != [] && q != []
    ensures p[0] == q[0]
  {
    assert (p + x)[0] == p[0] && (q + y)[0] == q[0];
  }

  // ---- Unique readability of strings ----

  lemma Nibbles(c: Code)
    ensures c == 4096 * (c / 4096) + 256 * (c / 256 % 16) + 16 * (c / 16 % 16) + c % 16
  {
    assert c / 16 / 16 == c / 256 && c / 256 / 16 == c / 4096;
  }

  lemma HexDigitInjective(d: int, e: int)
    requires 0 <= d < 16 && 0 <= e < 16 && HexDigit(d) == HexDigit(e)
    ensures d == e
  {
  }

  lemma HexReadable(c: Code, d: Code)
    requires Hex(c) == Hex(d)
    ensures c == d
  {
    HexDigitInjective(c / 4096, d / 4096);
    HexDigitInjective(c / 256 % 16, d / 256 % 16);
    HexDigitInjective(c / 16 % 16, d / 16 % 16);
    HexDigitInjective(c % 16, d % 16);
    Nibbles(c);
    Nibbles(d);
  }

  predicate IsHexEscaped(c: Code) {
    c !in {8, 9, 10, 12, 13} && (c < 32 || High(c) || Low(c))
  }

  lemma EscapeReadable(c: Code, d: Code, x: Text, y: Text)
    requires Escape(c) + x == Escape(d) + y
    ensures c == d
  {
    SameHead(Escape(c), Escape(d), x, y);
    if Escape(c)[0] == BACKSLASH {
      assert (Escape(c) + x)[1] == Escape(c)[1] && (Escape(d) + y)[1] == Escape(d)[1];
      if IsHexEscaped(c) {
        assert Hex(c) == (Escape(c) + x)[2..6] && Hex(d) == (Escape(d) + y)[2..6];
        HexReadable(c, d);
      }
    }
  }

  lemma CharacterReadable(u: Text, v: Text, x: Text, y: Text)
    requires u != [] && |u| == Width(u) && v != [] && |v| == Width(v)
    requires Character(u) + x == Character(v) + y
    ensures u == v
  {
    SameHead(Character(u), Character(v), x, y);
    if |u| == 1 {
      EscapeReadable(u[0], v[0], x, y);
    } else {
      assert (Character(u) + x)[1] == u[1];
      assert |v| == 2;
      assert (Character(v) + y)[1] == v[1];
    }
  }

  lemma CharacterStarts(u: Text)
    requires u != [] && |u| == Width(u)
    ensures Character(u) != [] && Character(u)[0] != QUOTE
  {
  }

  /** The rest of a string literal, with what follows it. */
  function BodyThen(s: Text, x: Text): Text {
    Body(s) + ([QUOTE] + x)
  }

  lemma BodySplit(s: Text, x: Text)
    ensures BodyThen(s, x) != [] && (BodyThen(s, x)[0] == QUOTE <==> s == [])
    ensures s == [] ==> BodyThen(s, x) == [QUOTE] + x
    ensures s != [] ==> BodyThen(s, x) == Character(s[..Width(s)]) + BodyThen(s[Width(s)..], x)
  {
    if s != [] {
      CharacterStarts(s[..Width(s)]);
      Assoc(Character(s[..Width(s)]), Body(s[Width(s)..]), [QUOTE] + x);
    }
  }

  lemma {:induction false} BodyReadable(s: Text, t: Text, x: Text, y: Text)
    requires BodyThen(s, x) == BodyThen(t, y)
    ensures s == t && x == y
    decreases |s|
  {
    BodySplit(s, x);
    BodySplit(t, y);
    if s == [] {
      Drop([QUOTE], x, y);
    } else {
      var (u, v) := (s[..Width(s)], t[..Width(t)]);
      var (s', t') := (s[Width(s)..], t[Width(t)..]);
      CharacterReadable(u, v, BodyThen(s', x), BodyThen(t', y));
      Drop(Character(u), BodyThen(s', x), BodyThen(t', y));
      BodyReadable(s', t', x, y);
      assert s == u + s' && t == v + t';
    }
  }

  lemma QuotedReadable(s: Text, t: Text, x: Text, y: Text)
    requires Quoted(s) + x == Quoted(t) + y
    ensures s == t && x == y
  {
    QuotedSplit(s, x);
    QuotedSplit(t, y);
    Drop([QUOTE], BodyThen(s, x), BodyThen(t, y));
    BodyReadable(s, t, x, y);
  }

  lemma QuotedSplit(s: Text, x: Text)
    ensures Quoted(s) + x == [QUOTE] + BodyThen(s, x)
  {
    Assoc([QUOTE], Body(s) + [QUOTE], x);
    Assoc(Body(s), [QUOTE], x);
  }

  // ---- Unique readability of numbers ----

  predicate IsDigit(c: Code) { 48 <= c < 58 }

  /** What follows a value in JSON text. */
  predicate Delimited(r: Text) {
    r == [] || r[0] in {COMMA, CLOSE_ARRAY, CLOSE_OBJECT}
  }

  lemma {:induction false} DigitsAreDigits(n: nat)
    ensures Digits(n) != [] && IsDigit(Digits(n)[0]) && forall c <- Digits(n) :: IsDigit(c)
    decreases n
  {
    if n >= 10 {
      DigitsAreDigits(n / 10);
    }
  }

  lemma {:induction false} DigitsInjective(m: nat, n: nat)
    requires Digits(m) == Digits(n)
    ensures m == n
    decreases m
  {
    DigitsAreDigits(m / 10);
    DigitsAreDigits(n / 10);
    assert |Digits(m)| == 1 <==> m < 10;
    assert |Digits(n)| == 1 <==> n < 10;
    assert Digits(m)[|Digits(m)| - 1] == Digits(n)[|Digits(n)| - 1];
    if m >= 10 {
      assert Digits(m / 10) == Digits(m)[..|Digits(m)| - 1] == Digits(n)[..|Digits(n)| - 1] == Digits(n / 10);
      DigitsInjective(m / 10, n / 10);
    }
  }

  /** How many digits a text starts with. */
  function DigitRun(t: Text): nat {
    if t == [] || !IsDigit(t[0]) then 0 else 1 + DigitRun(t[1..])
  }

  lemma {:induction false} RunOf(a: Text, x: Text)
    requires (forall c <- a :: IsDigit(c)) && Delimited(x)
    ensures DigitRun(a + x) == |a|
    decreases |a|
  {
    if a == [] {
      assert a + x == x;
    } else {
      RunOf(a[1..], x);
      assert (a + x)[1..] == a[1..] + x;
    }
  }

  lemma DigitsReadable(m: nat, n: nat, x: Text, y: Text)
    requires Delimited(x) && Delimited(y) && Digits(m) + x == Digits(n) + y
    ensures m == n && x == y
  {
    DigitsAreDigits(m);
    DigitsAreDigits(n);
    RunOf(Digits(m), x);
    RunOf(Digits(n), y);
    assert Digits(m) == (Digits(m) + x)[..|Digits(m)|] && Digits(n) == (Digits(n) + y)[..|Digits(n)|];
    Drop(Digits(m), x, y);
    DigitsInjective(m, n);
  }

  lemma NumberReadable(m: int, n: int, x: Text, y: Text)
    requires Delimited(x) && Delimited(y) && Number(m) + x == Number(n) + y
    ensures m == n && x == y
  {
    var (p, q) := (if m < 0 then -m else m, if n < 0 then -n else n);
    DigitsAreDigits(p);
    DigitsAreDigits(q);
    SameHead(Number(m), Number(n), x, y);
    assert m < 0 <==> n < 0;
    if m < 0 {
      Assoc([45], Digits(p), x);
      Assoc([45], Digits(q), y);
      Drop([45], Digits(p) + x, Digits(q) + y);
    }
    DigitsReadable(p, q, x, y);
  }

  // ---- Unique readability of values ----

  /** The first code unit tells what kind of value follows. */
  predicate StartsAs(v: Value, c: Code) {
    match v
    case Null => c == 110
    case Bool(b) => c == if b then 116 else 102
    case Num(_) => c == 45 || IsDigit(c)
    case Str(_) => c == QUOTE
    case Arr(_) => c == OPEN_ARRAY
    case Obj(_) => c == OPEN_OBJECT
    case _ => false
  }

  lemma PrintStarts(v: Value)
    requires IsJson(v)
    ensures Print(v) != [] && StartsAs(v, Print(v)[0])
  {
    if v.Num? {
      DigitsAreDigits(if v.n < 0 then -v.n else v.n);
    }
  }

  ghost predicate SameKind(a: Value, b: Value) {
    && (a.Null? <==> b.Null?) && (a.Bool? <==> b.Bool?) && (a.Num? <==> b.Num?) && (a.Str? <==> b.Str?)
    && (a.Arr? <==> b.Arr?) && (a.Obj? <==> b.Obj?) && (a.Bool? ==> a == b)
  }

  lemma SameStartSameKind(a: Value, b: Value, x: Text, y: Text)
    requires IsJson(a) && IsJson(b) && Print(a) + x == Print(b) + y
    ensures SameKind(a, b)
  {
    PrintStarts(a);
    PrintStarts(b);
    SameHead(Print(a), Print(b), x, y);
  }

  lemma {:induction false} Readable(a: Value, b: Value, x: Text, y: Text)
    requires IsJson(a) && IsJson(b) && Delimited(x) && Delimited(y)
    requires Print(a) + x == Print(b) + y
    ensures Equiv(a, b) && x == y
    decreases a, 1, 0
  {
    SameStartSameKind(a, b, x, y);
    if a.Num? {
      NumberReadable(a.n, b.n, x, y);
    } else if a.Str? {
      QuotedReadable(a.s, b.s, x, y);
    } else if a.Arr? {
      ArraySplit(a, x);
      ArraySplit(b, y);
      Drop([OPEN_ARRAY], ItemsThen(a, 0, x), ItemsThen(b, 0, y));
      ItemsReadable(a, b, 0, x, y);
    } else if a.Obj? {
      SortKeepsKeys(a.fields);
      SortKeepsKeys(b.fields);
      ObjectSplit(a, x);
      ObjectSplit(b, y);
      var (ka, kb) := (Sort(Keys(a.fields)), Sort(Keys(b.fields)));
      Drop([OPEN_OBJECT], FieldsThen(a, ka, x), FieldsThen(b, kb, y));
      FieldsReadable(a, b, ka, kb, x, y);
      SameFieldsAreEquiv(a, b);
    } else {
      Drop(Print(a), x, y);
    }
  }

  // ---- Arrays ----

  function ItemsThen(v: Value, i: nat, x: Text): Text
    requires v.Arr? && IsJson(v) && i <= |v.items|
  {
    PrintItems(v, i) + ([CLOSE_ARRAY] + x)
  }

  lemma ArraySplit(v: Value, x: Text)
    requires v.Arr? && IsJson(v)
    ensures Print(v) + x == [OPEN_ARRAY] + ItemsThen(v, 0, x)
  {
    Assoc([OPEN_ARRAY], PrintItems(v, 0) + [CLOSE_ARRAY], x);
    Assoc(PrintItems(v, 0), [CLOSE_ARRAY], x);
  }

  function Comma(i: nat): Text {
    if i == 0 then [] else [COMMA]
  }

  lemma ItemsSplit(v: Value, i: nat, x: Text)
    requires v.Arr? && IsJson(v) && i < |v.items|
    ensures ItemsThen(v, i, x) == Comma(i) + (Print(v.items[i]) + ItemsThen(v, i + 1, x))
  {
    Assoc(Comma(i), Print(v.items[i]) + PrintItems(v, i + 1), [CLOSE_ARRAY] + x);
    Assoc(Print(v.items[i]), PrintItems(v, i + 1), [CLOSE_ARRAY] + x);
  }

  lemma ItemsStart(v: Value, i: nat, x: Text)
    requires v.Arr? && IsJson(v) && i <= |v.items|
    ensures ItemsThen(v, i, x) != [] && (ItemsThen(v, i, x)[0] == CLOSE_ARRAY <==> i == |v.items|)
    ensures i > 0 ==> Delimited(ItemsThen(v, i, x))
    ensures i == |v.items| ==> ItemsThen(v, i, x) == [CLOSE_ARRAY] + x
  {
    if i < |v.items| {
      PrintStarts(v.items[i]);
    }
  }

  ghost predicate EquivFrom(a: Value, b: Value, i: nat)
    requires a.Arr? && b.Arr?
  {
    |a.items| == |b.items| && forall j | i <= j < |a.items| :: Equiv(a.items[j], b.items[j])
  }

  lemma EquivFromFirst(a: Value, b: Value, i: nat)
    requires a.Arr? && b.Arr? && i < |a.items| && i < |b.items|
    requires Equiv(a.items[i], b.items[i]) && EquivFrom(a, b, i + 1)
    ensures EquivFrom(a, b, i)
  {
  }

  lemma {:induction false} ItemsReadable(a: Value, b: Value, i: nat, x: Text, y: Text)
    requires a.Arr? && b.Arr? && IsJson(a) && IsJson(b) && i <= |a.items| && i <= |b.items|
    requires Delimited(x) && Delimited(y) && ItemsThen(a, i, x) == ItemsThen(b, i, y)
    ensures EquivFrom(a, b, i) && x == y
    decreases a, 0, |a.items| - i
  {
    ItemsStart(a, i, x);
    ItemsStart(b, i, y);
    if i == |a.items| {
      Drop([CLOSE_ARRAY], x, y);
    } else {
      FirstItemReadable(a, b, i, x, y);
      ItemsReadable(a, b, i + 1, x, y);
      EquivFromFirst(a, b, i);
    }
  }

  lemma {:induction false} FirstItemReadable(a: Value, b: Value, i: nat, x: Text, y: Text)
    requires a.Arr? && b.Arr? && IsJson(a) && IsJson(b) && i < |a.items| && i < |b.items|
    requires Delimited(x) && Delimited(y) && ItemsThen(a, i, x) == ItemsThen(b, i, y)
    ensures Equiv(a.items[i], b.items[i]) && ItemsThen(a, i + 1, x) == ItemsThen(b, i + 1, y)
    decreases a, 0, 0
  {
    var (p, q) := (ItemsThen(a, i + 1, x), ItemsThen(b, i + 1, y));
    ItemsSplit(a, i, x);
    ItemsSplit(b, i, y);
    Drop(Comma(i), Print(a.items[i]) + p, Print(b.items[i]) + q);
    ItemsStart(a, i + 1, x);
    ItemsStart(b, i + 1, y);
    Readable(a.items[i], b.items[i], p, q);
  }

  // ---- Objects ----

  ghost predicate KeysOf(v: Value, keys: seq<Text>) {
    v.Obj? && IsJson(v) && forall k <- keys :: k in Keys(v.fields)
  }

  ghost function FieldsThen(v: Value, keys: seq<Text>, x: Text): Text
    requires KeysOf(v, keys)
  {
    PrintFields(v, keys) + ([CLOSE_OBJECT] + x)
  }

  lemma ObjectSplit(v: Value, x: Text)
    requires v.Obj? && IsJson(v) && KeysOf(v, Sort(Keys(v.fields)))
    ensures Print(v) + x == [OPEN_OBJECT] + FieldsThen(v, Sort(Keys(v.fields)), x)
  {
    var fields := PrintFields(v, Sort(Keys(v.fields)));
    Assoc([OPEN_OBJECT], fields + [CLOSE_OBJECT], x);
    Assoc(fields, [CLOSE_OBJECT], x);
  }

  /** What follows the value of the first field. */
  ghost function AfterField(v: Value, keys: seq<Text>, x: Text): Text
    requires KeysOf(v, keys) && keys != []
  {
    Comma(|keys| - 1) + FieldsThen(v, keys[1..], x)
  }

  lemma FieldsSplit(v: Value, keys: seq<Text>, x: Text)
    requires KeysOf(v, keys) && keys != []
    ensures FieldsThen(v, keys, x)
      == Quoted(keys[0]) + ([COLON] + (Print(Lookup(v.fields, keys[0])) + AfterField(v, keys, x)))
  {
    var close := [CLOSE_OBJECT] + x;
    var (value, rest) := (Print(Lookup(v.fields, keys[0])), PrintFields(v, keys[1..]));
    var comma := Comma(|keys| - 1);
    Assoc(Quoted(keys[0]), [COLON] + (value + (comma + rest)), close);
    Assoc([COLON], value + (comma + rest), close);
    Assoc(value, comma + rest, close);
    Assoc(comma, rest, close);
  }

  lemma FieldsStart(v: Value, keys: seq<Text>, x: Text)
    requires KeysOf(v, keys)
    ensures FieldsThen(v, keys, x) != [] && (FieldsThen(v, keys, x)[0] == CLOSE_OBJECT <==> keys == [])
    ensures keys == [] ==> FieldsThen(v, keys, x) == [CLOSE_OBJECT] + x
  {
    if keys != [] {
      assert PrintFields(v, keys)[0] == QUOTE;
    }
  }

  lemma AfterFieldStart(v: Value, keys: seq<Text>, x: Text)
    requires KeysOf(v, keys) && keys != []
    ensures Delimited(AfterField(v, keys, x)) && AfterField(v, keys, x) != []
    ensures AfterField(v, keys, x)[0] == CLOSE_OBJECT <==> |keys| == 1
  {
    FieldsStart(v, keys[1..], x);
  }

  lemma LookupIsJson(v: Value, key: Text)
    requires v.Obj? && IsJson(v) && key in Keys(v.fields)
    ensures IsJson(Lookup(v.fields, key)) && Lookup(v.fields, key) < v
  {
  }

  ghost predicate EquivUnder(a: Value, b: Value, keys: seq<Text>)
    requires KeysOf(a, keys) && KeysOf(b, keys)
  {
    forall k <- keys :: Equiv(Lookup(a.fields, k), Lookup(b.fields, k))
  }

  lemma EquivUnderFirst(a: Value, b: Value, keys: seq<Text>)
    requires KeysOf(a, keys) && KeysOf(b, keys) && keys != []
    requires Equiv(Lookup(a.fields, keys[0]), Lookup(b.fields, keys[0])) && EquivUnder(a, b, keys[1..])
    ensures EquivUnder(a, b, keys)
  {
    forall k <- keys ensures Equiv(Lookup(a.fields, k), Lookup(b.fields, k)) {
      assert k == keys[0] || k in keys[1..];
    }
  }

  lemma SameParts(ka: seq<Text>, kb: seq<Text>)
    requires ka != [] && kb != [] && ka[0] == kb[0] && ka[1..] == kb[1..]
    ensures ka == kb
  {
    assert ka == [ka[0]] + ka[1..] && kb == [kb[0]] + kb[1..];
  }

  lemma {:induction false} FieldsReadable(a: Value, b: Value, ka: seq<Text>, kb: seq<Text>, x: Text, y: Text)
    requires KeysOf(a, ka) && KeysOf(b, kb) && Delimited(x) && Delimited(y)
    requires FieldsThen(a, ka, x) == FieldsThen(b, kb, y)
    ensures ka == kb && EquivUnder(a, b, ka) && x == y
    decreases a, 0, |ka|
  {
    FieldsStart(a, ka, x);
    FieldsStart(b, kb, y);
    if ka == [] {
      Drop([CLOSE_OBJECT], x, y);
    } else {
      FirstFieldReadable(a, b, ka, kb, x, y);
      FieldsReadable(a, b, ka[1..], kb[1..], x, y);
      SameParts(ka, kb);
      EquivUnderFirst(a, b, ka);
    }
  }

  lemma {:induction false} FirstFieldReadable(a: Value, b: Value, ka: seq<Text>, kb: seq<Text>, x: Text, y: Text)
    requires KeysOf(a, ka) && KeysOf(b, kb) && Delimited(x) && Delimited(y) && ka != [] && kb != []
    requires FieldsThen(a, ka, x) == FieldsThen(b, kb, y)
    ensures ka[0] == kb[0] && Equiv(Lookup(a.fields, ka[0]), Lookup(b.fields, kb[0]))
    ensures FieldsThen(a, ka[1..], x) == FieldsThen(b, kb[1..], y)
    decreases a, 0, 0
  {
    var (va, vb) := (Lookup(a.fields, ka[0]), Lookup(b.fields, kb[0]));
    var (p, q) := (AfterField(a, ka, x), AfterField(b, kb, y));
    LookupIsJson(a, ka[0]);
    LookupIsJson(b, kb[0]);
    FieldsSplit(a, ka, x);
    FieldsSplit(b, kb, y);
    AfterFieldStart(a, ka, x);
    AfterFieldStart(b, kb, y);
    QuotedReadable(ka[0], kb[0], [COLON] + (Print(va) + p), [COLON] + (Print(vb) + q));
    Drop([COLON], Print(va) + p, Print(vb) + q);
    Readable(va, vb, p, q);
    Drop(Comma(|ka| - 1), FieldsThen(a, ka[1..], x), FieldsThen(b, kb[1..], y));
  }

  lemma LookupAt(fields: seq<(Text, Value)>, i: nat)
    requires i < |fields| && Distinct(Keys(fields))
    ensures fields[i].0 in Keys(fields) && Lookup(fields, fields[i].0) == fields[i].1
  {
    var key := fields[i].0;
    assert Keys(fields)[i] == key;
    var j :| 0 <= j < |fields| && fields[j] == (key, Lookup(fields, key));
    SameKeySameIndex(fields, i, j);
  }

  lemma SameKeySameIndex(fields: seq<(Text, Value)>, i: nat, j: nat)
    requires i < |fields| && j < |fields| && Distinct(Keys(fields)) && fields[i].0 == fields[j].0
    ensures i == j
  {
    assert Keys(fields)[i] == Keys(fields)[j];
  }

  lemma SameFieldsAreEquiv(a: Value, b: Value)
    requires a.Obj? && b.Obj? && IsJson(a) && IsJson(b) && Sort(Keys(a.fields)) == Sort(Keys(b.fields))
    requires KeysOf(a, Sort(Keys(a.fields))) && KeysOf(b, Sort(Keys(a.fields))) && EquivUnder(a, b, Sort(Keys(a.fields)))
    ensures Equiv(a, b)
  {
    forall k: Text ensures k in Keys(a.fields) <==> k in Keys(b.fields) {
      assert k in Keys(a.fields) <==> k in multiset(Keys(a.fields));
      assert k in Keys(b.fields) <==> k in multiset(Keys(b.fields));
    }
    forall i, j | 0 <= i < |a.fields| && 0 <= j < |b.fields| && a.fields[i].0 == b.fields[j].0
      ensures Equiv(a.fields[i].1, b.fields[j].1)
    {
      LookupAt(a.fields, i);
      LookupAt(b.fields, j);
      assert a.fields[i].0 in multiset(Sort(Keys(a.fields)));
    }
  }

  // ---- The sorted order of keys is unique ----

  lemma {:induction false} LessTotal(a: Text, b: Text)
    ensures a == b || Less(a, b) || Less(b, a)
    ensures !(Less(a, b) && Less(b, a))
    decreases |a|
  {
    if a != [] && b != [] {
      LessTotal(a[1..], b[1..]);
      assert a == [a[0]] + a[1..] && b == [b[0]] + b[1..];
    }
  }

  lemma {:induction false} LessIrreflexive(a: Text)
    ensures !Less(a, a)
    decreases |a|
  {
    if a != [] {
      LessIrreflexive(a[1..]);
    }
  }

  lemma {:induction false} LessTrans(a: Text, b: Text, c: Text)
    requires Less(a, b) && Less(b, c)
    ensures Less(a, c)
    decreases |a|
  {
    if a != [] && a[0] == b[0] == c[0] {
      LessTrans(a[1..], b[1..], c[1..]);
    }
  }

  predicate Ascending(keys: seq<Text>) {
    forall i, j | 0 <= i < j < |keys| :: Less(keys[i], keys[j])
  }

  lemma {:induction false} PlaceAscends(sorted: seq<Text>, key: Text)
    requires Ascending(sorted) && key !in sorted
    ensures Ascending(Place(sorted, key))
    decreases |sorted|
  {
    if sorted == [] {
    } else if Less(key, sorted[0]) {
      forall j | 0 < j < |sorted| ensures Less(key, sorted[j]) {
        LessTrans(key, sorted[0], sorted[j]);
      }
    } else {
      LessTotal(key, sorted[0]);
      PlaceAscends(sorted[1..], key);
      PlaceAdds(sorted[1..], key);
      var rest := Place(sorted[1..], key);
      forall j | 0 <= j < |rest| ensures Less(sorted[0], rest[j]) {
        assert rest[j] in multiset(rest);
        assert rest[j] in sorted[1..] || rest[j] == key;
      }
    }
  }

  lemma {:induction false} SortAscends(keys: seq<Text>)
    requires Distinct(keys)
    ensures Ascending(Sort(keys))
    decreases |keys|
  {
    if keys != [] {
      var n := |keys| - 1;
      SortAscends(keys[..n]);
      assert keys[n] !in keys[..n];
      assert keys[n] !in Sort(keys[..n]) by {
        assert keys[n] in Sort(keys[..n]) <==> keys[n] in multiset(Sort(keys[..n]));
      }
      PlaceAscends(Sort(keys[..n]), keys[n]);
    }
  }

  lemma {:induction false} AscendingIsUnique(a: seq<Text>, b: seq<Text>)
    requires Ascending(a) && Ascending(b) && forall k: Text :: k in a <==> k in b
    ensures a == b
    decreases |a|
  {
    assert (a != [] ==> a[0] in a) && (b != [] ==> b[0] in b);
    if a != [] {
      LessTotal(a[0], b[0]);
      assert a[0] == b[0];
      forall k: Text ensures k in a[1..] <==> k in b[1..] {
        TailWithout(a, k);
        TailWithout(b, k);
      }
      AscendingIsUnique(a[1..], b[1..]);
      assert a == [a[0]] + a[1..] && b == [b[0]] + b[1..];
    }
  }

  lemma TailWithout(keys: seq<Text>, k: Text)
    requires Ascending(keys) && keys != []
    ensures k in keys[1..] <==> k in keys && k != keys[0]
  {
    LessIrreflexive(keys[0]);
    assert keys == [keys[0]] + keys[1..];
  }

  lemma SameKeysSameSort(a: seq<Text>, b: seq<Text>)
    requires Distinct(a) && Distinct(b) && forall k: Text :: k in a <==> k in b
    ensures Sort(a) == Sort(b)
  {
    SortAscends(a);
    SortAscends(b);
    forall k: Text ensures k in Sort(a) <==> k in Sort(b) {
      assert k in Sort(a) <==> k in multiset(Sort(a));
      assert k in Sort(b) <==> k in multiset(Sort(b));
      assert k in multiset(a) <==> k in a;
      assert k in multiset(b) <==> k in b;
    }
    AscendingIsUnique(Sort(a), Sort(b));
  }

  // ---- Equal values print alike ----

  lemma {:induction false} EquivPrintAlike(a: Value, b: Value)
    requires IsJson(a) && IsJson(b) && Equiv(a, b)
    ensures Print(a) == Print(b)
    decreases a, 1, 0
  {
    if a.Arr? {
      ItemsPrintAlike(a, b, 0);
    } else if a.Obj? {
      SortKeepsKeys(a.fields);
      SortKeepsKeys(b.fields);
      SameKeysSameSort(Keys(a.fields), Keys(b.fields));
      FieldsPrintAlike(a, b, Sort(Keys(a.fields)));
    }
  }

  lemma {:induction false} ItemsPrintAlike(a: Value, b: Value, i: nat)
    requires a.Arr? && b.Arr? && IsJson(a) && IsJson(b) && Equiv(a, b) && i <= |a.items|
    ensures PrintItems(a, i) == PrintItems(b, i)
    decreases a, 0, |a.items| - i
  {
    if i < |a.items| {
      EquivPrintAlike(a.items[i], b.items[i]);
      ItemsPrintAlike(a, b, i + 1);
    }
  }

  lemma EquivLookups(a: Value, b: Value, key: Text)
    requires a.Obj? && b.Obj? && Equiv(a, b) && key in Keys(a.fields) && key in Keys(b.fields)
    ensures Equiv(Lookup(a.fields, key), Lookup(b.fields, key))
  {
    var i :| 0 <= i < |a.fields| && a.fields[i] == (key, Lookup(a.fields, key));
    var j :| 0 <= j < |b.fields| && b.fields[j] == (key, Lookup(b.fields, key));
    assert a.fields[i].0 == b.fields[j].0;
  }

  lemma {:induction false} FieldsPrintAlike(a: Value, b: Value, keys: seq<Text>)
    requires KeysOf(a, keys) && KeysOf(b, keys) && Equiv(a, b)
    ensures PrintFields(a, keys) == PrintFields(b, keys)
    decreases a, 0, |keys|
  {
    if keys != [] {
      LookupIsJson(a, keys[0]);
      LookupIsJson(b, keys[0]);
      EquivLookups(a, b, keys[0]);
      EquivPrintAlike(Lookup(a.fields, keys[0]), Lookup(b.fields, keys[0]));
      FieldsPrintAlike(a, b, keys[1..]);
    }
  }

  // ---- Main results ----

  /** The canonical text tells two JSON values apart exactly when they differ by more than key order. */
  lemma CanonicalIsInjective(a: Value, b: Value)
    requires IsJson(a) && IsJson(b)
    ensures Canonical(a) == Canonical(b) <==> Equiv(a, b)
  {
    if Canonical(a) == Canonical(b) {
      assert Print(a) + [] == Print(b) + [];
      Readable(a, b, [], []);
    } else if Equiv(a, b) {
      EquivPrintAlike(a, b);
    }
  }

  /** jsonDigest, for a digest without collisions. */
  lemma DigestIsInjective(sha256: Text -> string, a: Value, b: Value)
    requires forall s: Text, t: Text :: sha256(s) == sha256(t) ==> s == t
    requires IsJson(a) && IsJson(b)
    ensures sha256(Print(a)) == sha256(Print(b)) <==> Equiv(a, b)
  {
    CanonicalIsInjective(a, b);
  }

  /** Listing the same fields in another order changes nothing. */
  lemma KeyOrderIsForgotten(f: seq<(Text, Value)>, g: seq<(Text, Value)>)
    requires IsJson(Obj(f)) && IsJson(Obj(g)) && multiset(f) == multiset(g)
    ensures Canonical(Obj(f)) == Canonical(Obj(g))
  {
    SameRowsSameKeys(f, g);
    SameRowsSameKeys(g, f);
    SameKeysSameSort(Keys(f), Keys(g));
    forall k <- Keys(f) ensures k in Keys(g) && Lookup(f, k) == Lookup(g, k) {
      var i :| 0 <= i < |f| && f[i] == (k, Lookup(f, k));
      assert f[i] in multiset(g);
      var j :| 0 <= j < |g| && g[j] == f[i];
      LookupAt(g, j);
    }
    SortKeepsKeys(f);
    SameLookupsPrintAlike(Obj(f), Obj(g), Sort(Keys(f)));
  }

  lemma SameRowsSameKeys(f: seq<(Text, Value)>, g: seq<(Text, Value)>)
    requires multiset(f) == multiset(g)
    ensures forall k <- Keys(f) :: k in Keys(g)
  {
    forall k <- Keys(f) ensures k in Keys(g) {
      var i :| 0 <= i < |f| && Keys(f)[i] == k;
      assert f[i] in multiset(g);
      var j :| 0 <= j < |g| && g[j] == f[i];
      assert Keys(g)[j] == k;
    }
  }

  lemma {:induction false} SameLookupsPrintAlike(a: Value, b: Value, keys: seq<Text>)
    requires KeysOf(a, keys) && KeysOf(b, keys)
    requires forall k <- keys :: Lookup(a.fields, k) == Lookup(b.fields, k)
    ensures PrintFields(a, keys) == PrintFields(b, keys)
    decreases |keys|
  {
    if keys != [] {
      SameLookupsPrintAlike(a, b, keys[1..]);
    }
  }
}
