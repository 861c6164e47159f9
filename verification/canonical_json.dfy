/**
 The canonical text of a JSON value, whose digest identifies messages and envelopes.
 Strings are sequences of UTF-16 code units, as in JavaScript, and printed as section 7 of
 RFC 8259 allows: well-formed pairs raw, lone surrogates and control codes escaped.
 Numbers are integers.
 */
module CanonicalJson {
  import opened Wrappers

  type Code = c: int | 0 <= c < 0x1_0000

  type Text = seq<Code>

  const QUOTE: Code := 34
  const BACKSLASH: Code := 92
  const COMMA: Code := 44
  const COLON: Code := 58
  const OPEN_ARRAY: Code := 91
  const CLOSE_ARRAY: Code := 93
  const OPEN_OBJECT: Code := 123
  const CLOSE_OBJECT: Code := 125

  /** An object holds its fields in insertion order. */
  datatype Value =
    | Null | Bool(b: bool) | Num(n: int) | NonFinite | Str(s: Text)
    | Arr(items: seq<Value>) | Obj(fields: seq<(Text, Value)>) | NotJson

  function Keys(fields: seq<(Text, Value)>): (keys: seq<Text>)
    ensures |keys| == |fields| && forall i | 0 <= i < |fields| :: keys[i] == fields[i].0
  {
    seq(|fields|, i requires 0 <= i < |fields| => fields[i].0)
  }

  predicate Distinct(keys: seq<Text>) {
    forall i, j | 0 <= i < j < |keys| :: keys[i] != keys[j]
  }

  /** The keys of a JavaScript object are distinct. */
  predicate IsJson(v: Value) {
    match v
    case Arr(items) => forall i | 0 <= i < |items| :: IsJson(items[i])
    case Obj(fields) => Distinct(Keys(fields)) && forall i | 0 <= i < |fields| :: IsJson(fields[i].1)
    case NonFinite => false
    case NotJson => false
    case _ => true
  }

  function Lookup(fields: seq<(Text, Value)>, key: Text): (v: Value)
    requires key in Keys(fields)
    ensures exists i | 0 <= i < |fields| :: fields[i] == (key, v)
  {
    if fields[0].0 == key then fields[0].1
    else
      assert Keys(fields)[1..] == Keys(fields[1..]);
      assert Keys(fields) == [fields[0].0] + Keys(fields[1..]);
      var v := Lookup(fields[1..], key);
      assert exists i | 0 <= i < |fields[1..]| :: fields[1..][i] == (key, v);
      v
  }

  // ---- JSON.stringify of numbers and strings ----

  function Digits(n: nat): Text {
    if n < 10 then [48 + n] else Digits(n / 10) + [48 + n % 10]
  }

  function Number(n: int): Text {
    if n < 0 then [45] + Digits(-n) else Digits(n)
  }

  predicate High(c: Code) { 0xD800 <= c < 0xDC00 }

  predicate Low(c: Code) { 0xDC00 <= c < 0xE000 }

  /** How many code units the next character of a string takes. */
  function Width(s: Text): (n: nat)
    requires s != []
    ensures 1 <= n <= 2 && n <= |s|
  {
    if |s| > 1 && High(s[0]) && Low(s[1]) then 2 else 1
  }

  function HexDigit(d: int): Code
    requires 0 <= d < 16
  {
    if d < 10 then 48 + d else 87 + d
  }

  function Hex(c: Code): Text {
    [HexDigit(c / 4096), HexDigit(c / 256 % 16), HexDigit(c / 16 % 16), HexDigit(c % 16)]
  }

  function Escape(c: Code): Text {
    if c == QUOTE || c == BACKSLASH then [BACKSLASH, c]
    else if c == 8 then [BACKSLASH, 98]
    else if c == 9 then [BACKSLASH, 116]
    else if c == 10 then [BACKSLASH, 110]
    else if c == 12 then [BACKSLASH, 102]
    else if c == 13 then [BACKSLASH, 114]
    else if c < 32 || High(c) || Low(c) then [BACKSLASH, 117] + Hex(c)
    else [c]
  }

  /** One character: a surrogate pair, or one code unit. */
  function Character(u: Text): Text
    requires u != [] && |u| == Width(u)
  {
    if |u| == 2 then u else Escape(u[0])
  }

  function Body(s: Text): Text
    decreases |s|
  {
    if s == [] then [] else Character(s[..Width(s)]) + Body(s[Width(s)..])
  }

  function Quoted(s: Text): Text {
    [QUOTE] + (Body(s) + [QUOTE])
  }

  // ---- Sorting keys by code units ----

  predicate Less(a: Text, b: Text) {
    if b == [] then false
    else if a == [] then true
    else a[0] < b[0] || (a[0] == b[0] && Less(a[1..], b[1..]))
  }

  function Place(sorted: seq<Text>, key: Text): seq<Text> {
    if sorted == [] then [key]
    else if Less(key, sorted[0]) then [key] + sorted
    else [sorted[0]] + Place(sorted[1..], key)
  }

  function Sort(keys: seq<Text>): (r: seq<Text>)
    ensures multiset(r) == multiset(keys)
  {
    if keys == [] then []
    else
      var n := |keys| - 1;
      assert keys == keys[..n] + [keys[n]];
      PlaceAdds(Sort(keys[..n]), keys[n]);
      Place(Sort(keys[..n]), keys[n])
  }

  lemma {:induction false} PlaceAdds(sorted: seq<Text>, key: Text)
    ensures multiset(Place(sorted, key)) == multiset(sorted) + multiset{key}
    decreases |sorted|
  {
    if sorted != [] && !Less(key, sorted[0]) {
      PlaceAdds(sorted[1..], key);
      assert sorted == [sorted[0]] + sorted[1..];
    }
  }

  lemma SortedKeysExist(fields: seq<(Text, Value)>, key: Text)
    requires key in Sort(Keys(fields))
    ensures key in Keys(fields)
  {
    assert key in multiset(Sort(Keys(fields)));
    assert key in multiset(Keys(fields));
  }

  // ---- canonicalJson ----

  function Print(v: Value): Text
    requires IsJson(v)
    decreases v, 1, 0
  {
    match v
    case Null => [110, 117, 108, 108]
    case Bool(b) => if b then [116, 114, 117, 101] else [102, 97, 108, 115, 101]
    case Num(n) => Number(n)
    case Str(s) => Quoted(s)
    case Arr(items) => [OPEN_ARRAY] + (PrintItems(v, 0) + [CLOSE_ARRAY])
    case Obj(fields) =>
      SortKeepsKeys(fields);
      [OPEN_OBJECT] + (PrintFields(v, Sort(Keys(fields))) + [CLOSE_OBJECT])
  }

  /** The items from the i-th on, joined by commas. */
  function PrintItems(v: Value, i: nat): Text
    requires v.Arr? && IsJson(v) && i <= |v.items|
    decreases v, 0, |v.items| - i
  {
    if i == |v.items| then []
    else (if i == 0 then [] else [COMMA]) + (Print(v.items[i]) + PrintItems(v, i + 1))
  }

  /** The fields with these keys, in this order. */
  function PrintFields(v: Value, keys: seq<Text>): Text
    requires v.Obj? && IsJson(v) && forall k <- keys :: k in Keys(v.fields)
    decreases v, 0, |keys|
  {
    if keys == [] then []
    else
      Quoted(keys[0]) + ([COLON] + (Print(Lookup(v.fields, keys[0]))
        + ((if |keys| == 1 then [] else [COMMA]) + PrintFields(v, keys[1..]))))
  }

  lemma SortKeepsKeys(fields: seq<(Text, Value)>)
    ensures forall k <- Sort(Keys(fields)) :: k in Keys(fields)
  {
    forall k <- Sort(Keys(fields)) ensures k in Keys(fields) {
      SortedKeysExist(fields, k);
    }
  }

  function Canonical(v: Value): Option<Text> {
    if IsJson(v) then Some(Print(v)) else None
  }
}
