/**
 A reader of compact JSON text: sections 2 to 7 of RFC 8259 without insignificant white
 space, and with integers for numbers. It is written from the grammar.
 */
module JsonReader {
  import opened Wrappers
  import opened CanonicalJson

  /** What was read, and the text after it. */
  type Reading<T> = Option<(T, Text)>

  // ---- Strings ----

  function HexValue(c: Code): Option<int> {
    if 0x30 <= c <= 0x39 then Some(c - 0x30)
    else if 0x41 <= c <= 0x46 then Some(c - 0x41 + 10)
    else if 0x61 <= c <= 0x66 then Some(c - 0x61 + 10)
    else None
  }

  /** The code unit that four hexadecimal digits name. */
  function FourDigits(t: Text): (r: Option<Code>) {
    if |t| < 4 then None
    else match (HexValue(t[0]), HexValue(t[1]), HexValue(t[2]), HexValue(t[3]))
      case (Some(a), Some(b), Some(c), Some(d)) =>
        if 0 <= a < 16 && 0 <= b < 16 && 0 <= c < 16 && 0 <= d < 16 then Some(a * 0x1000 + b * 0x100 + c * 0x10 + d) else None
      case _ => None
  }

  /** The letters that may follow a backslash, and the code units they stand for. */
  const SHORT_ESCAPES: map<Code, Code> := map[
    0x22 := 0x22,   // quotation mark
    0x5C := 0x5C,   // reverse solidus
    0x2F := 0x2F,   // solidus
    0x62 := 0x08,   // b: backspace
    0x66 := 0x0C,   // f: form feed
    0x6E := 0x0A,   // n: line feed
    0x72 := 0x0D,   // r: carriage return
    0x74 := 0x09]   // t: tab

  function ReadEscape(t: Text): (r: Reading<Code>)
    ensures r.Some? ==> |r.value.1| < |t|
  {
    if t == [] then None
    else if t[0] in SHORT_ESCAPES then Some((SHORT_ESCAPES[t[0]], t[1..]))
    else if t[0] != 0x75 then None
    else match FourDigits(t[1..])
      case None => None
      case Some(c) => Some((c, t[5..]))
  }

  /** The first and the second half of a surrogate pair. Text in UTF-8 has no half alone. */
  predicate Leads(c: Code) { 0xD800 <= c <= 0xDBFF }

  predicate Trails(c: Code) { 0xDC00 <= c <= 0xDFFF }

  /** The rest of a string after its opening quotation mark. */
  function ReadBody(t: Text): (r: Reading<Text>)
    ensures r.Some? ==> |r.value.1| < |t|
    decreases |t|
  {
    if t == [] then None
    else if t[0] == 0x22 then Some(([], t[1..]))
    else if t[0] < 0x20 then None
    else if t[0] == 0x5C then
      match ReadEscape(t[1..])
      case None => None
      case Some((c, rest)) => Prepend(c, ReadBody(rest))
    else if Leads(t[0]) then
      if |t| > 1 && Trails(t[1]) then Prepend(t[0], Prepend(t[1], ReadBody(t[2..]))) else None
    else if Trails(t[0]) then None
    else Prepend(t[0], ReadBody(t[1..]))
  }

  function Prepend<T>(first: T, r: Reading<seq<T>>): Reading<seq<T>> {
    if r.None? then None else Some(([first] + r.value.0, r.value.1))
  }

  function ReadString(t: Text): (r: Reading<Text>)
    ensures r.Some? ==> |r.value.1| < |t|
  {
    if t == [] || t[0] != 0x22 then None else ReadBody(t[1..])
  }

  // ---- Numbers ----

  predicate IsDigit(c: Code) { 0x30 <= c <= 0x39 }

  function CountDigits(t: Text): (n: nat)
    ensures n <= |t| && (n > 0 <==> t != [] && IsDigit(t[0]))
  {
    if t == [] || !IsDigit(t[0]) then 0 else 1 + CountDigits(t[1..])
  }

  function Decimal(digits: Text): int {
    if digits == [] then 0 else Decimal(digits[..|digits| - 1]) * 10 + digits[|digits| - 1] as int - 0x30
  }

  /** No leading zero, and neither fraction nor exponent behind. */
  function ReadNatural(t: Text): (r: Reading<int>)
    ensures r.Some? ==> |r.value.1| < |t|
  {
    var n := CountDigits(t);
    if n == 0 || (t[0] == 0x30 && n > 1) || (n < |t| && t[n] in {0x2E, 0x45, 0x65}) then None
    else Some((Decimal(t[..n]), t[n..]))
  }

  function ReadNumber(t: Text): (r: Reading<int>)
    ensures r.Some? ==> |r.value.1| < |t|
  {
    if t != [] && t[0] == 0x2D then
      match ReadNatural(t[1..])
      case None => None
      case Some((n, rest)) => Some((-n, rest))
    else ReadNatural(t)
  }

  // ---- Values ----

  const TRUE: Text := [0x74, 0x72, 0x75, 0x65]
  const FALSE: Text := [0x66, 0x61, 0x6C, 0x73, 0x65]
  const NULL: Text := [0x6E, 0x75, 0x6C, 0x6C]

  function ReadValue(t: Text): (r: Reading<Value>)
    ensures r.Some? ==> |r.value.1| < |t|
    decreases |t|, 0
  {
    if TRUE <= t then Some((Bool(true), t[4..]))
    else if FALSE <= t then Some((Bool(false), t[5..]))
    else if NULL <= t then Some((Null, t[4..]))
    else if t == [] then None
    else if t[0] == 0x22 then
      match ReadString(t)
      case None => None
      case Some((s, rest)) => Some((Str(s), rest))
    else if t[0] == 0x5B then
      if |t| > 1 && t[1] == 0x5D then Some((Arr([]), t[2..]))
      else match ReadItems(t[1..])
        case None => None
        case Some((items, rest)) => Some((Arr(items), rest))
    else if t[0] == 0x7B then
      if |t| > 1 && t[1] == 0x7D then Some((Obj([]), t[2..]))
      else match ReadFields(t[1..])
        case None => None
        case Some((fields, rest)) => Some((Obj(fields), rest))
    else match ReadNumber(t)
      case None => None
      case Some((n, rest)) => Some((Num(n), rest))
  }

  /** At least one item, up to the closing bracket. */
  function ReadItems(t: Text): (r: Reading<seq<Value>>)
    ensures r.Some? ==> |r.value.1| < |t|
    decreases |t|, 1
  {
    match ReadValue(t)
    case None => None
    case Some((first, rest)) =>
      if rest == [] then None
      else if rest[0] == 0x5D then Some(([first], rest[1..]))
      else if rest[0] == 0x2C then Prepend(first, ReadItems(rest[1..]))
      else None
  }

  /** A name, a colon and a value. */
  function ReadField(t: Text): (r: Reading<(Text, Value)>)
    ensures r.Some? ==> |r.value.1| < |t|
    decreases |t|, 0
  {
    match ReadString(t)
    case None => None
    case Some((name, rest)) =>
      if rest == [] || rest[0] != 0x3A then None
      else match ReadValue(rest[1..])
        case None => None
        case Some((value, after)) => Some(((name, value), after))
  }

  /** At least one field, up to the closing brace. */
  function ReadFields(t: Text): (r: Reading<seq<(Text, Value)>>)
    ensures r.Some? ==> |r.value.1| < |t|
    decreases |t|, 1
  {
    match ReadField(t)
    case None => None
    case Some((first, rest)) =>
      if rest == [] then None
      else if rest[0] == 0x7D then Some(([first], rest[1..]))
      else if rest[0] == 0x2C then Prepend(first, ReadFields(rest[1..]))
      else None
  }

  /** A whole text. */
  function Read(t: Text): Option<Value> {
    match ReadValue(t)
    case None => None
    case Some((v, rest)) => if rest == [] then Some(v) else None
  }
}
