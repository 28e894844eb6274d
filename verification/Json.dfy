/** JSON values as the client holds them, Python's equality on them, and the streaming
    encoder of the standard library. */
module Json {
  import opened Text

  /** Objects keep insertion order. A float carries its value and its printed form, and a text
      with a lone surrogate its form in ASCII and how many code points its other form has;
      `Refused` is any value the encoder raises on (NaN, cycles, foreign objects). */
  datatype Json =
    | Null
    | Bool(flag: bool)
    | Int(number: int)
    | Float(amount: real, printed: string)
    | Str(text: string)
    | List(items: seq<Json>)
    | Obj(fields: seq<Field>)
    | Unpaired(escaped: string, points: nat)
    | Refused

  datatype Field = Field(key: string, value: Json)

  predicate HasKey(fields: seq<Field>, key: string) {
    exists i :: 0 <= i < |fields| && fields[i].key == key
  }

  predicate DistinctKeys(fields: seq<Field>) {
    forall i, j :: 0 <= i < j < |fields| ==> fields[i].key != fields[j].key
  }

  /** `dict.get(key, default)`. */
  function Get(fields: seq<Field>, key: string, default: Json): Json {
    if fields == [] then default
    else if fields[0].key == key then fields[0].value
    else Get(fields[1..], key, default)
  }

  /** `dict[key] = value`: an existing key keeps its position, a new one goes last. */
  function Put(fields: seq<Field>, key: string, value: Json): seq<Field> {
    if fields == [] then [Field(key, value)]
    else if fields[0].key == key then [Field(key, value)] + fields[1..]
    else [fields[0]] + Put(fields[1..], key, value)
  }

  /** `del dict[key]`. */
  function Delete(fields: seq<Field>, key: string): seq<Field> {
    if fields == [] then []
    else if fields[0].key == key then fields[1..]
    else [fields[0]] + Delete(fields[1..], key)
  }

  lemma {:induction false} GetFinds(fields: seq<Field>, key: string, default: Json, i: nat)
    requires i < |fields| && fields[i].key == key && DistinctKeys(fields)
    ensures Get(fields, key, default) == fields[i].value
  {
    if i > 0 { GetFinds(fields[1..], key, default, i - 1); }
  }

  lemma {:induction false} GetMisses(fields: seq<Field>, key: string, default: Json)
    requires !HasKey(fields, key)
    ensures Get(fields, key, default) == default
    ensures Put(fields, key, default) == fields + [Field(key, default)]
    ensures Delete(fields, key) == fields
  {
    if fields != [] {
      assert fields[0].key != key;
      assert forall i :: 0 <= i < |fields[1..]| ==> fields[1..][i] == fields[i + 1];
      GetMisses(fields[1..], key, default);
    }
  }

  /** `Put` changes one value and no position. */
  lemma {:induction false} PutReplaces(fields: seq<Field>, key: string, value: Json, i: nat)
    requires i < |fields| && fields[i].key == key && DistinctKeys(fields)
    ensures Put(fields, key, value) == fields[i := Field(key, value)]
  {
    if i > 0 {
      assert fields[0].key != fields[i].key;
      PutReplaces(fields[1..], key, value, i - 1);
    }
  }

  lemma {:induction false} DeleteRemoves(fields: seq<Field>, key: string, i: nat)
    requires i < |fields| && fields[i].key == key && DistinctKeys(fields)
    ensures Delete(fields, key) == fields[..i] + fields[i + 1..]
  {
    if i > 0 {
      assert fields[0].key != fields[i].key;
      DeleteRemoves(fields[1..], key, i - 1);
    }
  }

  lemma {:induction false} PutTwice(fields: seq<Field>, key: string, first: Json, second: Json)
    ensures Put(Put(fields, key, first), key, second) == Put(fields, key, second)
    decreases fields
  {
    if fields != [] && fields[0].key != key { PutTwice(fields[1..], key, first, second); }
  }

  // --------------------------------------------------------- Python's equality

  predicate IsNumber(a: Json) { a.Bool? || a.Int? || a.Float? }

  function NumberOf(a: Json): real
    requires IsNumber(a)
  {
    match a
    case Bool(flag) => if flag then 1.0 else 0.0
    case Int(number) => number as real
    case Float(amount, _) => amount
  }

  /** `a == b`: numbers compare by value across types, objects ignore their order. */
  predicate PyEq(a: Json, b: Json)
    decreases a
  {
    if IsNumber(a) && IsNumber(b) then NumberOf(a) == NumberOf(b)
    else
      match (a, b)
      case (Null, Null) => true
      case (Str(x), Str(y)) => x == y
      case (List(xs), List(ys)) => |xs| == |ys| && forall i :: 0 <= i < |xs| ==> PyEq(xs[i], ys[i])
      case (Obj(xs), Obj(ys)) =>
        && |xs| == |ys|
        && forall i :: 0 <= i < |xs| ==> HasEqualField(xs[i], ys)
      case _ => false
  }

  predicate HasEqualField(f: Field, ys: seq<Field>)
    decreases f
  {
    exists j :: 0 <= j < |ys| && f.key == ys[j].key && PyEq(f.value, ys[j].value)
  }

  /** Whether a value is one `json.loads` can produce from settings without lone surrogates. */
  predicate Loaded(a: Json) {
    match a
    case List(items) => forall i :: 0 <= i < |items| ==> Loaded(items[i])
    case Obj(fields) => DistinctKeys(fields) && forall i :: 0 <= i < |fields| ==> Loaded(fields[i].value)
    case Unpaired(_, _) | Refused => false
    case _ => true
  }

  lemma {:induction false} EqualToItself(a: Json)
    requires Loaded(a)
    ensures PyEq(a, a)
    decreases a
  {
    match a
    case List(items) =>
      forall i | 0 <= i < |items| ensures PyEq(items[i], items[i]) { EqualToItself(items[i]); }
    case Obj(fields) =>
      forall i | 0 <= i < |fields|
        ensures HasEqualField(fields[i], fields)
      {
        EqualToItself(fields[i].value);
      }
    case _ =>
  }

  // ------------------------------------------------------- the streaming encoder

  /** How a stream goes on after its chunks: it is over, the encoder raises, or it yields a
      chunk of so many code points that UTF-8 cannot encode. */
  datatype End = Over | Raises | Unencodable(points: nat)

  /** What `iterencode` yields. */
  datatype Stream = Stream(chunks: seq<string>, end: End)

  function Yield(chunk: string): Stream { Stream([chunk], Over) }

  function Then(a: Stream, b: Stream): Stream {
    if !a.end.Over? then a else Stream(a.chunks + b.chunks, b.end)
  }

  function Concat(chunks: seq<string>): string {
    if chunks == [] then "" else chunks[0] + Concat(chunks[1..])
  }

  function HexDigit(n: int): (c: char)
    requires 0 <= n < 16
    ensures c as int < 0x80
  {
    "0123456789abcdef"[n]
  }

  predicate Ascii(s: string) { forall i :: 0 <= i < |s| ==> s[i] as int < 0x80 }

  function UnicodeEscape(n: int): (e: string)
    requires 0 <= n < 0x10000
    ensures |e| == 6 && Ascii(e)
  {
    "\\u" + [HexDigit(n / 0x1000), HexDigit(n / 0x100 % 16), HexDigit(n / 16 % 16), HexDigit(n % 16)]
  }

  function EncodeChar(c: char, ascii: bool): (e: string)
    ensures |e| <= 2 || (|e| <= 12 && Ascii(e))
  {
    var n := c as int;
    if c == '"' then "\\\""
    else if c == '\\' then "\\\\"
    else if c == '\n' then "\\n"
    else if c == '\r' then "\\r"
    else if c == '\t' then "\\t"
    else if n == 8 then "\\b"
    else if n == 12 then "\\f"
    else if n < 32 then UnicodeEscape(n)
    else if n < 0x7F || !ascii then [c]
    else if n == 0x7F then [c]
    else if n < 0x10000 then UnicodeEscape(n)
    else UnicodeEscape(0xD800 + (n - 0x10000) / 0x400) + UnicodeEscape(0xDC00 + (n - 0x10000) % 0x400)
  }

  function EncodeChars(s: string, ascii: bool): string {
    if s == "" then "" else EncodeChar(s[0], ascii) + EncodeChars(s[1..], ascii)
  }

  function EncodeText(s: string, ascii: bool): string { "\"" + EncodeChars(s, ascii) + "\"" }

  function Digits(n: nat): string {
    (if n < 10 then "" else Digits(n / 10)) + [HexDigit(n % 10)]
  }

  function IntText(n: int): string { if n < 0 then "-" + Digits(-n) else Digits(n) }

  /** Code point order, which `sort_keys` uses. */
  predicate Before(a: string, b: string) {
    if a == "" then b != ""
    else b != "" && (a[0] < b[0] || (a[0] == b[0] && Before(a[1..], b[1..])))
  }

  function InsertField(f: Field, sorted: seq<Field>): (r: seq<Field>)
    ensures multiset(r) == multiset(sorted) + multiset{f}
  {
    if sorted == [] then [f]
    else if Before(f.key, sorted[0].key) then [f] + sorted
    else
      assert sorted == [sorted[0]] + sorted[1..];
      [sorted[0]] + InsertField(f, sorted[1..])
  }

  function SortFields(fields: seq<Field>): (r: seq<Field>)
    ensures multiset(r) == multiset(fields)
  {
    if fields == [] then []
    else
      assert fields == [fields[0]] + fields[1..];
      InsertField(fields[0], SortFields(fields[1..]))
  }

  /** `JSONEncoder(ensure_ascii=ascii, sort_keys=ascii, separators=(",", ":")).iterencode`,
      one chunk per token. */
  function Encode(a: Json, ascii: bool): Stream
    decreases a, 1
  {
    match a
    case Null => Yield("null")
    case Bool(flag) => Yield(if flag then "true" else "false")
    case Int(number) => Yield(IntText(number))
    case Float(_, printed) => Yield(printed)
    case Str(text) => Yield(EncodeText(text, ascii))
    case List(items) => Then(Yield("["), Then(EncodeItems(a, 0, ascii), Yield("]")))
    case Obj(fields) =>
      var order := if ascii then SortFields(fields) else fields;
      forall f | f in order ensures f in fields {
        assert f in multiset(order);
      }
      Then(Yield("{"), Then(EncodeFields(a, order, ascii), Yield("}")))
    case Unpaired(escaped, points) => if ascii then Yield(escaped) else Stream([], Unencodable(points))
    case Refused => Stream([], Raises)
  }

  function EncodeItems(a: Json, from: nat, ascii: bool): Stream
    requires a.List? && from <= |a.items|
    decreases a, 0, |a.items| - from
  {
    if from == |a.items| then Stream([], Over)
    else
      Then(Then(Yield(if from == 0 then "" else ","), Encode(a.items[from], ascii)),
           EncodeItems(a, from + 1, ascii))
  }

  /** `order` holds the fields of the object `a` still to print. */
  function EncodeFields(a: Json, order: seq<Field>, ascii: bool): Stream
    requires a.Obj? && forall f :: f in order ==> f in a.fields
    decreases a, 0, |order|
  {
    if order == [] then Stream([], Over)
    else
      FieldIsSmaller(a, order[0]);
      Then(Then(Yield(EncodeText(order[0].key, ascii) + ":"), Encode(order[0].value, ascii)),
           Then(Yield(if |order| == 1 then "" else ","), EncodeFields(a, order[1..], ascii)))
  }

  lemma FieldIsSmaller(a: Json, f: Field)
    requires a.Obj? && f in a.fields
    ensures f.value < a
  {
    var i :| 0 <= i < |a.fields| && a.fields[i] == f;
    assert a.fields[i].value < a.fields[i] && a.fields[i] < a;
  }

  // -------------------------------------------------------------- known values

  lemma {:induction false} ConcatOfParts(a: seq<string>, b: seq<string>)
    ensures Concat(a + b) == Concat(a) + Concat(b)
    decreases a
  {
    if a == [] {
      assert a + b == b;
    } else {
      assert (a + b)[1..] == a[1..] + b;
      ConcatOfParts(a[1..], b);
    }
  }

  function Printed(s: Stream): string { Concat(s.chunks) }

  lemma PrintedThen(a: Stream, b: Stream)
    requires a.end.Over?
    ensures Printed(Then(a, b)) == Printed(a) + Printed(b) && Then(a, b).end == b.end
  {
    ConcatOfParts(a.chunks, b.chunks);
  }

  lemma PrintedYield(chunk: string)
    ensures Printed(Yield(chunk)) == chunk
  {
    assert Concat([chunk]) == chunk + "" == chunk;
  }

  lemma ItemsPrinted(a: Json, from: nat, ascii: bool)
    requires a.List? && from < |a.items| && Encode(a.items[from], ascii).end.Over?
    ensures Printed(EncodeItems(a, from, ascii))
         == (if from == 0 then "" else ",") + Printed(Encode(a.items[from], ascii)) + Printed(EncodeItems(a, from + 1, ascii))
    ensures EncodeItems(a, from, ascii).end == EncodeItems(a, from + 1, ascii).end
  {
    var lead, item := Yield(if from == 0 then "" else ","), Encode(a.items[from], ascii);
    PrintedYield(if from == 0 then "" else ",");
    PrintedThen(lead, item);
    PrintedThen(Then(lead, item), EncodeItems(a, from + 1, ascii));
  }

  lemma BracketsPrinted(inner: Stream)
    requires inner.end.Over?
    ensures Printed(Then(Yield("["), Then(inner, Yield("]")))) == "[" + Printed(inner) + "]"
  {
    PrintedYield("[");
    PrintedYield("]");
    PrintedThen(inner, Yield("]"));
    PrintedThen(Yield("["), Then(inner, Yield("]")));
  }

  /** A list prints its items between brackets, with commas and no spaces. */
  lemma ListIsPrinted(x: Json, y: Json, ascii: bool)
    requires Encode(x, ascii).end.Over? && Encode(y, ascii).end.Over?
    ensures Printed(Encode(List([x, y]), ascii)) == "[" + (Printed(Encode(x, ascii)) + "," + Printed(Encode(y, ascii))) + "]"
  {
    var a := List([x, y]);
    ItemsPrinted(a, 0, ascii);
    ItemsPrinted(a, 1, ascii);
    assert EncodeItems(a, 2, ascii) == Stream([], Over) && Printed(Stream([], Over)) == "";
    var first, second := Printed(Encode(x, ascii)), Printed(Encode(y, ascii));
    assert "" + first + ("," + second + "") == first + "," + second;
    BracketsPrinted(EncodeItems(a, 0, ascii));
  }

  function HexValue(c: char): int {
    if '0' <= c <= '9' then c as int - '0' as int else if 'a' <= c <= 'f' then c as int - 'a' as int + 10 else -1
  }

  /** What the four digits of an escape stand for. */
  function UnitValue(e: string): int
    requires |e| == 6
  {
    HexValue(e[2]) * 0x1000 + HexValue(e[3]) * 0x100 + HexValue(e[4]) * 16 + HexValue(e[5])
  }

  lemma HexInverse(n: int)
    requires 0 <= n < 16
    ensures HexValue(HexDigit(n)) == n
  {
  }

  lemma FourDigits(n: int)
    requires 0 <= n < 0x10000
    ensures n == n / 0x1000 * 0x1000 + n / 0x100 % 16 * 0x100 + n / 16 % 16 * 16 + n % 16
  {
    var rest := n / 16 / 16;
    assert n / 0x100 == rest && n / 0x1000 == rest / 16;
  }

  lemma EscapeAt(n: int)
    requires 0 <= n < 0x10000
    ensures var e := UnicodeEscape(n);
      && e[0] == '\\' && e[1] == 'u' && e[2] == HexDigit(n / 0x1000) && e[3] == HexDigit(n / 0x100 % 16)
      && e[4] == HexDigit(n / 16 % 16) && e[5] == HexDigit(n % 16)
  {
  }

  lemma UnitInverse(n: int, e: string)
    requires 0 <= n < 0x10000 && e == UnicodeEscape(n)
    ensures UnitValue(e) == n
  {
    var a, b, c, d := n / 0x1000, n / 0x100 % 16, n / 16 % 16, n % 16;
    EscapeAt(n);
    HexInverse(a);
    HexInverse(b);
    HexInverse(c);
    HexInverse(d);
    FourDigits(n);
  }

  lemma OneUnit(c: char)
    requires 0x80 <= c as int < 0x10000
    ensures EncodeChar(c, true) == UnicodeEscape(c as int)
  {
  }

  lemma TwoUnits(c: char, high: int, low: int)
    requires 0x10000 <= c as int && high == 0xD800 + (c as int - 0x10000) / 0x400 && low == 0xDC00 + (c as int - 0x10000) % 0x400
    ensures high < 0x10000 && low < 0x10000 && EncodeChar(c, true) == UnicodeEscape(high) + UnicodeEscape(low)
    ensures c as int == 0x10000 + (high - 0xD800) * 0x400 + (low - 0xDC00)
  {
  }

  /** How a text prints a character: a quote or backslash after a backslash, other control
      characters escaped, ASCII as it is. What lies beyond ASCII stays too, or is escaped where
      that is asked for: as its own number, or as the surrogates of it. */
  lemma CharactersArePrinted(c: char)
    ensures c == '"' || c == '\\' ==> EncodeChar(c, true) == EncodeChar(c, false) == ['\\', c]
    ensures ' ' <= c <= '\U{7F}' && c != '"' && c != '\\' ==> EncodeChar(c, true) == EncodeChar(c, false) == [c]
    ensures c < ' ' ==> EncodeChar(c, true) == EncodeChar(c, false) && EncodeChar(c, true)[0] == '\\'
    ensures c as int >= 0x80 ==> EncodeChar(c, false) == [c] && EscapedAs(EncodeChar(c, true), c as int)
  {
    if c as int >= 0x80 { EscapedBeyondAscii(c); }
  }

  predicate EscapedAs(e: string, n: int) {
    if n < 0x10000 then |e| == 6 && UnitValue(e) == n
    else |e| == 12 && n == 0x10000 + (UnitValue(e[..6]) - 0xD800) * 0x400 + (UnitValue(e[6..]) - 0xDC00)
  }

  lemma EscapedBeyondAscii(c: char)
    requires c as int >= 0x80
    ensures EscapedAs(EncodeChar(c, true), c as int)
  {
    var n, e := c as int, EncodeChar(c, true);
    if n < 0x10000 {
      OneUnit(c);
      UnitInverse(n, e);
    } else {
      var high, low := 0xD800 + (n - 0x10000) / 0x400, 0xDC00 + (n - 0x10000) % 0x400;
      TwoUnits(c, high, low);
      assert e[..6] == UnicodeEscape(high) && e[6..] == UnicodeEscape(low);
      UnitInverse(high, e[..6]);
      UnitInverse(low, e[6..]);
    }
  }
}
