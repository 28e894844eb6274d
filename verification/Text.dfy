/** The string and byte operations the settings printers and parsers are built from.
    A Python `str` is a Dafny `string` (Unicode scalar values). */
module Text {
  import opened Outcomes

  type Byte = b: int | 0 <= b < 256

  /** `" ".join(parts)`. */
  function JoinWithSpaces(parts: seq<string>): string {
    if parts == [] then ""
    else if |parts| == 1 then parts[0]
    else parts[0] + " " + JoinWithSpaces(parts[1..])
  }

  /** `s.replace(c, by)` for a one-character pattern. */
  function ReplaceChar(s: string, c: char, replacement: string): string {
    if s == "" then ""
    else (if s[0] == c then replacement else [s[0]]) + ReplaceChar(s[1..], c, replacement)
  }

  /** `s.replace("''", "'")`: pairs are replaced from the left and do not overlap. */
  function UndoubleQuotes(s: string): string {
    if |s| < 2 then s
    else if s[0] == '\'' && s[1] == '\'' then "'" + UndoubleQuotes(s[2..])
    else [s[0]] + UndoubleQuotes(s[1..])
  }

  /** `str.isspace` on one character, which is also what `\s` and `strip` use. */
  predicate IsSpace(c: char) {
    var n := c as int;
    || 0x09 <= n <= 0x0D || 0x1C <= n <= 0x20 || n == 0x85 || n == 0xA0 || n == 0x1680
    || 0x2000 <= n <= 0x200A || n == 0x2028 || n == 0x2029 || n == 0x202F || n == 0x205F || n == 0x3000
  }

  function StripLeft(s: string): string {
    if s != "" && IsSpace(s[0]) then StripLeft(s[1..]) else s
  }

  function StripRight(s: string): string {
    if s != "" && IsSpace(s[|s| - 1]) then StripRight(s[..|s| - 1]) else s
  }

  predicate IsSlash(c: char) { c == '/' || c == '\\' }

  /** `path.replace("\\", "/").rsplit("/", 1)[-1]`. */
  function Basename(path: string): string {
    if path == "" || IsSlash(path[|path| - 1]) then ""
    else Basename(path[..|path| - 1]) + [path[|path| - 1]]
  }

  /** Components between separators, empty ones included. */
  function Components(path: string, separator: char -> bool): seq<string> {
    if path == "" then [""]
    else
      var rest := Components(path[1..], separator);
      if separator(path[0]) then [""] + rest
      else if rest == [] then [[path[0]]] else [[path[0]] + rest[0]] + rest[1..]
  }

  // ---------------------------------------------------------------- UTF-16LE

  function Unit(n: int): seq<Byte>
    requires 0 <= n < 0x10000
  {
    [n % 256, n / 256]
  }

  function EncodeChar16(c: char): seq<Byte> {
    var n := c as int;
    if n < 0x10000 then Unit(n)
    else Unit(0xD800 + (n - 0x10000) / 0x400) + Unit(0xDC00 + (n - 0x10000) % 0x400)
  }

  function Word(low: int, high: int): int { low + 256 * high }

  /** `s.encode("utf-16-le")`, section 2.1 of RFC 2781. */
  function EncodeUtf16(s: string): seq<Byte> {
    if s == "" then [] else EncodeChar16(s[0]) + EncodeUtf16(s[1..])
  }

  /** `b.decode("utf-16-le")`, section 2.2 of RFC 2781; odd or unpaired input is an error. */
  function DecodeUtf16(b: seq<Byte>): Option<string> {
    if b == [] then Some("")
    else if |b| < 2 then None
    else
      var n := Word(b[0], b[1]);
      if n < 0xD800 || 0xE000 <= n then
        match DecodeUtf16(b[2..])
        case None => None
        case Some(rest) => Some([n as char] + rest)
      else if 0xDC00 <= n || |b| < 4 then None
      else
        var low := Word(b[2], b[3]);
        if low < 0xDC00 || 0xE000 <= low then None
        else
          match DecodeUtf16(b[4..])
          case None => None
          case Some(rest) => Some([(0x10000 + (n - 0xD800) * 0x400 + (low - 0xDC00)) as char] + rest)
  }

  function Utf16Size(s: string): nat {
    if s == "" then 0 else (if s[0] as int < 0x10000 then 2 else 4) + Utf16Size(s[1..])
  }

  lemma {:induction false} Utf16SizeIsLength(s: string)
    ensures |EncodeUtf16(s)| == Utf16Size(s) <= 4 * |s|
    decreases s
  {
    if s != "" { Utf16SizeIsLength(s[1..]); }
  }

  lemma {:induction false} Utf16SizeOfConcat(a: string, b: string)
    ensures Utf16Size(a + b) == Utf16Size(a) + Utf16Size(b)
    decreases a
  {
    if a == "" {
      assert a + b == b;
    } else {
      Utf16SizeOfConcat(a[1..], b);
      assert (a + b)[1..] == a[1..] + b;
    }
  }

  lemma {:induction false} Utf16RoundTrip(s: string)
    ensures DecodeUtf16(EncodeUtf16(s)) == Some(s)
    decreases s
  {
    if s != "" {
      Utf16RoundTrip(s[1..]);
      var n, b := s[0] as int, EncodeUtf16(s);
      if n < 0x10000 {
        assert b[2..] == EncodeUtf16(s[1..]);
        assert Word(b[0], b[1]) == n;
      } else {
        assert b[4..] == EncodeUtf16(s[1..]);
        var v := n - 0x10000;
        assert Word(b[0], b[1]) == 0xD800 + v / 0x400;
        assert Word(b[2], b[3]) == 0xDC00 + v % 0x400;
        assert v / 0x400 * 0x400 + v % 0x400 == v;
      }
      assert s == [s[0]] + s[1..];
    }
  }

  // ------------------------------------------------------------------ Base64

  function Symbol(v: int): char
    requires 0 <= v < 64
  {
    if v < 26 then ('A' as int + v) as char
    else if v < 52 then ('a' as int + (v - 26)) as char
    else if v < 62 then ('0' as int + (v - 52)) as char
    else if v == 62 then '+' else '/'
  }

  function SymbolValue(c: char): Option<int> {
    if 'A' <= c <= 'Z' then Some(c as int - 'A' as int)
    else if 'a' <= c <= 'z' then Some(c as int - 'a' as int + 26)
    else if '0' <= c <= '9' then Some(c as int - '0' as int + 52)
    else if c == '+' then Some(62)
    else if c == '/' then Some(63)
    else None
  }

  /** Three bytes as four symbols. */
  function Quad(x: Byte, y: Byte, z: Byte): (q: string)
    ensures |q| == 4
  {
    [Symbol(x / 4), Symbol(x % 4 * 16 + y / 16), Symbol(y % 16 * 4 + z / 64), Symbol(z % 64)]
  }

  /** `b64encode`, section 4 of RFC 4648. */
  function EncodeBase64(b: seq<Byte>): (s: string)
    ensures |s| == (|b| + 2) / 3 * 4
  {
    if b == [] then ""
    else if |b| == 1 then Quad(b[0], 0, 0)[..2] + "=="
    else if |b| == 2 then Quad(b[0], b[1], 0)[..3] + "="
    else Quad(b[0], b[1], b[2]) + EncodeBase64(b[3..])
  }

  /** The values of the leading symbols of a quad. */
  function Values(s: string): Option<seq<int>> {
    if s == "" then Some([])
    else
      match SymbolValue(s[0])
      case None => None
      case Some(v) =>
        match Values(s[1..])
        case None => None
        case Some(rest) => Some([v] + rest)
  }

  function Bytes(v: seq<int>): (b: seq<int>)
    requires 2 <= |v| <= 4
    ensures |b| == |v| - 1
  {
    [v[0] * 4 + v[1] / 16]
    + (if |v| < 3 then [] else [v[1] % 16 * 16 + v[2] / 4])
    + (if |v| < 4 then [] else [v[2] % 4 * 64 + v[3]])
  }

  /** One quad; only the last may be padded. */
  function DecodeQuad(q: string, last: bool): Option<seq<int>>
    requires |q| == 4
  {
    var kept := if last && q[2..] == "==" then 2 else if last && q[3..] == "=" then 3 else 4;
    match Values(q[..kept])
    case None => None
    case Some(v) => if |v| == kept then Some(Bytes(v)) else None
  }

  predicate AllBytes(b: seq<int>) { forall i :: 0 <= i < |b| ==> 0 <= b[i] < 256 }

  /** `b64decode(s, validate=True)`: whole quads, padding only at the very end. */
  function DecodeBase64(s: string): Option<seq<int>> {
    if s == "" then Some([])
    else if |s| < 4 then None
    else
      match (DecodeQuad(s[..4], |s| == 4), DecodeBase64(s[4..]))
      case (Some(bytes), Some(rest)) => Some(bytes + rest)
      case _ => None
  }

  lemma SymbolInverse(v: int)
    requires 0 <= v < 64
    ensures SymbolValue(Symbol(v)) == Some(v)
  {
  }

  lemma QuadInverse(x: Byte, y: Byte, z: Byte)
    ensures x / 4 * 4 + (x % 4 * 16 + y / 16) / 16 == x
    ensures (x % 4 * 16 + y / 16) % 16 * 16 + (y % 16 * 4 + z / 64) / 4 == y
    ensures (y % 16 * 4 + z / 64) % 4 * 64 + z % 64 == z
  {
    assert (x % 4 * 16 + y / 16) / 16 == x % 4 && (x % 4 * 16 + y / 16) % 16 == y / 16;
    assert (y % 16 * 4 + z / 64) / 4 == y % 16 && (y % 16 * 4 + z / 64) % 4 == z / 64;
  }

  /** The first `kept` symbols of a quad give back the first `kept - 1` bytes. */
  lemma QuadValues(x: Byte, y: Byte, z: Byte, kept: nat)
    requires 2 <= kept <= 4
    ensures Values(Quad(x, y, z)[..kept]) == Some([x / 4, x % 4 * 16 + y / 16, y % 16 * 4 + z / 64, z % 64][..kept])
  {
    var v := [x / 4, x % 4 * 16 + y / 16, y % 16 * 4 + z / 64, z % 64];
    ValuesOfSymbols(v[..kept], Quad(x, y, z)[..kept]);
  }

  lemma {:induction false} ValuesOfSymbols(v: seq<int>, s: string)
    requires |s| == |v| && forall i :: 0 <= i < |v| ==> 0 <= v[i] < 64 && s[i] == Symbol(v[i])
    ensures Values(s) == Some(v)
    decreases v
  {
    if v != [] {
      SymbolInverse(v[0]);
      ValuesOfSymbols(v[1..], s[1..]);
      assert [v[0]] + v[1..] == v;
    }
  }

  lemma QuadBytes(x: Byte, y: Byte, z: Byte, kept: nat)
    requires 2 <= kept <= 4
    ensures Bytes([x / 4, x % 4 * 16 + y / 16, y % 16 * 4 + z / 64, z % 64][..kept])[..kept - 2] == [x, y, z][..kept - 2]
    ensures kept == 4 ==> Bytes([x / 4, x % 4 * 16 + y / 16, y % 16 * 4 + z / 64, z % 64]) == [x, y, z]
    ensures kept == 3 && z == 0 ==> Bytes([x / 4, x % 4 * 16 + y / 16, y % 16 * 4 + z / 64]) == [x, y]
    ensures kept == 2 && y == 0 ==> Bytes([x / 4, x % 4 * 16 + y / 16]) == [x]
  {
    QuadInverse(x, y, z);
  }

  lemma OneByteTail(x: Byte)
    ensures DecodeBase64(EncodeBase64([x])) == Some([x])
  {
    var s := EncodeBase64([x]);
    assert s[..4] == s && s[4..] == "" && s[2..] == "==" && s[..2] == Quad(x, 0, 0)[..2];
    QuadValues(x, 0, 0, 2);
    QuadBytes(x, 0, 0, 2);
    assert [x / 4, x % 4 * 16 + 0 / 16, 0, 0][..2] == [x / 4, x % 4 * 16 + 0 / 16];
    assert [x] + [] == [x];
  }

  lemma TwoByteTail(x: Byte, y: Byte)
    ensures DecodeBase64(EncodeBase64([x, y])) == Some([x, y])
  {
    var s := EncodeBase64([x, y]);
    assert s[..4] == s && s[4..] == "" && s[3..] == "=" && s[..3] == Quad(x, y, 0)[..3];
    NotPadding(s[2], y % 16 * 4);
    assert s[2..][0] != '=';
    QuadValues(x, y, 0, 3);
    QuadBytes(x, y, 0, 3);
    assert [x / 4, x % 4 * 16 + y / 16, y % 16 * 4 + 0 / 64, 0][..3] == [x / 4, x % 4 * 16 + y / 16, y % 16 * 4 + 0 / 64];
    assert [x, y] + [] == [x, y];
  }

  lemma NotPadding(c: char, v: int)
    requires 0 <= v < 64 && c == Symbol(v)
    ensures c != '='
  {
  }

  lemma FullQuad(x: Byte, y: Byte, z: Byte, last: bool)
    ensures DecodeQuad(Quad(x, y, z), last) == Some([x, y, z])
  {
    var q := Quad(x, y, z);
    NotPadding(q[3], z % 64);
    assert q[2..][1] == q[3] && q[3..][0] == q[3] && q[..4] == q;
    QuadValues(x, y, z, 4);
    QuadBytes(x, y, z, 4);
    var v := [x / 4, x % 4 * 16 + y / 16, y % 16 * 4 + z / 64, z % 64];
    assert v[..4] == v;
  }

  lemma {:induction false} Base64RoundTrip(b: seq<Byte>)
    ensures DecodeBase64(EncodeBase64(b)) == Some(b)
    decreases b
  {
    if b == [] {
    } else if |b| == 1 {
      OneByteTail(b[0]);
      assert b == [b[0]];
    } else if |b| == 2 {
      TwoByteTail(b[0], b[1]);
      assert b == [b[0], b[1]];
    } else {
      Base64RoundTrip(b[3..]);
      var s := EncodeBase64(b);
      assert s[..4] == Quad(b[0], b[1], b[2]) && s[4..] == EncodeBase64(b[3..]);
      FullQuad(b[0], b[1], b[2], |s| == 4);
      assert b == [b[0], b[1], b[2]] + b[3..];
    }
  }

  // ------------------------------------------------------------------- UTF-8

  /** Bytes of one character in UTF-8, section 3 of RFC 3629. */
  function Utf8Size(c: char): (n: nat)
    ensures 1 <= n <= 4
  {
    var v := c as int;
    if v < 0x80 then 1 else if v < 0x800 then 2 else if v < 0x10000 then 3 else 4
  }

  function Utf8Length(s: string): (n: nat)
    ensures |s| <= n <= 4 * |s|
  {
    if s == "" then 0 else Utf8Size(s[0]) + Utf8Length(s[1..])
  }

  lemma {:induction false} Utf8LengthOfConcat(a: string, b: string)
    ensures Utf8Length(a + b) == Utf8Length(a) + Utf8Length(b)
    decreases a
  {
    if a == "" {
      assert a + b == b;
    } else {
      Utf8LengthOfConcat(a[1..], b);
      assert (a + b)[1..] == a[1..] + b;
    }
  }

  // -------------------------------------------------------------- known values

  /** The examples of section 10 of RFC 4648, and the two symbols that are not alphanumeric. */
  lemma Base64Examples()
    ensures EncodeBase64([0x66]) == "Zg==" && EncodeBase64([0x66, 0x6F]) == "Zm8=" && EncodeBase64([0x66, 0x6F, 0x6F]) == "Zm9v"
    ensures EncodeBase64([0xFB, 0xFF, 0xBF]) == "+/+/"
  {
    assert EncodeBase64([]) == "";
    assert [0x66, 0x6F, 0x6F][3..] == [] && [0xFB, 0xFF, 0xBF][3..] == [];
  }

  /** Little-endian units, and the surrogates of a supplementary character (section 2 of RFC
      2781); one to four bytes in UTF-8 (section 3 of RFC 3629). */
  lemma UnicodeExamples()
    ensures EncodeUtf16("A") == [0x41, 0x00] && EncodeUtf16("\U{20AC}") == [0xAC, 0x20]
    ensures EncodeUtf16("\U{1F600}") == [0x3D, 0xD8, 0x00, 0xDE]
    ensures Utf8Length("\U{7F}") == 1 && Utf8Length("\U{80}") == Utf8Length("\U{7FF}") == 2
    ensures Utf8Length("\U{800}") == Utf8Length("\U{FFFF}") == 3 && Utf8Length("\U{10000}") == 4
  {
    assert "A"[1..] == "" && "\U{20AC}"[1..] == "" && "\U{1F600}"[1..] == "";
    assert "\U{7F}"[1..] == "\U{80}"[1..] == "\U{7FF}"[1..] == "\U{800}"[1..] == "\U{FFFF}"[1..] == "\U{10000}"[1..] == "";
    assert EncodeChar16('A') + [] == [0x41, 0x00] && EncodeChar16('\U{20AC}') + [] == [0xAC, 0x20];
  }
}
