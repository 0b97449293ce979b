/**
 * The JavaScript string and number primitives the relay's TypeScript code
 * relies on: String.prototype.trim, split and join with a one-character
 * separator, String(n) on integers, parseInt, Number() and hex encoding.
 */
module Text {

  newtype byte = x: int | 0 <= x < 256

  /** A JavaScript number as far as this model needs one: NaN or an integer. */
  datatype JsNum = NaN | Num(value: int) {
    /** JavaScript truthiness: NaN and 0 are falsy. */
    predicate Truthy() { Num? && value != 0 }
  }

  /** Option for absent values (`undefined`, `null`, a missing row). */
  datatype Option<T> = None | Some(value: T)

  /** A string is truthy in JavaScript iff it is not empty. */
  predicate Present(s: Option<string>) { s.Some? && s.value != "" }

  // ---------------------------------------------------------------------------
  // Whitespace and trim

  /** ECMAScript WhiteSpace and LineTerminator code points (what trim strips). */
  predicate IsWhiteSpace(c: char)
  {
    c == '\t' || c == '\n' || c == '\U{B}' || c == '\U{C}' || c == '\r' ||
    c == ' ' || c == '\U{A0}' || c == '\U{1680}' || ('\U{2000}' <= c <= '\U{200A}') ||
    c == '\U{2028}' || c == '\U{2029}' || c == '\U{202F}' || c == '\U{205F}' ||
    c == '\U{3000}' || c == '\U{FEFF}'
  }

  function TrimStart(s: string): (r: string)
    ensures |r| <= |s| && r == s[|s| - |r|..]
    ensures r == [] || !IsWhiteSpace(r[0])
    ensures forall i :: 0 <= i < |s| - |r| ==> IsWhiteSpace(s[i])
  {
    if s != [] && IsWhiteSpace(s[0]) then TrimStart(s[1..]) else s
  }

  function TrimEnd(s: string): (r: string)
    ensures |r| <= |s| && r == s[..|r|]
    ensures r == [] || !IsWhiteSpace(r[|r| - 1])
    ensures forall i :: |r| <= i < |s| ==> IsWhiteSpace(s[i])
  {
    if s != [] && IsWhiteSpace(s[|s| - 1]) then TrimEnd(s[..|s| - 1]) else s
  }

  /** String.prototype.trim. */
  function Trim(s: string): string
  {
    TrimEnd(TrimStart(s))
  }

  /** Leading whitespace is dropped by Trim, and a string with no outer whitespace is kept. */
  lemma {:induction false} TrimPadded(pad: string, s: string)
    requires forall i :: 0 <= i < |pad| ==> IsWhiteSpace(pad[i])
    requires s == [] || (!IsWhiteSpace(s[0]) && !IsWhiteSpace(s[|s| - 1]))
    ensures Trim(pad + s) == s
  {
    TrimStartPadded(pad, s);
  }

  lemma {:induction false} TrimStartPadded(pad: string, s: string)
    requires forall i :: 0 <= i < |pad| ==> IsWhiteSpace(pad[i])
    requires s == [] || !IsWhiteSpace(s[0])
    ensures TrimStart(pad + s) == s
  {
    if pad != [] {
      assert (pad + s)[1..] == pad[1..] + s;
      TrimStartPadded(pad[1..], s);
    }
  }

  predicate StartsWith(s: string, prefix: string)
  {
    |prefix| <= |s| && s[..|prefix|] == prefix
  }

  predicate EndsWith(s: string, suffix: string)
  {
    |suffix| <= |s| && s[|s| - |suffix|..] == suffix
  }

  // ---------------------------------------------------------------------------
  // split and join with a one-character separator

  /** String.prototype.split(c): the pieces between occurrences of c; "" splits to [""]. */
  function Split(s: string, c: char): (r: seq<string>)
    ensures |r| >= 1
    ensures forall i :: 0 <= i < |r| ==> c !in r[i]
  {
    if s == [] then [""]
    else
      var rest := Split(s[1..], c);
      if s[0] == c then [""] + rest else [[s[0]] + rest[0]] + rest[1..]
  }

  /** Array.prototype.join(c); [] joins to "". */
  function Join(parts: seq<string>, c: char): string
  {
    if parts == [] then ""
    else if |parts| == 1 then parts[0]
    else parts[0] + [c] + Join(parts[1..], c)
  }

  /** Joining the pieces of a split gives the string back. */
  lemma {:induction false} JoinSplit(s: string, c: char)
    ensures Join(Split(s, c), c) == s
  {
    if s != [] {
      var rest := Split(s[1..], c);
      JoinSplit(s[1..], c);
      if s[0] == c {
        assert Split(s, c) == [""] + rest;
        assert ([""] + rest)[1..] == rest;
      } else {
        var r := Split(s, c);
        assert r == [[s[0]] + rest[0]] + rest[1..];
        if |rest| == 1 {
          assert Join(r, c) == [s[0]] + rest[0];
        } else {
          assert r[1..] == rest[1..];
          assert Join(rest, c) == rest[0] + [c] + Join(rest[1..], c);
          assert Join(r, c) == [s[0]] + rest[0] + [c] + Join(rest[1..], c);
        }
      }
    }
  }

  /** Splitting a string that contains no separator gives that one string. */
  lemma {:induction false} SplitNoSeparator(s: string, c: char)
    requires c !in s
    ensures Split(s, c) == [s]
  {
    if s != [] {
      SplitNoSeparator(s[1..], c);
      assert [s[0]] + s[1..] == s;
    }
  }

  /** A string that holds the separator splits into at least two pieces. */
  lemma {:induction false} SplitHasSeparator(s: string, c: char)
    requires c in s
    ensures |Split(s, c)| >= 2
  {
    if s[0] != c {
      var i :| 0 <= i < |s| && s[i] == c;
      assert s[1..][i - 1] == c;
      SplitHasSeparator(s[1..], c);
    }
  }

  /** A split has more than one piece exactly when the separator occurs; otherwise it is the string itself. */
  lemma SplitPieces(s: string, c: char)
    ensures |Split(s, c)| > 1 <==> c in s
    ensures c !in s ==> Split(s, c) == [s]
  {
    if c in s {
      SplitHasSeparator(s, c);
    } else {
      SplitNoSeparator(s, c);
    }
  }

  /** Splitting `a + [c] + b` where `a` holds no separator: `a` first, then the split of `b`. */
  lemma {:induction false} SplitAtFirst(a: string, c: char, b: string)
    requires c !in a
    ensures Split(a + [c] + b, c) == [a] + Split(b, c)
  {
    if a == [] {
      assert (a + [c] + b)[1..] == b;
    } else {
      assert (a + [c] + b)[1..] == a[1..] + [c] + b;
      SplitAtFirst(a[1..], c, b);
      assert [a[0]] + a[1..] == a;
    }
  }

  /** Splitting a join of separator-free pieces returns the pieces. */
  lemma {:induction false} SplitJoin(parts: seq<string>, c: char)
    requires |parts| >= 1
    requires forall i :: 0 <= i < |parts| ==> c !in parts[i]
    ensures Split(Join(parts, c), c) == parts
  {
    if |parts| == 1 {
      SplitNoSeparator(parts[0], c);
    } else {
      SplitJoin(parts[1..], c);
      SplitAtFirst(parts[0], c, Join(parts[1..], c));
      assert [parts[0]] + parts[1..] == parts;
    }
  }

  /** The first index of c in s, or |s| when c does not occur. */
  function IndexOf(s: string, c: char): (i: nat)
    ensures i <= |s|
    ensures forall j :: 0 <= j < i ==> s[j] != c
    ensures i < |s| ==> s[i] == c
    ensures i == |s| <==> c !in s
  {
    if s == [] then 0 else if s[0] == c then 0 else 1 + IndexOf(s[1..], c)
  }

  /** `const [k, ...v] = s.split(c)` with `v.join(c)`: the text before the first c and the rest after it. */
  lemma {:induction false} SplitHeadTail(s: string, c: char)
    ensures var i := IndexOf(s, c);
            Split(s, c)[0] == s[..i] &&
            Join(Split(s, c)[1..], c) == (if i < |s| then s[i + 1..] else "")
  {
    var i := IndexOf(s, c);
    if i < |s| {
      assert s == s[..i] + [c] + s[i + 1..];
      SplitAtFirst(s[..i], c, s[i + 1..]);
      JoinSplit(s[i + 1..], c);
      assert Split(s, c)[1..] == Split(s[i + 1..], c);
    } else {
      SplitNoSeparator(s, c);
      assert s[..i] == s;
    }
  }

  // ---------------------------------------------------------------------------
  // Decimal digits, String(n) and parsing

  predicate IsDigit(c: char) { '0' <= c <= '9' }

  predicate AllDigits(s: string) { forall i :: 0 <= i < |s| ==> IsDigit(s[i]) }

  function DigitChar(d: nat): char
    requires d < 10
  {
    "0123456789"[d]
  }

  /** String(n) for a non-negative integer: its shortest decimal form. */
  function NatToString(n: nat): (r: string)
    ensures |r| >= 1 && AllDigits(r)
    ensures |r| > 1 ==> r[0] != '0'
  {
    if n < 10 then [DigitChar(n)] else NatToString(n / 10) + [DigitChar(n % 10)]
  }

  /** String(i) for an integer. */
  function IntToString(i: int): (r: string)
    ensures |r| >= 1 && !IsWhiteSpace(r[0]) && !IsWhiteSpace(r[|r| - 1])
    ensures 'x' !in r && ';' !in r && '/' !in r
  {
    var r := if i < 0 then "-" + NatToString(-i) else NatToString(i);
    assert forall k :: 0 <= k < |r| ==> r[k] == '-' || IsDigit(r[k]);
    r
  }

  /** The value of a string of decimal digits, most significant first. */
  function DecimalValue(ds: string): nat
    requires AllDigits(ds)
  {
    if ds == [] then 0 else 10 * DecimalValue(ds[..|ds| - 1]) + (ds[|ds| - 1] - '0') as nat
  }

  lemma {:induction false} DecimalValueOfNatToString(n: nat)
    ensures DecimalValue(NatToString(n)) == n
  {
    if n >= 10 {
      var s := NatToString(n);
      assert s[..|s| - 1] == NatToString(n / 10);
      DecimalValueOfNatToString(n / 10);
    }
  }

  predicate IsHexDigit(c: char) { IsDigit(c) || 'a' <= c <= 'f' || 'A' <= c <= 'F' }

  function HexDigitValue(c: char): nat
    requires IsHexDigit(c)
  {
    if IsDigit(c) then (c - '0') as nat
    else if 'a' <= c <= 'f' then (c - 'a') as nat + 10
    else (c - 'A') as nat + 10
  }

  /** The longest prefix of s whose characters satisfy IsDigit. */
  function DigitPrefix(s: string): (r: string)
    ensures |r| <= |s| && r == s[..|r|] && AllDigits(r)
    ensures |r| < |s| ==> !IsDigit(s[|r|])
  {
    if s != [] && IsDigit(s[0]) then [s[0]] + DigitPrefix(s[1..]) else ""
  }

  /** The longest prefix of s made of hexadecimal digits. */
  function HexPrefix(s: string): (r: string)
    ensures |r| <= |s| && r == s[..|r|]
    ensures forall i :: 0 <= i < |r| ==> IsHexDigit(r[i])
  {
    if s != [] && IsHexDigit(s[0]) then [s[0]] + HexPrefix(s[1..]) else ""
  }

  function HexValue(ds: string): nat
    requires forall i :: 0 <= i < |ds| ==> IsHexDigit(ds[i])
  {
    if ds == [] then 0 else 16 * HexValue(ds[..|ds| - 1]) + HexDigitValue(ds[|ds| - 1])
  }

  lemma {:induction false} DigitPrefixOfDigits(s: string)
    requires AllDigits(s)
    ensures DigitPrefix(s) == s
  {
    if s != [] {
      DigitPrefixOfDigits(s[1..]);
    }
  }

  /** The text after one leading '-' or '+', if there is one. */
  function DropSign(t: string): (u: string)
    ensures |u| <= |t| && u == t[|t| - |u|..]
  {
    if t != [] && (t[0] == '-' || t[0] == '+') then t[1..] else t
  }

  predicate HasHexPrefix(u: string)
  {
    |u| >= 2 && u[0] == '0' && (u[1] == 'x' || u[1] == 'X')
  }

  /**
   * parseInt(s, 10) when `hexPrefix` is false, parseInt(s) with no radix when
   * it is true (a "0x"/"0X" after the sign then switches to base 16): leading
   * whitespace and one sign are skipped, the longest run of digits is read,
   * and no digit at all gives NaN.
   */
  function ParseInt(s: string, hexPrefix: bool): (r: JsNum)
  {
    var t := TrimStart(s);
    var magnitude := ParseMagnitude(DropSign(t), hexPrefix);
    if magnitude.NaN? then NaN
    else if t != [] && t[0] == '-' then Num(-magnitude.value)
    else magnitude
  }

  /** The unsigned part of parseInt: the leading run of digits of u, in base 16 after a hex prefix. */
  function ParseMagnitude(u: string, hexPrefix: bool): (r: JsNum)
    ensures r.Num? ==> r.value >= 0
  {
    if hexPrefix && HasHexPrefix(u) then
      var ds := HexPrefix(u[2..]);
      if ds == [] then NaN else Num(HexValue(ds))
    else
      var ds := DigitPrefix(u);
      if ds == [] then NaN else Num(DecimalValue(ds))
  }

  lemma TrimStartNoSpace(u: string)
    requires u != [] && !IsWhiteSpace(u[0])
    ensures TrimStart(u) == u
  {
  }

  /** Text starting with a digit has no whitespace or sign for parseInt to skip. */
  lemma ParseIntUnsigned(u: string, hexPrefix: bool)
    requires |u| >= 1 && IsDigit(u[0])
    ensures ParseInt(u, hexPrefix) == ParseMagnitude(u, hexPrefix)
  {
    TrimStartNoSpace(u);
    assert DropSign(u) == u;
  }

  /** After a leading '-', parseInt negates what follows. */
  lemma ParseIntNegated(u: string, hexPrefix: bool)
    requires |u| >= 1 && IsDigit(u[0])
    ensures var m := ParseMagnitude(u, hexPrefix);
            ParseInt("-" + u, hexPrefix) == if m.NaN? then NaN else Num(-m.value)
  {
    var m := "-" + u;
    assert m[0] == '-' && m[1..] == u;
    TrimStartNoSpace(m);
    assert DropSign(m) == u;
  }

  /** A string of decimal digits is read as its decimal value. */
  lemma ParseMagnitudeOfDigits(d: string, hexPrefix: bool)
    requires |d| >= 1 && AllDigits(d)
    ensures ParseMagnitude(d, hexPrefix) == Num(DecimalValue(d))
  {
    assert !HasHexPrefix(d) by { if |d| >= 2 { assert IsDigit(d[1]); } }
    DigitPrefixOfDigits(d);
  }

  /** parseInt reads back what String(i) wrote, in base 10 and in the no-radix form. */
  lemma ParseIntOfIntToString(i: int, hexPrefix: bool)
    ensures ParseInt(IntToString(i), hexPrefix) == Num(i)
  {
    var n: nat := if i < 0 then -i else i;
    DecimalValueOfNatToString(n);
    var d := NatToString(n);
    assert IsDigit(d[0]);
    ParseIntUnsigned(d, hexPrefix);
    ParseIntNegated(d, hexPrefix);
    ParseMagnitudeOfDigits(d, hexPrefix);
  }

  /** The strings Number() turns into an integer: an optional sign then one or more digits. */
  predicate IsIntegerLiteral(t: string)
  {
    if t != [] && (t[0] == '-' || t[0] == '+') then |t| > 1 && AllDigits(t[1..])
    else |t| > 0 && AllDigits(t)
  }

  /**
   * Number(s) for the forms the relay meets: after trim, "" is 0 and an
   * optional sign followed by decimal digits is that integer; everything else
   * is NaN here.
   */
  function ToNumber(s: string): (r: JsNum)
    ensures Trim(s) == "" ==> r == Num(0)
    ensures r.NaN? <==> Trim(s) != "" && !IsIntegerLiteral(Trim(s))
  {
    var t := Trim(s);
    if t == [] then Num(0)
    else if !IsIntegerLiteral(t) then NaN
    else if t[0] == '-' then Num(-(DecimalValue(t[1..]) as int))
    else if t[0] == '+' then Num(DecimalValue(t[1..]))
    else Num(DecimalValue(t))
  }

  /** A word that starts with neither a sign nor a digit is NaN to Number(). */
  lemma ToNumberOfWord(s: string)
    requires s != [] && !IsWhiteSpace(s[0]) && !IsWhiteSpace(s[|s| - 1])
    requires !IsDigit(s[0]) && s[0] != '-' && s[0] != '+'
    ensures ToNumber(s) == NaN
  {
    TrimPadded("", s);
    assert "" + s == s;
  }

  /** Number() reads back what String(i) wrote. */
  lemma ToNumberOfIntToString(i: int)
    ensures ToNumber(IntToString(i)) == Num(i)
  {
    var s := IntToString(i);
    assert TrimStart(s) == s;
    assert TrimEnd(s) == s;
    var n: nat := if i < 0 then -i else i;
    DecimalValueOfNatToString(n);
    if i < 0 {
      assert s[1..] == NatToString(n);
    }
  }

  // ---------------------------------------------------------------------------
  // Hex encoding (Buffer.toString('hex'))

  function HexChar(d: nat): char
    requires d < 16
  {
    "0123456789abcdef"[d]
  }

  predicate IsLowerHex(c: char) { IsDigit(c) || 'a' <= c <= 'f' }

  /** Buffer.toString('hex'): two lower-case hex digits per byte, high nibble first. */
  function Hex(bytes: seq<byte>): (r: string)
    ensures |r| == 2 * |bytes|
    ensures forall i :: 0 <= i < |r| ==> IsLowerHex(r[i])
  {
    if bytes == [] then ""
    else
      var b := bytes[0] as int;
      [HexChar(b / 16), HexChar(b % 16)] + Hex(bytes[1..])
  }

  /** Reads two hex digits per byte; the inverse of Hex. */
  function Unhex(s: string): seq<byte>
    requires |s| % 2 == 0
    requires forall i :: 0 <= i < |s| ==> IsLowerHex(s[i])
  {
    if s == [] then []
    else
      assert IsLowerHex(s[0]) && IsLowerHex(s[1]);
      [(HexDigitValue(s[0]) * 16 + HexDigitValue(s[1])) as byte] + Unhex(s[2..])
  }

  lemma {:induction false} UnhexHex(bytes: seq<byte>)
    ensures Unhex(Hex(bytes)) == bytes
  {
    if bytes != [] {
      var b := bytes[0] as int;
      var h := Hex(bytes);
      assert h[2..] == Hex(bytes[1..]);
      assert HexDigitValue(HexChar(b / 16)) == b / 16;
      assert HexDigitValue(HexChar(b % 16)) == b % 16;
      UnhexHex(bytes[1..]);
    }
  }

  /** Different byte strings have different hex encodings. */
  lemma HexInjective(a: seq<byte>, b: seq<byte>)
    requires Hex(a) == Hex(b)
    ensures a == b
  {
    UnhexHex(a);
    UnhexHex(b);
  }
}
