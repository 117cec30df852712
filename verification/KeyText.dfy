/** The text operations the key decoders are built from, on ASCII text: stripping, splitting, joining, and the
    standard library's readings of hexadecimal, decimal and base64. */
module KeyText {
  import opened Bytes

  // ---------------------------------------------------------------- characters

  /** What `bytes.fromhex` skips and `int` ignores at the ends. */
  predicate IsSpace(c: char) {
    c == ' ' || '\t' <= c <= '\r'
  }

  /** What `str.strip` removes: the four ASCII separators as well. */
  predicate IsStripped(c: char) {
    IsSpace(c) || '\U{1c}' <= c <= '\U{1f}'
  }

  predicate IsDigit(c: char) {
    '0' <= c <= '9'
  }

  function DigitValue(c: char): (d: nat)
    requires IsDigit(c)
    ensures d < 10
  {
    c as int - '0' as int
  }

  predicate IsHex(c: char) {
    IsDigit(c) || 'a' <= c <= 'f' || 'A' <= c <= 'F'
  }

  function HexValue(c: char): (d: nat)
    requires IsHex(c)
    ensures d < 16
  {
    if IsDigit(c) then DigitValue(c)
    else if 'a' <= c then c as int - 'a' as int + 10
    else c as int - 'A' as int + 10
  }

  // ---------------------------------------------------------------- strip, split, join, replace

  function StripStart(s: string): string {
    if s != [] && IsStripped(s[0]) then StripStart(s[1..]) else s
  }

  function StripEnd(s: string): string {
    if s != [] && IsStripped(s[|s| - 1]) then StripEnd(s[..|s| - 1]) else s
  }

  function Strip(s: string): string {
    StripEnd(StripStart(s))
  }

  function SplitOn(s: string, sep: char): (parts: seq<string>)
    ensures |parts| > 0
  {
    if s == [] then [""]
    else
      var rest := SplitOn(s[1..], sep);
      if s[0] == sep then [""] + rest else [[s[0]] + rest[0]] + rest[1..]
  }

  function Join(parts: seq<string>, sep: string): string {
    if parts == [] then ""
    else if |parts| == 1 then parts[0]
    else parts[0] + sep + Join(parts[1..], sep)
  }

  function Remove(s: string, c: char): string {
    if s == [] then [] else (if s[0] == c then [] else [s[0]]) + Remove(s[1..], c)
  }

  function RemoveAll(s: string, cs: string): string
    decreases cs
  {
    if cs == [] then s else RemoveAll(Remove(s, cs[0]), cs[1..])
  }

  lemma {:induction false} StripEndAppend(s: string, after: string)
    requires forall c :: c in after ==> IsStripped(c)
    ensures StripEnd(s + after) == StripEnd(s)
  {
    if after == [] {
      assert s + after == s;
    } else {
      assert after[|after| - 1] in after;
      assert (s + after)[..|s + after| - 1] == s + after[..|after| - 1];
      StripEndAppend(s, after[..|after| - 1]);
    }
  }

  lemma {:induction false} StripStartPrepend(before: string, s: string)
    requires forall c :: c in before ==> IsStripped(c)
    ensures StripStart(before + s) == StripStart(s)
  {
    if before == [] {
      assert before + s == s;
    } else {
      assert before[0] in before;
      assert (before + s)[1..] == before[1..] + s;
      StripStartPrepend(before[1..], s);
    }
  }

  lemma {:induction false} StripStartAppend(s: string, after: string)
    requires s != [] && !IsStripped(s[|s| - 1])
    ensures StripStart(s + after) == StripStart(s) + after
  {
    if IsStripped(s[0]) {
      assert (s + after)[1..] == s[1..] + after;
      StripStartAppend(s[1..], after);
    }
  }

  /** Blanks around a text that neither starts nor ends with one are all that is stripped. */
  lemma StripSurrounded(before: string, s: string, after: string)
    requires forall c :: c in before + after ==> IsStripped(c)
    requires s != [] && !IsStripped(s[0]) && !IsStripped(s[|s| - 1])
    ensures Strip(before + s + after) == s
  {
    assert forall c :: c in before ==> c in before + after;
    assert forall c :: c in after ==> c in before + after;
    assert before + s + after == before + (s + after);
    StripStartPrepend(before, s + after);
    StripStartAppend(s, after);
    StripEndAppend(s, after);
  }

  lemma {:induction false} SplitFirst(part: string, sep: char, rest: string)
    requires sep !in part
    ensures SplitOn(part + [sep] + rest, sep) == [part] + SplitOn(rest, sep)
  {
    var s := part + [sep] + rest;
    if part == [] {
      assert s[1..] == rest;
    } else {
      assert s[1..] == part[1..] + [sep] + rest;
      assert part == [part[0]] + part[1..] && s[0] == part[0] && part[0] in part;
      SplitFirst(part[1..], sep, rest);
    }
  }

  lemma {:induction false} SplitNone(s: string, sep: char)
    requires sep !in s
    ensures SplitOn(s, sep) == [s]
  {
    if s != [] {
      assert s == [s[0]] + s[1..] && s[0] in s;
      SplitNone(s[1..], sep);
    }
  }

  /** Splitting undoes joining when no part contains the separator. */
  lemma {:induction false} SplitJoin(parts: seq<string>, sep: char)
    requires parts != [] && forall i :: 0 <= i < |parts| ==> sep !in parts[i]
    ensures SplitOn(Join(parts, [sep]), sep) == parts
  {
    if |parts| == 1 {
      SplitNone(parts[0], sep);
    } else {
      assert forall i :: 0 <= i < |parts[1..]| ==> parts[1..][i] == parts[i + 1];
      SplitJoin(parts[1..], sep);
      SplitFirst(parts[0], sep, Join(parts[1..], [sep]));
      assert parts == [parts[0]] + parts[1..];
    }
  }

  lemma {:induction false} JoinChars(parts: seq<string>, sep: string, c: char)
    ensures c in Join(parts, sep) ==> c in sep || exists i :: 0 <= i < |parts| && c in parts[i]
    ensures (exists i :: 0 <= i < |parts| && c in parts[i]) ==> c in Join(parts, sep)
    ensures |parts| > 1 && c in sep ==> c in Join(parts, sep)
  {
    if |parts| > 1 {
      JoinChars(parts[1..], sep, c);
      if i :| 0 <= i < |parts| && c in parts[i] {
        assert i > 0 ==> c in parts[1..][i - 1];
      }
    }
  }

  lemma {:induction false} RemoveNone(s: string, c: char)
    requires c !in s
    ensures Remove(s, c) == s
  {
    if s != [] {
      RemoveNone(s[1..], c);
    }
  }

  lemma {:induction false} RemoveAllNone(s: string, cs: string)
    requires forall c :: c in cs ==> c !in s
    ensures RemoveAll(s, cs) == s
  {
    if cs != [] {
      assert cs[0] in cs;
      RemoveNone(s, cs[0]);
      RemoveAllNone(s, cs[1..]);
    }
  }

  // ---------------------------------------------------------------- hexadecimal

  /** `bytes.fromhex`: blanks may stand between byte pairs. */
  function FromHex(s: string): Option<seq<Byte>> {
    if s == [] then Some([])
    else if IsSpace(s[0]) then FromHex(s[1..])
    else if |s| > 1 && IsHex(s[0]) && IsHex(s[1]) then
      match FromHex(s[2..])
      case None => None
      case Some(rest) => Some([16 * HexValue(s[0]) + HexValue(s[1])] + rest)
    else None
  }

  function Spaces(s: string): (n: nat)
    ensures n > 0 <==> exists c :: c in s && IsSpace(c)
  {
    if s == [] then 0
    else
      assert s == [s[0]] + s[1..];
      (if IsSpace(s[0]) then 1 else 0) + Spaces(s[1..])
  }

  /** What is read has hex digits and blanks only, and two digits for every byte. */
  lemma {:induction false} FromHexCounts(s: string)
    requires FromHex(s).Some?
    ensures 2 * |FromHex(s).value| + Spaces(s) == |s|
    ensures forall c :: c in s ==> IsHex(c) || IsSpace(c)
  {
    if s != [] {
      if IsSpace(s[0]) {
        FromHexCounts(s[1..]);
      } else {
        FromHexCounts(s[2..]);
        assert s[1..][1..] == s[2..];
        assert s == [s[0], s[1]] + s[2..];
      }
    }
  }

  /** Two hex digits, in either case, that spell the byte. */
  predicate Spells(token: string, b: Byte) {
    |token| == 2 && IsHex(token[0]) && IsHex(token[1]) && b == 16 * HexValue(token[0]) + HexValue(token[1])
  }

  predicate SpellsAll(tokens: seq<string>, key: seq<Byte>) {
    |tokens| == |key| && forall i :: 0 <= i < |key| ==> Spells(tokens[i], key[i])
  }

  lemma {:induction false} FromHexSkips(spaces: string, s: string)
    requires forall c :: c in spaces ==> IsSpace(c)
    ensures FromHex(spaces + s) == FromHex(s)
  {
    if spaces == [] {
      assert spaces + s == s;
    } else {
      assert spaces[0] in spaces;
      assert (spaces + s)[1..] == spaces[1..] + s;
      FromHexSkips(spaces[1..], s);
    }
  }

  /** Hex pairs are read back, run together or with blanks between them. */
  lemma {:induction false} FromHexReads(tokens: seq<string>, key: seq<Byte>, sep: string)
    requires SpellsAll(tokens, key) && forall c :: c in sep ==> IsSpace(c)
    ensures FromHex(Join(tokens, sep)) == Some(key)
  {
    if key != [] {
      var s, rest := Join(tokens, sep), Join(tokens[1..], sep);
      assert Spells(tokens[0], key[0]);
      FromHexReads(tokens[1..], key[1..], sep);
      if |tokens| == 1 {
        assert s[2..] == rest;
      } else {
        assert s[2..] == sep + rest;
        FromHexSkips(sep, rest);
      }
      assert s[0] == tokens[0][0] && s[1] == tokens[0][1];
      assert FromHex(s[2..]) == Some(key[1..]);
      assert key == [key[0]] + key[1..];
    }
  }

  // ---------------------------------------------------------------- decimal

  /** Digits, single underscores allowed between them. */
  predicate Grouped(s: string) {
    && s != [] && IsDigit(s[0]) && IsDigit(s[|s| - 1])
    && (forall i :: 0 <= i < |s| ==> IsDigit(s[i]) || s[i] == '_')
    && (forall i :: 0 <= i < |s| - 1 ==> s[i] != '_' || s[i + 1] != '_')
  }

  function Value(digits: string): (v: int)
    requires forall i :: 0 <= i < |digits| ==> IsDigit(digits[i])
    ensures v >= 0
  {
    if digits == [] then 0 else 10 * Value(digits[..|digits| - 1]) + DigitValue(digits[|digits| - 1])
  }

  function TrimStart(s: string): string {
    if s != [] && IsSpace(s[0]) then TrimStart(s[1..]) else s
  }

  function TrimEnd(s: string): string {
    if s != [] && IsSpace(s[|s| - 1]) then TrimEnd(s[..|s| - 1]) else s
  }

  lemma {:induction false} RemoveKeepsDigits(s: string)
    requires forall i :: 0 <= i < |s| ==> IsDigit(s[i]) || s[i] == '_'
    ensures forall i :: 0 <= i < |Remove(s, '_')| ==> IsDigit(Remove(s, '_')[i])
  {
    if s != [] {
      RemoveKeepsDigits(s[1..]);
    }
  }

  /** More digits than this are refused by `int`. */
  const MAX_DIGITS := 4300

  /** `int` of a text: blanks around it, a sign, grouped digits. */
  function ParseInt(s: string): Option<int> {
    var t := TrimEnd(TrimStart(s));
    var signed := t != [] && (t[0] == '-' || t[0] == '+');
    var body := if signed then t[1..] else t;
    if !Grouped(body) then None
    else
      RemoveKeepsDigits(body);
      var digits := Remove(body, '_');
      if |digits| > MAX_DIGITS then None
      else Some(if signed && t[0] == '-' then -Value(digits) else Value(digits))
  }

  /** `str` of a number. */
  function Decimal(n: nat): (s: string)
    ensures s != [] && forall i :: 0 <= i < |s| ==> IsDigit(s[i])
  {
    if n < 10 then [('0' as int + n) as char] else Decimal(n / 10) + [('0' as int + n % 10) as char]
  }

  function DecimalInt(n: int): string {
    if n < 0 then "-" + Decimal(-n) else Decimal(n)
  }

  lemma {:induction false} ValueOfDecimal(n: nat)
    ensures Value(Decimal(n)) == n
    ensures n < 10 ==> |Decimal(n)| == 1
    ensures 10 <= n < 100 ==> |Decimal(n)| == 2
    ensures 100 <= n < 1000 ==> |Decimal(n)| == 3
  {
    if n >= 10 {
      ValueOfDecimal(n / 10);
      assert Decimal(n)[..|Decimal(n)| - 1] == Decimal(n / 10);
    }
  }

  predicate AllDigits(s: string) {
    0 < |s| <= MAX_DIGITS && forall i :: 0 <= i < |s| ==> IsDigit(s[i])
  }

  lemma ParseDigits(digits: string)
    requires AllDigits(digits)
    ensures ParseInt(digits) == Some(Value(digits))
  {
    assert TrimStart(digits) == digits;
    assert TrimEnd(digits) == digits;
    RemoveNone(digits, '_');
  }

  lemma {:induction false} ParseNegative(digits: string)
    requires AllDigits(digits)
    ensures ParseInt("-" + digits) == Some(-Value(digits))
  {
    var s := "-" + digits;
    assert s[|digits|] == digits[|digits| - 1];
    assert TrimStart(s) == s;
    assert TrimEnd(s) == s;
    assert s[1..] == digits;
    RemoveNone(digits, '_');
  }

  /** `int` undoes `str`. */
  lemma ParseDecimal(n: int)
    requires -1000 < n < 1000
    ensures ParseInt(DecimalInt(n)) == Some(n)
  {
    var magnitude: nat := if n < 0 then -n else n;
    ValueOfDecimal(magnitude);
    if n < 0 {
      ParseNegative(Decimal(magnitude));
    } else {
      ParseDigits(Decimal(magnitude));
    }
  }

  // ---------------------------------------------------------------- base64

  predicate IsBase64(c: char) {
    'A' <= c <= 'Z' || 'a' <= c <= 'z' || IsDigit(c) || c == '+' || c == '/'
  }

  function SextetOf(c: char): (v: nat)
    requires IsBase64(c)
    ensures v < 64
  {
    if 'A' <= c <= 'Z' then c as int - 'A' as int
    else if 'a' <= c <= 'z' then c as int - 'a' as int + 26
    else if IsDigit(c) then DigitValue(c) + 52
    else if c == '+' then 62
    else 63
  }

  function CharOf(v: nat): (c: char)
    requires v < 64
    ensures IsBase64(c) && SextetOf(c) == v
  {
    if v < 26 then ('A' as int + v) as char
    else if v < 52 then ('a' as int + v - 26) as char
    else if v < 62 then ('0' as int + v - 52) as char
    else if v == 62 then '+'
    else '/'
  }

  /** Section 4 of RFC 4648: three bytes to four characters, the last group padded. */
  function EncodeBase64(bytes: seq<Byte>): string {
    if bytes == [] then []
    else if |bytes| == 1 then
      [CharOf(bytes[0] / 4), CharOf(bytes[0] % 4 * 16), '=', '=']
    else if |bytes| == 2 then
      [CharOf(bytes[0] / 4), CharOf(bytes[0] % 4 * 16 + bytes[1] / 16), CharOf(bytes[1] % 16 * 4), '=']
    else
      [CharOf(bytes[0] / 4), CharOf(bytes[0] % 4 * 16 + bytes[1] / 16),
       CharOf(bytes[1] % 16 * 4 + bytes[2] / 64), CharOf(bytes[2] % 64)]
      + EncodeBase64(bytes[3..])
  }

  /** Strict decoding: whole groups, padding in the last one only. The bits a padded group has left over are
      dropped, whatever they are. */
  function DecodeBase64(s: string): Option<seq<Byte>> {
    if s == [] then Some([])
    else if |s| < 4 || !IsBase64(s[0]) || !IsBase64(s[1]) then None
    else
      var a, b := SextetOf(s[0]), SextetOf(s[1]);
      var first := a * 4 + b / 16;
      if s[2] == '=' && s[3] == '=' && |s| == 4 then Some([first])
      else if !IsBase64(s[2]) then None
      else
        var c := SextetOf(s[2]);
        var second := b % 16 * 16 + c / 4;
        if s[3] == '=' && |s| == 4 then Some([first, second])
        else if !IsBase64(s[3]) then None
        else
          match DecodeBase64(s[4..])
          case None => None
          case Some(rest) => Some([first, second, c % 4 * 64 + SextetOf(s[3])] + rest)
  }

  lemma RegroupBits(x: Byte, y: Byte, z: Byte)
    ensures x / 4 * 4 + (x % 4 * 16 + y / 16) / 16 == x
    ensures (x % 4 * 16 + y / 16) % 16 * 16 + (y % 16 * 4 + z / 64) / 4 == y
    ensures (y % 16 * 4 + z / 64) % 4 * 64 + z % 64 == z
  {
  }

  lemma {:induction false} DecodeEncodeBase64(bytes: seq<Byte>)
    ensures DecodeBase64(EncodeBase64(bytes)) == Some(bytes)
  {
    if |bytes| == 1 {
      DecodeOne(bytes[0]);
      assert bytes == [bytes[0]];
    } else if |bytes| == 2 {
      DecodeTwo(bytes[0], bytes[1]);
      assert bytes == [bytes[0], bytes[1]];
    } else if |bytes| >= 3 {
      DecodeEncodeBase64(bytes[3..]);
      DecodeGroup(bytes);
    }
  }

  lemma DecodeOne(x: Byte)
    ensures DecodeBase64(EncodeBase64([x])) == Some([x])
  {
    RegroupBits(x, 0, 0);
  }

  lemma DecodeTwo(x: Byte, y: Byte)
    ensures DecodeBase64(EncodeBase64([x, y])) == Some([x, y])
  {
    RegroupBits(x, y, 0);
  }

  lemma DecodeGroup(bytes: seq<Byte>)
    requires |bytes| >= 3 && DecodeBase64(EncodeBase64(bytes[3..])) == Some(bytes[3..])
    ensures DecodeBase64(EncodeBase64(bytes)) == Some(bytes)
  {
    EncodeGroup(bytes);
    DecodeFour(EncodeBase64(bytes), bytes);
  }

  /** Four characters stand for three bytes. */
  predicate Regroups(text: string, bytes: seq<Byte>)
    requires |text| >= 4 && |bytes| >= 3 && forall i :: 0 <= i < 4 ==> IsBase64(text[i])
  {
    var a, b, c, d := SextetOf(text[0]), SextetOf(text[1]), SextetOf(text[2]), SextetOf(text[3]);
    a * 4 + b / 16 == bytes[0] && b % 16 * 16 + c / 4 == bytes[1] && c % 4 * 64 + d == bytes[2]
  }

  lemma EncodeGroup(bytes: seq<Byte>)
    requires |bytes| >= 3
    ensures var text := EncodeBase64(bytes);
            && |text| >= 4 && (forall i :: 0 <= i < 4 ==> IsBase64(text[i]))
            && Regroups(text, bytes) && text[4..] == EncodeBase64(bytes[3..])
  {
    RegroupBits(bytes[0], bytes[1], bytes[2]);
  }

  lemma {:induction false} DecodeFour(text: string, bytes: seq<Byte>)
    requires |text| >= 4 && |bytes| >= 3 && forall i :: 0 <= i < 4 ==> IsBase64(text[i])
    requires Regroups(text, bytes) && DecodeBase64(text[4..]) == Some(bytes[3..])
    ensures DecodeBase64(text) == Some(bytes)
  {
    assert [bytes[0], bytes[1], bytes[2]] + bytes[3..] == bytes;
  }

  lemma ByParts(text: string, n: nat)
    requires n <= |text|
    ensures forall c :: c in text <==> (exists i :: 0 <= i < n && text[i] == c) || c in text[n..]
  {
  }

  /** Encoded text has characters of the alphabet and padding, and ends in padding unless the length is a
      multiple of three. */
  lemma {:induction false} EncodedChars(bytes: seq<Byte>)
    ensures forall c :: c in EncodeBase64(bytes) ==> IsBase64(c) || c == '='
    ensures |bytes| % 3 != 0 ==> '=' in EncodeBase64(bytes)
    ensures bytes != [] ==> EncodeBase64(bytes) != []
  {
    if |bytes| >= 3 {
      EncodedChars(bytes[3..]);
      EncodeGroup(bytes);
      ByParts(EncodeBase64(bytes), 4);
    }
  }
}
