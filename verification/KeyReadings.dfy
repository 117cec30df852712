/** Exactly which texts are read as a key, and as which. */
module KeyReadings {
  import opened Bytes
  import opened KeyText
  import opened KeyParsing

  // ---------------------------------------------------------------- characters

  /** What counts as a blank, as a hex digit and as a base64 character, written out. */
  lemma Blanks(c: char)
    ensures IsSpace(c) <==> c in " \t\n\r\U{0b}\U{0c}"
    ensures IsStripped(c) <==> c in " \t\n\r\U{0b}\U{0c}\U{1c}\U{1d}\U{1e}\U{1f}"
  {
  }

  lemma HexDigits(c: char, d: nat)
    requires d < 16
    ensures IsHex(c) && HexValue(c) == d <==> c == "0123456789abcdef"[d] || c == "0123456789ABCDEF"[d]
  {
  }

  lemma Base64Characters(v: nat)
    requires v < 64
    ensures v < 26 ==> CharOf(v) as int == 'A' as int + v
    ensures 26 <= v < 52 ==> CharOf(v) as int == 'a' as int + (v - 26)
    ensures 52 <= v < 62 ==> CharOf(v) as int == '0' as int + (v - 52)
    ensures v == 62 ==> CharOf(v) == '+'
    ensures v == 63 ==> CharOf(v) == '/'
  {
  }

  /** Four base64 characters are the twenty-four bits of three bytes; a last one or two bytes are filled up with zero
      bits, and to four characters with `=`. */
  lemma EncodedBits(bytes: seq<Byte>)
    ensures var s := EncodeBase64(bytes);
            && (bytes == [] ==> s == "")
            && (|bytes| == 1 ==>
                  && |s| == 4 && s[2..] == "==" && IsBase64(s[0]) && IsBase64(s[1])
                  && 64 * SextetOf(s[0]) + SextetOf(s[1]) == 16 * bytes[0] as int)
            && (|bytes| == 2 ==>
                  && |s| == 4 && s[3..] == "=" && IsBase64(s[0]) && IsBase64(s[1]) && IsBase64(s[2])
                  && 4096 * SextetOf(s[0]) + 64 * SextetOf(s[1]) + SextetOf(s[2])
                     == 1024 * bytes[0] as int + 4 * bytes[1] as int)
            && (|bytes| > 2 ==>
                  && |s| >= 4 && (forall i :: 0 <= i < 4 ==> IsBase64(s[i])) && s[4..] == EncodeBase64(bytes[3..])
                  && 262144 * SextetOf(s[0]) + 4096 * SextetOf(s[1]) + 64 * SextetOf(s[2]) + SextetOf(s[3])
                     == 65536 * bytes[0] as int + 256 * bytes[1] as int + bytes[2] as int)
  {
  }

  // ---------------------------------------------------------------- blanks around a text

  lemma {:induction false} StripStartLeaves(s: string) returns (before: string)
    ensures s == before + StripStart(s) && forall c :: c in before ==> IsStripped(c)
    ensures StripStart(s) != "" ==> !IsStripped(StripStart(s)[0])
  {
    before := "";
    if s != [] && IsStripped(s[0]) {
      var more := StripStartLeaves(s[1..]);
      before := [s[0]] + more;
    }
  }

  lemma {:induction false} StripEndLeaves(s: string) returns (after: string)
    ensures s == StripEnd(s) + after && forall c :: c in after ==> IsStripped(c)
    ensures StripEnd(s) != "" ==> StripEnd(s)[0] == s[0] && !IsStripped(StripEnd(s)[|StripEnd(s)| - 1])
  {
    after := "";
    if s != [] && IsStripped(s[|s| - 1]) {
      var more := StripEndLeaves(s[..|s| - 1]);
      after := more + [s[|s| - 1]];
    }
  }

  /** Stripping takes blanks away at both ends, and leaves none there. */
  lemma StripLeaves(text: string) returns (before: string, after: string)
    ensures text == before + Strip(text) + after && Blank(before + after)
    ensures var s := Strip(text); s != "" ==> !IsStripped(s[0]) && !IsStripped(s[|s| - 1])
  {
    before := StripStartLeaves(text);
    after := StripEndLeaves(StripStart(text));
  }

  // ---------------------------------------------------------------- hexadecimal

  /** Pairs of hex digits with blanks before, between and after them. */
  function Spread(gaps: seq<string>, tokens: seq<string>): string
    requires |gaps| == |tokens| + 1
  {
    if tokens == [] then gaps[0] else gaps[0] + tokens[0] + Spread(gaps[1..], tokens[1..])
  }

  predicate AllSpace(gaps: seq<string>) {
    forall i :: 0 <= i < |gaps| ==> forall c :: c in gaps[i] ==> IsSpace(c)
  }

  lemma PairIsRead(token: string, b: Byte, rest: string, bytes: seq<Byte>)
    requires Spells(token, b) && FromHex(rest) == Some(bytes)
    ensures FromHex(token + rest) == Some([b] + bytes)
  {
    assert (token + rest)[2..] == rest;
  }

  lemma {:induction false} SpreadIsRead(gaps: seq<string>, tokens: seq<string>, bytes: seq<Byte>)
    requires |gaps| == |tokens| + 1 && AllSpace(gaps) && SpellsAll(tokens, bytes)
    ensures FromHex(Spread(gaps, tokens)) == Some(bytes)
  {
    if tokens == [] {
      FromHexSkips(gaps[0], "");
      assert gaps[0] + "" == gaps[0];
    } else {
      var rest := Spread(gaps[1..], tokens[1..]);
      SpreadIsRead(gaps[1..], tokens[1..], bytes[1..]);
      assert Spells(tokens[0], bytes[0]);
      PairIsRead(tokens[0], bytes[0], rest, bytes[1..]);
      assert Spread(gaps, tokens) == gaps[0] + (tokens[0] + rest);
      FromHexSkips(gaps[0], tokens[0] + rest);
      assert bytes == [bytes[0]] + bytes[1..];
    }
  }

  lemma BlankBefore(c: char, gaps: seq<string>, tokens: seq<string>) returns (wider: seq<string>)
    requires |gaps| == |tokens| + 1 && AllSpace(gaps) && IsSpace(c)
    ensures |wider| == |gaps| && AllSpace(wider) && Spread(wider, tokens) == [c] + Spread(gaps, tokens)
  {
    var first, more := [c] + gaps[0], gaps[1..];
    wider := [first] + more;
    assert wider[1..] == more;
    forall i | 0 <= i < |wider|
      ensures forall x :: x in wider[i] ==> IsSpace(x)
    {
      assert i > 0 ==> wider[i] == gaps[i];
    }
  }

  lemma PairBefore(pair: string, b: Byte, gaps: seq<string>, tokens: seq<string>, bytes: seq<Byte>)
    requires |gaps| == |tokens| + 1 && AllSpace(gaps) && SpellsAll(tokens, bytes) && Spells(pair, b)
    ensures AllSpace([""] + gaps) && SpellsAll([pair] + tokens, [b] + bytes)
    ensures Spread([""] + gaps, [pair] + tokens) == pair + Spread(gaps, tokens)
  {
    assert ([""] + gaps)[1..] == gaps && ([pair] + tokens)[1..] == tokens;
    assert "" + pair + Spread(gaps, tokens) == pair + Spread(gaps, tokens);
  }

  lemma {:induction false} ReadIsSpread(s: string) returns (gaps: seq<string>, tokens: seq<string>)
    requires FromHex(s).Some?
    ensures |gaps| == |tokens| + 1 && AllSpace(gaps) && SpellsAll(tokens, FromHex(s).value)
    ensures Spread(gaps, tokens) == s
  {
    if s == [] {
      gaps, tokens := [""], [];
    } else if IsSpace(s[0]) {
      gaps, tokens := ReadIsSpread(s[1..]);
      gaps := BlankBefore(s[0], gaps, tokens);
      assert s == [s[0]] + s[1..];
    } else {
      gaps, tokens := ReadIsSpread(s[2..]);
      PairBefore(s[..2], 16 * HexValue(s[0]) + HexValue(s[1]), gaps, tokens, FromHex(s[2..]).value);
      gaps, tokens := [""] + gaps, [s[..2]] + tokens;
      assert s == s[..2] + s[2..];
    }
  }

  /** `bytes.fromhex` reads exactly the texts in which pairs of hex digits stand for the bytes, blanks apart. */
  ghost predicate HexText(s: string, bytes: seq<Byte>) {
    exists gaps: seq<string>, tokens: seq<string> ::
      |gaps| == |tokens| + 1 && AllSpace(gaps) && SpellsAll(tokens, bytes) && Spread(gaps, tokens) == s
  }

  lemma HexIsReadIff(s: string, bytes: seq<Byte>)
    ensures FromHex(s) == Some(bytes) <==> HexText(s, bytes)
  {
    if FromHex(s) == Some(bytes) {
      var gaps, tokens := ReadIsSpread(s);
    }
    if HexText(s, bytes) {
      var gaps: seq<string>, tokens: seq<string> :|
        |gaps| == |tokens| + 1 && AllSpace(gaps) && SpellsAll(tokens, bytes) && Spread(gaps, tokens) == s;
      SpreadIsRead(gaps, tokens, bytes);
    }
  }

  // ---------------------------------------------------------------- delimited texts

  /** Splitting cuts a text at every separator and nowhere else. */
  lemma {:induction false} JoinSplit(s: string, sep: char)
    ensures Join(SplitOn(s, sep), [sep]) == s && forall i :: 0 <= i < |SplitOn(s, sep)| ==> sep !in SplitOn(s, sep)[i]
  {
    if s != [] {
      var parts, rest := SplitOn(s, sep), SplitOn(s[1..], sep);
      JoinSplit(s[1..], sep);
      if s[0] == sep {
        assert parts[1..] == rest;
        assert s == "" + [sep] + s[1..];
      } else {
        assert parts[0] == [s[0]] + rest[0] && parts[1..] == rest[1..];
        assert s == [s[0]] + s[1..];
      }
    }
  }

  /** Sixteen tokens of two characters at one of the four separators, hex digits when they are put together. */
  ghost predicate ReadsStrictly(value: string, key: seq<Byte>) {
    exists sep: char, tokens: seq<string> :: StrictSpelling(value, key, sep, tokens)
  }

  ghost predicate StrictSpelling(value: string, key: seq<Byte>, sep: char, tokens: seq<string>) {
    && (sep == ':' || sep == '-' || sep == ',' || sep == '.')
    && |tokens| == 16 && (forall i :: 0 <= i < |tokens| ==> |tokens[i]| == 2 && sep !in tokens[i])
    && value == Join(tokens, [sep]) && HexText(Join(tokens, ""), key)
  }

  lemma {:induction false} StrictTook(value: string, separators: string) returns (sep: char)
    requires FromDelimitedHex(value, separators).Some?
    ensures sep in separators && SixteenPairs(SplitOn(value, sep))
    ensures FromDelimitedHex(value, separators) == FromHex(Join(SplitOn(value, sep), ""))
  {
    sep := separators[0];
    if !SixteenPairs(SplitOn(value, sep)) {
      sep := StrictTook(value, separators[1..]);
    }
  }

  lemma HexOnlyPairs(tokens: seq<string>, c: char)
    requires FromHex(Join(tokens, "")).Some? && !IsHex(c) && !IsSpace(c)
    ensures forall i :: 0 <= i < |tokens| ==> c !in tokens[i]
  {
    FromHexCounts(Join(tokens, ""));
    JoinChars(tokens, "", c);
  }

  lemma SpellingIsTaken(value: string, key: seq<Byte>, sep: char, tokens: seq<string>)
    requires StrictSpelling(value, key, sep, tokens)
    ensures FromDelimitedHex(value, HEX_SEPARATORS) == Some(key)
  {
    SplitJoin(tokens, sep);
    HexIsReadIff(Join(tokens, ""), key);
    forall c | c in HEX_SEPARATORS && c != sep
      ensures c !in value
    {
      HexOnlyPairs(tokens, c);
      JoinChars(tokens, [sep], c);
    }
    StrictTakes(value, sep, HEX_SEPARATORS);
  }

  lemma StrictIsReadIff(value: string, key: seq<Byte>)
    ensures FromDelimitedHex(value, HEX_SEPARATORS) == Some(key) <==> ReadsStrictly(value, key)
  {
    if FromDelimitedHex(value, HEX_SEPARATORS) == Some(key) {
      var sep := StrictTook(value, HEX_SEPARATORS);
      var tokens := SplitOn(value, sep);
      JoinSplit(value, sep);
      HexIsReadIff(Join(tokens, ""), key);
      assert forall i :: 0 <= i < |tokens| ==> tokens[i] in tokens;
      assert StrictSpelling(value, key, sep, tokens);
    }
    if ReadsStrictly(value, key) {
      var sep: char, tokens: seq<string> :| StrictSpelling(value, key, sep, tokens);
      SpellingIsTaken(value, key, sep, tokens);
    }
  }

  // ---------------------------------------------------------------- lists of numbers

  predicate Reads(parts: seq<string>, ns: seq<int>) {
    |ns| == |parts| && forall i :: 0 <= i < |parts| ==> ParseInt(parts[i]) == Some(ns[i])
  }

  lemma ReadsOneByOne(parts: seq<string>, ns: seq<int>)
    requires parts != [] && ns != []
    ensures Reads(parts, ns) <==> ParseInt(parts[0]) == Some(ns[0]) && Reads(parts[1..], ns[1..])
  {
    if ParseInt(parts[0]) == Some(ns[0]) && Reads(parts[1..], ns[1..]) {
      forall i | 0 < i < |parts|
        ensures ParseInt(parts[i]) == Some(ns[i])
      {
        assert parts[i] == parts[1..][i - 1] && ns[i] == ns[1..][i - 1];
      }
    }
  }

  lemma {:induction false} IntsAreReadIff(parts: seq<string>, ns: seq<int>)
    ensures ParseInts(parts) == Some(ns) <==> Reads(parts, ns)
  {
    if parts != [] && ns != [] {
      IntsAreReadIff(parts[1..], ns[1..]);
      ReadsOneByOne(parts, ns);
      assert ns == [ns[0]] + ns[1..];
    }
  }

  /** Sixteen numbers from -128 to 255 between commas, the negative ones with 256 added. */
  ghost predicate ReadsAsList(value: string, key: seq<Byte>) {
    exists parts: seq<string>, ns: seq<int> :: ListSpelling(value, key, parts, ns)
  }

  predicate ListSpelling(value: string, key: seq<Byte>, parts: seq<string>, ns: seq<int>) {
    && |parts| == 16 && value == Join(parts, ",") && (forall i :: 0 <= i < |parts| ==> ',' !in parts[i])
    && Reads(parts, ns) && InBytes(ns, key)
  }

  predicate InBytes(ns: seq<int>, key: seq<Byte>) {
    && |key| == |ns|
    && forall i :: 0 <= i < |ns| ==> -128 <= ns[i] <= 255 && key[i] == if ns[i] < 0 then ns[i] + 256 else ns[i]
  }

  lemma LowBytesIff(ns: seq<int>, key: seq<Byte>)
    ensures (forall n :: n in ns ==> -128 <= n <= 255) && LowBytes(ns) == key <==> InBytes(ns, key)
  {
    assert forall i :: 0 <= i < |ns| ==> ns[i] in ns;
    if InBytes(ns, key) {
      assert forall i :: 0 <= i < |ns| ==> LowBytes(ns)[i] == key[i];
    }
  }

  lemma ListIsReadIff(value: string, key: seq<Byte>)
    ensures FromSignedBytes(value) == Some(key) <==> ReadsAsList(value, key)
  {
    if FromSignedBytes(value) == Some(key) {
      ListWasRead(value, key);
    }
    if ReadsAsList(value, key) {
      var parts: seq<string>, ns: seq<int> :| ListSpelling(value, key, parts, ns);
      SplitJoin(parts, ',');
      JoinChars(parts, ",", ',');
      IntsAreReadIff(parts, ns);
      LowBytesIff(ns, key);
    }
  }

  lemma ListWasRead(value: string, key: seq<Byte>)
    requires FromSignedBytes(value) == Some(key)
    ensures ReadsAsList(value, key)
  {
    var parts := SplitOn(value, ',');
    var ns := ParseInts(parts).value;
    JoinSplit(value, ',');
    IntsAreReadIff(parts, ns);
    LowBytesIff(ns, key);
    assert ListSpelling(value, key, parts, ns);
  }

  // ---------------------------------------------------------------- numbers

  lemma {:induction false} TrimStartLeaves(s: string) returns (before: string)
    ensures s == before + TrimStart(s) && forall c :: c in before ==> IsSpace(c)
  {
    before := "";
    if s != [] && IsSpace(s[0]) {
      var more := TrimStartLeaves(s[1..]);
      before := [s[0]] + more;
    }
  }

  lemma {:induction false} TrimEndLeaves(s: string) returns (after: string)
    ensures s == TrimEnd(s) + after && forall c :: c in after ==> IsSpace(c)
  {
    after := "";
    if s != [] && IsSpace(s[|s| - 1]) {
      var more := TrimEndLeaves(s[..|s| - 1]);
      after := more + [s[|s| - 1]];
    }
  }

  lemma {:induction false} TrimStartPrepend(before: string, s: string)
    requires (forall c :: c in before ==> IsSpace(c)) && s != "" && !IsSpace(s[0])
    ensures TrimStart(before + s) == s
  {
    if before == [] {
      assert before + s == s;
    } else {
      assert before[0] in before;
      assert (before + s)[1..] == before[1..] + s;
      TrimStartPrepend(before[1..], s);
    }
  }

  lemma {:induction false} TrimEndAppend(s: string, after: string)
    requires (forall c :: c in after ==> IsSpace(c)) && s != "" && !IsSpace(s[|s| - 1])
    ensures TrimEnd(s + after) == s
  {
    if after == [] {
      assert s + after == s;
    } else {
      assert after[|after| - 1] in after;
      assert (s + after)[..|s + after| - 1] == s + after[..|after| - 1];
      TrimEndAppend(s, after[..|after| - 1]);
    }
  }

  /** What `int` takes for a number: digits, with single underscores between them if need be and at most 4300 without
      them, after a sign or none, with blanks around it. */
  ghost predicate IntText(s: string, n: int) {
    exists before: string, sign: string, body: string, after: string :: IntSpelling(s, n, before, sign, body, after)
  }

  predicate IntSpelling(s: string, n: int, before: string, sign: string, body: string, after: string) {
    && s == before + (sign + body) + after && (forall c :: c in before + after ==> IsSpace(c))
    && Signed(sign + body, n, sign, body)
  }

  lemma IntIsReadIff(s: string, n: int)
    ensures ParseInt(s) == Some(n) <==> IntText(s, n)
  {
    if ParseInt(s) == Some(n) {
      IntWasRead(s, n);
    }
    if IntText(s, n) {
      var before: string, sign: string, body: string, after: string :| IntSpelling(s, n, before, sign, body, after);
      IntIsTaken(s, n, before, sign, body, after);
    }
  }

  predicate Signed(t: string, n: int, sign: string, body: string) {
    && t == sign + body && (sign == "" || sign == "+" || sign == "-") && Grouped(body)
    && (RemoveKeepsDigits(body);
        var digits := Remove(body, '_');
        |digits| <= 4300 && n == if sign == "-" then -Value(digits) else Value(digits))
  }

  lemma SignWasRead(s: string, n: int) returns (sign: string, body: string)
    requires ParseInt(s) == Some(n)
    ensures Signed(TrimEnd(TrimStart(s)), n, sign, body)
  {
    var t := TrimEnd(TrimStart(s));
    sign := if t == "" || (t[0] != '-' && t[0] != '+') then "" else if t[0] == '-' then "-" else "+";
    body := t[|sign|..];
    assert t == sign + body;
  }

  lemma IntWasRead(s: string, n: int)
    requires ParseInt(s) == Some(n)
    ensures IntText(s, n)
  {
    var before := TrimStartLeaves(s);
    var after := TrimEndLeaves(TrimStart(s));
    var sign, body := SignWasRead(s, n);
    assert s == before + (sign + body) + after;
    assert IntSpelling(s, n, before, sign, body, after);
  }

  lemma SignedIsTaken(s: string, n: int, sign: string, body: string)
    requires Signed(TrimEnd(TrimStart(s)), n, sign, body)
    ensures ParseInt(s) == Some(n)
  {
    var t := TrimEnd(TrimStart(s));
    if sign == "" {
      assert t == body && IsDigit(t[0]);
    } else {
      assert t[0] == sign[0] && t[1..] == body;
    }
  }

  lemma SignedEnds(t: string, n: int, sign: string, body: string)
    requires Signed(t, n, sign, body)
    ensures t != "" && !IsSpace(t[0]) && !IsSpace(t[|t| - 1])
  {
  }

  lemma IntIsTaken(s: string, n: int, before: string, sign: string, body: string, after: string)
    requires IntSpelling(s, n, before, sign, body, after)
    ensures ParseInt(s) == Some(n)
  {
    var t := sign + body;
    SignedEnds(t, n, sign, body);
    assert forall c :: c in before ==> c in before + after;
    assert forall c :: c in after ==> c in before + after;
    assert s == before + (t + after);
    TrimStartPrepend(before, t + after);
    TrimEndAppend(t, after);
    SignedIsTaken(s, n, sign, body);
  }

  // ---------------------------------------------------------------- plain hexadecimal

  /** A text without the four separators. */
  function Unseparated(s: string): string {
    if s == "" then ""
    else (if s[0] == ':' || s[0] == '-' || s[0] == ',' || s[0] == '.' then "" else [s[0]]) + Unseparated(s[1..])
  }

  lemma {:induction false} RemoveAllFirst(s: string, cs: string)
    requires s != ""
    ensures RemoveAll(s, cs) == (if s[0] in cs then "" else [s[0]]) + RemoveAll(s[1..], cs)
    decreases cs
  {
    if cs != "" {
      var c, rest := cs[0], Remove(s[1..], cs[0]);
      assert s[0] in cs <==> s[0] == c || s[0] in cs[1..];
      if s[0] == c {
        assert Remove(s, c) == [] + rest == rest;
        assert RemoveAll(s, cs) == RemoveAll(rest, cs[1..]) == "" + RemoveAll(s[1..], cs);
      } else {
        RemoveAllFirst([s[0]] + rest, cs[1..]);
        assert ([s[0]] + rest)[1..] == rest;
        assert Remove(s, c) == [s[0]] + rest;
      }
    }
  }

  lemma {:induction false} UnseparatedIs(s: string)
    ensures RemoveAll(s, HEX_SEPARATORS) == Unseparated(s)
  {
    if s == "" {
      RemoveAllNone(s, HEX_SEPARATORS);
    } else {
      RemoveAllFirst(s, HEX_SEPARATORS);
      UnseparatedIs(s[1..]);
    }
  }

  ghost predicate ReadsAsHex(value: string, key: seq<Byte>) {
    |key| == 16 && HexText(Unseparated(value), key)
  }

  lemma PlainIsReadIff(value: string, key: seq<Byte>)
    ensures FromPlainHex(value) == Some(key) <==> ReadsAsHex(value, key)
  {
    UnseparatedIs(value);
    HexIsReadIff(Unseparated(value), key);
  }

  // ---------------------------------------------------------------- base64

  /** The encoding of the bytes, but for the bits of a last group that stand for no byte. */
  predicate EncodedUpToSpareBits(text: string, bytes: seq<Byte>)
    decreases |bytes|
  {
    var e := EncodeBase64(bytes);
    EncodedBits(bytes);
    if bytes == [] then text == ""
    else if |bytes| == 1 then
      && |text| == 4 && text[0] == e[0] && text[2..] == "=="
      && IsBase64(text[1]) && SextetOf(text[1]) / 16 == SextetOf(e[1]) / 16
    else if |bytes| == 2 then
      && |text| == 4 && text[..2] == e[..2] && text[3..] == "="
      && IsBase64(text[2]) && SextetOf(text[2]) / 4 == SextetOf(e[2]) / 4
    else
      |text| >= 4 && text[..4] == e[..4] && EncodedUpToSpareBits(text[4..], bytes[3..])
  }

  lemma SameSextet(c: char, d: char)
    requires IsBase64(c) && IsBase64(d)
    ensures SextetOf(c) == SextetOf(d) <==> c == d
  {
  }

  lemma {:induction false} Base64IsReadIff(text: string, bytes: seq<Byte>)
    ensures DecodeBase64(text) == Some(bytes) <==> EncodedUpToSpareBits(text, bytes)
    decreases |text| + |bytes|
  {
    if |bytes| == 0 {
    } else if |bytes| == 1 {
      OneIsReadIff(text, bytes[0]);
      assert bytes == [bytes[0]];
    } else if |bytes| == 2 {
      TwoAreReadIff(text, bytes[0], bytes[1]);
      assert bytes == [bytes[0], bytes[1]];
    } else {
      if |text| >= 4 {
        Base64IsReadIff(text[4..], bytes[3..]);
      }
      GroupIsReadIff(text, bytes);
    }
  }

  lemma OneIsReadIff(text: string, x: Byte)
    ensures DecodeBase64(text) == Some([x]) <==> EncodedUpToSpareBits(text, [x])
  {
    var e := EncodeBase64([x]);
    EncodedBits([x]);
    if |text| == 4 && IsBase64(text[0]) && IsBase64(text[1]) {
      assert text[2..] == [text[2], text[3]];
      SameSextet(text[0], e[0]);
    }
  }

  lemma TwoDecodeTo(text: string, x: Byte, y: Byte)
    ensures DecodeBase64(text) == Some([x, y])
       <==> |text| == 4 && IsBase64(text[0]) && IsBase64(text[1]) && IsBase64(text[2]) && text[3] == '='
            && SextetOf(text[0]) * 4 + SextetOf(text[1]) / 16 == x
            && SextetOf(text[1]) % 16 * 16 + SextetOf(text[2]) / 4 == y
  {
    if DecodeBase64(text) == Some([x, y]) && |text| > 4 {
      NoTwoBytes(text);
    }
  }

  lemma NoTwoBytes(text: string)
    requires |text| > 4 && DecodeBase64(text).Some?
    ensures |DecodeBase64(text).value| > 2
  {
  }

  lemma ThreeSextets(a: nat, b: nat, c: nat, d: nat, e: nat, f: nat, x: Byte, y: Byte)
    requires a < 64 && b < 64 && c < 64 && d < 64 && e < 64 && f < 64
    requires 4096 * d + 64 * e + f == 1024 * x as int + 4 * y as int
    ensures a * 4 + b / 16 == x && b % 16 * 16 + c / 4 == y <==> a == d && b == e && c / 4 == f / 4
  {
    assert b == 16 * (b / 16) + b % 16 && e == 16 * (e / 16) + e % 16 && f == 4 * (f / 4) + f % 4;
    assert d * 4 + e / 16 == x && e % 16 * 16 + f / 4 == y;
  }

  lemma TwoAreReadIff(text: string, x: Byte, y: Byte)
    ensures DecodeBase64(text) == Some([x, y]) <==> EncodedUpToSpareBits(text, [x, y])
  {
    var e := EncodeBase64([x, y]);
    EncodedBits([x, y]);
    TwoDecodeTo(text, x, y);
    if |text| == 4 && IsBase64(text[0]) && IsBase64(text[1]) && IsBase64(text[2]) {
      ThreeSextets(SextetOf(text[0]), SextetOf(text[1]), SextetOf(text[2]),
                   SextetOf(e[0]), SextetOf(e[1]), SextetOf(e[2]), x, y);
      assert text[3..] == [text[3]] && text[..2] == [text[0], text[1]] && e[..2] == [e[0], e[1]];
      SameSextet(text[0], e[0]);
      SameSextet(text[1], e[1]);
    } else if |text| == 4 && text[..2] == e[..2] {
      assert text[0] == text[..2][0] == e[0] && text[1] == text[..2][1] == e[1];
    }
  }

  /** Three bytes in four sextets, one way. */
  lemma FourSextets(a: nat, b: nat, c: nat, d: nat, x: Byte, y: Byte, z: Byte)
    requires a < 64 && b < 64 && c < 64 && d < 64
    ensures a * 4 + b / 16 == x && b % 16 * 16 + c / 4 == y && c % 4 * 64 + d == z
       <==> 262144 * a + 4096 * b + 64 * c + d == 65536 * x as int + 256 * y as int + z as int
  {
    var b1, b0, c1, c0 := b / 16, b % 16, c / 4, c % 4;
    assert b == 16 * b1 + b0 && c == 4 * c1 + c0;
    assert 262144 * a + 4096 * b + 64 * c + d == 65536 * (a * 4 + b1) + 256 * (b0 * 16 + c1) + (c0 * 64 + d);
  }

  lemma GroupDecodes(text: string)
    requires |text| >= 4 && forall i :: 0 <= i < 4 ==> IsBase64(text[i])
    ensures var a, b, c, d := SextetOf(text[0]), SextetOf(text[1]), SextetOf(text[2]), SextetOf(text[3]);
            var rest := DecodeBase64(text[4..]);
            DecodeBase64(text) == if rest.None? then None
                                  else Some([a * 4 + b / 16, b % 16 * 16 + c / 4, c % 4 * 64 + d] + rest.value)
  {
  }

  lemma FirstThree(bytes: seq<Byte>, first: seq<Byte>, rest: seq<Byte>)
    requires |bytes| > 2 && |first| == 3
    ensures first + rest == bytes
       <==> first[0] == bytes[0] && first[1] == bytes[1] && first[2] == bytes[2] && rest == bytes[3..]
  {
    assert bytes == [bytes[0], bytes[1], bytes[2]] + bytes[3..];
    if first + rest == bytes {
      assert rest == (first + rest)[3..];
    } else if first[0] == bytes[0] && first[1] == bytes[1] && first[2] == bytes[2] {
      assert first == [bytes[0], bytes[1], bytes[2]];
    }
  }

  /** The same four characters as in the encoding, or else other bytes. */
  lemma SameFour(text: string, e: string, x: Byte, y: Byte, z: Byte)
    requires |text| >= 4 && |e| >= 4 && forall i :: 0 <= i < 4 ==> IsBase64(text[i]) && IsBase64(e[i])
    requires 262144 * SextetOf(e[0]) + 4096 * SextetOf(e[1]) + 64 * SextetOf(e[2]) + SextetOf(e[3])
          == 65536 * x as int + 256 * y as int + z as int
    ensures var a, b, c, d := SextetOf(text[0]), SextetOf(text[1]), SextetOf(text[2]), SextetOf(text[3]);
            text[..4] == e[..4] <==> a * 4 + b / 16 == x && b % 16 * 16 + c / 4 == y && c % 4 * 64 + d == z
  {
    FourSextets(SextetOf(text[0]), SextetOf(text[1]), SextetOf(text[2]), SextetOf(text[3]), x, y, z);
    assert text[..4] == [text[0], text[1], text[2], text[3]] && e[..4] == [e[0], e[1], e[2], e[3]];
    SameSextet(text[0], e[0]);
    SameSextet(text[1], e[1]);
    SameSextet(text[2], e[2]);
    SameSextet(text[3], e[3]);
  }

  lemma NoGroup(text: string, bytes: seq<Byte>)
    requires |bytes| > 2 && DecodeBase64(text) == Some(bytes)
    ensures |text| >= 4 && forall i :: 0 <= i < 4 ==> IsBase64(text[i])
  {
  }

  lemma GroupDecodesTo(text: string, e: string, bytes: seq<Byte>, whole: Option<seq<Byte>>, rest: Option<seq<Byte>>)
    requires |bytes| > 2 && |text| >= 4 && |e| >= 4 && forall i :: 0 <= i < 4 ==> IsBase64(text[i]) && IsBase64(e[i])
    requires 262144 * SextetOf(e[0]) + 4096 * SextetOf(e[1]) + 64 * SextetOf(e[2]) + SextetOf(e[3])
          == 65536 * bytes[0] as int + 256 * bytes[1] as int + bytes[2] as int
    requires var a, b, c, d := SextetOf(text[0]), SextetOf(text[1]), SextetOf(text[2]), SextetOf(text[3]);
             whole == if rest.None? then None
                      else Some([a * 4 + b / 16, b % 16 * 16 + c / 4, c % 4 * 64 + d] + rest.value)
    ensures whole == Some(bytes) <==> text[..4] == e[..4] && rest == Some(bytes[3..])
  {
    var a, b, c, d := SextetOf(text[0]), SextetOf(text[1]), SextetOf(text[2]), SextetOf(text[3]);
    SameFour(text, e, bytes[0], bytes[1], bytes[2]);
    if rest.Some? {
      FirstThree(bytes, [a * 4 + b / 16, b % 16 * 16 + c / 4, c % 4 * 64 + d], rest.value);
    }
  }

  lemma GroupUpToSpareBits(text: string, bytes: seq<Byte>)
    requires |bytes| > 2
    ensures EncodedUpToSpareBits(text, bytes)
       <==> |text| >= 4 && text[..4] == EncodeBase64(bytes)[..4] && EncodedUpToSpareBits(text[4..], bytes[3..])
  {
  }

  lemma SameFourCharacters(text: string, e: string)
    requires |e| >= 4 && |text| >= 4 && text[..4] == e[..4] && forall i :: 0 <= i < 4 ==> IsBase64(e[i])
    ensures forall i :: 0 <= i < 4 ==> IsBase64(text[i])
  {
    assert forall i :: 0 <= i < 4 ==> text[..4][i] == e[..4][i];
  }

  lemma GroupIsReadIff(text: string, bytes: seq<Byte>)
    requires |bytes| > 2
    requires |text| >= 4 ==>
               (DecodeBase64(text[4..]) == Some(bytes[3..]) <==> EncodedUpToSpareBits(text[4..], bytes[3..]))
    ensures DecodeBase64(text) == Some(bytes) <==> EncodedUpToSpareBits(text, bytes)
  {
    var e := EncodeBase64(bytes);
    EncodedBits(bytes);
    GroupUpToSpareBits(text, bytes);
    if |text| >= 4 && forall i :: 0 <= i < 4 ==> IsBase64(text[i]) {
      GroupDecodes(text);
      GroupDecodesTo(text, e, bytes, DecodeBase64(text), DecodeBase64(text[4..]));
    } else {
      if DecodeBase64(text) == Some(bytes) {
        NoGroup(text, bytes);
      }
      if |text| >= 4 && text[..4] == e[..4] {
        SameFourCharacters(text, e);
      }
    }
  }

  ghost predicate ReadsAsBase64(value: string, key: seq<Byte>) {
    |key| == 16 && EncodedUpToSpareBits(value, key)
  }

  lemma EncodedIsReadIff(value: string, key: seq<Byte>)
    ensures FromBase64(value) == Some(key) <==> ReadsAsBase64(value, key)
  {
    Base64IsReadIff(value, key);
  }

  // ---------------------------------------------------------------- the whole parser

  /** The reading that counts is the first of the four that gives a key. */
  ghost predicate FirstReading(value: string, key: seq<Byte>) {
    || ReadsStrictly(value, key)
    || ((forall k: seq<Byte> :: !ReadsStrictly(value, k))
        && (|| ReadsAsList(value, key)
            || ((forall k: seq<Byte> :: !ReadsAsList(value, k))
                && (|| ReadsAsHex(value, key)
                    || ((forall k: seq<Byte> :: !ReadsAsHex(value, k)) && ReadsAsBase64(value, key))))))
  }

  lemma NoneIff(value: string)
    ensures FromDelimitedHex(value, HEX_SEPARATORS).None? <==> forall k: seq<Byte> :: !ReadsStrictly(value, k)
    ensures FromSignedBytes(value).None? <==> forall k: seq<Byte> :: !ReadsAsList(value, k)
    ensures FromPlainHex(value).None? <==> forall k: seq<Byte> :: !ReadsAsHex(value, k)
    ensures FromBase64(value).None? <==> forall k: seq<Byte> :: !ReadsAsBase64(value, k)
  {
    forall k: seq<Byte>
      ensures FromDelimitedHex(value, HEX_SEPARATORS) == Some(k) <==> ReadsStrictly(value, k)
      ensures FromSignedBytes(value) == Some(k) <==> ReadsAsList(value, k)
      ensures FromPlainHex(value) == Some(k) <==> ReadsAsHex(value, k)
      ensures FromBase64(value) == Some(k) <==> ReadsAsBase64(value, k)
    {
      StrictIsReadIff(value, k);
      ListIsReadIff(value, k);
      PlainIsReadIff(value, k);
      EncodedIsReadIff(value, k);
    }
  }

  /** A text is read as a key exactly when, stripped of blanks, it has a reading, and the first it has gives that key;
      a text of blanks is refused as empty, any other as not recognised, with its length. */
  lemma KeyIsReadIff(text: string, key: seq<Byte>)
    ensures var value := Strip(text);
            && (ParseAesKey(text) == Ok(key) <==> value != "" && FirstReading(value, key))
            && (ParseAesKey(text) == Err(Empty) <==> value == "")
            && (ParseAesKey(text) == Err(Unrecognised(|value|))
                <==> value != "" && forall k: seq<Byte> :: !FirstReading(value, k))
            && (ParseAesKey(text).Err? ==> ParseAesKey(text).error in {Empty, Unrecognised(|value|)})
  {
    var value := Strip(text);
    NoneIff(value);
    forall k: seq<Byte>
      ensures value != "" ==> (ParseAesKey(text) == Ok(k) <==> FirstReading(value, k))
    {
      StrictIsReadIff(value, k);
      ListIsReadIff(value, k);
      PlainIsReadIff(value, k);
      EncodedIsReadIff(value, k);
    }
  }

  /** A text is stripped to nothing exactly when it is all blanks. */
  lemma AllBlank(text: string)
    ensures Strip(text) == "" <==> Blank(text)
  {
    var before, after := StripLeaves(text);
    assert forall c :: c in before ==> c in before + after;
    assert forall c :: c in after ==> c in before + after;
    if Strip(text) != "" {
      assert text[|before|] == Strip(text)[0];
    }
  }
}
