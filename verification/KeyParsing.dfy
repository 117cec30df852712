/** Reading a lock's AES key out of the text the cloud reports, whichever of four encodings it is in. */
module KeyParsing {
  import opened Bytes
  import opened KeyText

  const KEY_LENGTH := 16

  const HEX_SEPARATORS := ":-,."

  datatype KeyError = Empty | Unrecognised(length: nat)

  // ---------------------------------------------------------------- the four decoders

  /** Sixteen two-character tokens delimited by one of the separators, tried in order. */
  function FromDelimitedHex(value: string, separators: string): Option<seq<Byte>> {
    if separators == [] then None
    else
      var tokens := SplitOn(value, separators[0]);
      if SixteenPairs(tokens) then FromHex(Join(tokens, "")) else FromDelimitedHex(value, separators[1..])
  }

  predicate SixteenPairs(tokens: seq<string>) {
    |tokens| == KEY_LENGTH && (forall t :: t in tokens ==> |t| == 2) && FromHex(Join(tokens, "")).Some?
  }

  function ParseInts(parts: seq<string>): (ns: Option<seq<int>>)
    ensures ns.Some? ==> |ns.value| == |parts|
  {
    if parts == [] then Some([])
    else
      match (ParseInt(parts[0]), ParseInts(parts[1..]))
      case (Some(n), Some(rest)) => Some([n] + rest)
      case _ => None
  }

  /** The low eight bits, Python's `n & 0xFF`. */
  function LowByte(n: int): Byte {
    n % 256
  }

  /** A comma-delimited list of sixteen numbers between -128 and 255. */
  function FromSignedBytes(value: string): Option<seq<Byte>> {
    if ',' !in value then None
    else
      match ParseInts(SplitOn(value, ','))
      case None => None
      case Some(ns) =>
        if |ns| != KEY_LENGTH || exists n :: n in ns && !(-128 <= n <= 255) then None else Some(LowBytes(ns))
  }

  function LowBytes(ns: seq<int>): (bytes: seq<Byte>)
    ensures |bytes| == |ns| && forall i :: 0 <= i < |ns| ==> bytes[i] == LowByte(ns[i])
  {
    seq(|ns|, i requires 0 <= i < |ns| => LowByte(ns[i]))
  }

  function SixteenBytes(key: Option<seq<Byte>>): Option<seq<Byte>> {
    if key.Some? && |key.value| == KEY_LENGTH then key else None
  }

  function FromPlainHex(value: string): Option<seq<Byte>> {
    SixteenBytes(FromHex(RemoveAll(value, HEX_SEPARATORS)))
  }

  function FromBase64(value: string): Option<seq<Byte>> {
    SixteenBytes(DecodeBase64(value))
  }

  function ParseAesKey(text: string): Result<seq<Byte>, KeyError> {
    var value := Strip(text);
    if value == "" then Err(Empty)
    else
      var delimited, list := FromDelimitedHex(value, HEX_SEPARATORS), FromSignedBytes(value);
      if delimited.Some? then Ok(delimited.value)
      else if list.Some? then Ok(list.value)
      else if FromPlainHex(value).Some? then Ok(FromPlainHex(value).value)
      else if FromBase64(value).Some? then Ok(FromBase64(value).value)
      else Err(Unrecognised(|value|))
  }

  // ---------------------------------------------------------------- the strict reading

  lemma {:induction false} JoinedLength(tokens: seq<string>)
    requires forall t :: t in tokens ==> |t| == 2
    ensures |Join(tokens, "")| == 2 * |tokens|
  {
    if |tokens| > 0 {
      assert tokens[0] in tokens;
      JoinedLength(tokens[1..]);
    }
  }

  /** Splitting loses the separators and nothing else. */
  lemma {:induction false} SplitChars(s: string, sep: char, c: char)
    requires c != sep
    ensures c in s <==> exists i :: 0 <= i < |SplitOn(s, sep)| && c in SplitOn(s, sep)[i]
  {
    if s != [] {
      var parts, rest := SplitOn(s, sep), SplitOn(s[1..], sep);
      SplitChars(s[1..], sep, c);
      assert s == [s[0]] + s[1..];
      if c in s[1..] {
        var i :| 0 <= i < |rest| && c in rest[i];
        assert c in parts[if s[0] == sep then i + 1 else i];
      } else if c == s[0] {
        assert c in parts[0];
      }
      if i :| 0 <= i < |parts| && c in parts[i] {
        if s[0] == sep {
          assert i > 0 && c in rest[i - 1];
        } else if i > 0 {
          assert c in rest[i];
        } else {
          assert c == s[0] || c in rest[0];
        }
      }
    }
  }

  lemma SplitJoinedChars(s: string, sep: char, c: char)
    requires c != sep
    ensures c in s <==> c in Join(SplitOn(s, sep), "")
  {
    SplitChars(s, sep, c);
    JoinChars(SplitOn(s, sep), "", c);
  }

  /** What the strict reading accepts at a separator has 16 bytes less one for every two blanks in the text. */
  lemma StrictLength(value: string, sep: char)
    requires !IsSpace(sep)
    requires SixteenPairs(SplitOn(value, sep))
    ensures |FromHex(Join(SplitOn(value, sep), "")).value| == KEY_LENGTH <==> forall c :: c in value ==> !IsSpace(c)
  {
    var tokens := SplitOn(value, sep);
    var joined := Join(tokens, "");
    JoinedLength(tokens);
    FromHexCounts(joined);
    forall c | IsSpace(c)
      ensures c in value <==> c in joined
    {
      SplitJoinedChars(value, sep, c);
    }
  }

  lemma {:induction false} DelimitedLength(value: string, separators: string)
    requires FromDelimitedHex(value, separators).Some? && forall c :: c in separators ==> !IsSpace(c)
    ensures |FromDelimitedHex(value, separators).value| == KEY_LENGTH <==> forall c :: c in value ==> !IsSpace(c)
  {
    var tokens := SplitOn(value, separators[0]);
    assert separators[0] in separators;
    if SixteenPairs(tokens) {
      StrictLength(value, separators[0]);
    } else {
      DelimitedLength(value, separators[1..]);
    }
  }

  /** A key is sixteen bytes exactly when the strict reading did not take a text with blanks inside. */
  lemma KeyIsSixteenBytesIff(text: string)
    requires ParseAesKey(text).Ok?
    ensures |ParseAesKey(text).value| == KEY_LENGTH
       <==> !(FromDelimitedHex(Strip(text), HEX_SEPARATORS).Some? && exists c :: c in Strip(text) && IsSpace(c))
  {
    if FromDelimitedHex(Strip(text), HEX_SEPARATORS).Some? {
      DelimitedLength(Strip(text), HEX_SEPARATORS);
    }
  }

  // ---------------------------------------------------------------- hexadecimal round trips

  /** A text with anything but hex digits and blanks in its tokens is not read strictly. */
  lemma StrictNeedsHex(value: string, sep: char, alien: char)
    requires alien in value && alien != sep && !IsHex(alien) && !IsSpace(alien)
    ensures !SixteenPairs(SplitOn(value, sep))
  {
    var joined := Join(SplitOn(value, sep), "");
    SplitJoinedChars(value, sep, alien);
    if FromHex(joined).Some? {
      FromHexCounts(joined);
    }
  }

  lemma {:induction false} StrictNeedsSeparator(value: string, separators: string)
    requires forall c :: c in separators ==> c !in value
    ensures FromDelimitedHex(value, separators) == None
  {
    if separators != [] {
      assert separators[0] in separators;
      SplitNone(value, separators[0]);
      StrictNeedsSeparator(value, separators[1..]);
    }
  }

  /** The strict reading takes sixteen pairs at their separator, whichever are tried before it. */
  lemma {:induction false} StrictTakes(value: string, sep: char, separators: string)
    requires SixteenPairs(SplitOn(value, sep)) && sep in separators
    requires forall c :: c in separators && c != sep ==> c !in value
    ensures FromDelimitedHex(value, separators) == FromHex(Join(SplitOn(value, sep), ""))
  {
    if separators[0] != sep {
      assert separators[0] in separators;
      SplitNone(value, separators[0]);
      assert separators == [separators[0]] + separators[1..];
      StrictTakes(value, sep, separators[1..]);
    }
  }

  lemma StrictReads(tokens: seq<string>, key: seq<Byte>, sep: char)
    requires SpellsAll(tokens, key) && |key| == KEY_LENGTH && sep in HEX_SEPARATORS
    ensures FromDelimitedHex(Join(tokens, [sep]), HEX_SEPARATORS) == Some(key)
  {
    assert forall i :: 0 <= i < |tokens| ==> Spells(tokens[i], key[i]);
    SplitJoin(tokens, sep);
    FromHexReads(tokens, key, "");
    forall c | c in HEX_SEPARATORS && c != sep
      ensures c !in Join(tokens, [sep])
    {
      JoinChars(tokens, [sep], c);
    }
    StrictTakes(Join(tokens, [sep]), sep, HEX_SEPARATORS);
  }

  predicate Blank(s: string) {
    forall c :: c in s ==> IsStripped(c)
  }

  lemma JoinedEnds(tokens: seq<string>, key: seq<Byte>, sep: string)
    requires SpellsAll(tokens, key) && key != []
    ensures var s := Join(tokens, sep); s != [] && IsHex(s[0]) && IsHex(s[|s| - 1])
  {
    assert Spells(tokens[0], key[0]);
    if |tokens| > 1 {
      JoinedEnds(tokens[1..], key[1..], sep);
    }
  }

  /** Every key spelt in hex pairs, in either case and with blanks around it, delimited by any of the
      separators, is read back. */
  lemma DelimitedHexRoundTrip(tokens: seq<string>, key: seq<Byte>, sep: char, before: string, after: string)
    requires SpellsAll(tokens, key) && |key| == KEY_LENGTH && sep in HEX_SEPARATORS && Blank(before + after)
    ensures ParseAesKey(before + Join(tokens, [sep]) + after) == Ok(key)
  {
    JoinedEnds(tokens, key, [sep]);
    StripSurrounded(before, Join(tokens, [sep]), after);
    StrictReads(tokens, key, sep);
  }

  predicate Undelimited(value: string) {
    forall c :: c in HEX_SEPARATORS ==> c !in value
  }

  /** A text without separators is read as plain hex or else as base64. */
  lemma UndelimitedReading(text: string, value: string)
    requires Strip(text) == value && value != "" && Undelimited(value)
    ensures ParseAesKey(text) ==
              if SixteenBytes(FromHex(value)).Some? then Ok(FromHex(value).value)
              else if FromBase64(value).Some? then Ok(FromBase64(value).value)
              else Err(Unrecognised(|value|))
  {
    StrictNeedsSeparator(value, HEX_SEPARATORS);
    assert ',' in HEX_SEPARATORS;
    RemoveAllNone(value, HEX_SEPARATORS);
  }

  lemma JoinedIsUndelimited(tokens: seq<string>, key: seq<Byte>, sep: string)
    requires SpellsAll(tokens, key) && forall c :: c in sep ==> IsSpace(c)
    ensures Undelimited(Join(tokens, sep))
  {
    forall c | c in HEX_SEPARATORS
      ensures c !in Join(tokens, sep)
    {
      assert forall i :: 0 <= i < |tokens| ==> Spells(tokens[i], key[i]);
      JoinChars(tokens, sep, c);
    }
  }

  /** So is every key whose hex pairs are run together or set apart by blanks. */
  lemma PlainHexRoundTrip(tokens: seq<string>, key: seq<Byte>, sep: string, before: string, after: string)
    requires SpellsAll(tokens, key) && |key| == KEY_LENGTH && Blank(before + after)
    requires forall c :: c in sep ==> IsSpace(c)
    ensures ParseAesKey(before + Join(tokens, sep) + after) == Ok(key)
  {
    var text := Join(tokens, sep);
    JoinedEnds(tokens, key, sep);
    StripSurrounded(before, text, after);
    JoinedIsUndelimited(tokens, key, sep);
    UndelimitedReading(before + text + after, text);
    FromHexReads(tokens, key, sep);
  }

  // ---------------------------------------------------------------- base64

  lemma EncodedIsUndelimited(key: seq<Byte>)
    requires |key| == KEY_LENGTH
    ensures var text := EncodeBase64(key);
            && text != "" && Undelimited(text) && !IsStripped(text[0]) && !IsStripped(text[|text| - 1])
            && FromHex(text).None?
  {
    var text := EncodeBase64(key);
    EncodedChars(key);
    assert text[0] in text && text[|text| - 1] in text;
    if FromHex(text).Some? {
      FromHexCounts(text);
    }
  }

  /** Every key encoded in base64 is read back. */
  lemma Base64RoundTrip(key: seq<Byte>, before: string, after: string)
    requires |key| == KEY_LENGTH && Blank(before + after)
    ensures ParseAesKey(before + EncodeBase64(key) + after) == Ok(key)
  {
    var text := EncodeBase64(key);
    EncodedIsUndelimited(key);
    StripSurrounded(before, text, after);
    UndelimitedReading(before + text + after, text);
    DecodeEncodeBase64(key);
  }

  // ---------------------------------------------------------------- decimal lists

  /** A list of the key's bytes as decimal numbers, those from 128 up with or without 256 taken off. */
  predicate Lists(numbers: seq<int>, key: seq<Byte>) {
    && |numbers| == |key| == KEY_LENGTH
    && forall i :: 0 <= i < |key| ==> numbers[i] == key[i] || (key[i] >= 128 && numbers[i] + 256 == key[i])
  }

  function Decimals(numbers: seq<int>): (tokens: seq<string>)
    ensures |tokens| == |numbers| && forall i :: 0 <= i < |numbers| ==> tokens[i] == DecimalInt(numbers[i])
  {
    seq(|numbers|, i requires 0 <= i < |numbers| => DecimalInt(numbers[i]))
  }

  lemma {:induction false} ParseDecimals(numbers: seq<int>)
    requires forall i :: 0 <= i < |numbers| ==> -1000 < numbers[i] < 1000
    ensures ParseInts(Decimals(numbers)) == Some(numbers)
  {
    if numbers != [] {
      ParseDecimal(numbers[0]);
      ParseDecimals(numbers[1..]);
      assert Decimals(numbers)[1..] == Decimals(numbers[1..]);
      ParseNext(Decimals(numbers), numbers);
    }
  }

  lemma ParseNext(tokens: seq<string>, numbers: seq<int>)
    requires tokens != [] && numbers != []
    requires ParseInt(tokens[0]) == Some(numbers[0]) && ParseInts(tokens[1..]) == Some(numbers[1..])
    ensures ParseInts(tokens) == Some(numbers)
  {
    assert numbers == [numbers[0]] + numbers[1..];
  }

  lemma DecimalChars(n: int)
    ensures forall c :: c in DecimalInt(n) ==> IsDigit(c) || c == '-'
    ensures var s := DecimalInt(n); s != [] && !IsStripped(s[0]) && IsDigit(s[|s| - 1])
    ensures -1000 < n < 1000 ==> (|DecimalInt(n)| == 2 && '-' !in DecimalInt(n) <==> 10 <= n < 100)
  {
    var digits := Decimal(if n < 0 then -n else n);
    ValueOfDecimal(if n < 0 then -n else n);
    assert n < 0 ==> DecimalInt(n)[|digits|] == digits[|digits| - 1];
    assert n < 0 ==> DecimalInt(n)[0] == '-';
  }

  lemma SplitDecimals(numbers: seq<int>)
    requires |numbers| > 1
    ensures SplitOn(Join(Decimals(numbers), ","), ',') == Decimals(numbers) && ',' in Join(Decimals(numbers), ",")
  {
    var tokens := Decimals(numbers);
    forall i | 0 <= i < |tokens|
      ensures ',' !in tokens[i]
    {
      DecimalChars(numbers[i]);
    }
    SplitJoin(tokens, ',');
    JoinChars(tokens, ",", ',');
  }

  lemma ListIsRead(numbers: seq<int>, key: seq<Byte>)
    requires Lists(numbers, key)
    ensures FromSignedBytes(Join(Decimals(numbers), ",")) == Some(key)
  {
    SplitDecimals(numbers);
    ParseDecimals(numbers);
    LowBytesOfList(numbers, key);
    NumbersAreRead(Join(Decimals(numbers), ","), Decimals(numbers), numbers);
  }

  lemma NumbersAreRead(text: string, tokens: seq<string>, numbers: seq<int>)
    requires ',' in text && SplitOn(text, ',') == tokens && ParseInts(tokens) == Some(numbers)
    requires |numbers| == KEY_LENGTH && forall n :: n in numbers ==> -128 <= n <= 255
    ensures FromSignedBytes(text) == Some(LowBytes(numbers))
  {
  }

  lemma LowBytesOfList(numbers: seq<int>, key: seq<Byte>)
    requires Lists(numbers, key)
    ensures LowBytes(numbers) == key && forall n :: n in numbers ==> -128 <= n <= 255
  {
    assert forall i :: 0 <= i < |key| ==> LowBytes(numbers)[i] == key[i];
  }

  lemma {:induction false} DecimalsEnds(numbers: seq<int>)
    requires numbers != []
    ensures var s := Join(Decimals(numbers), ","); s != [] && !IsStripped(s[0]) && !IsStripped(s[|s| - 1])
  {
    DecimalEnds(numbers[0]);
    assert Decimals(numbers)[0] == DecimalInt(numbers[0]);
    if |numbers| > 1 {
      DecimalsEnds(numbers[1..]);
      assert Decimals(numbers)[1..] == Decimals(numbers[1..]);
      JoinLast(Decimals(numbers), ",");
    }
  }

  lemma DecimalEnds(n: int)
    ensures var s := DecimalInt(n); s != [] && !IsStripped(s[0]) && !IsStripped(s[|s| - 1])
  {
    DecimalChars(n);
  }

  lemma JoinLast(tokens: seq<string>, sep: string)
    requires |tokens| > 1 && tokens[0] != "" && Join(tokens[1..], sep) != ""
    ensures var s, rest := Join(tokens, sep), Join(tokens[1..], sep);
            s != "" && s[0] == tokens[0][0] && s[|s| - 1] == rest[|rest| - 1]
  {
  }

  lemma TokensAreNotPairs(numbers: seq<int>, j: nat)
    requires j < |numbers| && -1000 < numbers[j] < 1000 && !(10 <= numbers[j] < 100)
    ensures !SixteenPairs(Decimals(numbers))
  {
    var tokens := Decimals(numbers);
    DecimalChars(numbers[j]);
    assert tokens[j] in tokens;
    if |tokens[j]| == 2 {
      JoinChars(tokens, "", '-');
      if FromHex(Join(tokens, "")).Some? {
        FromHexCounts(Join(tokens, ""));
      }
    }
  }

  /** A list with a token that is not two digits is not read strictly. */
  lemma ListIsNotStrict(numbers: seq<int>, j: nat)
    requires |numbers| == KEY_LENGTH && j < |numbers| && -1000 < numbers[j] < 1000 && !(10 <= numbers[j] < 100)
    ensures FromDelimitedHex(Join(Decimals(numbers), ","), HEX_SEPARATORS) == None
  {
    var text := Join(Decimals(numbers), ",");
    SplitDecimals(numbers);
    TokensAreNotPairs(numbers, j);
    forall c | c in HEX_SEPARATORS
      ensures !SixteenPairs(SplitOn(text, c))
    {
      if c != ',' {
        StrictNeedsHex(text, c, ',');
      }
    }
    NoneIsStrict(text, HEX_SEPARATORS);
  }

  lemma {:induction false} NoneIsStrict(value: string, separators: string)
    requires forall c :: c in separators ==> !SixteenPairs(SplitOn(value, c))
    ensures FromDelimitedHex(value, separators) == None
  {
    if separators != [] {
      assert separators[0] in separators;
      NoneIsStrict(value, separators[1..]);
    }
  }

  /** The key that sixteen two-digit decimal numbers spell when they are read as hex. */
  function ReadAsHex(numbers: seq<int>): (key: seq<Byte>)
    requires forall i :: 0 <= i < |numbers| ==> 10 <= numbers[i] < 100
    ensures |key| == |numbers| && forall i :: 0 <= i < |key| ==> key[i] == numbers[i] / 10 * 16 + numbers[i] % 10
  {
    seq(|numbers|, i requires 0 <= i < |numbers| => numbers[i] / 10 * 16 + numbers[i] % 10)
  }

  lemma TwoDigitsSpell(n: nat)
    requires 10 <= n < 100
    ensures Spells(DecimalInt(n), n / 10 * 16 + n % 10)
  {
    assert Decimal(n / 10) == [('0' as int + n / 10) as char];
  }

  /** A decimal list is read back unless all its numbers have two digits: then it is taken for hex. */
  lemma DecimalListRoundTripIff(numbers: seq<int>, key: seq<Byte>)
    requires Lists(numbers, key)
    ensures var text := Join(Decimals(numbers), ",");
            if forall i :: 0 <= i < |numbers| ==> 10 <= numbers[i] < 100
            then ParseAesKey(text) == Ok(ReadAsHex(numbers)) && ReadAsHex(numbers) != key
            else ParseAesKey(text) == Ok(key)
  {
    var text := Join(Decimals(numbers), ",");
    if j :| 0 <= j < |numbers| && !(10 <= numbers[j] < 100) {
      DecimalsEnds(numbers);
      StripSurrounded("", text, "");
      assert "" + text + "" == text;
      ListIsNotStrict(numbers, j);
      ListIsRead(numbers, key);
    } else {
      forall i | 0 <= i < |numbers|
        ensures Spells(Decimals(numbers)[i], ReadAsHex(numbers)[i])
      {
        TwoDigitsSpell(numbers[i]);
      }
      DelimitedHexRoundTrip(Decimals(numbers), ReadAsHex(numbers), ',', "", "");
      assert "" + text + "" == text;
      assert ReadAsHex(numbers)[0] != numbers[0] && key[0] == numbers[0];
    }
  }

  // ---------------------------------------------------------------- a key of fifteen bytes

  /** Against the documentation, not every key has sixteen bytes: a pair of blanks among the tokens counts as a
      token and is then skipped. */
  lemma BlankPairGivesFifteenBytes(tokens: seq<string>, key: seq<Byte>)
    requires SpellsAll(tokens, key) && |key| == 15
    ensures ParseAesKey(Join([tokens[0], "  "] + tokens[1..], ",")) == Ok(key)
  {
    var padded := [tokens[0], "  "] + tokens[1..];
    var text := Join(padded, ",");
    assert Spells(tokens[0], key[0]);
    JoinedEnds(tokens[1..], key[1..], ",");
    JoinPadded(tokens, ",");
    StripSurrounded("", text, "");
    assert "" + text + "" == text;
    PaddedIsStrict(tokens, key);
  }

  lemma JoinPadded(tokens: seq<string>, sep: string)
    requires |tokens| > 1
    ensures Join([tokens[0], "  "] + tokens[1..], sep) == tokens[0] + sep + ("  " + sep + Join(tokens[1..], sep))
  {
    var padded := [tokens[0], "  "] + tokens[1..];
    assert padded[1..] == ["  "] + tokens[1..];
    assert padded[1..][1..] == tokens[1..];
  }

  lemma PaddedIsStrict(tokens: seq<string>, key: seq<Byte>)
    requires SpellsAll(tokens, key) && |key| == 15
    ensures FromDelimitedHex(Join([tokens[0], "  "] + tokens[1..], ","), HEX_SEPARATORS) == Some(key)
  {
    var padded := [tokens[0], "  "] + tokens[1..];
    assert forall i :: 0 <= i < |tokens| ==> Spells(tokens[i], key[i]);
    assert forall i :: 0 <= i < |padded| ==> |padded[i]| == 2;
    SplitJoin(padded, ',');
    PaddedReads(tokens, key);
    PaddedChars(tokens, key);
    StrictTakes(Join(padded, ","), ',', HEX_SEPARATORS);
  }

  lemma PaddedChars(tokens: seq<string>, key: seq<Byte>)
    requires SpellsAll(tokens, key) && |key| == 15
    ensures forall c :: c in HEX_SEPARATORS && c != ',' ==> c !in Join([tokens[0], "  "] + tokens[1..], ",")
  {
    var padded := [tokens[0], "  "] + tokens[1..];
    forall i, c | 0 <= i < |padded| && c in HEX_SEPARATORS
      ensures c !in padded[i]
    {
      assert i != 1 ==> Spells(padded[i], key[if i == 0 then 0 else i - 1]);
    }
    forall c | c in HEX_SEPARATORS && c != ','
      ensures c !in Join(padded, ",")
    {
      JoinChars(padded, ",", c);
    }
  }

  lemma PaddedReads(tokens: seq<string>, key: seq<Byte>)
    requires SpellsAll(tokens, key) && |key| > 1
    ensures FromHex(Join([tokens[0], "  "] + tokens[1..], "")) == Some(key)
  {
    JoinPadded(tokens, "");
    var rest := Join(tokens[1..], "");
    FromHexReads(tokens[1..], key[1..], "");
    FromHexSkips("  ", rest);
    assert Spells(tokens[0], key[0]);
    var text := Join([tokens[0], "  "] + tokens[1..], "");
    assert text[2..] == "  " + rest;
    assert key == [key[0]] + key[1..];
  }
}
