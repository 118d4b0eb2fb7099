/**
 The scan that refuses unpaired UTF-16 surrogate escapes before JSON text is decoded
 (mission/internal/mission/correlation_chain.go, `validateExactJSONUnicode`), against the
 strings of section 7 of RFC 8259, rendered token by token.
 */
module SurrogateScanner {
  import opened Words
  import opened Wrappers

  // ----- the scan -----

  predicate IsHex(b: byte) {
    0x30 <= b <= 0x39 || 0x41 <= b <= 0x46 || 0x61 <= b <= 0x66
  }

  function HexValue(b: byte): (n: nat)
    requires IsHex(b)
    ensures n < 16
  {
    if b <= 0x39 then (b - 0x30) as nat else if b <= 0x46 then (b - 0x37) as nat else (b - 0x57) as nat
  }

  /** The value of a four-digit escape that begins the text. */
  function UnicodeEscape(s: seq<byte>): Option<nat> {
    if |s| >= 6 && s[0] == BACKSLASH && s[1] == 'u' as byte
       && IsHex(s[2]) && IsHex(s[3]) && IsHex(s[4]) && IsHex(s[5])
    then Some(((HexValue(s[2]) * 16 + HexValue(s[3])) * 16 + HexValue(s[4])) * 16 + HexValue(s[5]))
    else None
  }

  predicate IsHigh(code: nat) {
    0xD800 <= code <= 0xDBFF
  }

  predicate IsLow(code: nat) {
    0xDC00 <= code <= 0xDFFF
  }

  predicate LowEscape(s: seq<byte>) {
    UnicodeEscape(s).Some? && IsLow(UnicodeEscape(s).value)
  }

  /** What the loop decides about the rest of the text; a malformed escape is left to the decoder. */
  predicate Scan(s: seq<byte>, inString: bool)
    decreases |s|
  {
    if s == [] then true
    else if s[0] == QUOTE then Scan(s[1..], !inString)
    else if s[0] != BACKSLASH || !inString || |s| == 1 then Scan(s[1..], inString)
    else if s[1] != 'u' as byte then Scan(s[2..], inString)
    else
      var code := UnicodeEscape(s);
      if code.None? then true
      else if IsHigh(code.value) then LowEscape(s[6..]) && Scan(s[12..], inString)
      else !IsLow(code.value) && Scan(s[6..], inString)
  }

  lemma SliceAdds(body: seq<byte>, i: nat, n: nat)
    requires i + n <= |body|
    ensures body[i..][n..] == body[i + n..]
  {
  }

  method EscapeAt(body: seq<byte>, index: nat) returns (code: Option<nat>)
    ensures index <= |body| ==> code == UnicodeEscape(body[index..])
  {
    if index + 6 > |body| || body[index] != BACKSLASH || body[index + 1] != 'u' as byte { return None; }
    var value := 0;
    var k := 2;
    while k < 6
      invariant 2 <= k <= 6
      invariant forall j | index + 2 <= j < index + k :: IsHex(body[j])
      invariant k == 2 ==> value == 0
      invariant k == 3 ==> value == HexValue(body[index + 2])
      invariant k == 4 ==> value == HexValue(body[index + 2]) * 16 + HexValue(body[index + 3])
      invariant k == 5 ==>
        value == (HexValue(body[index + 2]) * 16 + HexValue(body[index + 3])) * 16 + HexValue(body[index + 4])
      invariant k == 6 ==> Some(value) == UnicodeEscape(body[index..])
    {
      if !IsHex(body[index + k]) {
        assert body[index..][k] == body[index + k];
        return None;
      }
      value := value * 16 + HexValue(body[index + k]);
      k := k + 1;
    }
    code := Some(value);
  }

  /** `utf8Valid` is what Go's `utf8.Valid` says of the body. */
  method ValidateExactJsonUnicode(body: seq<byte>, utf8Valid: bool) returns (ok: bool)
    ensures ok == (utf8Valid && Scan(body, false))
  {
    if !utf8Valid { return false; }
    var inString := false;
    var index := 0;
    assert body[0..] == body;
    while index < |body|
      invariant index <= |body|
      invariant Scan(body, false) == Scan(body[index..], inString)
    {
      SliceAdds(body, index, 1);
      if body[index] == QUOTE {
        inString := !inString;
      } else if body[index] == BACKSLASH && inString && index + 1 < |body| {
        if body[index + 1] != 'u' as byte {
          SliceAdds(body, index, 2);
          index := index + 1;
        } else {
          var code := EscapeAt(body, index);
          if code.None? { return true; }
          SliceAdds(body, index, 6);
          if IsHigh(code.value) {
            var low := EscapeAt(body, index + 6);
            if low.None? || !IsLow(low.value) { return false; }
            SliceAdds(body, index, 12);
            index := index + 11;
          } else if IsLow(code.value) {
            return false;
          } else {
            index := index + 5;
          }
        }
      }
      index := index + 1;
    }
    return true;
  }

  // ----- JSON text, token by token -----

  /** One character of a string as written: itself, a two-character escape, or a code unit in hex. */
  datatype Unit = Literal(b: byte) | Short(letter: byte) | Code(digits: seq<byte>)

  /** A text is gaps between strings (structure and white space) and the strings. */
  datatype Token = Gap(b: byte) | Text(units: seq<Unit>)

  predicate WellFormedUnit(u: Unit) {
    match u
    case Literal(b) => b != QUOTE && b != BACKSLASH
    case Short(letter) => letter != 'u' as byte
    case Code(digits) => |digits| == 4 && forall i | 0 <= i < 4 :: IsHex(digits[i])
  }

  ghost predicate WellFormedUnits(units: seq<Unit>) {
    forall i | 0 <= i < |units| :: WellFormedUnit(units[i])
  }

  ghost predicate WellFormed(tokens: seq<Token>) {
    forall i | 0 <= i < |tokens| ::
      if tokens[i].Gap? then tokens[i].b != QUOTE else WellFormedUnits(tokens[i].units)
  }

  function RenderUnit(u: Unit): (s: seq<byte>)
    ensures s != []
  {
    match u
    case Literal(b) => [b]
    case Short(letter) => [BACKSLASH, letter]
    case Code(digits) => [BACKSLASH, 'u' as byte] + digits
  }

  function RenderUnits(units: seq<Unit>): seq<byte> {
    if units == [] then [] else RenderUnit(units[0]) + RenderUnits(units[1..])
  }

  function RenderToken(t: Token): seq<byte> {
    match t
    case Gap(b) => [b]
    case Text(units) => [QUOTE] + RenderUnits(units) + [QUOTE]
  }

  function Render(tokens: seq<Token>): seq<byte> {
    if tokens == [] then [] else RenderToken(tokens[0]) + Render(tokens[1..])
  }

  datatype Surrogate = Neither | High | Low

  function SurrogateOf(u: Unit): Surrogate
    requires WellFormedUnit(u)
  {
    if !u.Code? then Neither
    else
      var code := UnicodeEscape(RenderUnit(u)).value;
      if IsHigh(code) then High else if IsLow(code) then Low else Neither
  }

  function Surrogates(units: seq<Unit>): (cs: seq<Surrogate>)
    requires WellFormedUnits(units)
    ensures |cs| == |units| && forall i | 0 <= i < |units| :: cs[i] == SurrogateOf(units[i])
  {
    if units == [] then [] else [SurrogateOf(units[0])] + Surrogates(units[1..])
  }

  /** Every high surrogate stands directly before a low one, and every low one directly after a high one. */
  ghost predicate Paired(cs: seq<Surrogate>) {
    && (forall i | 0 <= i < |cs| && cs[i] == High :: i + 1 < |cs| && cs[i + 1] == Low)
    && (forall i | 0 <= i < |cs| && cs[i] == Low :: i > 0 && cs[i - 1] == High)
  }

  ghost predicate AllPaired(tokens: seq<Token>)
    requires WellFormed(tokens)
  {
    forall i | 0 <= i < |tokens| && tokens[i].Text? :: Paired(Surrogates(tokens[i].units))
  }

  // ----- pairing, from the front -----

  lemma DropNeither(cs: seq<Surrogate>)
    requires cs != [] && cs[0] == Neither
    ensures Paired(cs) <==> Paired(cs[1..])
  {
    var rest := cs[1..];
    if Paired(cs) {
      forall i | 0 <= i < |rest| && rest[i] == High ensures i + 1 < |rest| && rest[i + 1] == Low {
        assert cs[i + 1] == High && cs[i + 2] == Low;
      }
      forall i | 0 <= i < |rest| && rest[i] == Low ensures i > 0 && rest[i - 1] == High {
        assert cs[i + 1] == Low && cs[i] == High;
      }
    }
    if Paired(rest) {
      forall i | 0 <= i < |cs| && cs[i] == High ensures i + 1 < |cs| && cs[i + 1] == Low {
        assert rest[i - 1] == High && rest[i] == Low;
      }
      forall i | 0 <= i < |cs| && cs[i] == Low ensures i > 0 && cs[i - 1] == High {
        assert rest[i - 1] == Low && rest[i - 2] == High;
      }
    }
  }

  lemma DropPair(cs: seq<Surrogate>)
    requires |cs| >= 2 && cs[0] == High && cs[1] == Low
    ensures Paired(cs) <==> Paired(cs[2..])
  {
    var rest := cs[2..];
    if Paired(cs) {
      forall i | 0 <= i < |rest| && rest[i] == High ensures i + 1 < |rest| && rest[i + 1] == Low {
        assert cs[i + 2] == High && cs[i + 3] == Low;
      }
      forall i | 0 <= i < |rest| && rest[i] == Low ensures i > 0 && rest[i - 1] == High {
        assert cs[i + 2] == Low && cs[i + 1] == High;
      }
    }
    if Paired(rest) {
      forall i | 0 <= i < |cs| && cs[i] == High ensures i + 1 < |cs| && cs[i + 1] == Low {
        if i > 0 { assert rest[i - 2] == High && rest[i - 1] == Low; }
      }
      forall i | 0 <= i < |cs| && cs[i] == Low ensures i > 0 && cs[i - 1] == High {
        if i > 1 { assert rest[i - 2] == Low && rest[i - 3] == High; }
      }
    }
  }

  lemma SurrogatesDrop(units: seq<Unit>, n: nat)
    requires WellFormedUnits(units) && n <= |units|
    ensures WellFormedUnits(units[n..])
    ensures Surrogates(units[n..]) == Surrogates(units)[n..]
  {
  }

  // ----- the scan accepts exactly the paired texts -----

  /** A code unit at the front of any text is read the same. */
  lemma CodeAtFront(u: Unit, rest: seq<byte>)
    requires WellFormedUnit(u) && u.Code?
    ensures UnicodeEscape(RenderUnit(u) + rest) == UnicodeEscape(RenderUnit(u))
    ensures UnicodeEscape(RenderUnit(u)).Some?
    ensures (RenderUnit(u) + rest)[6..] == rest
  {
  }

  /** After a high surrogate the scan looks for a low one, and finds it only as the next unit. */
  lemma NextIsLow(units: seq<Unit>, tail: seq<byte>)
    requires WellFormedUnits(units) && tail != [] && tail[0] == QUOTE
    ensures LowEscape(RenderUnits(units) + tail) <==> units != [] && SurrogateOf(units[0]) == Low
  {
    if units == [] {
      assert RenderUnits(units) + tail == tail;
    } else {
      var rest := RenderUnits(units[1..]) + tail;
      assert RenderUnits(units) + tail == RenderUnit(units[0]) + rest;
      assert WellFormedUnit(units[0]);
      if units[0].Code? { CodeAtFront(units[0], rest); }
    }
  }

  /** The scan at a unit that is no surrogate steps over it. */
  lemma ScanNeither(u: Unit, rest: seq<byte>)
    requires WellFormedUnit(u) && SurrogateOf(u) == Neither && rest != []
    ensures Scan(RenderUnit(u) + rest, true) <==> Scan(rest, true)
  {
    var s := RenderUnit(u) + rest;
    if u.Code? { CodeAtFront(u, rest); } else { assert s[|RenderUnit(u)|..] == rest; }
  }

  /** The scan at a surrogate needs it to be high and a low one to follow. */
  lemma ScanSurrogate(u: Unit, rest: seq<byte>)
    requires WellFormedUnit(u) && SurrogateOf(u) != Neither
    ensures Scan(RenderUnit(u) + rest, true) <==>
      SurrogateOf(u) == High && LowEscape(rest) && Scan(rest[6..], true)
  {
    var s := RenderUnit(u) + rest;
    CodeAtFront(u, rest);
    if LowEscape(rest) { assert s[12..] == rest[6..]; }
  }

  lemma {:induction false} UnitsScan(units: seq<Unit>, tail: seq<byte>)
    requires WellFormedUnits(units) && tail != [] && tail[0] == QUOTE
    ensures Scan(RenderUnits(units) + tail, true) <==> Paired(Surrogates(units)) && Scan(tail, true)
    decreases |units|
  {
    if units == [] {
      assert RenderUnits(units) + tail == tail;
    } else {
      var u, cs := units[0], Surrogates(units);
      assert WellFormedUnit(u);
      var rest := RenderUnits(units[1..]) + tail;
      assert RenderUnits(units) + tail == RenderUnit(u) + rest;
      SurrogatesDrop(units, 1);
      if cs[0] == Neither {
        ScanNeither(u, rest);
        UnitsScan(units[1..], tail);
        DropNeither(cs);
      } else {
        ScanSurrogate(u, rest);
        NextIsLow(units[1..], tail);
        if cs[0] == High && |units| >= 2 && cs[1] == Low {
          PairScan(units, tail);
          SurrogatesDrop(units, 2);
          UnitsScan(units[2..], tail);
          DropPair(cs);
        }
      }
    }
  }

  /** What the scan sees after it has stepped over a pair. */
  lemma PairScan(units: seq<Unit>, tail: seq<byte>)
    requires WellFormedUnits(units) && |units| >= 2 && SurrogateOf(units[1]) == Low
    ensures (RenderUnits(units[1..]) + tail)[6..] == RenderUnits(units[2..]) + tail
  {
    var after := RenderUnits(units[2..]) + tail;
    assert units[1..][1..] == units[2..];
    assert RenderUnits(units[1..]) + tail == RenderUnit(units[1]) + after;
    CodeAtFront(units[1], after);
  }

  /** The scan accepts a rendered text exactly if every one of its strings is paired. */
  lemma {:induction false} TokensScan(tokens: seq<Token>)
    requires WellFormed(tokens)
    ensures Scan(Render(tokens), false) <==> AllPaired(tokens)
  {
    if tokens != [] {
      TokensScan(tokens[1..]);
      AllPairedFirst(tokens);
      ScanFirst(tokens);
    }
  }

  lemma QuotedText(inner: seq<byte>, rest: seq<byte>)
    ensures ([QUOTE] + inner + [QUOTE] + rest)[1..] == inner + ([QUOTE] + rest)
    ensures ([QUOTE] + inner + [QUOTE] + rest)[0] == QUOTE
    ensures ([QUOTE] + rest)[1..] == rest
  {
  }

  lemma ScanFirst(tokens: seq<Token>)
    requires WellFormed(tokens) && tokens != []
    ensures Scan(Render(tokens), false) <==>
      (tokens[0].Text? ==> Paired(Surrogates(tokens[0].units))) && Scan(Render(tokens[1..]), false)
  {
    var s, rest := Render(tokens), Render(tokens[1..]);
    if tokens[0].Gap? {
      assert s[1..] == rest;
    } else {
      var inner := RenderUnits(tokens[0].units);
      QuotedText(inner, rest);
      UnitsScan(tokens[0].units, [QUOTE] + rest);
    }
  }

  lemma AllPairedFirst(tokens: seq<Token>)
    requires WellFormed(tokens) && tokens != []
    ensures AllPaired(tokens) <==>
      (tokens[0].Text? ==> Paired(Surrogates(tokens[0].units))) && AllPaired(tokens[1..])
  {
    var rest := tokens[1..];
    assert forall i | 0 <= i < |rest| :: rest[i] == tokens[i + 1];
    if (tokens[0].Text? ==> Paired(Surrogates(tokens[0].units))) && AllPaired(rest) {
      forall i | 0 <= i < |tokens| && tokens[i].Text?
        ensures Paired(Surrogates(tokens[i].units))
      {
        if i > 0 { assert tokens[i] == rest[i - 1]; }
      }
    }
  }

  // ----- which texts are rendered -----

  /** Every string of the text closes, and every escape in a string is well formed. */
  predicate Closes(s: seq<byte>, inString: bool)
    decreases |s|
  {
    if s == [] then !inString
    else if s[0] == QUOTE then Closes(s[1..], !inString)
    else if !inString || s[0] != BACKSLASH then Closes(s[1..], inString)
    else if |s| == 1 then false
    else if s[1] != 'u' as byte then Closes(s[2..], true)
    else UnicodeEscape(s).Some? && Closes(s[6..], true)
  }

  /** The first unit of the rest of a string. */
  function FirstUnit(s: seq<byte>): (u: Unit)
    requires Closes(s, true) && s[0] != QUOTE
    ensures WellFormedUnit(u) && RenderUnit(u) <= s && Closes(s[|RenderUnit(u)|..], true)
  {
    if s[0] != BACKSLASH then Literal(s[0])
    else if s[1] != 'u' as byte then Short(s[1])
    else Code(s[2..6])
  }

  /** The units up to the closing quote. */
  function UnitsOf(s: seq<byte>): (units: seq<Unit>)
    requires Closes(s, true)
    ensures WellFormedUnits(units)
    decreases |s|
  {
    if s[0] == QUOTE then [] else
    var u := FirstUnit(s);
    [u] + UnitsOf(s[|RenderUnit(u)|..])
  }

  /** What stands behind the closing quote. */
  function Behind(s: seq<byte>): (rest: seq<byte>)
    requires Closes(s, true)
    ensures |rest| < |s| && Closes(rest, false)
    decreases |s|
  {
    if s[0] == QUOTE then s[1..] else Behind(s[|RenderUnit(FirstUnit(s))|..])
  }

  function TokensOf(s: seq<byte>): (tokens: seq<Token>)
    requires Closes(s, false)
    ensures WellFormed(tokens)
    decreases |s|
  {
    if s == [] then []
    else if s[0] != QUOTE then [Gap(s[0])] + TokensOf(s[1..])
    else [Text(UnitsOf(s[1..]))] + TokensOf(Behind(s[1..]))
  }

  lemma NoUnits(rest: seq<byte>)
    ensures RenderUnits([]) + [QUOTE] + rest == [QUOTE] + rest
  {
  }

  lemma {:induction false} UnitsRendered(s: seq<byte>)
    requires Closes(s, true)
    ensures RenderUnits(UnitsOf(s)) + [QUOTE] + Behind(s) == s
    decreases |s|
  {
    hide RenderUnit, RenderUnits, UnicodeEscape, WellFormedUnit;
    if s[0] == QUOTE {
      NoUnits(s[1..]);
    } else {
      var u := FirstUnit(s);
      var rest := s[|RenderUnit(u)|..];
      assert s == RenderUnit(u) + rest;
      UnitsRendered(rest);
      FirstRendered(u, UnitsOf(rest), Behind(rest));
    }
  }

  lemma FirstRendered(u: Unit, units: seq<Unit>, rest: seq<byte>)
    ensures RenderUnits([u] + units) + [QUOTE] + rest == RenderUnit(u) + (RenderUnits(units) + [QUOTE] + rest)
  {
    hide RenderUnit;
    assert ([u] + units)[1..] == units;
  }

  lemma FirstToken(t: Token, tokens: seq<Token>)
    ensures Render([t] + tokens) == RenderToken(t) + Render(tokens)
  {
    assert ([t] + tokens)[1..] == tokens;
  }

  /** Every text whose strings close is the rendering of a well-formed token list. */
  lemma {:induction false} TextIsRendered(s: seq<byte>)
    requires Closes(s, false)
    ensures Render(TokensOf(s)) == s
    decreases |s|
  {
    if s != [] {
      hide UnitsOf, Behind, RenderUnits, WellFormed, WellFormedUnits;
      if s[0] == QUOTE {
        var inner := s[1..];
        assert s == [QUOTE] + inner;
        TextIsRendered(Behind(inner));
        UnitsRendered(inner);
        FirstToken(Text(UnitsOf(inner)), TokensOf(Behind(inner)));
        QuotedText(RenderUnits(UnitsOf(inner)), Behind(inner));
      } else {
        assert s == [s[0]] + s[1..];
        TextIsRendered(s[1..]);
        FirstToken(Gap(s[0]), TokensOf(s[1..]));
      }
    }
  }

  lemma UnitCloses(u: Unit, rest: seq<byte>)
    requires WellFormedUnit(u) && Closes(rest, true)
    ensures var s := RenderUnit(u) + rest;
            Closes(s, true) && s[0] != QUOTE && FirstUnit(s) == u && s[|RenderUnit(u)|..] == rest
  {
    var s := RenderUnit(u) + rest;
    assert s[|RenderUnit(u)|..] == rest;
    if u.Code? {
      CodeAtFront(u, rest);
      assert s[2..6] == u.digits;
    }
  }

  lemma {:induction false} UnitsClose(units: seq<Unit>, rest: seq<byte>)
    requires WellFormedUnits(units) && Closes(rest, false)
    ensures var s := RenderUnits(units) + [QUOTE] + rest;
            Closes(s, true) && UnitsOf(s) == units && Behind(s) == rest
    decreases |units|
  {
    hide RenderUnit, RenderUnits, UnicodeEscape, FirstUnit;
    if units == [] {
      NoUnits(rest);
      assert ([QUOTE] + rest)[1..] == rest;
    } else {
      assert [units[0]] + units[1..] == units;
      UnitsClose(units[1..], rest);
      FirstRendered(units[0], units[1..], rest);
      UnitCloses(units[0], RenderUnits(units[1..]) + [QUOTE] + rest);
    }
  }

  lemma TextCloses(units: seq<Unit>, rest: seq<byte>)
    requires WellFormedUnits(units) && Closes(rest, false)
    ensures var s := RenderToken(Text(units)) + rest;
            Closes(s, false) && TokensOf(s) == [Text(units)] + TokensOf(rest)
  {
    hide RenderUnits, UnicodeEscape, UnitsOf, Behind;
    UnitsClose(units, rest);
    var s, inner := RenderToken(Text(units)) + rest, RenderUnits(units) + [QUOTE] + rest;
    QuotedText(RenderUnits(units), rest);
    assert s == [QUOTE] + inner && s[1..] == inner;
  }

  /** And every rendering closes, and is read back as the token list it came from. */
  lemma {:induction false} RenderedCloses(tokens: seq<Token>)
    requires WellFormed(tokens)
    ensures Closes(Render(tokens), false) && TokensOf(Render(tokens)) == tokens
  {
    if tokens != [] {
      hide UnicodeEscape, UnitsOf, Behind, WellFormedUnits, RenderUnits;
      var rest := Render(tokens[1..]);
      RenderedCloses(tokens[1..]);
      assert [tokens[0]] + tokens[1..] == tokens;
      if tokens[0].Gap? {
        assert Render(tokens) == [tokens[0].b] + rest && ([tokens[0].b] + rest)[1..] == rest;
      } else {
        TextCloses(tokens[0].units, rest);
      }
    }
  }

  /** So on every byte text that closes the scan decides the pairing in each of its strings. */
  lemma ClosedScan(s: seq<byte>)
    requires Closes(s, false)
    ensures Scan(s, false) <==> AllPaired(TokensOf(s))
  {
    TextIsRendered(s);
    TokensScan(TokensOf(s));
  }
}
