/**
 Mission digests JSON that Go encoded, and must reproduce the bytes that Rust encoded. The two
 encoders differ only on U+2028 and U+2029, which Go escapes; a pass over the encoded bytes
 undoes that by counting the backslashes in front of a candidate escape
 (mission/internal/mission/ao_next_journal_prefix.go, `rustCompatibleAONextJournalJSON`).
 */
module JsonPostPass {
  import opened Words

  // ----- the pass -----

  /** The six bytes of an escaped line or paragraph separator begin at `i`. */
  predicate EscapeAt(encoded: seq<byte>, i: nat) {
    && i + 6 <= |encoded|
    && encoded[i] == BACKSLASH && encoded[i + 1] == 'u' as byte && encoded[i + 2] == '2' as byte
    && encoded[i + 3] == '0' as byte && encoded[i + 4] == '2' as byte
    && (encoded[i + 5] == '8' as byte || encoded[i + 5] == '9' as byte)
  }

  /** The number of backslashes directly before position `i`. */
  function Preceding(encoded: seq<byte>, i: nat): nat
    requires i <= |encoded|
  {
    if i > 0 && encoded[i - 1] == BACKSLASH then 1 + Preceding(encoded, i - 1) else 0
  }

  function PassFrom(encoded: seq<byte>, i: nat): seq<byte>
    requires i <= |encoded|
    decreases |encoded| - i
  {
    if i == |encoded| then []
    else if EscapeAt(encoded, i) && Preceding(encoded, i) % 2 == 0 then
      [0xE2, 0x80, 0xA8 + (encoded[i + 5] - 0x38)] + PassFrom(encoded, i + 6)
    else [encoded[i]] + PassFrom(encoded, i + 1)
  }

  method CountPreceding(encoded: seq<byte>, index: nat) returns (slashes: nat)
    requires index <= |encoded|
    ensures slashes == Preceding(encoded, index)
  {
    slashes := 0;
    var previous := index;
    while previous > 0 && encoded[previous - 1] == BACKSLASH
      invariant 0 <= previous <= index
      invariant slashes + Preceding(encoded, previous) == Preceding(encoded, index)
    {
      slashes := slashes + 1;
      previous := previous - 1;
    }
  }

  /** The bytes that position `i` contributes. */
  function Contribution(encoded: seq<byte>, i: nat): seq<byte>
    requires i < |encoded|
  {
    if EscapeAt(encoded, i) && Preceding(encoded, i) % 2 == 0 then
      [0xE2, 0x80, 0xA8 + (encoded[i + 5] - 0x38)]
    else [encoded[i]]
  }

  lemma PassAppends(done: seq<byte>, encoded: seq<byte>, i: nat)
    requires i < |encoded|
    ensures var next := if |Contribution(encoded, i)| == 3 then i + 6 else i + 1;
      next <= |encoded|
      && done + PassFrom(encoded, i) == done + Contribution(encoded, i) + PassFrom(encoded, next)
  {
    var next := if |Contribution(encoded, i)| == 3 then i + 6 else i + 1;
    Regroup(done, Contribution(encoded, i), PassFrom(encoded, next));
  }

  lemma Regroup(a: seq<byte>, b: seq<byte>, c: seq<byte>)
    ensures a + (b + c) == a + b + c && |a + b| == |a| + |b|
  {
  }

  method RustCompatibleJson(encoded: seq<byte>) returns (canonical: seq<byte>)
    ensures canonical == PassFrom(encoded, 0)
  {
    canonical := [];
    var index := 0;
    while index < |encoded|
      invariant index <= |encoded|
      invariant canonical + PassFrom(encoded, index) == PassFrom(encoded, 0)
    {
      PassAppends(canonical, encoded, index);
      if EscapeAt(encoded, index) {
        var precedingSlashes := CountPreceding(encoded, index);
        if precedingSlashes % 2 == 0 {
          canonical := canonical + [0xE2, 0x80, 0xA8 + (encoded[index + 5] - 0x38)];
          index := index + 6;
          continue;
        }
      }
      canonical := canonical + [encoded[index]];
      index := index + 1;
    }
  }

  // ----- the two encoders -----

  /** The UTF-8 encoding of a Unicode scalar value. */
  function Utf8(c: char): (b: seq<byte>)
    ensures c as int >= 0x80 ==> forall i | 0 <= i < |b| :: b[i] >= 0x80
  {
    var n := c as int;
    if n < 0x80 then [n as byte]
    else if n < 0x800 then [(0xC0 + n / 0x40) as byte, (0x80 + n % 0x40) as byte]
    else if n < 0x1_0000 then
      [(0xE0 + n / 0x1000) as byte, (0x80 + n / 0x40 % 0x40) as byte, (0x80 + n % 0x40) as byte]
    else
      [(0xF0 + n / 0x4_0000) as byte, (0x80 + n / 0x1000 % 0x40) as byte,
       (0x80 + n / 0x40 % 0x40) as byte, (0x80 + n % 0x40) as byte]
  }

  function HexDigit(n: nat): byte
    requires n < 16
  {
    if n < 10 then (0x30 + n) as byte else (0x57 + n) as byte
  }

  /** The letter of a two-byte escape, for the characters that have one. */
  predicate ShortEscape(c: char) {
    c in {'\"', '\\', '\U{0008}', '\U{000C}', '\n', '\r', '\t'}
  }

  function ShortLetter(c: char): byte
    requires ShortEscape(c)
  {
    if c == '\"' then QUOTE
    else if c == '\\' then BACKSLASH
    else if c == '\U{0008}' then 'b' as byte
    else if c == '\U{000C}' then 'f' as byte
    else if c == '\n' then 'n' as byte
    else if c == '\r' then 'r' as byte
    else 't' as byte
  }

  /** How both encoders write a character of a string, the two separators apart. */
  function CommonEscape(c: char): seq<byte> {
    if ShortEscape(c) then [BACKSLASH, ShortLetter(c)]
    else if c < ' ' then
      [BACKSLASH, 'u' as byte, '0' as byte, '0' as byte, HexDigit(c as int / 16), HexDigit(c as int % 16)]
    else Utf8(c)
  }

  predicate IsSeparator(c: char) {
    c == '\U{2028}' || c == '\U{2029}'
  }

  function GoEscape(c: char): seq<byte> {
    if IsSeparator(c) then
      [BACKSLASH, 'u' as byte, '2' as byte, '0' as byte, '2' as byte,
       if c == '\U{2028}' then '8' as byte else '9' as byte]
    else CommonEscape(c)
  }

  /** Rust leaves the separators as they are. */
  function RustEscape(c: char): seq<byte> {
    CommonEscape(c)
  }

  // ----- documents -----

  datatype Json =
    | Null
    | Bool(b: bool)
    | Number(n: int)
    | String(s: string)
    | Array(items: seq<Json>)
    | Object(members: seq<Member>)

  datatype Member = Member(name: string, value: Json)

  /** A byte of structure, or a character inside a string. */
  datatype Piece = Byte(b: byte) | Char(c: char)

  function Encoded(escape: char -> seq<byte>, p: Piece): seq<byte> {
    match p case Byte(b) => [b] case Char(c) => escape(c)
  }

  function Render(escape: char -> seq<byte>, pieces: seq<Piece>): seq<byte> {
    if pieces == [] then []
    else Encoded(escape, pieces[0]) + Render(escape, pieces[1..])
  }

  function Structure(text: string): (p: seq<Piece>)
    requires forall i | 0 <= i < |text| :: text[i] < '\U{0080}' && text[i] != '\\'
    ensures WellStructured(p)
  {
    seq(|text|, i requires 0 <= i < |text| => Byte(text[i] as int as byte))
  }

  predicate WellStructured(pieces: seq<Piece>) {
    forall i | 0 <= i < |pieces| && pieces[i].Byte? :: pieces[i].b != BACKSLASH
  }

  function Digits(n: nat): (p: seq<Piece>)
    ensures WellStructured(p)
  {
    if n < 10 then [Byte((0x30 + n) as byte)] else Digits(n / 10) + [Byte((0x30 + n % 10) as byte)]
  }

  function StringPieces(s: string): (p: seq<Piece>)
    ensures WellStructured(p)
  {
    [Byte(QUOTE)] + seq(|s|, i requires 0 <= i < |s| => Char(s[i])) + [Byte(QUOTE)]
  }

  /** The compact text of a document, before characters are escaped. */
  function Pieces(v: Json): (p: seq<Piece>)
    ensures WellStructured(p)
    decreases v, 0
  {
    match v
    case Null => Structure("null")
    case Bool(b) => Structure(if b then "true" else "false")
    case Number(n) => if n < 0 then Structure("-") + Digits(-n) else Digits(n)
    case String(s) => StringPieces(s)
    case Array(items) => Structure("[") + ItemPieces(items) + Structure("]")
    case Object(members) => Structure("{") + MemberPieces(members) + Structure("}")
  }

  function ItemPieces(items: seq<Json>): (p: seq<Piece>)
    ensures WellStructured(p)
    decreases items, 1
  {
    if items == [] then []
    else if |items| == 1 then Pieces(items[0])
    else Pieces(items[0]) + Structure(",") + ItemPieces(items[1..])
  }

  function MemberPieces(members: seq<Member>): (p: seq<Piece>)
    ensures WellStructured(p)
    decreases members, 1
  {
    if members == [] then []
    else
      var member := StringPieces(members[0].name) + Structure(":") + Pieces(members[0].value);
      if |members| == 1 then member else member + Structure(",") + MemberPieces(members[1..])
  }

  // ----- correctness -----

  lemma PrecedingPrefix(a: seq<byte>, b: seq<byte>, i: nat)
    requires i <= |a|
    ensures Preceding(a + b, i) == Preceding(a, i)
  {
  }

  /** Bytes that are not backslashes are copied. */
  lemma {:induction false} CopyPlain(before: seq<byte>, plain: seq<byte>, rest: seq<byte>)
    requires forall i | 0 <= i < |plain| :: plain[i] != BACKSLASH
    ensures PassFrom(before + plain + rest, |before|) ==
            plain + PassFrom(before + plain + rest, |before| + |plain|)
    decreases plain
  {
    if plain != [] {
      var all := before + plain + rest;
      assert all[|before|] == plain[0];
      var before' := before + [plain[0]];
      assert all == before' + plain[1..] + rest;
      CopyPlain(before', plain[1..], rest);
      assert !EscapeAt(all, |before|);
      assert PassFrom(all, |before|) == [plain[0]] + PassFrom(all, |before| + 1);
    }
  }

  /** After an even run of backslashes, a short escape is copied, and leaves an even run again. */
  lemma CopyShort(before: seq<byte>, c: char, rest: seq<byte>)
    requires ShortEscape(c) && Preceding(before, |before|) % 2 == 0
    ensures var e := CommonEscape(c);
            PassFrom(before + e + rest, |before|) == e + PassFrom(before + e + rest, |before| + 2)
            && Preceding(before + e, |before| + 2) % 2 == 0
  {
    var e := CommonEscape(c);
    var all, n := before + e + rest, |before|;
    assert all[n] == BACKSLASH && all[n + 1] == ShortLetter(c);
    assert !EscapeAt(all, n);
    assert all == before + (e + rest) && all == (before + e) + rest;
    PrecedingPrefix(before, e + rest, n);
    PrecedingPrefix(before, e, n);
    assert Preceding(all, n + 1) == 1 + Preceding(all, n);
    assert PassFrom(all, n + 1) == [all[n + 1]] + PassFrom(all, n + 2);
  }

  lemma PlainEnds(before: seq<byte>, plain: seq<byte>)
    requires plain != [] && forall i | 0 <= i < |plain| :: plain[i] != BACKSLASH
    ensures Preceding(before + plain, |before| + |plain|) == 0
  {
    assert (before + plain)[|before| + |plain| - 1] == plain[|plain| - 1];
  }

  /** An escape whose third byte is a zero is no separator escape, so it is copied. */
  lemma CopyEscape(before: seq<byte>, tail: seq<byte>, rest: seq<byte>)
    requires |tail| == 5 && tail[1] == '0' as byte && forall i | 0 <= i < 5 :: tail[i] != BACKSLASH
    ensures var e := [BACKSLASH] + tail;
            PassFrom(before + e + rest, |before|) == e + PassFrom(before + e + rest, |before| + 6)
            && Preceding(before + e, |before| + 6) % 2 == 0
  {
    var before' := before + [BACKSLASH];
    var all := before' + tail + rest;
    Regroup(before, [BACKSLASH], tail);
    assert all[|before|] == BACKSLASH && all[|before| + 2] == tail[1];
    CopyPlain(before', tail, rest);
    PlainEnds(before', tail);
    Regroup([BACKSLASH], tail, PassFrom(all, |before| + 6));
  }

  /** Every escape of a control character is of that kind. */
  lemma CopyControl(before: seq<byte>, c: char, rest: seq<byte>)
    requires c < ' ' && !ShortEscape(c)
    ensures var e := CommonEscape(c);
            PassFrom(before + e + rest, |before|) == e + PassFrom(before + e + rest, |before| + 6)
            && Preceding(before + e, |before| + 6) % 2 == 0
  {
    var e := CommonEscape(c);
    assert e == [BACKSLASH] + e[1..];
    CopyEscape(before, e[1..], rest);
  }

  /** A genuine separator escape after an even run is rewritten to the separator's bytes. */
  lemma RewriteSeparator(before: seq<byte>, c: char, rest: seq<byte>)
    requires IsSeparator(c) && Preceding(before, |before|) % 2 == 0
    ensures var e := GoEscape(c);
            PassFrom(before + e + rest, |before|) == RustEscape(c) + PassFrom(before + e + rest, |before| + 6)
            && Preceding(before + e, |before| + 6) == 0
  {
    var e := GoEscape(c);
    var all, n := before + e + rest, |before|;
    forall k | 0 <= k < 6
      ensures all[n + k] == e[k]
    {
    }
    assert all[n + 1] == e[1] && all[n + 2] == e[2] && all[n + 3] == e[3] && all[n + 4] == e[4] && all[n + 5] == e[5];
    assert EscapeAt(all, n);
    assert all == before + (e + rest);
    PrecedingPrefix(before, e + rest, n);
    assert Utf8('\U{2028}') == [0xE2, 0x80, 0xA8] && Utf8('\U{2029}') == [0xE2, 0x80, 0xA9];
    assert (before + e)[n + 5] == e[5];
  }

  /** One piece: the pass turns Go's bytes into Rust's and stops after an even run of backslashes. */
  lemma PassPiece(before: seq<byte>, p: Piece, rest: seq<byte>)
    requires Preceding(before, |before|) % 2 == 0 && (p.Byte? ==> p.b != BACKSLASH)
    ensures var e := Encoded(GoEscape, p);
            PassFrom(before + e + rest, |before|) ==
            Encoded(RustEscape, p) + PassFrom(before + e + rest, |before| + |e|)
            && Preceding(before + e, |before| + |e|) % 2 == 0
  {
    var e := Encoded(GoEscape, p);
    if p.Byte? {
      CopyPlain(before, e, rest);
      PlainEnds(before, e);
    } else if IsSeparator(p.c) {
      RewriteSeparator(before, p.c, rest);
    } else if ShortEscape(p.c) {
      CopyShort(before, p.c, rest);
    } else if p.c < ' ' {
      CopyControl(before, p.c, rest);
    } else {
      assert forall i | 0 <= i < |e| :: e[i] != BACKSLASH;
      CopyPlain(before, e, rest);
      PlainEnds(before, e);
    }
  }

  lemma PassFirst(before: seq<byte>, pieces: seq<Piece>)
    requires pieces != [] && Preceding(before, |before|) % 2 == 0 && WellStructured(pieces)
    ensures var next := before + Encoded(GoEscape, pieces[0]);
            && Preceding(next, |next|) % 2 == 0 && WellStructured(pieces[1..])
            && PassFrom(before + Render(GoEscape, pieces), |before|) ==
               Encoded(RustEscape, pieces[0]) + PassFrom(next + Render(GoEscape, pieces[1..]), |next|)
  {
    hide Preceding, PassFrom, Encoded;
    var e, rest := Encoded(GoEscape, pieces[0]), Render(GoEscape, pieces[1..]);
    Regroup(before, e, rest);
    PassPiece(before, pieces[0], rest);
  }

  lemma {:induction false} PassPieces(before: seq<byte>, pieces: seq<Piece>)
    requires Preceding(before, |before|) % 2 == 0 && WellStructured(pieces)
    ensures PassFrom(before + Render(GoEscape, pieces), |before|) == Render(RustEscape, pieces)
    decreases pieces
  {
    if pieces != [] {
      hide Preceding, PassFrom, Encoded, WellStructured;
      PassFirst(before, pieces);
      PassPieces(before + Encoded(GoEscape, pieces[0]), pieces[1..]);
    }
  }

  /**
   For every document, the pass applied to Go's encoding gives Rust's encoding: every genuine
   separator escape is rewritten, and no text that merely looks like one.
   */
  lemma PostPassMatchesRust(document: Json)
    ensures PassFrom(Render(GoEscape, Pieces(document)), 0) == Render(RustEscape, Pieces(document))
  {
    PassPieces([], Pieces(document));
    assert [] + Render(GoEscape, Pieces(document)) == Render(GoEscape, Pieces(document));
  }
}
