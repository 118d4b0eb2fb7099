/**
 JSON Pointer paths of the string fields of a correlation artifact
 (mission/internal/mission/correlation_chain.go, `collectCorrelationStringFields` and its
 neighbours), against the syntax and evaluation rules of sections 3 and 4 of RFC 6901.
 */
module JsonPointer {
  import opened Ordering
  import opened Wrappers

  /**
   A decoded JSON value; numbers, booleans and null carry no strings. The members of an object
   stand in the order the collector visits them; decoding has made their keys distinct.
   */
  datatype Json = Plain | Str(text: string) | Arr(items: seq<Json>) | Obj(members: seq<Member>)

  datatype Member = Member(key: string, value: Json)

  datatype Field = Field(path: string, field: string, value: string)

  // ----- the paths the code writes -----

  /** Every occurrence of one character becomes the given text. */
  function ReplaceAll(s: string, c: char, put: string): string {
    if s == "" then "" else (if s[0] == c then put else [s[0]]) + ReplaceAll(s[1..], c, put)
  }

  function Escape(token: string): string {
    ReplaceAll(ReplaceAll(token, '~', "~0"), '/', "~1")
  }

  function AppendPointer(path: string, token: string): string {
    path + "/" + Escape(token)
  }

  function Breadth(v: Json): nat {
    match v
    case Arr(items) => |items|
    case Obj(members) => |members|
    case _ => 0
  }

  function Child(v: Json, i: nat): (c: Json)
    requires i < Breadth(v)
    ensures c < v
  {
    if v.Obj? then
      assert v.members[i] < v;
      v.members[i].value
    else v.items[i]
  }

  function Token(v: Json, i: nat): string
    requires i < Breadth(v)
  {
    if v.Obj? then v.members[i].key else Decimal(i)
  }

  /** The strings below `v`; an array hands its own field name down to its elements. */
  function Fields(v: Json, path: string, field: string): seq<Field>
    decreases v, Breadth(v) + 1
  {
    if v.Str? then [Field(path, field, v.text)] else FieldsFrom(v, 0, path, field)
  }

  function FieldsFrom(v: Json, i: nat, path: string, field: string): seq<Field>
    requires i <= Breadth(v)
    decreases v, Breadth(v) - i
  {
    if i == Breadth(v) then []
    else
      Fields(Child(v, i), AppendPointer(path, Token(v, i)), if v.Obj? then Token(v, i) else field)
      + FieldsFrom(v, i + 1, path, field)
  }

  lemma FieldsFromStep(done: seq<Field>, v: Json, i: nat, path: string, field: string)
    requires i < Breadth(v)
    ensures done + FieldsFrom(v, i, path, field) ==
      done + Fields(Child(v, i), AppendPointer(path, Token(v, i)), if v.Obj? then Token(v, i) else field)
      + FieldsFrom(v, i + 1, path, field)
  {
  }

  class Collector {
    var fields: seq<Field>

    constructor ()
      ensures fields == []
    {
      fields := [];
    }

    method CollectStringFields(value: Json, path: string, field: string)
      modifies this
      ensures fields == old(fields) + Fields(value, path, field)
      decreases value
    {
      match value
      case Obj(members) =>
        var i := 0;
        while i < |members|
          invariant i <= |members|
          invariant fields + FieldsFrom(value, i, path, field) == old(fields) + Fields(value, path, field)
        {
          assert Child(value, i) < value;
          FieldsFromStep(fields, value, i, path, field);
          CollectStringFields(members[i].value, AppendPointer(path, members[i].key), members[i].key);
          i := i + 1;
        }
      case Arr(items) =>
        var i := 0;
        while i < |items|
          invariant i <= |items|
          invariant fields + FieldsFrom(value, i, path, field) == old(fields) + Fields(value, path, field)
        {
          FieldsFromStep(fields, value, i, path, field);
          CollectStringFields(items[i], AppendPointer(path, Decimal(i)), field);
          i := i + 1;
        }
      case Str(text) =>
        fields := fields + [Field(path, field, text)];
      case Plain =>
    }
  }

  // ----- RFC 6901, section 3: a route of reference tokens as a pointer -----

  function Encode(route: seq<string>): string {
    if route == [] then "" else "/" + Escape(route[0]) + Encode(route[1..])
  }

  function Split(s: string): (raws: seq<string>)
    ensures raws != []
  {
    if s == "" then [""]
    else
      var rest := Split(s[1..]);
      if s[0] == '/' then [""] + rest else [[s[0]] + rest[0]] + rest[1..]
  }

  /** Every occurrence of the pair `a`, `b` becomes `put`, from left to right. */
  function ReplacePair(s: string, a: char, b: char, put: char): string {
    if s == "" then ""
    else if |s| >= 2 && s[0] == a && s[1] == b then [put] + ReplacePair(s[2..], a, b, put)
    else [s[0]] + ReplacePair(s[1..], a, b, put)
  }

  /** Section 4 of RFC 6901: first "~1" becomes "/", then "~0" becomes "~". */
  function Unescape(raw: string): string {
    ReplacePair(ReplacePair(raw, '~', '1', '/'), '~', '0', '~')
  }

  function UnescapeAll(raws: seq<string>): (route: seq<string>)
    ensures |route| == |raws|
  {
    if raws == [] then [] else [Unescape(raws[0])] + UnescapeAll(raws[1..])
  }

  /** The reference tokens of a pointer that starts with a slash. */
  function Decode(pointer: string): seq<string> {
    if pointer == "" then [] else UnescapeAll(Split(pointer[1..]))
  }

  /** Every tilde is followed by 0 or 1. */
  predicate WellEscaped(s: string) {
    if s == "" then true
    else if s[0] == '~' then |s| >= 2 && (s[1] == '0' || s[1] == '1') && WellEscaped(s[2..])
    else WellEscaped(s[1..])
  }

  ghost predicate SlashFree(s: string) {
    '/' !in s
  }

  // ----- RFC 6901, section 4: evaluation -----

  /** Section 4 of RFC 6901: "0", or digits without a leading zero. */
  function ArrayIndex(token: string): Option<nat> {
    if Canonical(token) then Some(DigitsValue(token)) else None
  }

  function MemberNamed(members: seq<Member>, key: string): Option<Json> {
    if members == [] then None
    else if members[0].key == key then Some(members[0].value)
    else MemberNamed(members[1..], key)
  }

  function Step(v: Json, token: string): Option<Json> {
    match v
    case Obj(members) => MemberNamed(members, token)
    case Arr(items) =>
      var i := ArrayIndex(token);
      if i.Some? && i.value < |items| then Some(items[i.value]) else None
    case _ => None
  }

  function Evaluate(v: Json, route: seq<string>): Option<Json>
    decreases |route|
  {
    if route == [] then Some(v)
    else
      var next := Step(v, route[0]);
      if next.None? then None else Evaluate(next.value, route[1..])
  }

  /** The last object key on the way, array positions skipped. */
  function NearestKey(v: Json, route: seq<string>, field: string): string
    decreases |route|
  {
    if route == [] then field
    else
      var next := Step(v, route[0]);
      if next.None? then field
      else NearestKey(next.value, route[1..], if v.Obj? then route[0] else field)
  }

  // ----- escaping -----

  lemma {:induction false} ReplaceAllAppends(s: string, t: string, c: char, put: string)
    ensures ReplaceAll(s + t, c, put) == ReplaceAll(s, c, put) + ReplaceAll(t, c, put)
  {
    if s == "" {
      assert s + t == t;
    } else {
      assert (s + t)[1..] == s[1..] + t;
      ReplaceAllAppends(s[1..], t, c, put);
    }
  }

  /** Escaping goes character by character. */
  lemma EscapeFirst(token: string)
    requires token != ""
    ensures Escape(token) ==
      (if token[0] == '~' then "~0" else if token[0] == '/' then "~1" else [token[0]]) + Escape(token[1..])
  {
    var first := if token[0] == '~' then "~0" else [token[0]];
    var rest := ReplaceAll(token[1..], '~', "~0");
    ReplaceAllAppends(first, rest, '/', "~1");
    if token[0] == '~' {
      assert "~0"[1..] == "0";
      assert ReplaceAll("0", '/', "~1") == "0";
      assert ReplaceAll(first, '/', "~1") == "~0";
    }
  }

  lemma Pair(s: string, a: char, b: char, put: char)
    requires |s| >= 2 && s[0] == a && s[1] == b
    ensures ReplacePair(s, a, b, put) == [put] + ReplacePair(s[2..], a, b, put)
  {
  }

  lemma NoPair(c: char, rest: string, a: char, b: char, put: char)
    requires c != a || rest == "" || rest[0] != b
    ensures ReplacePair([c] + rest, a, b, put) == [c] + ReplacePair(rest, a, b, put)
  {
    assert ([c] + rest)[1..] == rest;
  }

  /** Unescaping a two-character escape or a single other character, and then the rest. */
  lemma UnescapeFirst(raw: string)
    requires raw != "" && WellEscaped(raw)
    ensures raw[0] == '~' && raw[1] == '0' ==> Unescape(raw) == "~" + Unescape(raw[2..])
    ensures raw[0] == '~' && raw[1] == '1' ==> Unescape(raw) == "/" + Unescape(raw[2..])
    ensures raw[0] != '~' ==> Unescape(raw) == [raw[0]] + Unescape(raw[1..])
  {
    if raw[0] == '~' && raw[1] == '0' {
      var rest := ReplacePair(raw[2..], '~', '1', '/');
      assert raw == ['~'] + (['0'] + raw[2..]);
      NoPair('~', ['0'] + raw[2..], '~', '1', '/');
      NoPair('0', raw[2..], '~', '1', '/');
      Pair(['~'] + (['0'] + rest), '~', '0', '~');
      assert (['~'] + (['0'] + rest))[2..] == rest;
    } else if raw[0] == '~' {
      Pair(raw, '~', '1', '/');
      NoPair('/', ReplacePair(raw[2..], '~', '1', '/'), '~', '0', '~');
    } else {
      assert raw == [raw[0]] + raw[1..];
      NoPair(raw[0], raw[1..], '~', '1', '/');
      NoPair(raw[0], ReplacePair(raw[1..], '~', '1', '/'), '~', '0', '~');
    }
  }

  lemma {:induction false} EscapeRoundTrip(token: string)
    ensures WellEscaped(Escape(token)) && SlashFree(Escape(token))
    ensures Unescape(Escape(token)) == token
  {
    if token != "" {
      EscapeRoundTrip(token[1..]);
      EscapeFirst(token);
      var raw := Escape(token);
      if token[0] == '~' || token[0] == '/' {
        assert raw[2..] == Escape(token[1..]);
      } else {
        assert raw[1..] == Escape(token[1..]);
      }
      UnescapeFirst(raw);
    }
  }

  lemma {:induction false} UnescapeRoundTrip(raw: string)
    requires WellEscaped(raw) && SlashFree(raw)
    ensures Escape(Unescape(raw)) == raw
    decreases |raw|
  {
    if raw != "" {
      UnescapeFirst(raw);
      var n := if raw[0] == '~' then 2 else 1;
      UnescapeRoundTrip(raw[n..]);
      EscapeFirst(Unescape(raw));
      assert Unescape(raw)[1..] == Unescape(raw[n..]);
      assert raw[..n] + raw[n..] == raw;
    }
  }

  // ----- splitting and joining -----

  function Join(raws: seq<string>): string {
    if raws == [] then "" else "/" + raws[0] + Join(raws[1..])
  }

  lemma {:induction false} SplitSlashFree(s: string)
    ensures forall i | 0 <= i < |Split(s)| :: SlashFree(Split(s)[i])
  {
    if s != "" { SplitSlashFree(s[1..]); }
  }

  lemma JoinPrepend(c: char, raws: seq<string>)
    requires raws != []
    ensures Join([[c] + raws[0]] + raws[1..]) == "/" + [c] + Join(raws)[1..]
  {
    var longer := [[c] + raws[0]] + raws[1..];
    assert longer[1..] == raws[1..];
    assert Join(raws) == "/" + (raws[0] + Join(raws[1..]));
    assert Join(longer) == "/" + ([c] + raws[0]) + Join(raws[1..]);
  }

  lemma {:induction false} JoinSplit(s: string)
    ensures Join(Split(s)) == "/" + s
  {
    if s == "" {
      assert Join([""]) == "/" + "" + Join([""][1..]);
    } else {
      JoinSplit(s[1..]);
      var rest := Split(s[1..]);
      if s[0] == '/' {
        assert ([""] + rest)[1..] == rest;
        assert Join([""] + rest) == "/" + "" + Join(rest);
      } else {
        JoinPrepend(s[0], rest);
      }
    }
  }

  lemma {:induction false} SplitPrefix(raw: string, s: string)
    requires SlashFree(raw)
    ensures Split(raw + s) == [raw + Split(s)[0]] + Split(s)[1..]
  {
    if raw == "" {
      assert raw + s == s;
      assert raw + Split(s)[0] == Split(s)[0];
    } else {
      var rest := raw[1..] + s;
      assert (raw + s)[1..] == rest;
      SplitPrefix(raw[1..], s);
      assert (raw + s)[0] == raw[0];
      assert Split(rest)[0] == raw[1..] + Split(s)[0];
      assert Split(rest)[1..] == Split(s)[1..];
      assert [raw[0]] + (raw[1..] + Split(s)[0]) == raw + Split(s)[0];
    }
  }

  lemma {:induction false} SplitJoin(raws: seq<string>)
    requires raws != [] && forall i | 0 <= i < |raws| :: SlashFree(raws[i])
    ensures Split(Join(raws)[1..]) == raws
  {
    hide SlashFree;
    var rest := Join(raws[1..]);
    assert Join(raws)[1..] == raws[0] + rest;
    SplitPrefix(raws[0], rest);
    if |raws| == 1 {
      assert raws[0] + "" == raws[0];
    } else {
      SplitJoin(raws[1..]);
      assert rest == "/" + rest[1..];
      assert Split(rest) == [""] + raws[1..];
      assert raws[0] + "" == raws[0];
      assert Split(rest)[1..] == raws[1..];
    }
  }

  lemma {:induction false} WellEscapedSplits(s: string)
    requires WellEscaped(s)
    ensures forall raw | raw in Split(s) :: WellEscaped(raw)
    decreases |s|
  {
    if s != "" && s[0] == '~' {
      WellEscapedSplits(s[2..]);
      var rest := Split(s[2..]);
      assert s[1..][1..] == s[2..];
      assert Split(s[1..]) == [[s[1]] + rest[0]] + rest[1..];
      var first := [s[0]] + ([s[1]] + rest[0]);
      assert Split(s) == [first] + rest[1..];
      assert first[2..] == rest[0];
    } else if s != "" {
      WellEscapedSplits(s[1..]);
      var rest := Split(s[1..]);
      if s[0] != '/' {
        var first := [s[0]] + rest[0];
        assert first[1..] == rest[0];
        assert Split(s) == [first] + rest[1..];
      }
    }
  }

  function Escaped(route: seq<string>): (raws: seq<string>)
    ensures |raws| == |route| && forall i | 0 <= i < |raws| :: raws[i] == Escape(route[i])
    ensures Join(raws) == Encode(route)
  {
    if route == [] then []
    else
      var raws := [Escape(route[0])] + Escaped(route[1..]);
      assert raws[1..] == Escaped(route[1..]);
      raws
  }

  lemma {:induction false} UnescapeEach(raws: seq<string>, route: seq<string>)
    requires |raws| == |route| && forall i | 0 <= i < |raws| :: Unescape(raws[i]) == route[i]
    ensures UnescapeAll(raws) == route
  {
    if raws != [] {
      UnescapeEach(raws[1..], route[1..]);
      assert [route[0]] + route[1..] == route;
    }
  }

  /** Decoding the pointer of a route gives back the route, whatever its keys contain. */
  lemma DecodeEncode(route: seq<string>)
    ensures Decode(Encode(route)) == route
  {
    if route != [] {
      var raws := Escaped(route);
      forall i | 0 <= i < |raws|
        ensures SlashFree(raws[i]) && Unescape(raws[i]) == route[i]
      {
        EscapeRoundTrip(route[i]);
      }
      SplitJoin(raws);
      UnescapeEach(raws, route);
    }
  }

  lemma EncodeInjective(a: seq<string>, b: seq<string>)
    requires Encode(a) == Encode(b)
    ensures a == b
  {
    DecodeEncode(a);
    DecodeEncode(b);
  }

  lemma {:induction false} EncodeRaws(raws: seq<string>)
    requires forall i | 0 <= i < |raws| :: WellEscaped(raws[i]) && SlashFree(raws[i])
    ensures Encode(UnescapeAll(raws)) == Join(raws)
  {
    if raws != [] {
      UnescapeRoundTrip(raws[0]);
      EncodeRaws(raws[1..]);
      assert UnescapeAll(raws)[1..] == UnescapeAll(raws[1..]);
    }
  }

  /** Every valid pointer is the pointer of the route it decodes to. */
  lemma EncodeDecode(pointer: string)
    requires pointer != "" && pointer[0] == '/' && WellEscaped(pointer)
    ensures Encode(Decode(pointer)) == pointer && Decode(pointer) != []
  {
    var s := pointer[1..];
    JoinSplit(s);
    SplitSlashFree(s);
    WellEscapedSplits(s);
    EncodeRaws(Split(s));
    assert "/" + s == pointer;
  }

  lemma {:induction false} WellEscapedAppends(s: string, t: string)
    requires WellEscaped(s) && WellEscaped(t)
    ensures WellEscaped(s + t)
    decreases |s|
  {
    if s == "" {
      assert s + t == t;
    } else {
      var n := if s[0] == '~' then 2 else 1;
      WellEscapedAppends(s[n..], t);
      assert (s + t)[n..] == s[n..] + t;
    }
  }

  lemma SlashFirst(raw: string, rest: string)
    requires WellEscaped(raw + rest)
    ensures WellEscaped("/" + raw + rest) && ("/" + raw + rest)[0] == '/'
  {
    assert ("/" + raw + rest)[1..] == raw + rest;
  }

  lemma {:induction false} EncodeWellEscaped(route: seq<string>)
    ensures WellEscaped(Encode(route))
    ensures route != [] ==> Encode(route) != "" && Encode(route)[0] == '/'
  {
    if route != [] {
      EscapeRoundTrip(route[0]);
      EncodeWellEscaped(route[1..]);
      var raw, rest := Escape(route[0]), Encode(route[1..]);
      WellEscapedAppends(raw, rest);
      SlashFirst(raw, rest);
    }
  }

  ghost predicate IsPointer(value: string) {
    exists route: seq<string> :: route != [] && value == Encode(route)
  }

  lemma PointersAreWellEscaped(value: string)
    ensures IsPointer(value) <==> (value != "" && value[0] == '/' && WellEscaped(value))
  {
    if IsPointer(value) {
      var route: seq<string> :| route != [] && value == Encode(route);
      EncodeWellEscaped(route);
    }
    if value != "" && value[0] == '/' && WellEscaped(value) {
      EncodeDecode(value);
      assert IsPointer(value) by { assert value == Encode(Decode(value)); }
    }
  }

  /** Accepts exactly the pointers of the non-empty routes. */
  method ValidPointer(value: string) returns (valid: bool)
    ensures valid <==> IsPointer(value)
  {
    PointersAreWellEscaped(value);
    if value == "" || value[0] != '/' { return false; }
    var i := 0;
    while i < |value|
      invariant i <= |value|
      invariant WellEscaped(value) <==> WellEscaped(value[i..])
    {
      assert value[i..][1..] == value[i + 1..];
      if value[i] == '~' {
        if i + 1 >= |value| || (value[i + 1] != '0' && value[i + 1] != '1') { return false; }
        assert value[i..][2..] == value[i + 2..];
        i := i + 1;
      }
      i := i + 1;
    }
    return true;
  }

  lemma {:induction false} EncodeAppends(a: seq<string>, b: seq<string>)
    ensures Encode(a + b) == Encode(a) + Encode(b)
  {
    if a == [] {
      assert a + b == b;
    } else {
      assert (a + b)[1..] == a[1..] + b;
      EncodeAppends(a[1..], b);
    }
  }

  lemma EncodeSnoc(route: seq<string>, token: string)
    ensures AppendPointer(Encode(route), token) == Encode(route + [token])
  {
    EncodeAppends(route, [token]);
    assert [token][1..] == [];
    assert Encode([token]) == "/" + Escape(token) + Encode([token][1..]);
    assert "/" + Escape(token) + "" == "/" + Escape(token);
  }

  // ----- one step of a walk is one child of the value -----

  /** Keys are distinct in every object, at every depth. */
  ghost predicate Decoded(v: Json)
    decreases v
  {
    && (v.Obj? ==> forall i, j | 0 <= i < j < |v.members| :: v.members[i].key != v.members[j].key)
    && forall i | 0 <= i < Breadth(v) :: Decoded(Child(v, i))
  }

  lemma {:induction false} MemberFound(members: seq<Member>, i: nat)
    requires i < |members|
    requires forall a, b | 0 <= a < b < |members| :: members[a].key != members[b].key
    ensures MemberNamed(members, members[i].key) == Some(members[i].value)
  {
    if i > 0 {
      assert members[0].key != members[i].key;
      assert members[1..][i - 1] == members[i];
      MemberFound(members[1..], i - 1);
    }
  }

  lemma {:induction false} MemberAt(members: seq<Member>, key: string)
    requires MemberNamed(members, key).Some?
    ensures exists i :: 0 <= i < |members| && members[i].key == key
  {
    if members[0].key != key {
      MemberAt(members[1..], key);
      var i :| 0 <= i < |members[1..]| && members[1..][i].key == key;
      assert members[i + 1].key == key;
    }
  }

  lemma StepToChild(v: Json, i: nat)
    requires Decoded(v) && i < Breadth(v)
    ensures Step(v, Token(v, i)) == Some(Child(v, i))
  {
    if v.Obj? { MemberFound(v.members, i); } else { DecimalCanonical(i); }
  }

  lemma ChildOfStep(v: Json, token: string) returns (i: nat)
    requires Decoded(v) && Step(v, token).Some?
    ensures i < Breadth(v) && Token(v, i) == token && Step(v, token) == Some(Child(v, i))
  {
    if v.Obj? {
      MemberAt(v.members, token);
      i :| 0 <= i < |v.members| && v.members[i].key == token;
      StepToChild(v, i);
    } else {
      CanonicalDecimal(token);
      i := ArrayIndex(token).value;
    }
  }

  lemma TokensDistinct(v: Json, i: nat, j: nat)
    requires Decoded(v) && i < Breadth(v) && j < Breadth(v) && Token(v, i) == Token(v, j)
    ensures i == j
  {
    if v.Arr? {
      DecimalCanonical(i);
      DecimalCanonical(j);
    }
  }

  // ----- where the collected fields are -----

  /** `f` is the string at the end of `rest`, walked from `v`, which itself sits at `route`. */
  ghost predicate At(v: Json, route: seq<string>, field: string, f: Field, rest: seq<string>) {
    && f.path == Encode(route + rest)
    && Evaluate(v, rest) == Some(Str(f.value))
    && f.field == NearestKey(v, rest, field)
  }

  ghost predicate Located(v: Json, route: seq<string>, field: string, f: Field) {
    exists rest: seq<string> :: At(v, route, field, f, rest)
  }

  function Below(v: Json, i: nat, field: string): string
    requires i < Breadth(v)
  {
    if v.Obj? then Token(v, i) else field
  }

  lemma LocatedThroughChild(v: Json, i: nat, route: seq<string>, field: string, f: Field, rest: seq<string>)
    requires Decoded(v) && i < Breadth(v)
    requires At(Child(v, i), route + [Token(v, i)], Below(v, i, field), f, rest)
    ensures At(v, route, field, f, [Token(v, i)] + rest)
  {
    StepToChild(v, i);
    var all := [Token(v, i)] + rest;
    assert all[1..] == rest;
    assert route + [Token(v, i)] + rest == route + all;
  }

  lemma {:induction false} FieldsLocated(v: Json, route: seq<string>, field: string, f: Field)
    requires Decoded(v) && f in Fields(v, Encode(route), field)
    ensures Located(v, route, field, f)
    decreases v, Breadth(v) + 1
  {
    if v.Str? {
      assert route + [] == route;
      assert At(v, route, field, f, []);
    } else {
      var i, rest := FieldsFromLocated(v, 0, route, field, f);
      LocatedThroughChild(v, i, route, field, f, rest);
    }
  }

  lemma {:induction false} FieldsFromLocated(v: Json, i: nat, route: seq<string>, field: string, f: Field)
    returns (j: nat, rest: seq<string>)
    requires Decoded(v) && i <= Breadth(v) && f in FieldsFrom(v, i, Encode(route), field)
    ensures i <= j < Breadth(v) && At(Child(v, j), route + [Token(v, j)], Below(v, j, field), f, rest)
    decreases v, Breadth(v) - i
  {
    EncodeSnoc(route, Token(v, i));
    var here := Fields(Child(v, i), Encode(route + [Token(v, i)]), Below(v, i, field));
    if f in here {
      FieldsLocated(Child(v, i), route + [Token(v, i)], Below(v, i, field), f);
      j := i;
      rest :| At(Child(v, i), route + [Token(v, i)], Below(v, i, field), f, rest);
    } else {
      j, rest := FieldsFromLocated(v, i + 1, route, field, f);
    }
  }

  lemma {:induction false} LaterFields(v: Json, i: nat, j: nat, path: string, field: string, f: Field)
    requires i <= j < Breadth(v)
    requires f in Fields(Child(v, j), AppendPointer(path, Token(v, j)), Below(v, j, field))
    ensures f in FieldsFrom(v, i, path, field)
    decreases j - i
  {
    if i < j { LaterFields(v, i + 1, j, path, field, f); }
  }

  /** No string is missed. */
  lemma {:induction false} StringsCollected(v: Json, route: seq<string>, field: string, rest: seq<string>, text: string)
    requires Decoded(v) && Evaluate(v, rest) == Some(Str(text))
    ensures Field(Encode(route + rest), NearestKey(v, rest, field), text) in Fields(v, Encode(route), field)
    decreases rest
  {
    if rest == [] {
      assert route + rest == route;
    } else {
      var i := ChildOfStep(v, rest[0]);
      StringsCollected(Child(v, i), route + [rest[0]], Below(v, i, field), rest[1..], text);
      assert route + [rest[0]] + rest[1..] == route + rest;
      EncodeSnoc(route, rest[0]);
      LaterFields(v, 0, i, Encode(route), field,
                  Field(Encode(route + rest), NearestKey(v, rest, field), text));
    }
  }

  // ----- the paths are pairwise distinct -----

  ghost predicate Distinct(fields: seq<Field>) {
    forall i, j | 0 <= i < j < |fields| :: fields[i].path != fields[j].path
  }

  lemma {:induction false} FieldsDistinct(v: Json, route: seq<string>, field: string)
    requires Decoded(v)
    ensures Distinct(Fields(v, Encode(route), field))
    decreases v, Breadth(v) + 1
  {
    if !v.Str? { FieldsFromDistinct(v, 0, route, field); }
  }

  lemma {:induction false} FieldsFromDistinct(v: Json, i: nat, route: seq<string>, field: string)
    requires Decoded(v) && i <= Breadth(v)
    ensures Distinct(FieldsFrom(v, i, Encode(route), field))
    decreases v, Breadth(v) - i
  {
    if i < Breadth(v) {
      EncodeSnoc(route, Token(v, i));
      var deeper := route + [Token(v, i)];
      var here := Fields(Child(v, i), Encode(deeper), Below(v, i, field));
      var later := FieldsFrom(v, i + 1, Encode(route), field);
      FieldsDistinct(Child(v, i), deeper, Below(v, i, field));
      FieldsFromDistinct(v, i + 1, route, field);
      forall f, g | f in here && g in later
        ensures f.path != g.path
      {
        ApartChildren(v, i, route, field, f, g);
      }
    }
  }

  lemma ApartChildren(v: Json, i: nat, route: seq<string>, field: string, f: Field, g: Field)
    requires Decoded(v) && i < Breadth(v)
    requires f in Fields(Child(v, i), Encode(route + [Token(v, i)]), Below(v, i, field))
    requires g in FieldsFrom(v, i + 1, Encode(route), field)
    ensures f.path != g.path
  {
    var deeper := route + [Token(v, i)];
    FieldsLocated(Child(v, i), deeper, Below(v, i, field), f);
    var rest :| At(Child(v, i), deeper, Below(v, i, field), f, rest);
    var j, other := FieldsFromLocated(v, i + 1, route, field, g);
    if f.path == g.path {
      EncodeInjective(deeper + rest, route + [Token(v, j)] + other);
      assert (deeper + rest)[|route|] == Token(v, i);
      assert (route + [Token(v, j)] + other)[|route|] == Token(v, j);
      TokensDistinct(v, i, j);
    }
  }

  // ----- lookup -----

  function Lookup(fields: seq<Field>, path: string): Option<string> {
    if fields == [] then None
    else if fields[0].path == path then Some(fields[0].value)
    else Lookup(fields[1..], path)
  }

  lemma {:induction false} LookupFinds(fields: seq<Field>, path: string)
    ensures Lookup(fields, path).Some? ==>
              exists f | f in fields :: f.path == path && Lookup(fields, path) == Some(f.value)
    ensures Lookup(fields, path).None? ==> forall f | f in fields :: f.path != path
  {
    if fields != [] && fields[0].path != path {
      LookupFinds(fields[1..], path);
    }
  }

  /** The fields of a document, in any order: the code sorts them by path. */
  ghost predicate Arranged(document: Json, fields: seq<Field>) {
    multiset(fields) == multiset(Fields(document, "", ""))
  }

  lemma DistinctByPath(fields: seq<Field>, f: Field, g: Field)
    requires Distinct(fields) && f in fields && g in fields && f.path == g.path
    ensures f == g
  {
  }

  /** The collected fields are exactly the strings of the document, each under its own pointer. */
  lemma CollectedExactly(document: Json, f: Field)
    requires Decoded(document) && document.Obj?
    ensures f in Fields(document, "", "") <==>
      exists route: seq<string> :: route != [] && At(document, [], "", f, route)
    ensures Distinct(Fields(document, "", ""))
  {
    assert Encode([]) == "";
    FieldsDistinct(document, [], "");
    if f in Fields(document, "", "") {
      FieldsLocated(document, [], "", f);
      var route: seq<string> :| At(document, [], "", f, route);
      assert route != [];
    }
    if route: seq<string> :| route != [] && At(document, [], "", f, route) {
      StringsCollected(document, [], "", route, f.value);
    }
  }

  /** Looking a path up is evaluating it as a JSON Pointer, for every path text. */
  lemma LookupEvaluates(document: Json, fields: seq<Field>, path: string, text: string)
    requires Decoded(document) && document.Obj? && Arranged(document, fields)
    ensures Lookup(fields, path) == Some(text) <==>
      IsPointer(path) && Evaluate(document, Decode(path)) == Some(Str(text))
  {
    var collected := Fields(document, "", "");
    LookupFinds(fields, path);
    if Lookup(fields, path) == Some(text) {
      var f :| f in fields && f.path == path && Lookup(fields, path) == Some(f.value);
      assert f in multiset(fields);
      CollectedExactly(document, f);
      var route: seq<string> :| route != [] && At(document, [], "", f, route);
      assert [] + route == route;
      DecodeEncode(route);
    }
    if IsPointer(path) && Evaluate(document, Decode(path)) == Some(Str(text)) {
      PointersAreWellEscaped(path);
      EncodeDecode(path);
      var route := Decode(path);
      assert [] + route == route;
      var f := Field(path, NearestKey(document, route, ""), text);
      StringsCollected(document, [], "", route, text);
      assert f in collected && f in multiset(collected) && f in fields;
      FieldsDistinct(document, [], "");
      var g :| g in fields && g.path == path && Lookup(fields, path) == Some(g.value);
      assert g in multiset(fields) && g in collected;
      DistinctByPath(collected, f, g);
    }
  }

  /** Collects, sorts by path, and returns the first field whose path is the given text. */
  method StringField(document: Json, path: string) returns (found: Option<string>)
    requires Decoded(document) && document.Obj?
    ensures found ==
      if IsPointer(path) && Evaluate(document, Decode(path)).Some? && Evaluate(document, Decode(path)).value.Str?
      then Some(Evaluate(document, Decode(path)).value.text)
      else None
  {
    hide Evaluate, Decode, IsPointer, Before;
    var collector := new Collector();
    collector.CollectStringFields(document, "", "");
    var fields := Sort(collector.fields, (a: Field, b: Field) => Before(a.path, b.path));
    found := None;
    var i := 0;
    while i < |fields|
      invariant i <= |fields|
      invariant Lookup(fields, path) == Lookup(fields[i..], path)
    {
      assert fields[i..][1..] == fields[i + 1..];
      if fields[i].path == path {
        found := Some(fields[i].value);
        break;
      }
      i := i + 1;
    }
    assert found == Lookup(fields, path);
    forall text: string { LookupEvaluates(document, fields, path, text); }
  }
}
