/**
 JSON values as the browser code handles them, the canonical form used by the
 permission editor to detect unsaved changes, and the text JSON.stringify gives.
 Strings are sequences of UTF-16 code units, as in the source language.
 */
module Json {

  type CodeUnit = n: nat | n < 0x1_0000
  type Text = seq<CodeUnit>

  const QUOTE: CodeUnit := 34
  const PLUS: CodeUnit := 43
  const COMMA: CodeUnit := 44
  const MINUS: CodeUnit := 45
  const DOT: CodeUnit := 46
  const COLON: CodeUnit := 58
  const OPEN_BRACKET: CodeUnit := 91
  const BACKSLASH: CodeUnit := 92
  const CLOSE_BRACKET: CodeUnit := 93
  const LETTER_U: CodeUnit := 117
  const OPEN_BRACE: CodeUnit := 123
  const CLOSE_BRACE: CodeUnit := 125

  /** A JSON value; an object lists its members in enumeration order, and a
      number is identified with the text the language prints for it. */
  datatype Value =
    | Null
    | Bool(b: bool)
    | Num(digits: Text)
    | Str(text: Text)
    | Arr(items: seq<Value>)
    | Obj(members: seq<Member>)

  datatype Member = Member(key: Text, value: Value)

  /** What a value means once the order of object members is forgotten. */
  datatype Meaning =
    | MNull
    | MBool(b: bool)
    | MNum(digits: Text)
    | MStr(text: Text)
    | MArr(items: seq<Meaning>)
    | MObj(members: map<Text, Meaning>)

  predicate IsDigit(u: CodeUnit) { 48 <= u <= 57 }

  predicate IsNumberUnit(u: CodeUnit) {
    IsDigit(u) || u == PLUS || u == MINUS || u == DOT || u == 69 || u == 101
  }

  predicate IsNumberText(t: Text) {
    && t != []
    && (IsDigit(t[0]) || t[0] == MINUS)
    && forall i | 0 <= i < |t| :: IsNumberUnit(t[i])
  }

  predicate DistinctKeys(ms: seq<Member>) {
    forall i, j | 0 <= i < j < |ms| :: ms[i].key != ms[j].key
  }

  /** Numbers print as number text and an object has no key twice. */
  predicate WellFormed(v: Value) {
    match v
    case Num(t) => IsNumberText(t)
    case Arr(items) => forall i | 0 <= i < |items| :: WellFormed(items[i])
    case Obj(ms) => DistinctKeys(ms) && forall i | 0 <= i < |ms| :: WellFormed(ms[i].value)
    case _ => true
  }

  // ---------------------------------------------------------------- order

  /** The language's `<` on strings: code unit by code unit, a prefix first. */
  predicate Less(a: Text, b: Text) {
    if b == [] then false
    else if a == [] then true
    else if a[0] != b[0] then a[0] < b[0]
    else Less(a[1..], b[1..])
  }

  /** One text is less than another where they first differ, or if it ends there. */
  ghost predicate LessAt(a: Text, b: Text, k: nat) {
    k <= |a| && k < |b| && a[..k] == b[..k] && (k == |a| || a[k] < b[k])
  }

  lemma {:induction false} LessMeans(a: Text, b: Text, k: nat)
    requires LessAt(a, b, k)
    ensures Less(a, b)
  {
    if k > 0 {
      assert a[0] == a[..k][0] && b[0] == b[..k][0];
      assert a[1..][..k - 1] == a[..k][1..] && b[1..][..k - 1] == b[..k][1..];
      LessMeans(a[1..], b[1..], k - 1);
    }
  }

  lemma {:induction false} LessWhere(a: Text, b: Text) returns (k: nat)
    requires Less(a, b)
    ensures LessAt(a, b, k)
  {
    if a == [] || a[0] != b[0] {
      k := 0;
    } else {
      var n := LessWhere(a[1..], b[1..]);
      k := n + 1;
      assert a[..k] == [a[0]] + a[1..][..n] && b[..k] == [b[0]] + b[1..][..n];
    }
  }

  lemma {:induction false} LessTotal(a: Text, b: Text)
    ensures a == b || Less(a, b) || Less(b, a)
    ensures !(Less(a, b) && Less(b, a))
    ensures !Less(a, a)
  {
    if a != [] && b != [] && a[0] == b[0] {
      LessTotal(a[1..], b[1..]);
      if a[1..] == b[1..] {
        assert a == [a[0]] + a[1..] == b;
      }
    }
    LessIrreflexive(a);
  }

  lemma {:induction false} LessIrreflexive(a: Text)
    ensures !Less(a, a)
  {
    if a != [] {
      LessIrreflexive(a[1..]);
    }
  }

  lemma {:induction false} LessTransitive(a: Text, b: Text, c: Text)
    requires Less(a, b) && Less(b, c)
    ensures Less(a, c)
  {
    if a != [] && a[0] == b[0] == c[0] {
      LessTransitive(a[1..], b[1..], c[1..]);
    }
  }

  // ---------------------------------------------------------------- canonical form

  predicate KeysAscend(ms: seq<Member>) {
    forall i, j | 0 <= i < j < |ms| :: Less(ms[i].key, ms[j].key)
  }

  /** One step of the key sort: the member at its place in an ascending list. */
  function Insert(m: Member, ms: seq<Member>): seq<Member> {
    if ms == [] || Less(m.key, ms[0].key) then [m] + ms else [ms[0]] + Insert(m, ms[1..])
  }

  function SortMembers(ms: seq<Member>): seq<Member> {
    if ms == [] then [] else Insert(ms[0], SortMembers(ms[1..]))
  }

  /** Numerals without leading zeros, by number. */
  predicate IndexLess(a: Text, b: Text) {
    |a| < |b| || (|a| == |b| && Less(a, b))
  }

  /** 4294967294, the largest array index. */
  const LAST_INDEX: Text := [52, 50, 57, 52, 57, 54, 55, 50, 57, 52]

  /** An array index: "0", or digits without a leading zero, up to the largest. */
  predicate IsIndex(key: Text) {
    && key != []
    && (forall i | 0 <= i < |key| :: IsDigit(key[i]))
    && (key[0] == 48 ==> |key| == 1)
    && !IndexLess(LAST_INDEX, key)
  }

  function InsertIndex(m: Member, ms: seq<Member>): seq<Member> {
    if ms == [] || IndexLess(m.key, ms[0].key) then [m] + ms else [ms[0]] + InsertIndex(m, ms[1..])
  }

  /** Object.fromEntries: the new object enumerates index keys first, by number,
      and then the other keys in the order they were given. */
  function IndexPart(ms: seq<Member>): seq<Member> {
    if ms == [] then []
    else if IsIndex(ms[0].key) then InsertIndex(ms[0], IndexPart(ms[1..]))
    else IndexPart(ms[1..])
  }

  function NamePart(ms: seq<Member>): seq<Member> {
    if ms == [] then []
    else if IsIndex(ms[0].key) then NamePart(ms[1..])
    else [ms[0]] + NamePart(ms[1..])
  }

  function FromEntries(ms: seq<Member>): seq<Member> {
    IndexPart(ms) + NamePart(ms)
  }

  /** The canonical form of a value. */
  function Stable(v: Value): Value
    decreases v
  {
    match v
    case Arr(items) => Arr(StableItems(items))
    case Obj(ms) => Obj(FromEntries(SortMembers(StableMembers(ms))))
    case _ => v
  }

  function StableItems(items: seq<Value>): (r: seq<Value>)
    ensures |r| == |items|
    decreases items
  {
    if items == [] then [] else [Stable(items[0])] + StableItems(items[1..])
  }

  function StableMembers(ms: seq<Member>): (r: seq<Member>)
    ensures |r| == |ms|
    decreases ms
  {
    if ms == [] then []
    else [Member(ms[0].key, Stable(ms[0].value))] + StableMembers(ms[1..])
  }

  // ---------------------------------------------------------------- meaning

  function Mean(v: Value): Meaning
    decreases v
  {
    match v
    case Null => MNull
    case Bool(b) => MBool(b)
    case Num(t) => MNum(t)
    case Str(t) => MStr(t)
    case Arr(items) => MArr(MeanItems(items))
    case Obj(ms) => MObj(MeanMembers(ms))
  }

  function MeanItems(items: seq<Value>): (r: seq<Meaning>)
    ensures |r| == |items|
    ensures forall i | 0 <= i < |items| :: r[i] == Mean(items[i])
    decreases items
  {
    if items == [] then [] else [Mean(items[0])] + MeanItems(items[1..])
  }

  function MeanMembers(ms: seq<Member>): map<Text, Meaning>
    decreases ms
  {
    if ms == [] then map[]
    else MeanMembers(ms[1..])[ms[0].key := Mean(ms[0].value)]
  }

  // ---------------------------------------------------------------- text

  /** Lower-case hexadecimal digit. */
  function Hex(d: nat): CodeUnit
    requires d < 16
  {
    if d < 10 then 48 + d else 87 + d
  }

  function HexValue(u: CodeUnit): (d: nat)
    ensures d < 16
  {
    if 48 <= u <= 57 then u - 48 else if 97 <= u <= 102 then u - 87 else 0
  }

  /** The letter of a two-unit escape, or 0 when the unit has none. */
  function ShortEscape(u: CodeUnit): CodeUnit {
    if u == QUOTE then QUOTE
    else if u == BACKSLASH then BACKSLASH
    else if u == 8 then 98
    else if u == 9 then 116
    else if u == 10 then 110
    else if u == 12 then 102
    else if u == 13 then 114
    else 0
  }

  function LongEscape(u: CodeUnit): Text {
    [BACKSLASH, LETTER_U, Hex(u / 4096), Hex(u / 256 % 16), Hex(u / 16 % 16), Hex(u % 16)]
  }

  predicate LeadSurrogate(u: CodeUnit) { 0xD800 <= u <= 0xDBFF }

  predicate TrailSurrogate(u: CodeUnit) { 0xDC00 <= u <= 0xDFFF }

  /** A surrogate at position i that is not half of a pair. */
  predicate LoneSurrogate(t: Text, i: nat)
    requires i < |t|
  {
    || (LeadSurrogate(t[i]) && !(i + 1 < |t| && TrailSurrogate(t[i + 1])))
    || (TrailSurrogate(t[i]) && !(0 < i && LeadSurrogate(t[i - 1])))
  }

  function EscapeAt(t: Text, i: nat): Text
    requires i < |t|
  {
    var u := t[i];
    if ShortEscape(u) != 0 then [BACKSLASH, ShortEscape(u)]
    else if u < 32 || LoneSurrogate(t, i) then LongEscape(u)
    else [u]
  }

  /** The escaped units from position i on, the closing quote, and then rest. */
  function EscapeFrom(t: Text, i: nat, rest: Text): Text
    requires i <= |t|
    decreases |t| - i
  {
    if i == |t| then [QUOTE] + rest else EscapeAt(t, i) + EscapeFrom(t, i + 1, rest)
  }

  function Quoted(t: Text, rest: Text): Text {
    [QUOTE] + EscapeFrom(t, 0, rest)
  }

  /** The text of a value with more text behind it. */
  function Print(v: Value, rest: Text): Text
    decreases v
  {
    match v
    case Null => [110, 117, 108, 108] + rest
    case Bool(b) => if b then [116, 114, 117, 101] + rest else [102, 97, 108, 115, 101] + rest
    case Num(t) => t + rest
    case Str(t) => Quoted(t, rest)
    case Arr(items) =>
      if items == [] then [OPEN_BRACKET, CLOSE_BRACKET] + rest
      else [OPEN_BRACKET] + Print(items[0], PrintItems(items[1..], rest))
    case Obj(ms) =>
      if ms == [] then [OPEN_BRACE, CLOSE_BRACE] + rest
      else [OPEN_BRACE] + PrintMember(ms[0], PrintMembers(ms[1..], rest))
  }

  function PrintItems(items: seq<Value>, rest: Text): Text
    decreases items
  {
    if items == [] then [CLOSE_BRACKET] + rest
    else [COMMA] + Print(items[0], PrintItems(items[1..], rest))
  }

  function PrintMember(m: Member, rest: Text): Text
    decreases m
  {
    Quoted(m.key, [COLON] + Print(m.value, rest))
  }

  function PrintMembers(ms: seq<Member>, rest: Text): Text
    decreases ms
  {
    if ms == [] then [CLOSE_BRACE] + rest
    else [COMMA] + PrintMember(ms[0], PrintMembers(ms[1..], rest))
  }

  /** JSON.stringify. */
  function Serialise(v: Value): Text {
    Print(v, [])
  }

  /** Whether the two values count as an edit. */
  predicate Changed(before: Value, after: Value) {
    Serialise(Stable(before)) != Serialise(Stable(after))
  }

  // ---------------------------------------------------------------- reading text back

  /** The unit an escaped string starts with, and how many units spell it. */
  function ReadUnit(s: Text): (r: (CodeUnit, nat))
    ensures 1 <= r.1 <= 6
  {
    if |s| >= 6 && s[0] == BACKSLASH && s[1] == LETTER_U then
      (HexValue(s[2]) * 4096 + HexValue(s[3]) * 256 + HexValue(s[4]) * 16 + HexValue(s[5]), 6)
    else if |s| >= 2 && s[0] == BACKSLASH then
      (if s[1] == 98 then 8 else if s[1] == 116 then 9 else if s[1] == 110 then 10
       else if s[1] == 102 then 12 else if s[1] == 114 then 13 else s[1], 2)
    else (if s == [] then 0 else s[0], 1)
  }

  lemma HexRoundTrip(u: CodeUnit)
    ensures HexValue(Hex(u / 4096)) * 4096 + HexValue(Hex(u / 256 % 16)) * 256
            + HexValue(Hex(u / 16 % 16)) * 16 + HexValue(Hex(u % 16)) == u
  {
    assert u == u / 16 * 16 + u % 16;
    assert u / 16 == u / 256 * 16 + u / 16 % 16;
    assert u / 256 == u / 4096 * 16 + u / 256 % 16;
  }

  /** Whatever follows, the escaped unit reads back, and it is never a bare quote. */
  lemma ReadEscaped(t: Text, i: nat, rest: Text)
    requires i < |t|
    ensures ReadUnit(EscapeAt(t, i) + rest) == (t[i], |EscapeAt(t, i)|)
    ensures EscapeAt(t, i)[0] != QUOTE
  {
    var s := EscapeAt(t, i) + rest;
    var u := t[i];
    if ShortEscape(u) != 0 {
      assert s[0] == BACKSLASH && s[1] == ShortEscape(u);
    } else if u < 32 || LoneSurrogate(t, i) {
      assert s[..6] == LongEscape(u);
      assert s[1] == LETTER_U && s[2] == s[..6][2] && s[3] == s[..6][3] && s[4] == s[..6][4] && s[5] == s[..6][5];
      HexRoundTrip(u);
    } else {
      assert s[0] == u;
    }
  }

  /** Quoted strings are self-delimiting and injective. */
  lemma {:induction false} EscapeUnique(a: Text, i: nat, b: Text, j: nat, x: Text, y: Text)
    requires i <= |a| && j <= |b|
    requires EscapeFrom(a, i, x) == EscapeFrom(b, j, y)
    ensures a[i..] == b[j..] && x == y
    decreases |a| - i
  {
    var s := EscapeFrom(a, i, x);
    if i < |a| {
      ReadEscaped(a, i, EscapeFrom(a, i + 1, x));
    }
    if j < |b| {
      ReadEscaped(b, j, EscapeFrom(b, j + 1, y));
    }
    if i == |a| || j == |b| {
      assert s[1..] == x && s[1..] == y;
    } else {
      var n := |EscapeAt(a, i)|;
      assert s[n..] == EscapeFrom(a, i + 1, x);
      assert s[n..] == EscapeFrom(b, j + 1, y);
      EscapeUnique(a, i + 1, b, j + 1, x, y);
      assert a[i..] == [a[i]] + a[i + 1..] && b[j..] == [b[j]] + b[j + 1..];
    }
  }

  lemma TailsEqual(u: CodeUnit, x: Text, v: CodeUnit, y: Text)
    requires [u] + x == [v] + y
    ensures u == v && x == y
  {
    var s := [u] + x;
    assert s[0] == u && s[0] == v;
    assert s[1..] == x && s[1..] == y;
  }

  lemma QuotedUnique(a: Text, b: Text, x: Text, y: Text)
    requires Quoted(a, x) == Quoted(b, y)
    ensures a == b && x == y
  {
    TailsEqual(QUOTE, EscapeFrom(a, 0, x), QUOTE, EscapeFrom(b, 0, y));
    EscapeUnique(a, 0, b, 0, x, y);
    assert a == a[0..] && b == b[0..];
  }

  /** What may follow a value inside a text. */
  predicate Delimited(rest: Text) {
    rest == [] || rest[0] == COMMA || rest[0] == CLOSE_BRACKET || rest[0] == CLOSE_BRACE
  }

  /** A number ends where the first non-number unit stands. */
  lemma {:induction false} NumberUnique(a: Text, b: Text, x: Text, y: Text)
    requires forall i | 0 <= i < |a| :: IsNumberUnit(a[i])
    requires forall i | 0 <= i < |b| :: IsNumberUnit(b[i])
    requires Delimited(x) && Delimited(y)
    requires a + x == b + y
    ensures a == b && x == y
  {
    if a == [] || b == [] {
      assert a + x == x || b + y == y;
    } else {
      assert a + x == [a[0]] + (a[1..] + x);
      assert b + y == [b[0]] + (b[1..] + y);
      TailsEqual(a[0], a[1..] + x, b[0], b[1..] + y);
      NumberUnique(a[1..], b[1..], x, y);
      assert a == [a[0]] + a[1..] && b == [b[0]] + b[1..];
    }
  }

  /** The first unit tells the kind of a value. */
  predicate FirstUnitFits(v: Value, u: CodeUnit) {
    match v
    case Null => u == 110
    case Bool(b) => u == if b then 116 else 102
    case Num(t) => IsDigit(u) || u == MINUS
    case Str(_) => u == QUOTE
    case Arr(_) => u == OPEN_BRACKET
    case Obj(_) => u == OPEN_BRACE
  }

  lemma FirstUnit(v: Value, rest: Text)
    requires WellFormed(v)
    ensures Print(v, rest) != [] && FirstUnitFits(v, Print(v, rest)[0])
  {
  }

  /** Serialisation is injective, even with more text behind it. */
  lemma {:induction false} PrintUnique(a: Value, b: Value, x: Text, y: Text)
    requires WellFormed(a) && WellFormed(b)
    requires Delimited(x) && Delimited(y)
    requires Print(a, x) == Print(b, y)
    ensures a == b && x == y
    decreases a
  {
    FirstUnit(a, x);
    FirstUnit(b, y);
    var s := Print(a, x);
    match a
    case Null =>
      assert s[4..] == x && s[4..] == y;
    case Bool(c) =>
      var n := if c then 4 else 5;
      assert s[n..] == x && s[n..] == y;
    case Num(t) =>
      NumberUnique(t, b.digits, x, y);
    case Str(t) =>
      QuotedUnique(t, b.text, x, y);
    case Arr(items) =>
      ArrayUnique(items, b.items, x, y);
    case Obj(ms) =>
      ObjectUnique(ms, b.members, x, y);
  }

  /** An array's text after its opening bracket. */
  function ArrayBody(items: seq<Value>, rest: Text): Text {
    if items == [] then [CLOSE_BRACKET] + rest else Print(items[0], PrintItems(items[1..], rest))
  }

  function ObjectBody(ms: seq<Member>, rest: Text): Text {
    if ms == [] then [CLOSE_BRACE] + rest else PrintMember(ms[0], PrintMembers(ms[1..], rest))
  }

  lemma BodyOf(v: Value, rest: Text)
    ensures v.Arr? ==> Print(v, rest) == [OPEN_BRACKET] + ArrayBody(v.items, rest)
    ensures v.Obj? ==> Print(v, rest) == [OPEN_BRACE] + ObjectBody(v.members, rest)
  {
    assert [OPEN_BRACKET, CLOSE_BRACKET] + rest == [OPEN_BRACKET] + ([CLOSE_BRACKET] + rest);
    assert [OPEN_BRACE, CLOSE_BRACE] + rest == [OPEN_BRACE] + ([CLOSE_BRACE] + rest);
  }

  lemma {:induction false} ArrayUnique(ps: seq<Value>, qs: seq<Value>, x: Text, y: Text)
    requires WellFormed(Arr(ps)) && WellFormed(Arr(qs))
    requires Print(Arr(ps), x) == Print(Arr(qs), y)
    ensures ps == qs && x == y
    decreases ps, 1
  {
    BodyOf(Arr(ps), x);
    BodyOf(Arr(qs), y);
    TailsEqual(OPEN_BRACKET, ArrayBody(ps, x), OPEN_BRACKET, ArrayBody(qs, y));
    if ps != [] {
      FirstUnit(ps[0], PrintItems(ps[1..], x));
    }
    if qs != [] {
      FirstUnit(qs[0], PrintItems(qs[1..], y));
    }
    if ps == [] || qs == [] {
      assert ps == [] == qs;
      TailsEqual(CLOSE_BRACKET, x, CLOSE_BRACKET, y);
    } else {
      PrintUnique(ps[0], qs[0], PrintItems(ps[1..], x), PrintItems(qs[1..], y));
      ItemsUnique(ps[1..], qs[1..], x, y);
      assert ps == [ps[0]] + ps[1..] && qs == [qs[0]] + qs[1..];
    }
  }

  lemma {:induction false} ItemsUnique(ps: seq<Value>, qs: seq<Value>, x: Text, y: Text)
    requires forall i | 0 <= i < |ps| :: WellFormed(ps[i])
    requires forall i | 0 <= i < |qs| :: WellFormed(qs[i])
    requires PrintItems(ps, x) == PrintItems(qs, y)
    ensures ps == qs && x == y
    decreases ps, 0
  {
    if ps == [] || qs == [] {
      assert PrintItems(ps, x)[0] == PrintItems(qs, y)[0];
      TailsEqual(CLOSE_BRACKET, x, CLOSE_BRACKET, y);
    } else {
      TailsEqual(COMMA, Print(ps[0], PrintItems(ps[1..], x)), COMMA, Print(qs[0], PrintItems(qs[1..], y)));
      PrintUnique(ps[0], qs[0], PrintItems(ps[1..], x), PrintItems(qs[1..], y));
      ItemsUnique(ps[1..], qs[1..], x, y);
      assert ps == [ps[0]] + ps[1..] && qs == [qs[0]] + qs[1..];
    }
  }

  lemma {:induction false} MemberUnique(a: Member, b: Member, x: Text, y: Text)
    requires WellFormed(a.value) && WellFormed(b.value)
    requires Delimited(x) && Delimited(y)
    requires PrintMember(a, x) == PrintMember(b, y)
    ensures a == b && x == y
    decreases a
  {
    QuotedUnique(a.key, b.key, [COLON] + Print(a.value, x), [COLON] + Print(b.value, y));
    TailsEqual(COLON, Print(a.value, x), COLON, Print(b.value, y));
    PrintUnique(a.value, b.value, x, y);
  }

  lemma {:induction false} ObjectUnique(ps: seq<Member>, qs: seq<Member>, x: Text, y: Text)
    requires WellFormed(Obj(ps)) && WellFormed(Obj(qs))
    requires Print(Obj(ps), x) == Print(Obj(qs), y)
    ensures ps == qs && x == y
    decreases ps, 1
  {
    BodyOf(Obj(ps), x);
    BodyOf(Obj(qs), y);
    TailsEqual(OPEN_BRACE, ObjectBody(ps, x), OPEN_BRACE, ObjectBody(qs, y));
    if ps == [] || qs == [] {
      assert ObjectBody(ps, x)[0] == ObjectBody(qs, y)[0];
      assert ps == [] == qs;
      TailsEqual(CLOSE_BRACE, x, CLOSE_BRACE, y);
    } else {
      MemberUnique(ps[0], qs[0], PrintMembers(ps[1..], x), PrintMembers(qs[1..], y));
      MembersUnique(ps[1..], qs[1..], x, y);
      assert ps == [ps[0]] + ps[1..] && qs == [qs[0]] + qs[1..];
    }
  }

  lemma {:induction false} MembersUnique(ps: seq<Member>, qs: seq<Member>, x: Text, y: Text)
    requires forall i | 0 <= i < |ps| :: WellFormed(ps[i].value)
    requires forall i | 0 <= i < |qs| :: WellFormed(qs[i].value)
    requires PrintMembers(ps, x) == PrintMembers(qs, y)
    ensures ps == qs && x == y
    decreases ps, 0
  {
    if ps == [] || qs == [] {
      assert PrintMembers(ps, x)[0] == PrintMembers(qs, y)[0];
      TailsEqual(CLOSE_BRACE, x, CLOSE_BRACE, y);
    } else {
      TailsEqual(COMMA, PrintMember(ps[0], PrintMembers(ps[1..], x)), COMMA,
        PrintMember(qs[0], PrintMembers(qs[1..], y)));
      MemberUnique(ps[0], qs[0], PrintMembers(ps[1..], x), PrintMembers(qs[1..], y));
      MembersUnique(ps[1..], qs[1..], x, y);
      assert ps == [ps[0]] + ps[1..] && qs == [qs[0]] + qs[1..];
    }
  }

  // ---------------------------------------------------------------- sorting

  lemma {:induction false} InsertSorts(m: Member, ms: seq<Member>)
    requires KeysAscend(ms) && forall i | 0 <= i < |ms| :: ms[i].key != m.key
    ensures KeysAscend(Insert(m, ms))
    ensures multiset(Insert(m, ms)) == multiset([m]) + multiset(ms)
  {
    if ms == [] {
    } else if Less(m.key, ms[0].key) {
      forall j | 0 <= j < |ms|
        ensures Less(m.key, ms[j].key)
      {
        if j > 0 {
          LessTransitive(m.key, ms[0].key, ms[j].key);
        }
      }
      assert multiset([m] + ms) == multiset([m]) + multiset(ms);
    } else {
      LessTotal(m.key, ms[0].key);
      var rest := Insert(m, ms[1..]);
      InsertSorts(m, ms[1..]);
      assert ms == [ms[0]] + ms[1..];
      assert multiset(Insert(m, ms)) == multiset([ms[0]]) + multiset(rest);
      forall j | 0 <= j < |rest|
        ensures Less(ms[0].key, rest[j].key)
      {
        assert rest[j] in multiset(rest);
        assert rest[j] == m || rest[j] in ms[1..];
      }
    }
  }

  lemma {:induction false} SortMembersSorts(ms: seq<Member>)
    requires DistinctKeys(ms)
    ensures KeysAscend(SortMembers(ms)) && multiset(SortMembers(ms)) == multiset(ms)
  {
    if ms != [] {
      var rest := SortMembers(ms[1..]);
      SortMembersSorts(ms[1..]);
      forall i | 0 <= i < |rest|
        ensures rest[i].key != ms[0].key
      {
        assert rest[i] in multiset(rest);
        assert rest[i] in ms[1..];
      }
      InsertSorts(ms[0], rest);
      assert ms == [ms[0]] + ms[1..];
    }
  }

  /** An ascending list is determined by what it holds. */
  lemma {:induction false} AscendingUnique(ps: seq<Member>, qs: seq<Member>)
    requires KeysAscend(ps) && KeysAscend(qs)
    requires multiset(ps) == multiset(qs)
    ensures ps == qs
  {
    if ps == [] || qs == [] {
      assert |multiset(ps)| == |ps| && |multiset(qs)| == |qs|;
    } else {
      SameHead(ps, qs);
      assert ps == [ps[0]] + ps[1..] && qs == [qs[0]] + qs[1..];
      assert multiset(ps[1..]) == multiset(ps) - multiset([ps[0]]);
      assert multiset(qs[1..]) == multiset(qs) - multiset([qs[0]]);
      AscendingUnique(ps[1..], qs[1..]);
    }
  }

  lemma SameHead(ps: seq<Member>, qs: seq<Member>)
    requires KeysAscend(ps) && KeysAscend(qs) && ps != [] && qs != []
    requires multiset(ps) == multiset(qs)
    ensures ps[0] == qs[0]
  {
    assert ps[0] in multiset(ps) && qs[0] in multiset(qs);
    assert ps[0] in qs && qs[0] in ps;
    LessTotal(ps[0].key, qs[0].key);
  }

  lemma {:induction false} InsertIndexKeeps(m: Member, ms: seq<Member>)
    ensures multiset(InsertIndex(m, ms)) == multiset([m]) + multiset(ms)
  {
    if ms != [] && !IndexLess(m.key, ms[0].key) {
      InsertIndexKeeps(m, ms[1..]);
      assert ms == [ms[0]] + ms[1..];
    }
  }

  lemma {:induction false} FromEntriesKeeps(ms: seq<Member>)
    ensures multiset(FromEntries(ms)) == multiset(ms)
  {
    if ms != [] {
      FromEntriesKeeps(ms[1..]);
      assert ms == [ms[0]] + ms[1..];
      if IsIndex(ms[0].key) {
        InsertIndexKeeps(ms[0], IndexPart(ms[1..]));
      }
    }
  }

  // ---------------------------------------------------------------- canonical form is sound and complete

  lemma {:induction false} MeanMembersAt(ms: seq<Member>)
    requires DistinctKeys(ms)
    ensures forall i | 0 <= i < |ms| :: ms[i].key in MeanMembers(ms) && MeanMembers(ms)[ms[i].key] == Mean(ms[i].value)
    ensures forall k | k in MeanMembers(ms) :: exists i | 0 <= i < |ms| :: ms[i].key == k
  {
    if ms != [] {
      MeanMembersAt(ms[1..]);
      forall k | k in MeanMembers(ms)
        ensures exists i | 0 <= i < |ms| :: ms[i].key == k
      {
        if k == ms[0].key {
        } else {
          var i :| 0 <= i < |ms[1..]| && ms[1..][i].key == k;
          assert ms[i + 1].key == k;
        }
      }
    }
  }

  lemma {:induction false} CountInDistinct(ps: seq<Member>, m: Member)
    requires DistinctKeys(ps)
    ensures multiset(ps)[m] == if m in ps then 1 else 0
  {
    if ps != [] {
      CountInDistinct(ps[1..], m);
      assert ps == [ps[0]] + ps[1..];
      assert multiset(ps) == multiset([ps[0]]) + multiset(ps[1..]);
    }
  }

  lemma CountTwice(ps: seq<Member>, i: nat, j: nat)
    requires i < j < |ps| && ps[i] == ps[j]
    ensures multiset(ps)[ps[i]] >= 2
  {
    assert ps == ps[..j] + ps[j..];
    assert ps[i] in ps[..j] && ps[j] in ps[j..];
  }

  lemma {:induction false} PermutationKeepsDistinct(ps: seq<Member>, qs: seq<Member>)
    requires DistinctKeys(ps) && multiset(ps) == multiset(qs)
    ensures DistinctKeys(qs)
  {
    forall i, j | 0 <= i < j < |qs|
      ensures qs[i].key != qs[j].key
    {
      assert qs[i] in multiset(qs) && qs[j] in multiset(qs);
      assert qs[i] in ps && qs[j] in ps;
      if qs[i] == qs[j] {
        CountTwice(qs, i, j);
        CountInDistinct(ps, qs[i]);
      }
    }
  }

  lemma {:induction false} MeanPermuted(ps: seq<Member>, qs: seq<Member>)
    requires DistinctKeys(ps) && multiset(ps) == multiset(qs)
    ensures MeanMembers(ps) == MeanMembers(qs)
  {
    PermutationKeepsDistinct(ps, qs);
    MeanMembersAt(ps);
    MeanMembersAt(qs);
    forall k | k in MeanMembers(ps)
      ensures k in MeanMembers(qs) && MeanMembers(qs)[k] == MeanMembers(ps)[k]
    {
      var i :| 0 <= i < |ps| && ps[i].key == k;
      assert ps[i] in multiset(ps);
      assert ps[i] in qs;
    }
    forall k | k in MeanMembers(qs)
      ensures k in MeanMembers(ps)
    {
      var i :| 0 <= i < |qs| && qs[i].key == k;
      assert qs[i] in multiset(qs);
      assert qs[i] in ps;
    }
  }

  lemma {:induction false} StableMembersAt(ms: seq<Member>)
    ensures forall i | 0 <= i < |ms| :: StableMembers(ms)[i] == Member(ms[i].key, Stable(ms[i].value))
  {
    if ms != [] {
      StableMembersAt(ms[1..]);
    }
  }

  lemma {:induction false} StableItemsAt(items: seq<Value>)
    ensures forall i | 0 <= i < |items| :: StableItems(items)[i] == Stable(items[i])
  {
    if items != [] {
      StableItemsAt(items[1..]);
    }
  }

  /** Sorting the members of an object only permutes them. */
  lemma {:induction false} StableObject(ms: seq<Member>)
    requires DistinctKeys(ms)
    ensures DistinctKeys(StableMembers(ms))
    ensures multiset(Stable(Obj(ms)).members) == multiset(StableMembers(ms))
    ensures DistinctKeys(Stable(Obj(ms)).members)
  {
    StableMembersAt(ms);
    SortMembersSorts(StableMembers(ms));
    FromEntriesKeeps(SortMembers(StableMembers(ms)));
    PermutationKeepsDistinct(StableMembers(ms), Stable(Obj(ms)).members);
  }

  /** The canonical form is well formed and means the same. */
  lemma {:induction false} StableKeepsMeaning(v: Value)
    requires WellFormed(v)
    ensures WellFormed(Stable(v)) && Mean(Stable(v)) == Mean(v)
    decreases v
  {
    match v
    case Arr(items) =>
      StableItemsAt(items);
      forall i | 0 <= i < |items|
        ensures WellFormed(StableItems(items)[i]) && Mean(StableItems(items)[i]) == Mean(items[i])
      {
        StableKeepsMeaning(items[i]);
      }
      assert MeanItems(StableItems(items)) == MeanItems(items);
    case Obj(ms) =>
      StableObject(ms);
      StableMembersAt(ms);
      var ss := StableMembers(ms);
      var out := Stable(v).members;
      forall i | 0 <= i < |ms|
        ensures WellFormed(ss[i].value) && Mean(ss[i].value) == Mean(ms[i].value)
      {
        StableKeepsMeaning(ms[i].value);
      }
      forall i | 0 <= i < |out|
        ensures WellFormed(out[i].value)
      {
        assert out[i] in multiset(out);
        assert out[i] in ss;
      }
      MeanPermuted(ss, out);
      MeanMembersAt(ms);
      MeanMembersAt(ss);
      SameMeanMembers(ms, ss);
    case _ =>
  }

  lemma {:induction false} SameMeanMembers(ps: seq<Member>, qs: seq<Member>)
    requires DistinctKeys(ps) && DistinctKeys(qs) && |ps| == |qs|
    requires forall i | 0 <= i < |ps| :: ps[i].key == qs[i].key && Mean(ps[i].value) == Mean(qs[i].value)
    ensures MeanMembers(ps) == MeanMembers(qs)
  {
    hide Mean, MeanMembers, DistinctKeys;
    MeanMembersAt(ps);
    MeanMembersAt(qs);
    forall k | k in MeanMembers(ps)
      ensures k in MeanMembers(qs) && MeanMembers(qs)[k] == MeanMembers(ps)[k]
    {
      var i :| 0 <= i < |ps| && ps[i].key == k;
    }
    forall k | k in MeanMembers(qs)
      ensures k in MeanMembers(ps)
    {
      var i :| 0 <= i < |qs| && qs[i].key == k;
    }
  }

  /** Values that mean the same have one canonical form. */
  lemma {:induction false} StableIsCanonical(a: Value, b: Value)
    requires WellFormed(a) && WellFormed(b)
    requires Mean(a) == Mean(b)
    ensures Stable(a) == Stable(b)
    decreases a
  {
    match a
    case Arr(items) =>
      StableItemsAt(items);
      StableItemsAt(b.items);
      forall i | 0 <= i < |items|
        ensures StableItems(items)[i] == StableItems(b.items)[i]
      {
        assert MeanItems(items)[i] == MeanItems(b.items)[i];
        StableIsCanonical(items[i], b.items[i]);
      }
      assert StableItems(items) == StableItems(b.items);
    case Obj(ms) =>
      StableObject(ms);
      StableObject(b.members);
      StableEntriesMatch(ms, b.members);
      SortMembersSorts(StableMembers(ms));
      SortMembersSorts(StableMembers(b.members));
      AscendingUnique(SortMembers(StableMembers(ms)), SortMembers(StableMembers(b.members)));
    case _ =>
  }

  lemma {:induction false} StableEntriesMatch(ps: seq<Member>, qs: seq<Member>)
    requires WellFormed(Obj(ps)) && WellFormed(Obj(qs))
    requires MeanMembers(ps) == MeanMembers(qs)
    ensures multiset(StableMembers(ps)) == multiset(StableMembers(qs))
    decreases ps
  {
    var ss, ts := StableMembers(ps), StableMembers(qs);
    StableObject(ps);
    StableObject(qs);
    StableMembersAt(ps);
    StableMembersAt(qs);
    MeanMembersAt(ps);
    MeanMembersAt(qs);
    forall i | 0 <= i < |ps|
      ensures ss[i] in ts
    {
      assert ps[i].key in MeanMembers(qs);
      var j :| 0 <= j < |qs| && qs[j].key == ps[i].key;
      StableIsCanonical(ps[i].value, qs[j].value);
      assert ts[j] == ss[i];
    }
    forall j | 0 <= j < |qs|
      ensures ts[j] in ss
    {
      assert qs[j].key in MeanMembers(ps);
      var i :| 0 <= i < |ps| && ps[i].key == qs[j].key;
      StableIsCanonical(ps[i].value, qs[j].value);
      assert ss[i] == ts[j];
    }
    SameElements(ss, ts);
  }

  lemma SameElements(ps: seq<Member>, qs: seq<Member>)
    requires DistinctKeys(ps) && DistinctKeys(qs)
    requires forall i | 0 <= i < |ps| :: ps[i] in qs
    requires forall j | 0 <= j < |qs| :: qs[j] in ps
    ensures multiset(ps) == multiset(qs)
  {
    forall m: Member
      ensures multiset(ps)[m] == multiset(qs)[m]
    {
      CountInDistinct(ps, m);
      CountInDistinct(qs, m);
    }
  }

  /** The edit check reports no change exactly when the two values differ in
      nothing but the order of object members, at any depth. */
  lemma ChangedIffMeaningDiffers(before: Value, after: Value)
    requires WellFormed(before) && WellFormed(after)
    ensures Changed(before, after) <==> Mean(before) != Mean(after)
  {
    StableKeepsMeaning(before);
    StableKeepsMeaning(after);
    if !Changed(before, after) {
      PrintUnique(Stable(before), Stable(after), [], []);
    }
    if Mean(before) == Mean(after) {
      StableIsCanonical(before, after);
    }
  }

  /** Canonicalising twice is canonicalising once. */
  lemma StableIdempotent(v: Value)
    requires WellFormed(v)
    ensures Stable(Stable(v)) == Stable(v)
  {
    StableKeepsMeaning(v);
    StableIsCanonical(Stable(v), v);
  }

  // ---------------------------------------------------------------- the same, spelled out

  /** The same value, objects compared member by member whatever the order. */
  ghost predicate Same(a: Value, b: Value)
    decreases a, 0
  {
    match (a, b)
    case (Null, Null) => true
    case (Bool(x), Bool(y)) => x == y
    case (Num(x), Num(y)) => x == y
    case (Str(x), Str(y)) => x == y
    case (Arr(x), Arr(y)) => |x| == |y| && forall i | 0 <= i < |x| :: Same(x[i], y[i])
    case (Obj(x), Obj(y)) =>
      && (forall i | 0 <= i < |x| :: HasSame(y, x[i].key, x[i].value))
      && (forall j | 0 <= j < |y| :: HasKey(x, y[j].key))
    case _ => false
  }

  /** A member has the key, and the same value. */
  ghost predicate HasSame(ms: seq<Member>, key: Text, v: Value)
    decreases v, 1
  {
    exists j | 0 <= j < |ms| :: ms[j].key == key && Same(v, ms[j].value)
  }

  ghost predicate HasKey(ms: seq<Member>, key: Text) { exists j | 0 <= j < |ms| :: ms[j].key == key }

  /** Having one meaning is being the same. */
  lemma {:induction false} SameMeans(a: Value, b: Value)
    requires WellFormed(a) && WellFormed(b)
    ensures Same(a, b) <==> Mean(a) == Mean(b)
    decreases a
  {
    match (a, b)
    case (Arr(x), Arr(y)) =>
      if |x| == |y| {
        forall i | 0 <= i < |x|
          ensures Same(x[i], y[i]) <==> Mean(x[i]) == Mean(y[i])
        {
          SameMeans(x[i], y[i]);
        }
        if Same(a, b) {
          assert MeanItems(x) == MeanItems(y);
        }
        if Mean(a) == Mean(b) {
          assert forall i | 0 <= i < |x| :: MeanItems(x)[i] == MeanItems(y)[i];
        }
      }
    case (Obj(x), Obj(y)) =>
      forall i | 0 <= i < |x|
        ensures HasSame(y, x[i].key, x[i].value) <==>
                x[i].key in MeanMembers(y) && MeanMembers(y)[x[i].key] == Mean(x[i].value)
      {
        forall j | 0 <= j < |y|
          ensures Same(x[i].value, y[j].value) <==> Mean(x[i].value) == Mean(y[j].value)
        {
          SameMeans(x[i].value, y[j].value);
        }
        HasSameMeans(y, x[i].key, x[i].value);
      }
      MembersMean(x, y);
    case _ =>
  }

  lemma {:induction false} HasSameMeans(ms: seq<Member>, key: Text, v: Value)
    requires DistinctKeys(ms)
    requires forall j | 0 <= j < |ms| :: Same(v, ms[j].value) <==> Mean(v) == Mean(ms[j].value)
    ensures HasSame(ms, key, v) <==> key in MeanMembers(ms) && MeanMembers(ms)[key] == Mean(v)
  {
    MeanMembersAt(ms);
    hide Same, Mean, MeanMembers, DistinctKeys;
  }

  lemma {:induction false} HasKeyMeans(ms: seq<Member>)
    requires DistinctKeys(ms)
    ensures forall key :: HasKey(ms, key) <==> key in MeanMembers(ms)
  {
    MeanMembersAt(ms);
    hide Mean, MeanMembers, DistinctKeys;
  }

  lemma {:induction false} MembersMean(x: seq<Member>, y: seq<Member>)
    requires DistinctKeys(x) && DistinctKeys(y)
    requires forall i | 0 <= i < |x| ::
      HasSame(y, x[i].key, x[i].value) <==>
      x[i].key in MeanMembers(y) && MeanMembers(y)[x[i].key] == Mean(x[i].value)
    ensures Same(Obj(x), Obj(y)) <==> MeanMembers(x) == MeanMembers(y)
  {
    HasKeyMeans(x);
    HasKeyMeans(y);
    MeanMembersAt(x);
    hide Mean, MeanMembers, DistinctKeys, HasSame, HasKey;
    if Same(Obj(x), Obj(y)) {
      KeysReach(x, y);
      MapsEqual(x, MeanMembers(x), MeanMembers(y));
    }
    if MeanMembers(x) == MeanMembers(y) {
      OwnKeys(y);
    }
  }

  lemma OwnKeys(ms: seq<Member>)
    ensures forall j | 0 <= j < |ms| :: HasKey(ms, ms[j].key)
  {
  }

  lemma KeysReach(x: seq<Member>, y: seq<Member>)
    requires forall j | 0 <= j < |y| :: HasKey(x, y[j].key)
    ensures forall k | HasKey(y, k) :: HasKey(x, k)
  {
  }

  lemma {:induction false} MapsEqual(x: seq<Member>, m: map<Text, Meaning>, n: map<Text, Meaning>)
    requires forall k | k in m :: exists i | 0 <= i < |x| :: x[i].key == k
    requires forall i | 0 <= i < |x| ::
      && x[i].key in m && x[i].key in n
      && m[x[i].key] == Mean(x[i].value) && n[x[i].key] == Mean(x[i].value)
    requires forall k | k in n :: k in m
    ensures m == n
  {
    hide Mean;
  }

  /** The edit check says "unchanged" exactly for values that are the same. */
  lemma ChangedIffNotSame(before: Value, after: Value)
    requires WellFormed(before) && WellFormed(after)
    ensures Changed(before, after) <==> !Same(before, after)
  {
    ChangedIffMeaningDiffers(before, after);
    SameMeans(before, after);
  }

  /** Text that prints as it is: no control character, quotation mark, backslash or surrogate. */
  predicate Plain(t: Text) {
    forall i | 0 <= i < |t| :: t[i] >= 32 && t[i] != 34 && t[i] != 92 && !(0xD800 <= t[i] <= 0xDFFF)
  }

  lemma PlainUnit(t: Text, i: nat)
    requires Plain(t) && i < |t|
    ensures EscapeAt(t, i) == [t[i]]
  {
  }

  lemma {:induction false} PlainEscapes(t: Text, i: nat, rest: Text)
    requires Plain(t) && i <= |t|
    ensures EscapeFrom(t, i, rest) == t[i..] + [34] + rest
    decreases |t| - i
  {
    if i < |t| {
      PlainEscapes(t, i + 1, rest);
      PlainUnit(t, i);
      hide EscapeAt, Plain;
      assert t[i..] == [t[i]] + t[i + 1..];
    }
  }

  /** A plain string prints between quotation marks. */
  lemma PlainPrints(t: Text, rest: Text)
    requires Plain(t)
    ensures Print(Str(t), rest) == [34] + t + [34] + rest
  {
    PlainEscapes(t, 0, rest);
    assert t[0..] == t;
  }
}
