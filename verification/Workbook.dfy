/** Spreadsheet fixtures: column names, XML text and the shared strings of a workbook. */
module Workbook {
  import opened Options

  // ---------------------------------------------------------------- column names

  predicate Letters(w: string) { forall i | 0 <= i < |w| :: 'A' <= w[i] <= 'Z' }

  /** A cell reference's column part: section 18.3.1.4 of ECMA-376 Part 1. */
  predicate IsColumn(w: string) { w != "" && Letters(w) }

  /** The position of a word in bijective base 26, counting from 1; the empty word has 0. */
  function Rank(w: string): nat
    requires Letters(w)
  {
    if w == "" then 0 else Rank(w[..|w| - 1]) * 26 + (w[|w| - 1] as int - 'A' as int + 1)
  }

  function Name(rank: nat): (w: string)
    ensures Letters(w) && Rank(w) == rank
  {
    if rank == 0 then ""
    else
      var w := Name((rank - 1) / 26) + [((rank - 1) % 26 + 65) as char];
      assert w[..|w| - 1] == Name((rank - 1) / 26);
      w
  }

  function Power(n: nat): (r: nat)
    ensures r >= 1
  {
    if n == 0 then 1 else 26 * Power(n - 1)
  }

  lemma {:induction false} RankPrepend(c: char, w: string)
    requires 'A' <= c <= 'Z' && Letters(w)
    ensures Rank([c] + w) == (c as int - 'A' as int + 1) * Power(|w|) + Rank(w)
  {
    var all := [c] + w;
    if w == "" {
      assert all[..0] == "";
    } else {
      var n := |w| - 1;
      RankPrepend(c, w[..n]);
      assert all[..|all| - 1] == [c] + w[..n];
    }
  }

  /** `columnName`: the loop's name is the word whose position is the index. */
  method ColumnName(index: nat) returns (name: string)
    ensures IsColumn(name) && Rank(name) == index + 1
  {
    name := "";
    var value: int := index;
    while value >= 0
      invariant -1 <= value && Letters(name)
      invariant index + 1 == (value + 1) * Power(|name|) + Rank(name)
      decreases value
    {
      ghost var before := value;
      var letter := (65 + value % 26) as char;
      RankPrepend(letter, name);
      name := [letter] + name;
      value := value / 26 - 1;
      Regroup(before, Power(|name| - 1));
    }
  }

  lemma Regroup(value: nat, p: nat)
    ensures (value + 1) * p == (value / 26) * (26 * p) + (value % 26 + 1) * p
  {
    assert value + 1 == (value / 26) * 26 + (value % 26 + 1);
  }

  lemma {:induction false} RankInjective(u: string, v: string)
    requires Letters(u) && Letters(v)
    ensures Rank(u) == Rank(v) ==> u == v
  {
    if u != "" && v != "" && Rank(u) == Rank(v) {
      var m, n := |u| - 1, |v| - 1;
      RankInjective(u[..m], v[..n]);
      assert u == u[..m] + [u[m]] && v == v[..n] + [v[n]];
    }
  }

  /** Shorter words first, words of one length by their first difference. */
  ghost predicate Shortlex(u: string, v: string) {
    |u| < |v| || (|u| == |v| && exists k | 0 <= k < |u| :: DiffersAt(u, v, k))
  }

  predicate DiffersAt(u: string, v: string, k: nat)
    requires k < |u| == |v|
  {
    u[..k] == v[..k] && u[k] < v[k]
  }

  lemma {:induction false} SameLengthOrder(u: string, v: string, k: nat)
    requires Letters(u) && Letters(v) && k < |u| == |v| && DiffersAt(u, v, k)
    ensures Rank(u) < Rank(v)
  {
    var n := |u| - 1;
    if k == n {
      assert u[..n] == v[..n];
    } else {
      assert u[..n][..k] == u[..k] && v[..n][..k] == v[..k];
      SameLengthOrder(u[..n], v[..n], k);
    }
  }

  /** The rank of the first word of a length. */
  function Lowest(n: nat): nat { if n == 0 then 0 else 26 * Lowest(n - 1) + 1 }

  lemma {:induction false} RankBounds(w: string)
    requires Letters(w)
    ensures Lowest(|w|) <= Rank(w) < Lowest(|w| + 1)
  {
    if w != "" {
      RankBounds(w[..|w| - 1]);
    }
  }

  lemma {:induction false} LowestRises(m: nat, n: nat)
    requires m <= n
    ensures Lowest(m) <= Lowest(n)
  {
    if m < n {
      LowestRises(m, n - 1);
    }
  }

  lemma ShortlexRaises(u: string, v: string)
    requires Letters(u) && Letters(v) && Shortlex(u, v)
    ensures Rank(u) < Rank(v)
  {
    if |u| < |v| {
      RankBounds(u);
      RankBounds(v);
      LowestRises(|u| + 1, |v|);
    } else {
      var k :| 0 <= k < |u| && DiffersAt(u, v, k);
      SameLengthOrder(u, v, k);
    }
  }

  lemma {:induction false} FirstDifference(u: string, v: string) returns (k: nat)
    requires |u| == |v| && u != v
    ensures k < |u| && (DiffersAt(u, v, k) || DiffersAt(v, u, k))
  {
    k := 0;
    assert u[..|u|] == u && v[..|u|] == v;
    while k < |u| && u[k] == v[k]
      invariant k <= |u| && u[..k] == v[..k]
    {
      assert u[..k + 1] == u[..k] + [u[k]] && v[..k + 1] == v[..k] + [v[k]];
      k := k + 1;
    }
  }

  lemma ShortlexTotal(u: string, v: string)
    requires u != v
    ensures Shortlex(u, v) || Shortlex(v, u)
  {
    if |u| == |v| {
      var k := FirstDifference(u, v);
    }
  }

  lemma RankPositive(w: string)
    requires IsColumn(w)
    ensures Rank(w) >= 1
  {
    RankBounds(w);
    LowestRises(1, |w|);
  }

  lemma NameIsColumn(rank: nat)
    requires rank >= 1
    ensures IsColumn(Name(rank))
  {
    assert Rank("") == 0;
  }

  lemma NameOfRank(w: string)
    requires Letters(w)
    ensures Name(Rank(w)) == w
  {
    RankInjective(Name(Rank(w)), w);
  }

  lemma RankOfName(rank: nat)
    ensures Letters(Name(rank)) && Rank(Name(rank)) == rank
  {
  }

  /** Columns and names correspond one to one: each index has one name, each name one index. */
  lemma ColumnsAreBijective(index: nat, w: string)
    requires IsColumn(w)
    ensures IsColumn(Name(index + 1)) && Rank(w) >= 1 && Name(Rank(w)) == w
    ensures Name(index + 1) == w <==> index == Rank(w) - 1
  {
    RankPositive(w);
    NameIsColumn(index + 1);
    RankOfName(index + 1);
    NameOfRank(w);
  }

  /** The order of columns is the shortlex order of their names. */
  lemma ColumnsKeepOrder(i: nat, j: nat)
    ensures i < j <==> Shortlex(Name(i + 1), Name(j + 1))
  {
    var u, v := Name(i + 1), Name(j + 1);
    if Shortlex(u, v) {
      ShortlexRaises(u, v);
    }
    if i < j {
      assert u != v;
      ShortlexTotal(u, v);
      if Shortlex(v, u) {
        ShortlexRaises(v, u);
      }
    }
  }

  // ---------------------------------------------------------------- XML text

  /** `value.replace(/c/g, entity)`. */
  function Replace(s: string, c: char, entity: string): string {
    if s == "" then "" else (if s[0] == c then entity else [s[0]]) + Replace(s[1..], c, entity)
  }

  function EscapeXml(s: string): string {
    Replace(Replace(Replace(Replace(Replace(s, '&', "&amp;"), '<', "&lt;"), '>', "&gt;"),
      '"', "&quot;"), '\'', "&apos;")
  }

  /** The predefined entity of a character, if it has one: section 4.6 of XML 1.0. */
  function Entity(c: char): string {
    match c
    case '&' => "&amp;"
    case '<' => "&lt;"
    case '>' => "&gt;"
    case '"' => "&quot;"
    case '\'' => "&apos;"
    case _ => [c]
  }

  function Mapped(s: string): string { if s == "" then "" else Entity(s[0]) + Mapped(s[1..]) }

  lemma Associative(a: string, b: string, c: string)
    ensures a + (b + c) == (a + b) + c
  {
  }

  lemma {:induction false} ReplaceAppend(s: string, t: string, c: char, e: string)
    ensures Replace(s + t, c, e) == Replace(s, c, e) + Replace(t, c, e)
  {
    if s == "" {
      assert s + t == t;
    } else {
      ReplaceAppend(s[1..], t, c, e);
      assert (s + t)[1..] == s[1..] + t;
      Associative(if s[0] == c then e else [s[0]], Replace(s[1..], c, e), Replace(t, c, e));
    }
  }

  lemma {:induction false} ReplaceAbsent(s: string, c: char, e: string)
    requires c !in s
    ensures Replace(s, c, e) == s
  {
    if s != "" {
      ReplaceAbsent(s[1..], c, e);
      assert s == [s[0]] + s[1..];
    }
  }

  /** One replacement of a text that is a single character or does not hold the one replaced. */
  lemma ReplaceStep(x: string, c: char, d: char, e: string)
    requires x == [c] || d !in x
    ensures Replace(x, d, e) == if x == [d] then e else x
  {
    if d !in x {
      ReplaceAbsent(x, d, e);
    } else {
      assert x[1..] == "" && e + "" == e;
    }
  }

  lemma EscapeAppend(s: string, t: string)
    ensures EscapeXml(s + t) == EscapeXml(s) + EscapeXml(t)
  {
    var s1, t1 := Replace(s, '&', "&amp;"), Replace(t, '&', "&amp;");
    var s2, t2 := Replace(s1, '<', "&lt;"), Replace(t1, '<', "&lt;");
    var s3, t3 := Replace(s2, '>', "&gt;"), Replace(t2, '>', "&gt;");
    var s4, t4 := Replace(s3, '"', "&quot;"), Replace(t3, '"', "&quot;");
    ReplaceAppend(s, t, '&', "&amp;");
    ReplaceAppend(s1, t1, '<', "&lt;");
    ReplaceAppend(s2, t2, '>', "&gt;");
    ReplaceAppend(s3, t3, '"', "&quot;");
    ReplaceAppend(s4, t4, '\'', "&apos;");
  }

  function After(x: string, d: char, e: string): string { if x == [d] then e else x }

  predicate Plain4(x: string) { '<' !in x && '>' !in x && '"' !in x && '\'' !in x }

  /** A step keeps a text single or free of the characters still to be replaced. */
  lemma StepKeeps(x: string, c: char, d: char, e: string)
    requires (x == [c] || Plain4(x)) && Plain4(e) && d in "<>\"'"
    ensures Replace(x, d, e) == After(x, d, e) && (After(x, d, e) == [c] || Plain4(After(x, d, e)))
  {
    ReplaceStep(x, c, d, e);
  }

  lemma EscapeSteps(c: char)
    ensures EscapeXml([c]) ==
      After(After(After(After(After([c], '&', "&amp;"), '<', "&lt;"), '>', "&gt;"), '"', "&quot;"), '\'', "&apos;")
  {
    var x1 := After([c], '&', "&amp;");
    var x2 := After(x1, '<', "&lt;");
    var x3 := After(x2, '>', "&gt;");
    var x4 := After(x3, '"', "&quot;");
    ReplaceStep([c], c, '&', "&amp;");
    StepKeeps(x1, c, '<', "&lt;");
    StepKeeps(x2, c, '>', "&gt;");
    StepKeeps(x3, c, '"', "&quot;");
    StepKeeps(x4, c, '\'', "&apos;");
  }

  /** Once a character has become its entity, no later replacement touches it. */
  lemma EscapeChar(c: char)
    ensures EscapeXml([c]) == Entity(c)
  {
    EscapeSteps(c);
  }

  /** Five replacements in a row are one simultaneous replacement of characters by entities. */
  lemma {:induction false} EscapeIsMapped(s: string)
    ensures EscapeXml(s) == Mapped(s)
  {
    if s != "" {
      assert s == [s[0]] + s[1..];
      EscapeAppend([s[0]], s[1..]);
      EscapeChar(s[0]);
      EscapeIsMapped(s[1..]);
    }
  }

  /** Reading character data: an ampersand must begin one of the five entities, and no markup may stand raw. */
  function Unescape(t: string): Option<string> {
    if t == "" then Some("")
    else if t[0] == '<' then None
    else
      var (c, n) :=
        if "&amp;" <= t then ('&', 5) else if "&lt;" <= t then ('<', 4) else if "&gt;" <= t then ('>', 4)
        else if "&quot;" <= t then ('"', 6) else if "&apos;" <= t then ('\'', 6) else (t[0], 1);
      if n == 1 && t[0] == '&' then None
      else
        match Unescape(t[n..])
        case None => None
        case Some(rest) => Some([c] + rest)
  }

  lemma UnescapeEntity(c: char, rest: string)
    ensures Unescape(Entity(c) + rest) == match Unescape(rest) case None => None case Some(r) => Some([c] + r)
  {
    var e := Entity(c);
    var t := e + rest;
    assert t[|e|..] == rest && t[..|e|] == e && t[0] == e[0];
    assert |e| > 1 ==> t[1] == e[1] && t[2] == e[2];
  }

  /** Reading undoes escaping. */
  lemma {:induction false} UnescapeUndoes(s: string)
    ensures Unescape(EscapeXml(s)) == Some(s)
  {
    EscapeIsMapped(s);
    if s != "" {
      EscapeIsMapped(s[1..]);
      UnescapeUndoes(s[1..]);
      UnescapeEntity(s[0], Mapped(s[1..]));
      assert s == [s[0]] + s[1..];
    }
  }

  // ---------------------------------------------------------------- shared strings

  datatype Shared = Plain(text: string) | Rich(parts: seq<string>)

  /** A cell that refers to a shared string, or one that carries its content itself. */
  datatype Cell = SharedCell(text: Shared) | OwnCell(content: string)

  ghost predicate NoRepeats(shared: seq<Shared>) {
    forall i, j | 0 <= i < j < |shared| :: shared[i] != shared[j]
  }

  type Sheet = seq<seq<Cell>>

  ghost predicate Uses(sheet: Sheet, x: Shared) {
    exists r, c | 0 <= r < |sheet| && 0 <= c < |sheet[r]| :: sheet[r][c] == SharedCell(x)
  }

  /** The shared string of a row's cells, of a sheet's rows, of a workbook's sheets: each added once. */
  method CollectRow(cells: seq<Cell>, before: seq<Shared>) returns (shared: seq<Shared>)
    requires NoRepeats(before)
    ensures NoRepeats(shared) && before <= shared
    ensures forall x :: x in shared <==> x in before || SharedCell(x) in cells
  {
    shared := before;
    for i := 0 to |cells|
      invariant NoRepeats(shared) && before <= shared
      invariant forall x :: x in shared <==> x in before || SharedCell(x) in cells[..i]
    {
      assert cells[..i + 1] == cells[..i] + [cells[i]];
      if cells[i].SharedCell? && cells[i].text !in shared {
        shared := shared + [cells[i].text];
      }
    }
    assert cells[..|cells|] == cells;
  }

  method CollectSheet(sheet: Sheet, before: seq<Shared>) returns (shared: seq<Shared>)
    requires NoRepeats(before)
    ensures NoRepeats(shared) && before <= shared
    ensures forall x :: x in shared <==> x in before || Uses(sheet, x)
  {
    shared := before;
    for i := 0 to |sheet|
      invariant NoRepeats(shared) && before <= shared
      invariant forall x :: x in shared <==> x in before || Uses(sheet[..i], x)
    {
      forall x
        ensures Uses(sheet[..i + 1], x) <==> Uses(sheet[..i], x) || SharedCell(x) in sheet[i]
      {
        UsesMore(sheet, i, x);
      }
      shared := CollectRow(sheet[i], shared);
    }
    assert sheet[..|sheet|] == sheet;
  }

  lemma UsesMore(sheet: Sheet, i: nat, x: Shared)
    requires i < |sheet|
    ensures Uses(sheet[..i + 1], x) <==> Uses(sheet[..i], x) || SharedCell(x) in sheet[i]
  {
    var more := sheet[..i + 1];
    if Uses(more, x) {
      var r, c :| 0 <= r < |more| && 0 <= c < |more[r]| && more[r][c] == SharedCell(x);
      if r < i {
        assert sheet[..i][r][c] == SharedCell(x);
      }
    }
    if Uses(sheet[..i], x) {
      var r, c :| 0 <= r < i && 0 <= c < |sheet[..i][r]| && sheet[..i][r][c] == SharedCell(x);
      assert more[r][c] == SharedCell(x);
    }
    if SharedCell(x) in sheet[i] {
      var c :| 0 <= c < |sheet[i]| && sheet[i][c] == SharedCell(x);
      assert more[i][c] == SharedCell(x);
    }
  }

  /** The collection in `buildWorkbook`: exactly the strings its cells share, each once. */
  method CollectShared(sheets: seq<Sheet>) returns (shared: seq<Shared>)
    ensures NoRepeats(shared)
    ensures forall x :: x in shared <==> exists s | 0 <= s < |sheets| :: Uses(sheets[s], x)
  {
    shared := [];
    for i := 0 to |sheets|
      invariant NoRepeats(shared)
      invariant forall x :: x in shared <==> exists s | 0 <= s < i :: Uses(sheets[s], x)
    {
      shared := CollectSheet(sheets[i], shared);
    }
  }

  /** `findIndex`: -1 when there is none. */
  function FindIndex(shared: seq<Shared>, x: Shared): (i: int)
    ensures -1 <= i < |shared|
    ensures i >= 0 ==> shared[i] == x && x !in shared[..i]
    ensures i == -1 <==> x !in shared
  {
    if shared == [] then -1
    else if shared[0] == x then 0
    else
      var i := FindIndex(shared[1..], x);
      assert i >= 0 ==> shared[..i + 1] == [shared[0]] + shared[1..][..i];
      if i == -1 then -1 else i + 1
  }

  /** The index printed for a shared cell is the one place where its own text stands. */
  lemma SharedCellFindsItself(sheets: seq<Sheet>, shared: seq<Shared>, s: nat, r: nat, c: nat, i: int)
    requires NoRepeats(shared) && forall x :: x in shared <==> exists s | 0 <= s < |sheets| :: Uses(sheets[s], x)
    requires s < |sheets| && r < |sheets[s]| && c < |sheets[s][r]| && sheets[s][r][c].SharedCell?
    ensures 0 <= i < |shared| && shared[i] == sheets[s][r][c].text <==> i == FindIndex(shared, sheets[s][r][c].text)
  {
    var x := sheets[s][r][c].text;
    assert Uses(sheets[s], x);
    assert x in shared;
  }
}
