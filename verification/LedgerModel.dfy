/**
 The selection of ledger files kept by the download page: an insertion-ordered
 map from file to its last known state, its sorted listing, its reconciliation
 with server answers, and the chunks in which a large selection is checked.
 */
module LedgerModel {
  import opened Options
  import opened Json

  const MAX_SAFE_INTEGER: int := 9007199254740991

  /** A ledger file is named by its store and its purchase date. */
  datatype Key = Key(storeName: Text, purchaseDate: Text)

  datatype Status = Ready | Unverified | OtherStatus(name: Text)

  /** `byteSize` is None for null and for anything that is not an integer. */
  datatype Item = Item(key: Key, status: Status, byteSize: Option<int>)

  datatype Limits = Limits(files: int, bytes: int, stores: int, dates: int, pageSize: int)

  function LedgerKey(k: Key): Text {
    Serialise(Arr([Str(k.storeName), Str(k.purchaseDate)]))
  }

  lemma LedgerKeyInjective(a: Key, b: Key)
    requires LedgerKey(a) == LedgerKey(b)
    ensures a == b
  {
    var x, y := Arr([Str(a.storeName), Str(a.purchaseDate)]), Arr([Str(b.storeName), Str(b.purchaseDate)]);
    PrintUnique(x, y, [], []);
    assert x.items[0] == y.items[0] && x.items[1] == y.items[1];
  }

  predicate Before(a: Key, b: Key) {
    Less(LedgerKey(a), LedgerKey(b))
  }

  lemma BeforeTotal(a: Key, b: Key)
    ensures a == b || Before(a, b) || Before(b, a)
    ensures !(Before(a, b) && Before(b, a)) && !Before(a, a)
  {
    LessTotal(LedgerKey(a), LedgerKey(b));
    if LedgerKey(a) == LedgerKey(b) {
      LedgerKeyInjective(a, b);
    }
  }

  // ---------------------------------------------------------------- the selection as a value

  /** Insertion order and the item held for each key. */
  datatype Selected = Selected(order: seq<Key>, items: map<Key, Item>)

  const EMPTY: Selected := Selected([], map[])

  predicate Distinct(keys: seq<Key>) {
    forall i, j | 0 <= i < j < |keys| :: keys[i] != keys[j]
  }

  ghost predicate WellKept(s: Selected) {
    && Distinct(s.order)
    && (forall k :: k in s.order <==> k in s.items)
    && (forall k | k in s.items :: s.items[k].key == k)
  }

  function Put(s: Selected, item: Item): Selected {
    Selected(if item.key in s.items then s.order else s.order + [item.key], s.items[item.key := item])
  }

  function Without(keys: seq<Key>, key: Key): seq<Key> {
    if keys == [] then [] else if keys[0] == key then keys[1..] else [keys[0]] + Without(keys[1..], key)
  }

  function Remove(s: Selected, key: Key): Selected {
    Selected(Without(s.order, key), s.items - {key})
  }

  function Choose(s: Selected, item: Item, checked: bool): Selected {
    if !checked then Remove(s, item.key) else if item.status == Ready then Put(s, item) else s
  }

  function ChooseAll(s: Selected, items: seq<Item>, checked: bool): Selected
    decreases |items|
  {
    if items == [] then s else ChooseAll(Choose(s, items[0], checked), items[1..], checked)
  }

  /** The last answer for a key, as building a map from a list keeps it. */
  function Latest(items: seq<Item>, key: Key): Option<Item> {
    if items == [] then None
    else if items[|items| - 1].key == key then Some(items[|items| - 1])
    else Latest(items[..|items| - 1], key)
  }

  /** A selected file after a check: the server's answer, or marked unverified. */
  function Reconciled(previous: Item, answer: Option<Item>): Item {
    if answer.Some? then answer.value else previous.(status := Unverified, byteSize := None)
  }

  function Reconcile(s: Selected, answers: seq<Item>): Selected {
    Selected(s.order, map k | k in s.items :: Reconciled(s.items[k], Latest(answers, k)))
  }

  /** A fresh row replaces what the selection knew about its file. */
  function Refresh(s: Selected, rows: seq<Item>): Selected
    decreases |rows|
  {
    if rows == [] then s
    else Refresh(if rows[0].key in s.items then Put(s, rows[0]) else s, rows[1..])
  }

  lemma {:induction false} WithoutDrops(keys: seq<Key>, key: Key)
    requires Distinct(keys)
    ensures Distinct(Without(keys, key))
    ensures forall k :: k in Without(keys, key) <==> k in keys && k != key
  {
    if keys != [] {
      WithoutDrops(keys[1..], key);
      assert forall k :: k in keys <==> k == keys[0] || k in keys[1..];
      assert keys[0] !in keys[1..];
    }
  }

  lemma ChooseKept(s: Selected, item: Item, checked: bool)
    requires WellKept(s)
    ensures WellKept(Choose(s, item, checked))
  {
    WithoutDrops(s.order, item.key);
  }

  lemma {:induction false} LatestFits(items: seq<Item>, key: Key)
    ensures var r := Latest(items, key);
      (r.Some? <==> exists i | 0 <= i < |items| :: items[i].key == key)
        && (r.Some? ==> r.value.key == key && r.value in items)
  {
    if items != [] {
      LatestFits(items[..|items| - 1], key);
      assert items == items[..|items| - 1] + [items[|items| - 1]];
    }
  }

  /** A check neither drops nor adds a file and leaves each with the server's
      answer, or unverified with no size. */
  lemma ReconcileExact(s: Selected, answers: seq<Item>)
    requires WellKept(s)
    ensures var r := Reconcile(s, answers);
      && WellKept(r) && r.order == s.order && r.items.Keys == s.items.Keys
      && forall k | k in s.items ::
           if exists i | 0 <= i < |answers| :: answers[i].key == k
           then r.items[k] in answers && r.items[k].key == k
           else r.items[k] == Item(k, Unverified, None)
  {
    forall k | k in s.items
      ensures Latest(answers, k).Some? ==> Latest(answers, k).value.key == k && Latest(answers, k).value in answers
      ensures Latest(answers, k).Some? <==> exists i | 0 <= i < |answers| :: answers[i].key == k
    {
      LatestFits(answers, k);
    }
  }

  lemma {:induction false} RefreshKept(s: Selected, rows: seq<Item>)
    requires WellKept(s)
    ensures WellKept(Refresh(s, rows)) && Refresh(s, rows).order == s.order
    ensures Refresh(s, rows).items.Keys == s.items.Keys
    decreases |rows|
  {
    if rows != [] {
      RefreshKept(if rows[0].key in s.items then Put(s, rows[0]) else s, rows[1..]);
    }
  }

  // ---------------------------------------------------------------- the sorted listing

  function InsertKey(k: Key, keys: seq<Key>): seq<Key> {
    if keys == [] || Before(k, keys[0]) then [k] + keys else [keys[0]] + InsertKey(k, keys[1..])
  }

  function SortKeys(keys: seq<Key>): seq<Key> {
    if keys == [] then [] else InsertKey(keys[0], SortKeys(keys[1..]))
  }

  function Listing(s: Selected): seq<Key> {
    SortKeys(s.order)
  }

  predicate Ascending(keys: seq<Key>) {
    forall i, j | 0 <= i < j < |keys| :: Before(keys[i], keys[j])
  }

  lemma {:induction false} InsertKeySorts(k: Key, keys: seq<Key>)
    requires Ascending(keys) && k !in keys
    ensures Ascending(InsertKey(k, keys))
    ensures forall j :: j in InsertKey(k, keys) <==> j == k || j in keys
  {
    if keys != [] {
      BeforeTotal(k, keys[0]);
      if Before(k, keys[0]) {
        forall j | 0 <= j < |keys|
          ensures Before(k, keys[j])
        {
          if j > 0 {
            LessTransitive(LedgerKey(k), LedgerKey(keys[0]), LedgerKey(keys[j]));
          }
        }
      } else {
        var rest := InsertKey(k, keys[1..]);
        InsertKeySorts(k, keys[1..]);
        assert forall j :: j in keys <==> j == keys[0] || j in keys[1..];
        forall j | 0 <= j < |rest|
          ensures Before(keys[0], rest[j])
        {
          assert rest[j] in rest;
        }
      }
    }
  }

  lemma {:induction false} SortKeysSorts(keys: seq<Key>)
    requires Distinct(keys)
    ensures Ascending(SortKeys(keys))
    ensures forall k :: k in SortKeys(keys) <==> k in keys
  {
    if keys != [] {
      SortKeysSorts(keys[1..]);
      assert forall k :: k in keys <==> k == keys[0] || k in keys[1..];
      InsertKeySorts(keys[0], SortKeys(keys[1..]));
    }
  }

  lemma {:induction false} AscendingDetermined(a: seq<Key>, b: seq<Key>)
    requires Ascending(a) && Ascending(b)
    requires forall k :: k in a <==> k in b
    ensures a == b
  {
    assert (a != [] ==> a[0] in a) && (b != [] ==> b[0] in b);
    if a != [] && b != [] {
      assert a[0] in b && b[0] in a;
      BeforeTotal(a[0], b[0]);
      assert a[0] == b[0];
      forall k
        ensures k in a[1..] <==> k in b[1..]
      {
        BeforeTotal(a[0], a[0]);
        assert k in a <==> k == a[0] || k in a[1..];
        assert k in b <==> k == b[0] || k in b[1..];
        assert a[0] !in a[1..] && b[0] !in b[1..];
      }
      AscendingDetermined(a[1..], b[1..]);
      assert a == [a[0]] + a[1..] && b == [b[0]] + b[1..];
    }
  }

  /** The listing, and with it the submit fingerprint, depends only on which
      files are selected, never on the order in which they were picked. */
  lemma ListingDependsOnKeys(s: Selected, t: Selected)
    requires WellKept(s) && WellKept(t)
    ensures Listing(s) == Listing(t) <==> s.items.Keys == t.items.Keys
  {
    SortKeysSorts(s.order);
    SortKeysSorts(t.order);
    if s.items.Keys == t.items.Keys {
      AscendingDetermined(Listing(s), Listing(t));
    }
  }

  // ---------------------------------------------------------------- chunks

  function StoresOf(keys: seq<Key>): set<Text> {
    set k | k in keys :: k.storeName
  }

  function DatesOf(keys: seq<Key>): set<Text> {
    set k | k in keys :: k.purchaseDate
  }

  /** Whether the next file still goes into the chunk. */
  predicate Fits(limits: Limits, batch: seq<Key>, next: Key) {
    && |batch| < limits.pageSize
    && (batch != [] ==>
          && (next.storeName in StoresOf(batch) || |StoresOf(batch)| < limits.stores)
          && (next.purchaseDate in DatesOf(batch) || |DatesOf(batch)| < limits.dates))
  }

  /** Where the chunk that started at `start` and has reached `i` ends. */
  function ChunkEnd(limits: Limits, all: seq<Key>, start: nat, i: nat): (r: nat)
    requires start <= i <= |all|
    ensures i <= r <= |all|
    decreases |all| - i
  {
    if i < |all| && Fits(limits, all[start..i], all[i]) then ChunkEnd(limits, all, start, i + 1) else i
  }

  predicate Usable(limits: Limits) {
    limits.pageSize >= 1 && limits.stores >= 1 && limits.dates >= 1
  }

  predicate Within(limits: Limits, batch: seq<Key>) {
    |batch| <= limits.pageSize && |StoresOf(batch)| <= limits.stores && |DatesOf(batch)| <= limits.dates
  }

  lemma NamesGrow(batch: seq<Key>, next: Key)
    ensures StoresOf(batch + [next]) == StoresOf(batch) + {next.storeName}
    ensures DatesOf(batch + [next]) == DatesOf(batch) + {next.purchaseDate}
  {
    forall s | s in StoresOf(batch) + {next.storeName}
      ensures s in StoresOf(batch + [next])
    {
      if s == next.storeName {
        assert next in batch + [next];
      } else {
        var k :| k in batch && k.storeName == s;
        assert k in batch + [next];
      }
    }
    forall d | d in DatesOf(batch) + {next.purchaseDate}
      ensures d in DatesOf(batch + [next])
    {
      if d == next.purchaseDate {
        assert next in batch + [next];
      } else {
        var k :| k in batch && k.purchaseDate == d;
        assert k in batch + [next];
      }
    }
  }

  lemma FitsKeepsWithin(limits: Limits, batch: seq<Key>, next: Key)
    requires Usable(limits) && Within(limits, batch) && Fits(limits, batch, next)
    ensures Within(limits, batch + [next])
  {
    NamesGrow(batch, next);
    if batch == [] {
      assert StoresOf(batch) == {} && DatesOf(batch) == {};
    }
  }

  /** A chunk advances, respects every limit, and stops only where the next file would break one. */
  lemma {:induction false} ChunkEndExact(limits: Limits, all: seq<Key>, start: nat, i: nat)
    requires Usable(limits) && start <= i <= |all| && start < |all|
    requires Within(limits, all[start..i])
    ensures var r := ChunkEnd(limits, all, start, i);
      && start < r && Within(limits, all[start..r])
      && (r < |all| ==>
            || r - start == limits.pageSize
            || (all[r].storeName !in StoresOf(all[start..r]) && |StoresOf(all[start..r])| == limits.stores)
            || (all[r].purchaseDate !in DatesOf(all[start..r]) && |DatesOf(all[start..r])| == limits.dates))
    decreases |all| - i
  {
    if i < |all| && Fits(limits, all[start..i], all[i]) {
      FitsKeepsWithin(limits, all[start..i], all[i]);
      assert all[start..i] + [all[i]] == all[start..i + 1];
      ChunkEndExact(limits, all, start, i + 1);
    }
  }

  /** The chunks a check sends, from position `start` on. */
  function Chunks(limits: Limits, all: seq<Key>, start: nat): seq<seq<Key>>
    requires Usable(limits) && start <= |all|
    decreases |all| - start
  {
    if start == |all| then []
    else
      ChunkStart(limits, all, start);
      var end := ChunkEnd(limits, all, start, start);
      [all[start..end]] + Chunks(limits, all, end)
  }

  lemma ChunkStart(limits: Limits, all: seq<Key>, start: nat)
    requires Usable(limits) && start < |all|
    ensures start < ChunkEnd(limits, all, start, start)
    ensures Within(limits, all[start..ChunkEnd(limits, all, start, start)])
  {
    assert StoresOf(all[start..start]) == {} && DatesOf(all[start..start]) == {};
    ChunkEndExact(limits, all, start, start);
  }

  function Flatten<T>(parts: seq<seq<T>>): seq<T> {
    if parts == [] then [] else parts[0] + Flatten(parts[1..])
  }

  /** No file is lost or sent twice: the chunks are the whole listing, cut up within the limits. */
  lemma {:induction false} ChunksCover(limits: Limits, all: seq<Key>, start: nat)
    requires Usable(limits) && start <= |all|
    ensures Flatten(Chunks(limits, all, start)) == all[start..]
    ensures forall c | c in Chunks(limits, all, start) :: c != [] && Within(limits, c)
    decreases |all| - start
  {
    if start < |all| {
      ChunkStart(limits, all, start);
      var end := ChunkEnd(limits, all, start, start);
      ChunksCover(limits, all, end);
      assert all[start..] == all[start..end] + all[end..];
    }
  }

  /** The pages of a chunk answer it when, for every file of the chunk, they
      hold the server's item or, if it has none, nothing. */
  ghost predicate Answers(server: Key -> Option<Item>, chunk: seq<Key>, page: seq<Item>) {
    && (forall i | 0 <= i < |page| :: page[i].key in chunk && server(page[i].key) == Some(page[i]))
    && (forall k | k in chunk && server(k).Some? :: server(k).value in page)
  }

  /** Answers to two stretches of the listing, one after the other, answer both together. */
  lemma AnswersAppend(server: Key -> Option<Item>, a: seq<Key>, p: seq<Item>, b: seq<Key>, q: seq<Item>)
    requires Answers(server, a, p) && Answers(server, b, q)
    ensures Answers(server, a + b, p + q)
  {
    forall i | 0 <= i < |p + q|
      ensures (p + q)[i].key in a + b && server((p + q)[i].key) == Some((p + q)[i])
    {
      assert i < |p| ==> (p + q)[i] == p[i];
      assert i >= |p| ==> (p + q)[i] == q[i - |p|];
    }
  }

  lemma {:induction false} AnswersFlatten(server: Key -> Option<Item>, chunks: seq<seq<Key>>, pages: seq<seq<Item>>)
    requires |pages| == |chunks| && forall i | 0 <= i < |pages| :: Answers(server, chunks[i], pages[i])
    ensures Answers(server, Flatten(chunks), Flatten(pages))
  {
    if chunks != [] {
      AnswersFlatten(server, chunks[1..], pages[1..]);
      AnswersAppend(server, chunks[0], pages[0], Flatten(chunks[1..]), Flatten(pages[1..]));
    }
  }

  /** A selected file after a check by `server`. */
  function Served(server: Key -> Option<Item>, k: Key): Item {
    if server(k).Some? then server(k).value else Item(k, Unverified, None)
  }

  /** Once a listing is answered, the files of it that are selected hold what the server has of them. */
  lemma AnswersReconcile(server: Key -> Option<Item>, all: seq<Key>, s: Selected, results: seq<Item>)
    requires WellKept(s) && Answers(server, all, results)
    requires forall k :: server(k).Some? ==> server(k).value.key == k
    ensures forall k | k in s.items ::
      Reconcile(s, results).items[k] == if k in all then Served(server, k) else Item(k, Unverified, None)
  {
    forall k | k in s.items
      ensures Latest(results, k) == if k in all then server(k) else None
    {
      LatestFits(results, k);
      if k in all && server(k).Some? {
        assert server(k).value in results;
      }
    }
  }

  /** Checking chunk by chunk leaves the selection as one unbounded check would. */
  lemma ChunkedCheckIsWholeCheck(server: Key -> Option<Item>, limits: Limits, s: Selected, pages: seq<seq<Item>>)
    requires Usable(limits) && WellKept(s)
    requires forall k :: server(k).Some? ==> server(k).value.key == k
    requires var chunks := Chunks(limits, Listing(s), 0);
      |pages| == |chunks| && forall i | 0 <= i < |pages| :: Answers(server, chunks[i], pages[i])
    ensures Reconcile(s, Flatten(pages)).items == map k | k in s.items :: Served(server, k)
  {
    var all := Listing(s);
    ChunksCover(limits, all, 0);
    AnswersFlatten(server, Chunks(limits, all, 0), pages);
    assert all[0..] == all;
    SortKeysSorts(s.order);
    AnswersReconcile(server, all, s, Flatten(pages));
  }

  // ---------------------------------------------------------------- totals and the submit fingerprint

  predicate ValidSize(item: Item) {
    item.byteSize.Some? && 0 < item.byteSize.value <= MAX_SAFE_INTEGER
  }

  datatype Summary = Summary(files: nat, bytes: int, unknown: nat, invalid: nat, stores: nat, dates: nat, allowed: bool)

  function TotalBytes(s: Selected, keys: seq<Key>): int
    requires forall k | k in keys :: k in s.items
  {
    if keys == [] then 0
    else (if ValidSize(s.items[keys[0]]) then s.items[keys[0]].byteSize.value else 0) + TotalBytes(s, keys[1..])
  }

  ghost function Summarise(limits: Limits, s: Selected): Summary
    requires WellKept(s)
  {
    var bytes := TotalBytes(s, s.order);
    var unknown := |set k | k in s.items && !ValidSize(s.items[k])|;
    var invalid := |set k | k in s.items && s.items[k].status != Ready|;
    var stores, dates := |StoresOf(s.order)|, |DatesOf(s.order)|;
    Summary(|s.order|, bytes, unknown, invalid, stores, dates,
            && 0 < |s.order| <= limits.files && stores <= limits.stores && dates <= limits.dates
            && bytes <= MAX_SAFE_INTEGER && bytes <= limits.bytes && unknown == 0 && invalid == 0)
  }

  const STORE_NAME: Text := [115, 116, 111, 114, 101, 78, 97, 109, 101]
  const PURCHASE_DATE: Text := [112, 117, 114, 99, 104, 97, 115, 101, 68, 97, 116, 101]

  function KeyValue(k: Key): Value {
    Obj([Member(STORE_NAME, Str(k.storeName)), Member(PURCHASE_DATE, Str(k.purchaseDate))])
  }

  function KeyValues(keys: seq<Key>): (r: seq<Value>)
    ensures |r| == |keys|
    ensures forall i | 0 <= i < |keys| :: r[i] == KeyValue(keys[i])
  {
    if keys == [] then [] else [KeyValue(keys[0])] + KeyValues(keys[1..])
  }

  /** The text that decides whether a submit repeats the last one. */
  function Fingerprint(keys: seq<Key>): Text {
    Serialise(Arr(KeyValues(keys)))
  }

  lemma FingerprintInjective(p: seq<Key>, q: seq<Key>)
    requires Fingerprint(p) == Fingerprint(q)
    ensures p == q
  {
    assert forall k: Key :: WellFormed(KeyValue(k));
    PrintUnique(Arr(KeyValues(p)), Arr(KeyValues(q)), [], []);
    assert |p| == |q|;
    forall i | 0 <= i < |p|
      ensures p[i] == q[i]
    {
      assert KeyValue(p[i]) == KeyValue(q[i]);
      assert KeyValue(p[i]).members[0] == KeyValue(q[i]).members[0];
      assert KeyValue(p[i]).members[1] == KeyValue(q[i]).members[1];
    }
  }
}
