/** What choosing files, fresh rows and the totals mean for the selection, file by file. */
module LedgerChoices {
  import opened Options
  import opened Json
  import opened LedgerModel

  /** The key of a file with a plain store and date, as text: ["store","date"]. */
  lemma KeyMeans(k: Key)
    requires Plain(k.storeName) && Plain(k.purchaseDate)
    ensures LedgerKey(k) == [91, 34] + k.storeName + [34, 44, 34] + k.purchaseDate + [34, 93]
  {
    hide Plain, Quoted;
    var s, d := Str(k.storeName), Str(k.purchaseDate);
    assert [s, d][1..] == [d] && [d][1..] == [];
    PlainPrints(k.purchaseDate, [93]);
    PlainPrints(k.storeName, [44] + Print(d, [93]));
    assert PrintItems([], []) == [93];
    assert PrintItems([d], []) == [44] + Print(d, [93]);
    assert Print(Arr([s, d]), []) == [91] + Print(s, PrintItems([d], []));
    assert [91] + ([34] + k.storeName + [34] + ([44] + ([34] + k.purchaseDate + [34] + [93])))
        == [91, 34] + k.storeName + [34, 44, 34] + k.purchaseDate + [34, 93];
  }

  lemma {:induction false} WithoutCuts(keys: seq<Key>, at: nat)
    requires at < |keys| && forall j | 0 <= j < at :: keys[j] != keys[at]
    ensures Without(keys, keys[at]) == keys[..at] + keys[at + 1..]
  {
    if at > 0 {
      WithoutCuts(keys[1..], at - 1);
      assert keys[..at] + keys[at + 1..] == [keys[0]] + (keys[1..][..at - 1] + keys[1..][at..]);
    }
  }

  /** Unticking a file takes it out of its place; ticking adds it behind the others or
      renews what is known of it, and only a ready file can be ticked. */
  lemma ChooseMeans(s: Selected, item: Item, checked: bool, at: nat)
    requires WellKept(s)
    ensures var t := Choose(s, item, checked);
      && (!checked ==> t.items == s.items - {item.key})
      && (!checked && at < |s.order| && s.order[at] == item.key ==> t.order == s.order[..at] + s.order[at + 1..])
      && (!checked && item.key !in s.items ==> t == s)
      && (checked && item.status == Ready ==> t.items == s.items[item.key := item])
      && (checked && item.status == Ready ==>
            t.order == if item.key in s.items then s.order else s.order + [item.key])
      && (checked && item.status != Ready ==> t == s)
  {
    if at < |s.order| && s.order[at] == item.key {
      WithoutCuts(s.order, at);
    } else if item.key !in s.items {
      WithoutNone(s.order, item.key);
      assert s.items - {item.key} == s.items;
    }
  }

  lemma {:induction false} WithoutNone(keys: seq<Key>, key: Key)
    requires key !in keys
    ensures Without(keys, key) == keys
  {
    if keys != [] {
      WithoutNone(keys[1..], key);
    }
  }

  /** No item from place `from` on is a ready one with the key. */
  predicate NoneReady(items: seq<Item>, from: nat, k: Key) {
    forall j | from <= j < |items| :: items[j].key == k ==> items[j].status != Ready
  }

  /** Unticking a batch drops exactly the files of the batch. */
  lemma {:induction false} UntickMeans(s: Selected, items: seq<Item>, k: Key)
    requires WellKept(s)
    ensures var t := ChooseAll(s, items, false);
      && (k in t.items <==> k in s.items && forall i | 0 <= i < |items| :: items[i].key != k)
      && (k in t.items ==> t.items[k] == s.items[k])
    decreases |items|
  {
    if items != [] {
      ChooseKept(s, items[0], false);
      UntickMeans(Choose(s, items[0], false), items[1..], k);
      assert forall i | 0 < i < |items| :: items[i] == items[1..][i - 1];
      assert (forall i | 0 <= i < |items[1..]| :: items[1..][i].key != k) ==>
          forall i | 0 < i < |items| :: items[i].key != k;
    }
  }

  /** Ticking a batch leaves a file with its last ready row of the batch ... */
  lemma {:induction false} TickMeans(s: Selected, items: seq<Item>, i: nat)
    requires WellKept(s) && i < |items| && items[i].status == Ready && NoneReady(items, i + 1, items[i].key)
    ensures var t := ChooseAll(s, items, true);
      items[i].key in t.items && t.items[items[i].key] == items[i]
    decreases |items|
  {
    ChooseKept(s, items[0], true);
    var c := Choose(s, items[0], true);
    if i == 0 {
      TickNothing(c, items[1..], items[0].key);
    } else {
      TickMeans(c, items[1..], i - 1);
    }
  }

  /** ... and any other file alone. */
  lemma {:induction false} TickNothing(s: Selected, items: seq<Item>, k: Key)
    requires WellKept(s) && NoneReady(items, 0, k)
    ensures var t := ChooseAll(s, items, true);
      (k in t.items <==> k in s.items) && (k in t.items ==> t.items[k] == s.items[k])
    decreases |items|
  {
    if items != [] {
      ChooseKept(s, items[0], true);
      TickNothing(Choose(s, items[0], true), items[1..], k);
    }
  }

  /** A selected file takes over its last row among those that came ... */
  lemma {:induction false} RefreshMeans(s: Selected, rows: seq<Item>, i: nat)
    requires WellKept(s) && i < |rows| && rows[i].key in s.items
    requires forall j | i < j < |rows| :: rows[j].key != rows[i].key
    ensures rows[i].key in Refresh(s, rows).items && Refresh(s, rows).items[rows[i].key] == rows[i]
    decreases |rows|
  {
    var next := if rows[0].key in s.items then Put(s, rows[0]) else s;
    if i == 0 {
      RefreshNothing(next, rows[1..], rows[0].key);
    } else {
      RefreshMeans(next, rows[1..], i - 1);
    }
  }

  /** ... and any other file stays as it was. */
  lemma {:induction false} RefreshNothing(s: Selected, rows: seq<Item>, k: Key)
    requires forall j | 0 <= j < |rows| :: rows[j].key != k
    ensures k in Refresh(s, rows).items <==> k in s.items
    ensures k in s.items ==> Refresh(s, rows).items[k] == s.items[k]
    decreases |rows|
  {
    if rows != [] {
      RefreshNothing(if rows[0].key in s.items then Put(s, rows[0]) else s, rows[1..], k);
    }
  }

  /** Of several answers for a file the last one counts. */
  lemma {:induction false} LatestMeans(answers: seq<Item>, i: nat)
    requires i < |answers| && forall j | i < j < |answers| :: answers[j].key != answers[i].key
    ensures Latest(answers, answers[i].key) == Some(answers[i])
  {
    if i < |answers| - 1 {
      LatestMeans(answers[..|answers| - 1], i);
    }
  }

  /** A check leaves a selected file with the last answer for it, or unverified and without size. */
  lemma ReconcileMeans(s: Selected, answers: seq<Item>, i: nat, k: Key)
    requires WellKept(s)
    ensures Reconcile(s, answers).order == s.order && Reconcile(s, answers).items.Keys == s.items.Keys
    ensures (i < |answers| && answers[i].key in s.items
             && forall j | i < j < |answers| :: answers[j].key != answers[i].key) ==>
      Reconcile(s, answers).items[answers[i].key] == answers[i]
    ensures k in s.items && (forall j | 0 <= j < |answers| :: answers[j].key != k) ==>
      Reconcile(s, answers).items[k] == Item(k, Unverified, None)
  {
    if i < |answers| && (forall j | i < j < |answers| :: answers[j].key != answers[i].key) {
      LatestMeans(answers, i);
    }
    LatestFits(answers, k);
  }

  /** The size a file counts for: none unless it is a safe positive integer. */
  function Counted(item: Item): int {
    if item.byteSize.Some? && 0 < item.byteSize.value <= 9007199254740991 then item.byteSize.value else 0
  }

  lemma {:induction false} BytesWithout(s: Selected, keys: seq<Key>, key: Key)
    requires Distinct(keys) && key in keys && forall k | k in keys :: k in s.items
    ensures forall k | k in Without(keys, key) :: k in Remove(s, key).items
    ensures TotalBytes(s, keys) == TotalBytes(Remove(s, key), Without(keys, key)) + Counted(s.items[key])
  {
    WithoutDrops(keys, key);
    if keys[0] == key {
      SameBytes(s, Remove(s, key), keys[1..]);
    } else {
      WithoutDrops(keys[1..], key);
      BytesWithout(s, keys[1..], key);
    }
  }

  lemma {:induction false} SameBytes(s: Selected, t: Selected, keys: seq<Key>)
    requires forall k | k in keys :: k in s.items && k in t.items && s.items[k] == t.items[k]
    ensures TotalBytes(s, keys) == TotalBytes(t, keys)
  {
    if keys != [] {
      SameBytes(s, t, keys[1..]);
    }
  }

  lemma OrderCounts(keys: seq<Key>, held: set<Key>)
    requires Distinct(keys) && forall k :: k in keys <==> k in held
    ensures |keys| == |held|
    decreases keys
  {
    if keys == [] {
      assert held == {};
    } else {
      assert forall k :: k in keys <==> k == keys[0] || k in keys[1..];
      OrderCounts(keys[1..], held - {keys[0]});
    }
  }

  /** A file taken out of the selection takes exactly its own size with it. */
  lemma SummaryWithout(limits: Limits, s: Selected, key: Key)
    requires WellKept(s) && key in s.items
    ensures WellKept(Remove(s, key))
    ensures Summarise(limits, s).bytes == Summarise(limits, Remove(s, key)).bytes + Counted(s.items[key])
    ensures Summarise(limits, EMPTY).bytes == 0
  {
    WithoutDrops(s.order, key);
    BytesWithout(s, s.order, key);
  }

  /** What the totals count, and when exactly a selection may be submitted. */
  lemma SummaryMeans(limits: Limits, s: Selected)
    requires WellKept(s)
    ensures var r := Summarise(limits, s);
      && r.files == |s.items.Keys|
      && r.stores == |set k | k in s.items :: k.storeName| && r.dates == |set k | k in s.items :: k.purchaseDate|
      && r.unknown == |set k | k in s.items && Counted(s.items[k]) == 0|
      && r.invalid == |set k | k in s.items && s.items[k].status != Ready|
    ensures var r := Summarise(limits, s);
      r.allowed <==>
        && 1 <= r.files <= limits.files && r.stores <= limits.stores && r.dates <= limits.dates
        && r.bytes <= limits.bytes && r.bytes <= 9007199254740991
        && forall k | k in s.items :: s.items[k].status == Ready && s.items[k].byteSize == Some(Counted(s.items[k]))
                                      && Counted(s.items[k]) > 0
  {
    OrderCounts(s.order, s.items.Keys);
    assert (set k | k in s.items :: k.storeName) == StoresOf(s.order);
    assert (set k | k in s.items :: k.purchaseDate) == DatesOf(s.order);
    var unsized := set k | k in s.items && !ValidSize(s.items[k]);
    var unready := set k | k in s.items && s.items[k].status != Ready;
    assert unsized == set k | k in s.items && Counted(s.items[k]) == 0;
    assert |unsized| == 0 <==> unsized == {};
    assert |unready| == 0 <==> unready == {};
    assert (forall k | k in s.items :: Counted(s.items[k]) > 0) ==> unsized == {};
    assert (forall k | k in s.items :: s.items[k].status == Ready) ==> unready == {};
    assert unsized == {} ==> forall k | k in s.items :: k !in unsized;
    assert unready == {} ==> forall k | k in s.items :: k !in unready;
  }
}
