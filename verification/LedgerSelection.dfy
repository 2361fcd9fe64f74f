/** The selection object of the ledger page, updated in place. */
module LedgerSelection {
  import opened Options
  import opened Json
  import opened LedgerModel

  class Selection {
    var order: seq<Key>
    var items: map<Key, Item>

    ghost function View(): Selected
      reads this
    {
      Selected(order, items)
    }

    constructor ()
      ensures View() == EMPTY
    {
      order, items := [], map[];
    }

    method Put(item: Item)
      modifies this
      ensures View() == LedgerModel.Put(old(View()), item)
    {
      if item.key !in items {
        order := order + [item.key];
      }
      items := items[item.key := item];
    }

    method Select(item: Item, checked: bool)
      modifies this
      ensures View() == Choose(old(View()), item, checked)
    {
      if !checked {
        order := Without(order, item.key);
        items := items - {item.key};
      } else if item.status == Ready {
        Put(item);
      }
    }

    method SelectBatch(chosen: seq<Item>, checked: bool)
      modifies this
      ensures View() == ChooseAll(old(View()), chosen, checked)
    {
      var i := 0;
      while i < |chosen|
        invariant 0 <= i <= |chosen|
        invariant ChooseAll(View(), chosen[i..], checked) == ChooseAll(old(View()), chosen, checked)
      {
        Select(chosen[i], checked);
        assert chosen[i..][1..] == chosen[i + 1..];
        i := i + 1;
      }
    }

    /** Builds the answer map once, then goes over the selected files. */
    method Reconcile(answers: seq<Item>)
      requires WellKept(View())
      modifies this
      ensures View() == LedgerModel.Reconcile(old(View()), answers)
    {
      var current: map<Key, Item> := map[];
      var i := 0;
      while i < |answers|
        invariant 0 <= i <= |answers|
        invariant forall k :: Latest(answers[..i], k) == if k in current then Some(current[k]) else None
      {
        assert answers[..i + 1] == answers[..i] + [answers[i]];
        current := current[answers[i].key := answers[i]];
        i := i + 1;
      }
      assert answers[..i] == answers;
      var j := 0;
      while j < |order|
        invariant 0 <= j <= |order|
        invariant order == old(order) && items.Keys == old(items).Keys
        invariant forall n | 0 <= n < |order| ::
          items[order[n]] == if n < j then Reconciled(old(items)[order[n]], Latest(answers, order[n]))
            else old(items)[order[n]]
      {
        var key := order[j];
        var previous := items[key];
        items := items[key := if key in current then current[key]
          else previous.(status := Unverified, byteSize := None)];
        j := j + 1;
      }
      forall k | k in items
        ensures items[k] == Reconciled(old(items)[k], Latest(answers, k))
      {
        assert k in order;
      }
    }

    method Clear()
      modifies this
      ensures View() == EMPTY
    {
      order, items := [], map[];
    }

    /** A fresh row replaces what the selection knew about its file. */
    method Refresh(rows: seq<Item>)
      modifies this
      ensures View() == LedgerModel.Refresh(old(View()), rows)
    {
      var i := 0;
      while i < |rows|
        invariant 0 <= i <= |rows|
        invariant LedgerModel.Refresh(View(), rows[i..]) == LedgerModel.Refresh(old(View()), rows)
      {
        if rows[i].key in items {
          Put(rows[i]);
        }
        assert rows[i..][1..] == rows[i + 1..];
        i := i + 1;
      }
    }

    /** Totals of the selection and whether it may be submitted. */
    method Summary(limits: Limits) returns (r: LedgerModel.Summary)
      requires WellKept(View())
      ensures r == Summarise(limits, View())
    {
      var i, bytes := |order|, 0;
      var unknown, invalid: set<Key> := {}, {};
      while i > 0
        invariant 0 <= i <= |order|
        invariant bytes == TotalBytes(View(), order[i..])
        invariant unknown == Unsized(View(), order[i..]) && invalid == Unready(View(), order[i..])
      {
        i := i - 1;
        var item := items[order[i]];
        CountsStep(View(), order, i);
        bytes := bytes + if ValidSize(item) then item.byteSize.value else 0;
        unknown := unknown + if ValidSize(item) then {} else {order[i]};
        invalid := invalid + if item.status == Ready then {} else {order[i]};
      }
      CountsWhole(View());
      var stores, dates := |StoresOf(order)|, |DatesOf(order)|;
      r := LedgerModel.Summary(|order|, bytes, |unknown|, |invalid|, stores, dates,
                               && 0 < |order| <= limits.files && stores <= limits.stores && dates <= limits.dates
                               && bytes <= MAX_SAFE_INTEGER && bytes <= limits.bytes && |unknown| == 0
                               && |invalid| == 0);
    }
  }

  function Unsized(s: Selected, keys: seq<Key>): set<Key>
    requires forall k | k in keys :: k in s.items
  {
    set k | k in keys && !ValidSize(s.items[k])
  }

  function Unready(s: Selected, keys: seq<Key>): set<Key>
    requires forall k | k in keys :: k in s.items
  {
    set k | k in keys && s.items[k].status != Ready
  }

  lemma CountsStep(s: Selected, keys: seq<Key>, i: nat)
    requires i < |keys| && forall k | k in keys :: k in s.items
    ensures TotalBytes(s, keys[i..]) ==
      TotalBytes(s, keys[i + 1..]) + if ValidSize(s.items[keys[i]]) then s.items[keys[i]].byteSize.value else 0
    ensures Unsized(s, keys[i..]) == Unsized(s, keys[i + 1..]) + if ValidSize(s.items[keys[i]]) then {} else {keys[i]}
    ensures Unready(s, keys[i..]) == Unready(s, keys[i + 1..]) + if s.items[keys[i]].status == Ready
      then {} else {keys[i]}
  {
    assert keys[i..][0] == keys[i] && keys[i..][1..] == keys[i + 1..];
    assert forall k :: k in keys[i..] <==> k == keys[i] || k in keys[i + 1..] by {
      assert keys[i..] == [keys[i]] + keys[i + 1..];
    }
  }

  lemma CountsWhole(s: Selected)
    requires WellKept(s)
    ensures TotalBytes(s, s.order[0..]) == TotalBytes(s, s.order)
    ensures Unsized(s, s.order[0..]) == set k | k in s.items && !ValidSize(s.items[k])
    ensures Unready(s, s.order[0..]) == set k | k in s.items && s.items[k].status != Ready
  {
    assert s.order[0..] == s.order;
  }

  lemma ChunkGrows(limits: Limits, all: seq<Key>, start: nat, i: nat)
    requires start <= i < |all|
    ensures StoresOf(all[start..i + 1]) == StoresOf(all[start..i]) + {all[i].storeName}
    ensures DatesOf(all[start..i + 1]) == DatesOf(all[start..i]) + {all[i].purchaseDate}
    ensures all[start..i + 1] == all[start..i] + [all[i]]
    ensures ChunkEnd(limits, all, start, i) ==
      if Fits(limits, all[start..i], all[i]) then ChunkEnd(limits, all, start, i + 1) else i
  {
    NamesGrow(all[start..i], all[i]);
    assert all[start..i] + [all[i]] == all[start..i + 1];
  }

  lemma NoNames(keys: seq<Key>)
    requires keys == []
    ensures StoresOf(keys) == {} && DatesOf(keys) == {}
  {
  }

  /** One chunk of the check, built file by file. */
  method NextChunk(limits: Limits, all: seq<Key>, start: nat) returns (end: nat)
    requires start <= |all|
    ensures end == ChunkEnd(limits, all, start, start)
  {
    var size := 0;
    var stores: set<Text>, dates: set<Text> := {}, {};
    end := start;
    NoNames(all[start..start]);
    while end < |all| && size < limits.pageSize
      invariant start <= end <= |all|
      invariant size == end - start
      invariant stores == StoresOf(all[start..end])
      invariant dates == DatesOf(all[start..end])
      invariant ChunkEnd(limits, all, start, start) == ChunkEnd(limits, all, start, end)
    {
      var item := all[end];
      ChunkGrows(limits, all, start, end);
      if size > 0 && ((item.storeName !in stores && |stores| >= limits.stores)
                         || (item.purchaseDate !in dates && |dates| >= limits.dates)) {
        break;
      }
      size, stores, dates := size + 1, stores + {item.storeName}, dates + {item.purchaseDate};
      end := end + 1;
    }
  }
}
