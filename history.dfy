/** The date labels of the history sidebar: one pass over the saved items, newest first, that
    heads the first item of each period with the period's name. */
module History {
  import opened Wrappers

  /** One day in milliseconds. */
  const Day: int := 24 * 60 * 60 * 1000

  const Today: string := "Today"
  const Week: string := "Previous 7 days"
  const Month: string := "Previous 30 days"

  /** The pass's states, in the order it moves through them. */
  function Rank(last: string): nat {
    if last == Today then 1 else if last == Week then 2 else if last == Month then 3 else 0
  }

  /** What the pass carries: the labels handed out so far and `lastLabel`. */
  datatype Pass = Pass(labels: seq<Option<string>>, last: string)

  /** The label of one item and the new `lastLabel`, given `lastLabel`, the item's creation time
      (absent when the item has none) and the two cut-offs. */
  function Step(last: string, createdAt: Option<int>, today: int, sevenDaysAgo: int): (r: Pass)
    ensures |r.labels| == 1
    ensures r.labels[0] == Some(Today) <==> last == "" && createdAt.Some? && createdAt.value >= today
    ensures r.labels[0] == Some(Week) <==>
      last == Today && createdAt.Some? && sevenDaysAgo <= createdAt.value < today
    ensures r.labels[0] == Some(Month) <==>
      last == Week && createdAt.Some? && createdAt.value <= sevenDaysAgo
    ensures r.labels[0].Some? ==> r.labels[0].value in {Today, Week, Month} && r.last == r.labels[0].value
    ensures createdAt.None? ==> r == Pass([None], last)
    ensures Rank(r.last) >= Rank(last) && (r.last == last || r.last in {Today, Week, Month})
    ensures r.labels[0].Some? ==> Rank(r.last) > Rank(last)
  {
    if createdAt.Some? && createdAt.value >= today && (last == "" || last == Today) then
      Pass([if last == Today then None else Some(Today)], Today)
    else if createdAt.Some? && createdAt.value >= sevenDaysAgo && last == Today then
      Pass([Some(Week)], Week)
    else if last == Week && createdAt.Some? && createdAt.value <= sevenDaysAgo then
      Pass([Some(Month)], Month)
    else
      Pass([None], last)
  }

  /** The pass over the items' creation times, one item at a time from `lastLabel = ''`. */
  function Run(items: seq<Option<int>>, today: int, sevenDaysAgo: int): (r: Pass)
    ensures |r.labels| == |items|
  {
    if items == [] then Pass([], "")
    else
      var p := Run(items[..|items| - 1], today, sevenDaysAgo);
      var s := Step(p.last, items[|items| - 1], today, sevenDaysAgo);
      Pass(p.labels + s.labels, s.last)
  }

  /** The labels of the history list at clock reading `now`: the cut-offs are one day and seven
      days before `now`. */
  function HistoryLabels(items: seq<Option<int>>, now: int): seq<Option<string>> {
    Run(items, now - Day, now - 7 * Day).labels
  }

  /** The `history.map` pass of the sidebar, item by item, in the order of the list. */
  method Labels(items: seq<Option<int>>, now: int) returns (labels: seq<Option<string>>)
    ensures labels == HistoryLabels(items, now)
  {
    var today := now - Day;
    var sevenDaysAgo := now - 7 * Day;
    var lastLabel := "";
    labels := [];
    for i := 0 to |items|
      invariant Pass(labels, lastLabel) == Run(items[..i], today, sevenDaysAgo)
    {
      assert items[..i + 1][..i] == items[..i];
      var createdAt := items[i];
      var itemLabel: Option<string>;
      if createdAt.Some? && createdAt.value >= today && (lastLabel == "" || lastLabel == Today) {
        itemLabel := if lastLabel == Today then None else Some(Today);
        lastLabel := Today;
      } else if createdAt.Some? && createdAt.value >= sevenDaysAgo && lastLabel == Today {
        itemLabel := Some(Week);
        lastLabel := Week;
      } else if lastLabel == Week && createdAt.Some? && createdAt.value <= sevenDaysAgo {
        itemLabel := Some(Month);
        lastLabel := Month;
      } else {
        itemLabel := None;
      }
      labels := labels + [itemLabel];
    }
    assert items[..|items|] == items;
  }

  /** `lastLabel` only moves forward through `'' → Today → Previous 7 days → Previous 30 days`,
      every label is one of the three names, each label given moves it and is no further on than
      where the pass ends, and so the labels given strictly advance: none is given twice. */
  lemma {:induction false} RunAdvances(items: seq<Option<int>>, today: int, sevenDaysAgo: int)
    ensures var r := Run(items, today, sevenDaysAgo);
      (r.last == "" || r.last in {Today, Week, Month}) &&
      (forall k :: 0 <= k < |items| && r.labels[k].Some? ==>
        r.labels[k].value in {Today, Week, Month} && Rank(r.labels[k].value) <= Rank(r.last)) &&
      (forall i, j :: 0 <= i < j < |items| && r.labels[i].Some? && r.labels[j].Some? ==>
        Rank(r.labels[i].value) < Rank(r.labels[j].value))
    decreases |items|
  {
    if items != [] {
      var n := |items| - 1;
      RunAdvances(items[..n], today, sevenDaysAgo);
      var p := Run(items[..n], today, sevenDaysAgo);
      var s := Step(p.last, items[n], today, sevenDaysAgo);
      var r := Run(items, today, sevenDaysAgo);
      assert r.labels == p.labels + s.labels;
      assert forall k :: 0 <= k < n ==> r.labels[k] == p.labels[k];
      assert r.labels[n] == s.labels[0];
    }
  }

  /** Each of the three labels heads at most one item. */
  lemma LabelsOnce(items: seq<Option<int>>, now: int)
    ensures forall i, j :: 0 <= i < j < |items| && HistoryLabels(items, now)[i].Some? ==>
      HistoryLabels(items, now)[j] != HistoryLabels(items, now)[i]
  {
    RunAdvances(items, now - Day, now - 7 * Day);
  }

  /** The `k`-th label is what `Step` gives from the state after the items before it. */
  lemma {:induction false} RunAt(items: seq<Option<int>>, today: int, sevenDaysAgo: int, k: nat)
    requires k < |items|
    ensures Run(items, today, sevenDaysAgo).labels[k] ==
      Step(Run(items[..k], today, sevenDaysAgo).last, items[k], today, sevenDaysAgo).labels[0]
    decreases |items|
  {
    var n := |items| - 1;
    if k < n {
      RunAt(items[..n], today, sevenDaysAgo, k);
      assert items[..n][..k] == items[..k];
    } else {
      assert items[..k] == items[..n];
    }
  }

  /** An item without a creation time never gets a label. */
  lemma NoDateNoLabel(items: seq<Option<int>>, now: int, k: nat)
    requires k < |items| && items[k].None?
    ensures HistoryLabels(items, now)[k] == None
  {
    RunAt(items, now - Day, now - 7 * Day, k);
  }

  /** The first item created within the last day gets `Today` when no item before it was
      recent; the later recent items right after it get no label. */
  lemma {:induction false} TodayOnFirstRecent(items: seq<Option<int>>, now: int, k: nat)
    requires k < |items| && items[k].Some? && items[k].value >= now - Day
    requires forall j :: 0 <= j < k ==> items[j].Some? && items[j].value >= now - Day
    ensures HistoryLabels(items, now)[k] == if k == 0 then Some(Today) else None
  {
    RunAt(items, now - Day, now - 7 * Day, k);
    RecentRunIsToday(items[..k], now);
  }

  lemma {:induction false} RecentRunIsToday(items: seq<Option<int>>, now: int)
    requires forall j :: 0 <= j < |items| ==> items[j].Some? && items[j].value >= now - Day
    ensures Run(items, now - Day, now - 7 * Day).last == if items == [] then "" else Today
    decreases |items|
  {
    if items != [] {
      RecentRunIsToday(items[..|items| - 1], now);
    }
  }

  /** Without an item from the last day the pass never leaves `''`, and no item gets a label. */
  lemma {:induction false} NoRecentNoLabels(items: seq<Option<int>>, now: int)
    requires forall j :: 0 <= j < |items| ==> items[j].None? || items[j].value < now - Day
    ensures Run(items, now - Day, now - 7 * Day).last == ""
    ensures forall k :: 0 <= k < |items| ==> HistoryLabels(items, now)[k] == None
    decreases |items|
  {
    if items != [] {
      var n := |items| - 1;
      NoRecentNoLabels(items[..n], now);
      var r := Run(items, now - Day, now - 7 * Day);
      var p := Run(items[..n], now - Day, now - 7 * Day);
      assert HistoryLabels(items[..n], now) == p.labels;
      assert forall k :: 0 <= k < n ==> r.labels[k] == p.labels[k];
      assert HistoryLabels(items, now) == r.labels;
    }
  }
}
