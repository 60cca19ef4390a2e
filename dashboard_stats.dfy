/** The dashboard counters: each stock instance classified by its expiry
    date (expired, due within two weeks, fine), plus the number of opened
    instances. Dates are given as a parser from the stored date string to
    milliseconds, and "today" as the millisecond time of today's local
    midnight. */
module DashboardStats {
  import opened Prelude

  datatype Status = Expired | Soon | Ok

  /** Milliseconds in a day. */
  const DayMs: int := 86400000

  /** A string that is neither absent nor empty. */
  predicate Truthy(s: Option<string>) {
    s.Some? && s.value != ""
  }

  /** `Math.ceil(x / 86400000)`: a time difference in whole days, rounded up. */
  function CeilDays(x: int): int {
    -((-x) / DayMs)
  }

  /** A whole number of days `k` bounds the rounded-up day difference
      exactly when `k` days bound the time difference. */
  lemma CeilDaysAtMost(x: int, k: int)
    ensures CeilDays(x) <= k <==> x <= k * DayMs
  {
    var q, r := (-x) / DayMs, (-x) % DayMs;
    assert -x == q * DayMs + r && 0 <= r < DayMs;
    if -q <= k {
      assert x == -q * DayMs - r;
    } else {
      assert q <= -k - 1;
      assert x == -q * DayMs - r;
      assert -q * DayMs >= (k + 1) * DayMs;
    }
  }

  /** The whole days from today's midnight to the expiry, rounded up. */
  function DiffDays(expiryMs: int, todayMs: int): int {
    CeilDays(expiryMs - todayMs)
  }

  /** `getExpiryStatus`: a missing or empty date, and a date that does not
      parse, are fine; otherwise an expiry at least a full day before today's
      midnight is expired, one up to fourteen days after it is soon, and a
      later one is fine. */
  function ExpiryStatus(dateStr: Option<string>, parse: string -> Option<int>, todayMs: int): (s: Status)
    ensures !Truthy(dateStr) ==> s == Ok
    ensures Truthy(dateStr) && parse(dateStr.value).None? ==> s == Ok
    ensures Truthy(dateStr) && parse(dateStr.value).Some? ==>
      var gap := parse(dateStr.value).value - todayMs;
      && (s == Expired <==> gap <= -DayMs)
      && (s == Soon <==> -DayMs < gap <= 14 * DayMs)
      && (s == Ok <==> 14 * DayMs < gap)
  {
    if !Truthy(dateStr) then Ok
    else
      match parse(dateStr.value)
      case None => Ok
      case Some(expiry) =>
        CeilDaysAtMost(expiry - todayMs, -1);
        CeilDaysAtMost(expiry - todayMs, 14);
        var diffDays := DiffDays(expiry, todayMs);
        if diffDays < 0 then Expired else if diffDays <= 14 then Soon else Ok
  }

  /** A stock instance: its expiry date and when it was opened. */
  datatype Instance = Instance(expiryDate: Option<string>, openedAt: Option<string>)

  /** An inventory item as the counters see it: its instances, if any. */
  datatype StatItem = StatItem(instances: Option<seq<Instance>>)

  datatype Counts = Counts(expired: int, soon: int, ok: int, openedCount: int)

  const Zero := Counts(0, 0, 0, 0)

  function Plus(a: Counts, b: Counts): Counts {
    Counts(a.expired + b.expired, a.soon + b.soon, a.ok + b.ok, a.openedCount + b.openedCount)
  }

  function Classified(c: Counts): int {
    c.expired + c.soon + c.ok
  }

  function InstancesOf(item: StatItem): seq<Instance> {
    if item.instances.Some? then item.instances.value else []
  }

  /** What one instance adds: one to the counter of its status, and one to
      `opened` when it has an opening date. */
  function InstanceCounts(inst: Instance, parse: string -> Option<int>, todayMs: int): (c: Counts)
    ensures 0 <= c.expired && 0 <= c.soon && 0 <= c.ok && 0 <= c.openedCount
    ensures c.expired + c.soon + c.ok == 1 && c.openedCount <= 1
    ensures c.openedCount == 1 <==> Truthy(inst.openedAt)
    ensures var s := ExpiryStatus(inst.expiryDate, parse, todayMs);
            (c.expired == 1 <==> s == Expired) && (c.soon == 1 <==> s == Soon) && (c.ok == 1 <==> s == Ok)
  {
    StatusCounts(ExpiryStatus(inst.expiryDate, parse, todayMs), Truthy(inst.openedAt))
  }

  function StatusCounts(status: Status, isOpen: bool): Counts {
    Counts(
      if status == Expired then 1 else 0,
      if status == Soon then 1 else 0,
      if status == Ok then 1 else 0,
      if isOpen then 1 else 0)
  }

  /** The counts of a run of instances, one after the other. */
  function InstancesTally(insts: seq<Instance>, parse: string -> Option<int>, todayMs: int): Counts {
    if insts == [] then Zero
    else
      var n := |insts| - 1;
      Plus(InstancesTally(insts[..n], parse, todayMs), InstanceCounts(insts[n], parse, todayMs))
  }

  /** What one item adds: its instances' counts, or one `ok` when it has none. */
  function ItemCounts(item: StatItem, parse: string -> Option<int>, todayMs: int): Counts {
    if |InstancesOf(item)| > 0 then InstancesTally(InstancesOf(item), parse, todayMs) else Counts(0, 0, 1, 0)
  }

  /** The counters over a list of items, one after the other. */
  function Tally(items: seq<StatItem>, parse: string -> Option<int>, todayMs: int): Counts {
    if items == [] then Zero
    else Plus(ItemCounts(items[0], parse, todayMs), Tally(items[1..], parse, todayMs))
  }

  /** Each item weighs as many classifications as it has instances, and at
      least one. */
  function Weight(items: seq<StatItem>): nat {
    if items == [] then 0
    else
      var n := |InstancesOf(items[0])|;
      (if n > 0 then n else 1) + Weight(items[1..])
  }

  function InstanceTotal(items: seq<StatItem>): nat {
    if items == [] then 0 else |InstancesOf(items[0])| + InstanceTotal(items[1..])
  }

  /** Every instance is classified exactly once. */
  lemma {:induction false} InstancesClassified(insts: seq<Instance>, parse: string -> Option<int>, todayMs: int)
    ensures Classified(InstancesTally(insts, parse, todayMs)) == |insts|
  {
    if insts != [] {
      InstancesClassified(insts[..|insts| - 1], parse, todayMs);
    }
  }

  /** At most every instance is opened. */
  lemma {:induction false} InstancesOpened(insts: seq<Instance>, parse: string -> Option<int>, todayMs: int)
    ensures 0 <= InstancesTally(insts, parse, todayMs).openedCount <= |insts|
  {
    if insts != [] {
      InstancesOpened(insts[..|insts| - 1], parse, todayMs);
    }
  }

  /** `expired + soon + ok` is the sum over items of the number of their
      instances, at least one each. */
  lemma {:induction false} TallyClassified(items: seq<StatItem>, parse: string -> Option<int>, todayMs: int)
    ensures Classified(Tally(items, parse, todayMs)) == Weight(items)
  {
    if items != [] {
      TallyClassified(items[1..], parse, todayMs);
      InstancesClassified(InstancesOf(items[0]), parse, todayMs);
    }
  }

  /** `opened` is at most the number of instances. */
  lemma {:induction false} TallyOpened(items: seq<StatItem>, parse: string -> Option<int>, todayMs: int)
    ensures 0 <= Tally(items, parse, todayMs).openedCount <= InstanceTotal(items)
  {
    if items != [] {
      TallyOpened(items[1..], parse, todayMs);
      InstancesOpened(InstancesOf(items[0]), parse, todayMs);
    }
  }

  lemma PlusAssociative(a: Counts, b: Counts, c: Counts)
    ensures Plus(a, Plus(b, c)) == Plus(Plus(a, b), c)
  {
  }

  /** One more item at the end adds its counts; an item with no instances, or
      with an absent instance list, adds exactly one `ok`. */
  lemma {:induction false} TallyAppend(items: seq<StatItem>, item: StatItem, parse: string -> Option<int>, todayMs: int)
    ensures Tally(items + [item], parse, todayMs) == Plus(Tally(items, parse, todayMs), ItemCounts(item, parse, todayMs))
    ensures |InstancesOf(item)| == 0 ==>
      Tally(items + [item], parse, todayMs) == Plus(Tally(items, parse, todayMs), Counts(0, 0, 1, 0))
  {
    if items != [] {
      assert (items + [item])[1..] == items[1..] + [item];
      TallyAppend(items[1..], item, parse, todayMs);
    }
  }

  /** The tally of one more instance of the same run. */
  lemma InstancesTallyStep(insts: seq<Instance>, j: int, parse: string -> Option<int>, todayMs: int)
    requires 0 <= j < |insts|
    ensures InstancesTally(insts[..j + 1], parse, todayMs)
         == Plus(InstancesTally(insts[..j], parse, todayMs),
                 StatusCounts(ExpiryStatus(insts[j].expiryDate, parse, todayMs), Truthy(insts[j].openedAt)))
  {
    assert insts[..j + 1][..j] == insts[..j];
  }

  /** One instance's step of the inner loop: the counter of its status goes
      up by one, and `opened` when it has an opening date. */
  method Bump(c: Counts, status: Status, isOpen: bool) returns (d: Counts)
    ensures d == Plus(c, StatusCounts(status, isOpen))
  {
    var expired, soon, ok, openedCount := c.expired, c.soon, c.ok, c.openedCount;
    if status == Expired {
      expired := expired + 1;
    } else if status == Soon {
      soon := soon + 1;
    } else {
      ok := ok + 1;
    }
    if isOpen {
      openedCount := openedCount + 1;
    }
    d := Counts(expired, soon, ok, openedCount);
  }

  /** The inner loop: each instance bumps the counter of its status, and
      `opened` when it has an opening date. */
  method CountInstances(insts: seq<Instance>, parse: string -> Option<int>, todayMs: int, before: Counts) returns (after: Counts)
    ensures after == Plus(before, InstancesTally(insts, parse, todayMs))
  {
    after := before;
    for j := 0 to |insts|
      invariant after == Plus(before, InstancesTally(insts[..j], parse, todayMs))
    {
      var inst := insts[j];
      var status := ExpiryStatus(inst.expiryDate, parse, todayMs);
      after := Bump(after, status, Truthy(inst.openedAt));
      InstancesTallyStep(insts, j, parse, todayMs);
      PlusAssociative(before, InstancesTally(insts[..j], parse, todayMs), StatusCounts(status, Truthy(inst.openedAt)));
    }
    assert insts[..|insts|] == insts;
  }

  /** The outer loop's body for one item: its instances bump the counters,
      and an item without instances bumps `ok` once. */
  method CountItem(item: StatItem, parse: string -> Option<int>, todayMs: int, before: Counts) returns (after: Counts)
    ensures after == Plus(before, ItemCounts(item, parse, todayMs))
  {
    if item.instances.Some? && |item.instances.value| > 0 {
      after := CountInstances(item.instances.value, parse, todayMs, before);
    } else {
      after := Plus(before, Counts(0, 0, 1, 0));
    }
  }

  /** The `stats` computation: the counters accumulated over the items. */
  method ComputeStats(items: seq<StatItem>, parse: string -> Option<int>, todayMs: int) returns (c: Counts)
    ensures c == Tally(items, parse, todayMs)
  {
    c := Zero;
    for i := 0 to |items|
      invariant c == Tally(items[..i], parse, todayMs)
    {
      assert items[..i + 1] == items[..i] + [items[i]];
      TallyAppend(items[..i], items[i], parse, todayMs);
      c := CountItem(items[i], parse, todayMs, c);
    }
    assert items[..|items|] == items;
  }
}
