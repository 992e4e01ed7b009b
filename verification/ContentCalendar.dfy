/** First-fit content planning (content-calendar.service.ts). Days are numbered in UTC, times are milliseconds. */
module ContentCalendar {
  import opened Wrappers
  import opened ShopTables

  type ProductId = nat

  const MAX_LOOKAHEAD_DAYS := 90

  datatype Kind = Post | Story

  datatype Entry = Entry(day: int, kind: Kind, products: seq<ProductId>)

  function DayOf(now: Time): int { now / DAY_MS }

  function Days(entries: seq<Entry>): set<int> {
    set i | 0 <= i < |entries| :: entries[i].day
  }

  // ------------------------------------------------------------- first fit

  /** The first day without an entry, among the `MAX_LOOKAHEAD_DAYS` days from `from` on, skipping the first `k`. */
  function FirstEmpty(taken: set<int>, from: int, k: nat): (r: Option<int>)
    requires k <= MAX_LOOKAHEAD_DAYS
    ensures r.Some? ==> from + k <= r.value < from + MAX_LOOKAHEAD_DAYS && r.value !in taken &&
                        forall d :: from + k <= d < r.value ==> d in taken
    ensures r.None? ==> forall d :: from + k <= d < from + MAX_LOOKAHEAD_DAYS ==> d in taken
    decreases MAX_LOOKAHEAD_DAYS - k
  {
    if k == MAX_LOOKAHEAD_DAYS then None
    else if from + k !in taken then Some(from + k)
    else FirstEmpty(taken, from, k + 1)
  }

  /** The days taken by `n` schedulings from one day, in order; it ends early at the first that fails. */
  function ChosenDays(taken: set<int>, from: int, n: nat): (r: seq<int>)
    ensures |r| <= n
    decreases n
  {
    if n == 0 then []
    else
      var day := FirstEmpty(taken, from, 0);
      if day.None? then [] else [day.value] + ChosenDays(taken + {day.value}, from, n - 1)
  }

  predicate Increasing(days: seq<int>) {
    forall i, j :: 0 <= i < j < |days| ==> days[i] < days[j]
  }

  lemma {:induction false} ChosenAreEmpty(taken: set<int>, from: int, n: nat, d: int)
    requires d in ChosenDays(taken, from, n)
    ensures from <= d < from + MAX_LOOKAHEAD_DAYS && d !in taken
    decreases n
  {
    var first := FirstEmpty(taken, from, 0).value;
    if d != first { ChosenAreEmpty(taken + {first}, from, n - 1, d); }
  }

  predicate AllAfter(first: int, days: seq<int>) {
    forall k :: 0 <= k < |days| ==> first < days[k]
  }

  lemma PrependIncreases(first: int, rest: seq<int>)
    requires Increasing(rest) && AllAfter(first, rest)
    ensures Increasing([first] + rest)
  {
  }

  lemma LaterChoiceIsLater(taken: set<int>, from: int, n: nat, first: int, d: int)
    requires forall e :: from <= e < first ==> e in taken
    requires d in ChosenDays(taken + {first}, from, n)
    ensures first < d
  {
    ChosenAreEmpty(taken + {first}, from, n, d);
  }

  lemma {:induction false} ChosenIncrease(taken: set<int>, from: int, n: nat)
    ensures Increasing(ChosenDays(taken, from, n))
    decreases n
  {
    if n > 0 && FirstEmpty(taken, from, 0).Some? {
      var first := FirstEmpty(taken, from, 0).value;
      var rest := ChosenDays(taken + {first}, from, n - 1);
      ChosenIncrease(taken + {first}, from, n - 1);
      forall k | 0 <= k < |rest| ensures first < rest[k] {
        LaterChoiceIsLater(taken, from, n - 1, first, rest[k]);
      }
      PrependIncreases(first, rest);
    }
  }

  lemma {:induction false} ChosenSkipNothing(taken: set<int>, from: int, n: nat, d: int, e: int)
    requires d in ChosenDays(taken, from, n) && from <= e < d && e !in taken
    ensures e in ChosenDays(taken, from, n)
    decreases n
  {
    var first := FirstEmpty(taken, from, 0).value;
    if e != first { ChosenSkipNothing(taken + {first}, from, n - 1, d, e); }
  }

  lemma {:induction false} ShortWhenFull(taken: set<int>, from: int, n: nat, d: int)
    requires |ChosenDays(taken, from, n)| < n && from <= d < from + MAX_LOOKAHEAD_DAYS
    ensures d in taken || d in ChosenDays(taken, from, n)
    decreases n
  {
    if FirstEmpty(taken, from, 0).Some? {
      ShortWhenFull(taken + {FirstEmpty(taken, from, 0).value}, from, n - 1, d);
    }
  }

  /**
   `n` schedulings from one day take exactly the `n` earliest empty days, in order. They stop short only when
   each of the next ninety days is full.
   */
  lemma EarliestEmptyDays(taken: set<int>, from: int, n: nat)
    ensures var days := ChosenDays(taken, from, n);
            Increasing(days) &&
            (forall d :: d in days ==> from <= d && d !in taken) &&
            (forall d, e :: d in days && from <= e < d && e !in taken ==> e in days) &&
            (|days| < n ==> forall d :: from <= d < from + 90 ==> d in taken || d in days) &&
            (forall d :: d in days ==> d < from + 90)
  {
    var days := ChosenDays(taken, from, n);
    ChosenIncrease(taken, from, n);
    forall d | d in days ensures from <= d < from + MAX_LOOKAHEAD_DAYS && d !in taken { ChosenAreEmpty(taken, from, n, d); }
    forall d, e | d in days && from <= e < d && e !in taken ensures e in days { ChosenSkipNothing(taken, from, n, d, e); }
    if |days| < n {
      forall d | from <= d < from + MAX_LOOKAHEAD_DAYS ensures d in taken || d in days { ShortWhenFull(taken, from, n, d); }
    }
  }

  // ---------------------------------------------------------------- stale

  /** The latest day a product is planned for. */
  function LastDay(entries: seq<Entry>, p: ProductId): Option<int> {
    if entries == [] then None
    else
      var before, e := LastDay(entries[..|entries| - 1], p), entries[|entries| - 1];
      if p !in e.products then before
      else if before.None? || e.day > before.value then Some(e.day)
      else before
  }

  /** No entry plans the product for a later day, and one plans it for this one. */
  lemma {:induction false} LastDayIsLatest(entries: seq<Entry>, p: ProductId)
    ensures var r := LastDay(entries, p);
            (r.None? <==> forall i :: 0 <= i < |entries| ==> p !in entries[i].products) &&
            (r.Some? ==> (exists i :: 0 <= i < |entries| && p in entries[i].products && entries[i].day == r.value) &&
                         forall i :: 0 <= i < |entries| && p in entries[i].products ==> entries[i].day <= r.value)
  {
    if entries != [] {
      var before := entries[..|entries| - 1];
      LastDayIsLatest(before, p);
      if LastDay(before, p).Some? {
        var i :| 0 <= i < |before| && p in before[i].products && before[i].day == LastDay(before, p).value;
        assert entries[i] == before[i];
      }
      if LastDay(entries, p).None? {
        forall i | 0 <= i < |entries| ensures p !in entries[i].products {
          if i < |before| { assert entries[i] == before[i]; }
        }
      }
    }
  }

  predicate DueAt(day: int, now: Time, interval: int) {
    day * DAY_MS <= now - interval * DAY_MS
  }

  /** A product on sale whose latest plan lies at least the interval back. */
  predicate Stale(entries: seq<Entry>, p: ProductId, eligible: set<ProductId>, now: Time, interval: int) {
    p in eligible && LastDay(entries, p).Some? && DueAt(LastDay(entries, p).value, now, interval)
  }

  function StaleSet(entries: seq<Entry>, eligible: set<ProductId>, now: Time, interval: int): set<ProductId> {
    set p | p in eligible && Stale(entries, p, eligible, now, interval)
  }

  function Planned(day: int, p: ProductId): seq<Entry> {
    [Entry(day, Post, [p]), Entry(day, Story, [p])]
  }

  /** The entries of products planned one a day. */
  function PlannedAll(days: seq<int>, products: seq<ProductId>): seq<Entry>
    requires |days| <= |products|
  {
    if days == [] then [] else Planned(days[0], products[0]) + PlannedAll(days[1..], products[1..])
  }

  /** The entries after products were scheduled one after the other, until one finds no day. */
  function AfterScheduling(entries: seq<Entry>, products: seq<ProductId>, from: int): seq<Entry>
    decreases |products|
  {
    var day := FirstEmpty(Days(entries), from, 0);
    if products == [] || day.None? then entries
    else AfterScheduling(entries + Planned(day.value, products[0]), products[1..], from)
  }

  /** What a run of schedulings adds: the chosen days, each with its product, and nothing else. */
  lemma {:induction false} SchedulingAddsChosenDays(entries: seq<Entry>, products: seq<ProductId>, from: int)
    ensures AfterScheduling(entries, products, from) ==
            entries + PlannedAll(ChosenDays(Days(entries), from, |products|), products)
    decreases |products|
  {
    var day := FirstEmpty(Days(entries), from, 0);
    if products != [] && day.Some? {
      DaysOfPlanned(entries, day.value, products[0]);
      SchedulingAddsChosenDays(entries + Planned(day.value, products[0]), products[1..], from);
      var rest := ChosenDays(Days(entries) + {day.value}, from, |products| - 1);
      assert ([day.value] + rest)[1..] == rest;
      assert entries + (Planned(day.value, products[0]) + PlannedAll(rest, products[1..])) ==
             entries + Planned(day.value, products[0]) + PlannedAll(rest, products[1..]);
    }
  }

  lemma PlanningMovesOne(entries: seq<Entry>, day: int, p: ProductId, q: ProductId)
    ensures LastDay(entries + Planned(day, p), q) ==
            if q != p then LastDay(entries, q)
            else if LastDay(entries, p).Some? && LastDay(entries, p).value >= day then LastDay(entries, p)
            else Some(day)
  {
    var one := entries + [Planned(day, p)[0]];
    var two := entries + Planned(day, p);
    assert one[..|entries|] == entries;
    assert two[..|entries| + 1] == one;
  }

  /** A product that is planned for today becomes stale when the interval is over, to the millisecond, and not before. */
  lemma StaleAfterTheInterval(entries: seq<Entry>, day: int, p: ProductId, eligible: set<ProductId>, now: Time, interval: int)
    requires p in eligible && (LastDay(entries, p).Some? ==> LastDay(entries, p).value <= day)
    ensures Stale(entries + Planned(day, p), p, eligible, now, interval) <==> (day + interval) * (24 * 60 * 60 * 1000) <= now
  {
    PlanningMovesOne(entries, day, p, p);
    DueAfterTheInterval(day, now, interval);
  }

  lemma DueAfterTheInterval(day: int, now: Time, interval: int)
    ensures DueAt(day, now, interval) <==> (day + interval) * (24 * 60 * 60 * 1000) <= now
  {
  }

  /** A product planned for today or later is not stale when the interval is at least a day. */
  lemma PlannedIsFresh(entries: seq<Entry>, day: int, p: ProductId, eligible: set<ProductId>, now: Time, interval: int)
    requires interval >= 1 && day >= DayOf(now)
    ensures !Stale(entries + Planned(day, p), p, eligible, now, interval)
  {
  }

  /** Planning one stale product leaves every other product's latest day alone and makes this one fresh. */
  lemma PlanningKeepsFresh(entries: seq<Entry>, p: ProductId, eligible: set<ProductId>, now: Time, interval: int)
    requires interval >= 1
    ensures var day := FirstEmpty(Days(entries), DayOf(now), 0);
            day.Some? ==>
              !Stale(entries + Planned(day.value, p), p, eligible, now, interval) &&
              forall q :: q != p ==> LastDay(entries + Planned(day.value, p), q) == LastDay(entries, q)
  {
    var day := FirstEmpty(Days(entries), DayOf(now), 0);
    if day.Some? {
      PlannedIsFresh(entries, day.value, p, eligible, now, interval);
      forall q | q != p ensures LastDay(entries + Planned(day.value, p), q) == LastDay(entries, q) {
        PlanningMovesOne(entries, day.value, p, q);
      }
    }
  }

  // -------------------------------------------------------------- service

  class Calendar {
    var entries: seq<Entry>

    constructor ()
      ensures entries == []
    {
      entries := [];
    }

    method FindNextEmptyDate(from: int) returns (day: Option<int>)
      ensures day == FirstEmpty(Days(entries), from, 0)
    {
      for i := 0 to MAX_LOOKAHEAD_DAYS
        invariant FirstEmpty(Days(entries), from, 0) == FirstEmpty(Days(entries), from, i)
      {
        if from + i !in Days(entries) {
          return Some(from + i);
        }
      }
      day := None;
    }

    /** `scheduleProduct`: a post and a story on the first empty day; throws when there is none. */
    method ScheduleProduct(p: ProductId, from: int) returns (ok: bool)
      modifies this
      ensures var day := FirstEmpty(Days(old(entries)), from, 0);
              ok == day.Some? && entries == if ok then old(entries) + Planned(day.value, p) else old(entries)
    {
      var day := FindNextEmptyDate(from);
      if day.None? {
        return false;
      }
      entries := entries + Planned(day.value, p);
      ok := true;
    }

    /** The backfill loop: it plans product after product and is cut short by the first that finds no day. */
    method ScheduleAll(products: seq<ProductId>, from: int) returns (scheduled: nat)
      modifies this
      ensures entries == AfterScheduling(old(entries), products, from)
      ensures scheduled <= |products| && |entries| == |old(entries)| + 2 * scheduled
      ensures scheduled < |products| ==> FirstEmpty(Days(entries), from, 0).None?
    {
      scheduled := 0;
      for i := 0 to |products|
        invariant scheduled == i && |entries| == |old(entries)| + 2 * i
        invariant AfterScheduling(old(entries), products, from) == AfterScheduling(entries, products[i..], from)
      {
        assert products[i..][0] == products[i] && products[i..][1..] == products[i + 1..];
        var ok := ScheduleProduct(products[i], from);
        if !ok {
          return;
        }
        scheduled := scheduled + 1;
      }
    }

    /** The latest planned day of each eligible product, after one more entry. */
    method NoteEntry(last: map<ProductId, int>, e: Entry, eligible: set<ProductId>) returns (r: map<ProductId, int>)
      ensures forall p :: p in r <==> p in last || (p in eligible && p in e.products)
      ensures forall p :: p in r ==>
                            r[p] == if p in eligible && p in e.products && (p !in last || e.day > last[p])
                                    then e.day else last[p]
    {
      r := last;
      for j := 0 to |e.products|
        invariant forall p :: p in r <==> p in last || (p in eligible && p in e.products[..j])
        invariant forall p :: p in r ==>
                                r[p] == if p in eligible && p in e.products[..j] && (p !in last || e.day > last[p])
                                        then e.day else last[p]
      {
        var p := e.products[j];
        assert e.products[..j + 1] == e.products[..j] + [p];
        if p in eligible && (p !in r || e.day > r[p]) {
          r := r[p := e.day];
        }
      }
      assert e.products[..|e.products|] == e.products;
    }

    method LastDays(eligible: set<ProductId>) returns (last: map<ProductId, int>)
      ensures forall p :: p in last <==> p in eligible && LastDay(entries, p).Some?
      ensures forall p :: p in last ==> last[p] == LastDay(entries, p).value
    {
      last := map[];
      for i := 0 to |entries|
        invariant forall p :: p in last <==> p in eligible && LastDay(entries[..i], p).Some?
        invariant forall p :: p in last ==> last[p] == LastDay(entries[..i], p).value
      {
        assert entries[..i + 1][..i] == entries[..i];
        last := NoteEntry(last, entries[i], eligible);
      }
      assert entries[..|entries|] == entries;
    }

    /** One turn of the replan loop; it throws when no day is free. */
    method ReplanOne(p: ProductId, last: int, eligible: set<ProductId>, now: Time, interval: int) returns (planned: Result<bool>)
      requires interval >= 1 && LastDay(entries, p) == Some(last)
      modifies this
      ensures planned.Returns? ==> !Stale(entries, p, eligible, now, interval)
      ensures planned.Returns? ==> planned.value == DueAt(last, now, interval)
      ensures planned == Returns(true) || entries == old(entries)
      ensures forall q :: q != p ==> LastDay(entries, q) == LastDay(old(entries), q)
      ensures planned.Throws? ==> DueAt(last, now, interval) && FirstEmpty(Days(entries), DayOf(now), 0).None?
    {
      if !DueAt(last, now, interval) {
        return Returns(false);
      }
      PlanningKeepsFresh(entries, p, eligible, now, interval);
      var ok := ScheduleProduct(p, DayOf(now));
      planned := if ok then Returns(true) else Throws;
    }

    /**
     `replanStaleProducts`: when it completes, no eligible product is stale any more, and it planned exactly the
     stale ones. A calendar without stale products is left alone, so running it again at the same time plans
     nothing.
     */
    method ReplanStaleProducts(eligible: set<ProductId>, now: Time, interval: int) returns (r: Result<nat>)
      requires interval >= 1
      modifies this
      ensures r.Returns? ==> forall p :: !Stale(entries, p, eligible, now, interval)
      ensures r.Returns? ==> r.value == |StaleSet(old(entries), eligible, now, interval)|
      ensures (forall p :: !Stale(old(entries), p, eligible, now, interval)) ==> r == Returns(0) && entries == old(entries)
      ensures r.Throws? ==> FirstEmpty(Days(entries), DayOf(now), 0).None?
    {
      var last := LastDays(eligible);
      var todo := last.Keys;
      var replanned: nat := 0;
      ghost var start, due, done: set<ProductId> := entries, StaleSet(entries, eligible, now, interval), {};
      assert forall p :: p in due <==> p in last && DueAt(last[p], now, interval);
      while todo != {}
        invariant todo <= last.Keys
        invariant forall p :: p in todo ==> LastDay(entries, p) == Some(last[p])
        invariant forall p :: p !in todo ==> !Stale(entries, p, eligible, now, interval)
        invariant replanned == |done| && forall p :: p in done <==> p in due && p !in todo
        invariant replanned == 0 ==> entries == start
        decreases todo
      {
        var p :| p in todo;
        var planned := ReplanOne(p, last[p], eligible, now, interval);
        if planned.Throws? {
          assert Stale(start, p, eligible, now, interval);
          return Throws;
        }
        if planned.value {
          replanned := replanned + 1;
          done := done + {p};
        }
        todo := todo - {p};
      }
      assert done == due;
      r := Returns(replanned);
    }
  }

  lemma DaysOfPlanned(entries: seq<Entry>, day: int, p: ProductId)
    ensures Days(entries + Planned(day, p)) == Days(entries) + {day}
  {
    var all := entries + Planned(day, p);
    forall d ensures d in Days(all) <==> d in Days(entries) || d == day {
      if d in Days(entries) {
        var i :| 0 <= i < |entries| && entries[i].day == d;
        assert all[i].day == d;
      }
      if d == day { assert all[|entries|].day == day; }
    }
  }

  /** With an interval of zero days a product planned for today would be stale again at once. */
  lemma ZeroIntervalStaysStale(entries: seq<Entry>, p: ProductId, eligible: set<ProductId>, now: Time)
    requires p in eligible && (LastDay(entries, p).Some? ==> LastDay(entries, p).value <= DayOf(now))
    ensures Stale(entries + Planned(DayOf(now), p), p, eligible, now, 0)
  {
    PlanningMovesOne(entries, DayOf(now), p, p);
  }

  // ------------------------------------------------- schedulings over runs

  /** `findNextEmptyDate` reads outside the transaction that writes the entries, so anything may come in between. */
  datatype PlanStep = FindDay(from: int) | WritePlan(day: int, product: ProductId)

  datatype Plans = Plans(entries: seq<Entry>, found: set<int>)

  function NextPlan(s: Plans, e: PlanStep): Plans {
    match e
    case FindDay(from) =>
      var day := FirstEmpty(Days(s.entries), from, 0);
      if day.Some? then s.(found := s.found + {day.value}) else s
    case WritePlan(day, p) => if day in s.found then s.(entries := s.entries + Planned(day, p)) else s
  }

  function RunPlans(s: Plans, es: seq<PlanStep>): Plans
    decreases |es|
  {
    if es == [] then s else RunPlans(NextPlan(s, es[0]), es[1..])
  }

  /** No day has two posts or two stories. */
  predicate OneEach(entries: seq<Entry>) {
    forall i, j :: 0 <= i < j < |entries| && entries[i].day == entries[j].day ==> entries[i].kind != entries[j].kind
  }

  /** A plan written after its day was found keeps that exactly when the day is still empty. */
  lemma LatePlanKeepsOneEachIff(entries: seq<Entry>, day: int, p: ProductId)
    requires OneEach(entries)
    ensures OneEach(entries + Planned(day, p)) <==> day !in Days(entries)
  {
    var all, n := entries + Planned(day, p), |entries|;
    assert all[n] == Entry(day, Post, [p]) && all[n + 1] == Entry(day, Story, [p]);
    if day in Days(entries) {
      var i :| 0 <= i < n && entries[i].day == day;
      assert all[i] == entries[i];
      assert all[i].kind == all[n].kind || all[i].kind == all[n + 1].kind;
    }
  }

  predicate WritesTakenDay(s: Plans, e: PlanStep) {
    e.WritePlan? && e.day in s.found && e.day in Days(s.entries)
  }

  predicate EveryDayStillEmpty(s: Plans, es: seq<PlanStep>)
    decreases |es|
  {
    es == [] || (!WritesTakenDay(s, es[0]) && EveryDayStillEmpty(NextPlan(s, es[0]), es[1..]))
  }

  lemma {:induction false} CrowdedForGood(s: Plans, es: seq<PlanStep>)
    requires !OneEach(s.entries)
    ensures !OneEach(RunPlans(s, es).entries)
    decreases |es|
  {
    if es != [] {
      var i, j :| 0 <= i < j < |s.entries| && s.entries[i].day == s.entries[j].day && s.entries[i].kind == s.entries[j].kind;
      var next := NextPlan(s, es[0]).entries;
      assert next[i] == s.entries[i] && next[j] == s.entries[j];
      CrowdedForGood(NextPlan(s, es[0]), es[1..]);
    }
  }

  /** However schedulings interleave, no day gets a second post or story exactly when each plan finds its day still empty. */
  lemma {:induction false} OneEachIff(s: Plans, es: seq<PlanStep>)
    requires OneEach(s.entries)
    ensures OneEach(RunPlans(s, es).entries) <==> EveryDayStillEmpty(s, es)
    decreases |es|
  {
    if es != [] {
      if es[0].WritePlan? { LatePlanKeepsOneEachIff(s.entries, es[0].day, es[0].product); }
      if WritesTakenDay(s, es[0]) {
        CrowdedForGood(NextPlan(s, es[0]), es[1..]);
      } else {
        OneEachIff(NextPlan(s, es[0]), es[1..]);
      }
    }
  }

  lemma PlanFirst(s: Plans, e: PlanStep, es: seq<PlanStep>)
    ensures RunPlans(s, [e] + es) == RunPlans(NextPlan(s, e), es)
    ensures EveryDayStillEmpty(s, [e] + es) <==> !WritesTakenDay(s, e) && EveryDayStillEmpty(NextPlan(s, e), es)
  {
    assert ([e] + es)[1..] == es;
  }

  /** Two schedulings that both looked before either wrote put two products on one day. */
  lemma TwoPlansOnOneDay(s: Plans, from: int, p: ProductId, q: ProductId)
    requires FirstEmpty(Days(s.entries), from, 0).Some?
    ensures var day := FirstEmpty(Days(s.entries), from, 0).value;
            var es := [FindDay(from)] + ([FindDay(from)] + ([WritePlan(day, p)] + [WritePlan(day, q)]));
            RunPlans(s, es).entries == s.entries + Planned(day, p) + Planned(day, q)
  {
    var find, day := FindDay(from), FirstEmpty(Days(s.entries), from, 0).value;
    var first, second := WritePlan(day, p), WritePlan(day, q);
    PlanFirst(s, find, [find] + ([first] + [second]));
    var s1 := NextPlan(s, find);
    PlanFirst(s1, find, [first] + [second]);
    assert NextPlan(s1, find) == s1;
    PlanFirst(s1, first, [second]);
    assert [second] == [second] + [];
    PlanFirst(NextPlan(s1, first), second, []);
  }

  /** A scheduling nobody interrupts is its two steps, and finds its day still empty. */
  lemma SchedulingIsARun(s: Plans, from: int, p: ProductId)
    requires FirstEmpty(Days(s.entries), from, 0).Some?
    ensures var day := FirstEmpty(Days(s.entries), from, 0).value;
            var es := [FindDay(from)] + [WritePlan(day, p)];
            RunPlans(s, es).entries == s.entries + Planned(day, p) && EveryDayStillEmpty(s, es)
  {
    var day := FirstEmpty(Days(s.entries), from, 0).value;
    var find, write := FindDay(from), WritePlan(day, p);
    PlanFirst(s, find, [write]);
    assert [write] == [write] + [];
    PlanFirst(NextPlan(s, find), write, []);
  }
}
