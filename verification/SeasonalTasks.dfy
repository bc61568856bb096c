/** The troop year: the date each task surfaces on, and the tasks of a window. */
module SeasonalTasks {
  import opened Wrappers
  import opened Gregorian

  datatype Task = Task(key: string, month: nat, onDay: nat)

  const SEASONAL_TASKS: seq<Task> := [
    Task("recharter_prep", 1, 5), Task("winter_skills", 1, 12),
    Task("winter_survival", 2, 9), Task("annual_planning", 2, 20),
    Task("spring_inventory", 3, 15), Task("maple_service", 3, 22),
    Task("trail_maintenance", 4, 18), Task("spring_camporee", 4, 25),
    Task("camp_registration", 5, 10), Task("first_aid_renewal", 5, 20),
    Task("summer_camp", 6, 15), Task("storm_readiness", 6, 1),
    Task("high_adventure", 7, 10), Task("midyear_service_review", 7, 25),
    Task("fall_planning", 8, 10),
    Task("school_year_schedule", 9, 5), Task("congress_prep", 9, 20),
    Task("dues_collection", 10, 5), Task("winter_gear", 10, 20),
    Task("holiday_service", 11, 15), Task("accords_review", 11, 25),
    Task("year_end_report", 12, 10)]

  /** A month number starts at one; the day may be any, and is clamped. */
  predicate Proper(tasks: seq<Task>) {
    forall t :: t in tasks ==> t.month >= 1
  }

  function Min(a: nat, b: nat): nat {
    if a < b then a else b
  }

  /** The date a task surfaces in `year`. */
  function DueDate(year: int, task: Task): Option<Date>
    requires task.month >= 1
  {
    var next := if task.month == 12 then FromYmd(year + 1, 1, 1) else FromYmd(year, task.month + 1, 1);
    if next.None? then None
    else FromYmd(year, task.month, Min(task.onDay, PrevDay(next.value).day))
  }

  /** A task of a real month and day surfaces in every year on its day, or on the last day of a
      shorter month; the one gap is December of the last year the library represents. */
  lemma DueDateMeans(year: int, task: Task)
    requires task.month >= 1
    ensures DueDate(year, task).Some? <==>
            MIN_YEAR <= year <= MAX_YEAR && task.month <= 12 && task.onDay >= 1
            && !(task.month == 12 && year == MAX_YEAR)
    ensures DueDate(year, task).Some? ==>
            DueDate(year, task).value == Date(year, task.month, Min(task.onDay, DaysIn(year, task.month)))
            && Valid(DueDate(year, task).value)
  {
  }

  // --- collecting a window ---

  type Item = (Date, Task)

  function DueItem(task: Task, year: int, from: Date, to: Date): seq<Item>
    requires task.month >= 1
  {
    var due := DueDate(year, task);
    if due.Some? && Le(from, due.value) && Le(due.value, to) then [(due.value, task)] else []
  }

  function DueIn(tasks: seq<Task>, year: int, from: Date, to: Date): seq<Item>
    requires Proper(tasks)
  {
    if tasks == [] then []
    else
      var n := |tasks| - 1;
      DueIn(tasks[..n], year, from, to) + DueItem(tasks[n], year, from, to)
  }

  function Collected(tasks: seq<Task>, first: int, count: nat, from: Date, to: Date): seq<Item>
    requires Proper(tasks)
  {
    if count == 0 then []
    else Collected(tasks, first, count - 1, from, to) + DueIn(tasks, first + (count - 1), from, to)
  }

  // --- the stable sort by date, then day ---

  predicate Before(a: Item, b: Item) {
    Lt(a.0, b.0) || (a.0 == b.0 && a.1.onDay <= b.1.onDay)
  }

  /** Insert after everything that sorts before it or level with it. */
  function Insert(items: seq<Item>, x: Item): seq<Item> {
    if items == [] || Before(items[|items| - 1], x) then items + [x]
    else Insert(items[..|items| - 1], x) + [items[|items| - 1]]
  }

  function Sorted(items: seq<Item>): seq<Item> {
    if items == [] then [] else Insert(Sorted(items[..|items| - 1]), items[|items| - 1])
  }

  /** The tasks whose date falls in `[from, to]`, by date. */
  function Between(tasks: seq<Task>, from: Date, to: Date): seq<Item>
    requires Proper(tasks)
  {
    if Lt(to, from) then [] else Sorted(Collected(tasks, from.year, Span(from, to), from, to))
  }

  function Span(from: Date, to: Date): nat {
    if from.year <= to.year then to.year - from.year + 1 else 0
  }

  method SortByDate(items: seq<Item>) returns (out: seq<Item>)
    ensures out == Sorted(items)
  {
    out := [];
    for i := 0 to |items|
      invariant out == Sorted(items[..i])
    {
      assert items[..i + 1][..i] == items[..i];
      out := Insert(out, items[i]);
    }
    assert items[..|items|] == items;
  }

  /** One year of the window, appended to the years before it. */
  method CollectYear(tasks: seq<Task>, year: int, from: Date, to: Date, earlier: seq<Item>) returns (out: seq<Item>)
    requires Proper(tasks)
    ensures out == earlier + DueIn(tasks, year, from, to)
  {
    out := earlier;
    for i := 0 to |tasks|
      invariant out == earlier + DueIn(tasks[..i], year, from, to)
    {
      assert tasks[..i + 1][..i] == tasks[..i];
      var due := DueDate(year, tasks[i]);
      if due.None? {
        continue;
      }
      if Le(from, due.value) && Le(due.value, to) {
        out := out + [(due.value, tasks[i])];
      }
    }
    assert tasks[..|tasks|] == tasks;
  }

  /** The date is the task's day of its month, or the last of a shorter month, inside the window and
      inside the years the library represents. */
  predicate Falls(task: Task, from: Date, to: Date, date: Date) {
    && date.month == task.month && 1 <= date.month <= 12 && task.onDay >= 1
    && -262143 <= date.year <= 262142 && !(date.month == 12 && date.year == 262142)
    && date.day == (if task.onDay <= DaysIn(date.year, date.month) then task.onDay else DaysIn(date.year, date.month))
    && !Lt(date, from) && !Lt(to, date)
  }

  predicate FallsOn(tasks: seq<Task>, from: Date, to: Date, x: Item) {
    x.1 in tasks && Falls(x.1, from, to, x.0)
  }

  /** The tasks that ask for the day and fall on the date, in the order of the list. */
  function ListedFor(tasks: seq<Task>, from: Date, to: Date, date: Date, day: nat): seq<Item> {
    if tasks == [] then []
    else
      var n := |tasks| - 1;
      ListedFor(tasks[..n], from, to, date, day)
      + if tasks[n].onDay == day && Falls(tasks[n], from, to, date) then [(date, tasks[n])] else []
  }

  lemma {:induction false} OfDayConcat(a: seq<Item>, b: seq<Item>, date: Date, day: nat)
    ensures OfDay(a + b, date, day) == OfDay(a, date, day) + OfDay(b, date, day)
  {
    if b == [] {
      assert a + b == a;
    } else {
      var n := |b| - 1;
      OfDayConcat(a, b[..n], date, day);
      assert (a + b)[..|a| + n] == a + b[..n];
    }
  }

  lemma {:induction false} DueItemOfDay(task: Task, year: int, from: Date, to: Date, date: Date, day: nat)
    requires task.month >= 1
    ensures OfDay(DueItem(task, year, from, to), date, day) ==
            if date.year == year && task.onDay == day && Falls(task, from, to, date) then [(date, task)] else []
  {
    DueDateMeans(year, task);
    var items := DueItem(task, year, from, to);
    hide DueDate, DaysIn, Valid;
    if items != [] {
      assert items[..0] == [] && OfDay(items[..0], date, day) == [];
    }
  }

  lemma {:induction false} DueInOfDay(tasks: seq<Task>, year: int, from: Date, to: Date, date: Date, day: nat)
    requires Proper(tasks)
    ensures OfDay(DueIn(tasks, year, from, to), date, day) ==
            if date.year == year then ListedFor(tasks, from, to, date, day) else []
  {
    hide OfDay, DueItem, Falls;
    if tasks == [] {
      NothingOfDay(date, day);
    } else {
      var n := |tasks| - 1;
      DueInOfDay(tasks[..n], year, from, to, date, day);
      DueItemOfDay(tasks[n], year, from, to, date, day);
      OfDayConcat(DueIn(tasks[..n], year, from, to), DueItem(tasks[n], year, from, to), date, day);
    }
  }

  lemma {:induction false} NothingOfDay(date: Date, day: nat)
    ensures OfDay([], date, day) == []
  {
  }

  lemma {:induction false} CollectedOfDay(tasks: seq<Task>, first: int, count: nat, from: Date, to: Date, date: Date,
                                          day: nat)
    requires Proper(tasks)
    ensures OfDay(Collected(tasks, first, count, from, to), date, day) ==
            if first <= date.year < first + count then ListedFor(tasks, from, to, date, day) else []
  {
    hide OfDay, ListedFor, DueIn;
    if count == 0 {
      NothingOfDay(date, day);
    } else {
      CollectedOfDay(tasks, first, count - 1, from, to, date, day);
      DueInOfDay(tasks, first + (count - 1), from, to, date, day);
      OfDayConcat(Collected(tasks, first, count - 1, from, to), DueIn(tasks, first + (count - 1), from, to), date, day);
    }
  }

  lemma DueIsFallsOn(tasks: seq<Task>, from: Date, to: Date, x: Item)
    requires Proper(tasks)
    ensures Due(tasks, from, to, x) <==> FallsOn(tasks, from, to, x)
  {
    if x.1 in tasks {
      DueDateMeans(x.0.year, x.1);
    }
    hide DueDate, DaysIn, Valid;
  }

  /** Each task as often as it is listed on each date it falls on, and nothing else; by date, then by the
      day asked for, and level ones in the order of the list. */
  ghost predicate IsWindow(tasks: seq<Task>, from: Date, to: Date, out: seq<Item>) {
    && (forall x :: x in out <==> FallsOn(tasks, from, to, x))
    && (forall x :: x in out ==> multiset(out)[x] == multiset(tasks)[x.1])
    && (forall i, j :: 0 <= i < j < |out| ==>
          Lt(out[i].0, out[j].0) || (out[i].0 == out[j].0 && out[i].1.onDay <= out[j].1.onDay))
    && (forall date, day :: !Lt(date, from) && !Lt(to, date) ==>
          OfDay(out, date, day) == ListedFor(tasks, from, to, date, day))
  }

  lemma {:induction false} WindowMeans(tasks: seq<Task>, from: Date, to: Date)
    requires Proper(tasks)
    ensures IsWindow(tasks, from, to, Between(tasks, from, to))
  {
    var out := Between(tasks, from, to);
    hide Between, Due, FallsOn, OfDay, InOrder, ListedFor, Lt;
    forall x
      ensures x in out <==> FallsOn(tasks, from, to, x)
      ensures x in out ==> multiset(out)[x] == multiset(tasks)[x.1]
    {
      BetweenIsExact(tasks, from, to, x);
      DueIsFallsOn(tasks, from, to, x);
      WindowCounts(tasks, from, to, x);
    }
    BetweenIsExact(tasks, from, to, (from, Task("", 1, 1)));
    OrderMeans(out);
    forall date, day | !Lt(date, from) && !Lt(to, date)
      ensures OfDay(out, date, day) == ListedFor(tasks, from, to, date, day)
    {
      WindowOfDay(tasks, from, to, date, day);
    }
  }

  lemma OrderMeans(items: seq<Item>)
    ensures InOrder(items) <==>
            forall i, j :: 0 <= i < j < |items| ==>
              Lt(items[i].0, items[j].0) || (items[i].0 == items[j].0 && items[i].1.onDay <= items[j].1.onDay)
  {
    hide Lt;
  }

  lemma {:induction false} WindowCounts(tasks: seq<Task>, from: Date, to: Date, x: Item)
    requires Proper(tasks)
    ensures x in Between(tasks, from, to) ==> multiset(Between(tasks, from, to))[x] == multiset(tasks)[x.1]
  {
    BetweenIsExact(tasks, from, to, x);
    hide Due, Collected, Sorted, InOrder;
    if !Lt(to, from) {
      CollectedCounts(tasks, from.year, Span(from, to), from, to, x);
      CollectedMeans(tasks, from.year, Span(from, to), from, to, x);
      SortedIsSorted(Collected(tasks, from.year, Span(from, to), from, to));
    }
  }

  lemma {:induction false} WindowOfDay(tasks: seq<Task>, from: Date, to: Date, date: Date, day: nat)
    requires Proper(tasks) && !Lt(date, from) && !Lt(to, date)
    ensures OfDay(Between(tasks, from, to), date, day) == ListedFor(tasks, from, to, date, day)
  {
    hide Collected, Sorted, OfDay, ListedFor;
    SortIsStable(Collected(tasks, from.year, Span(from, to), from, to), date, day);
    CollectedOfDay(tasks, from.year, Span(from, to), from, to, date, day);
  }

  method SeasonalTasksBetween(tasks: seq<Task>, from: Date, to: Date) returns (out: seq<Item>)
    requires Proper(tasks)
    ensures out == Between(tasks, from, to)
    ensures IsWindow(tasks, from, to, out)
  {
    hide DueIn, Sorted, IsWindow;
    out := [];
    if Lt(to, from) {
      WindowMeans(tasks, from, to);
      return;
    }
    for k := 0 to to.year - from.year + 1
      invariant out == Collected(tasks, from.year, k, from, to)
    {
      out := CollectYear(tasks, from.year + k, from, to, out);
    }
    out := SortByDate(out);
    WindowMeans(tasks, from, to);
  }

  // --- how often, and in which order ---

  lemma DueItemCounts(task: Task, year: int, from: Date, to: Date, x: Item)
    requires task.month >= 1
    ensures multiset(DueItem(task, year, from, to))[x] ==
            if task == x.1 && x.0.year == year && DueDate(year, task) == Some(x.0) && Le(from, x.0) && Le(x.0, to)
            then 1 else 0
  {
    DueDateMeans(year, task);
    hide DueDate;
  }

  lemma {:induction false} DueInCounts(tasks: seq<Task>, year: int, from: Date, to: Date, x: Item)
    requires Proper(tasks)
    ensures multiset(DueIn(tasks, year, from, to))[x] ==
            if Due(tasks, from, to, x) && x.0.year == year then multiset(tasks)[x.1] else 0
  {
    if tasks != [] {
      var n := |tasks| - 1;
      DueInCounts(tasks[..n], year, from, to, x);
      DueItemCounts(tasks[n], year, from, to, x);
      assert tasks == tasks[..n] + [tasks[n]];
      assert multiset(tasks)[x.1] == multiset(tasks[..n])[x.1] + if tasks[n] == x.1 then 1 else 0;
      hide DueItem, DueDate, Le;
    }
  }

  lemma CountConcat(a: seq<Item>, b: seq<Item>, x: Item)
    ensures multiset(a + b)[x] == multiset(a)[x] + multiset(b)[x]
  {
  }

  lemma {:induction false} CollectedCounts(tasks: seq<Task>, first: int, count: nat, from: Date, to: Date, x: Item)
    requires Proper(tasks)
    ensures multiset(Collected(tasks, first, count, from, to))[x] ==
            if Due(tasks, from, to, x) && first <= x.0.year < first + count then multiset(tasks)[x.1] else 0
  {
    hide Due, DueIn;
    if count > 0 {
      CollectedCounts(tasks, first, count - 1, from, to, x);
      DueInCounts(tasks, first + (count - 1), from, to, x);
      CountConcat(Collected(tasks, first, count - 1, from, to), DueIn(tasks, first + (count - 1), from, to), x);
    }
  }

  /** The items of one date that ask for one day, in order. */
  function OfDay(items: seq<Item>, date: Date, day: nat): seq<Item> {
    if items == [] then []
    else
      var n := |items| - 1;
      OfDay(items[..n], date, day) + if items[n].0 == date && items[n].1.onDay == day then [items[n]] else []
  }

  lemma {:induction false} InsertIsStable(items: seq<Item>, x: Item, date: Date, day: nat)
    ensures OfDay(Insert(items, x), date, day) ==
            OfDay(items, date, day) + if x.0 == date && x.1.onDay == day then [x] else []
  {
    var n := |items| - 1;
    if items != [] && !Before(items[n], x) {
      InsertIsStable(items[..n], x, date, day);
      var front := Insert(items[..n], x);
      assert (front + [items[n]])[..|front|] == front;
    } else {
      assert (items + [x])[..|items|] == items;
    }
  }

  /** Level items stay in the order they came in. */
  lemma {:induction false} SortIsStable(items: seq<Item>, date: Date, day: nat)
    ensures OfDay(Sorted(items), date, day) == OfDay(items, date, day)
  {
    if items != [] {
      SortIsStable(items[..|items| - 1], date, day);
      InsertIsStable(Sorted(items[..|items| - 1]), items[|items| - 1], date, day);
    }
  }

  // --- what a window holds ---

  predicate InOrder(items: seq<Item>) {
    forall i, j :: 0 <= i < j < |items| ==> Before(items[i], items[j])
  }

  lemma {:induction false} InsertAdds(items: seq<Item>, x: Item)
    ensures multiset(Insert(items, x)) == multiset(items) + multiset{x}
  {
    var n := |items| - 1;
    if items != [] && !Before(items[n], x) {
      InsertAdds(items[..n], x);
      assert items == items[..n] + [items[n]];
    }
  }

  lemma {:induction false} InsertIsSorted(items: seq<Item>, x: Item)
    requires InOrder(items)
    ensures InOrder(Insert(items, x))
  {
    var n := |items| - 1;
    if items != [] && !Before(items[n], x) {
      InsertIsSorted(items[..n], x);
      InsertAdds(items[..n], x);
      var front := Insert(items[..n], x);
      assert InOrder(items[..n] + [items[n]]) by {
        assert items == items[..n] + [items[n]];
      }
      forall i | 0 <= i < |front|
        ensures Before(front[i], items[n])
      {
        assert front[i] in multiset(front);
        assert front[i] == x || front[i] in items[..n];
      }
    } else if items != [] {
      forall i | 0 <= i < n
        ensures Before(items[i], x)
      {
        assert Before(items[i], items[n]);
      }
    }
  }

  /** Sorting orders the items and loses, adds and repeats none. */
  lemma {:induction false} SortedIsSorted(items: seq<Item>)
    ensures InOrder(Sorted(items)) && multiset(Sorted(items)) == multiset(items)
  {
    if items != [] {
      var n := |items| - 1;
      SortedIsSorted(items[..n]);
      InsertIsSorted(Sorted(items[..n]), items[n]);
      InsertAdds(Sorted(items[..n]), items[n]);
      assert items == items[..n] + [items[n]];
    }
  }

  predicate Due(tasks: seq<Task>, from: Date, to: Date, x: Item)
    requires Proper(tasks)
  {
    x.1 in tasks && DueDate(x.0.year, x.1) == Some(x.0) && Le(from, x.0) && Le(x.0, to)
  }

  lemma {:induction false} DueInMeans(tasks: seq<Task>, year: int, from: Date, to: Date, x: Item)
    requires Proper(tasks)
    ensures x in DueIn(tasks, year, from, to) <==> Due(tasks, from, to, x) && x.0.year == year
  {
    if tasks != [] {
      var n := |tasks| - 1;
      DueInMeans(tasks[..n], year, from, to, x);
      DueDateMeans(year, tasks[n]);
      assert tasks == tasks[..n] + [tasks[n]];
    }
  }

  lemma {:induction false} CollectedMeans(tasks: seq<Task>, first: int, count: nat, from: Date, to: Date, x: Item)
    requires Proper(tasks)
    ensures x in Collected(tasks, first, count, from, to) <==>
              Due(tasks, from, to, x) && first <= x.0.year < first + count
  {
    if count > 0 {
      CollectedMeans(tasks, first, count - 1, from, to, x);
      DueInMeans(tasks, first + (count - 1), from, to, x);
    }
  }

  /** A window holds exactly the tasks due in it, over every year it touches, in order of date. */
  lemma {:induction false} BetweenIsExact(tasks: seq<Task>, from: Date, to: Date, x: Item)
    requires Proper(tasks)
    ensures x in Between(tasks, from, to) <==> Due(tasks, from, to, x)
    ensures InOrder(Between(tasks, from, to))
  {
    if !Lt(to, from) {
      var items := Collected(tasks, from.year, Span(from, to), from, to);
      CollectedMeans(tasks, from.year, Span(from, to), from, to, x);
      SortedIsSorted(items);
      assert x in multiset(Sorted(items)) <==> x in multiset(items);
    }
  }

  // --- splitting a window ---

  function UpTo(items: seq<Item>, mid: Date): seq<Item> {
    if items == [] then []
    else
      var n := |items| - 1;
      UpTo(items[..n], mid) + if Le(items[n].0, mid) then [items[n]] else []
  }

  function Later(items: seq<Item>, mid: Date): seq<Item> {
    if items == [] then []
    else
      var n := |items| - 1;
      Later(items[..n], mid) + if Le(items[n].0, mid) then [] else [items[n]]
  }

  lemma {:induction false} PartsMean(items: seq<Item>, mid: Date, x: Item)
    ensures x in Sorted(UpTo(items, mid)) <==> x in items && Le(x.0, mid)
    ensures x in Sorted(Later(items, mid)) <==> x in items && !Le(x.0, mid)
  {
    FilterMeans(items, mid, x);
    SortedIsSorted(UpTo(items, mid));
    SortedIsSorted(Later(items, mid));
    assert x in Sorted(UpTo(items, mid)) <==> x in multiset(UpTo(items, mid));
    assert x in Sorted(Later(items, mid)) <==> x in multiset(Later(items, mid));
  }

  lemma {:induction false} FilterMeans(items: seq<Item>, mid: Date, x: Item)
    ensures x in UpTo(items, mid) <==> x in items && Le(x.0, mid)
    ensures x in Later(items, mid) <==> x in items && !Le(x.0, mid)
  {
    if items != [] {
      var n := |items| - 1;
      FilterMeans(items[..n], mid, x);
      assert items == items[..n] + [items[n]];
    }
  }

  lemma {:induction false} InsertLow(p: seq<Item>, q: seq<Item>, x: Item)
    requires forall i :: 0 <= i < |q| ==> Lt(x.0, q[i].0)
    ensures Insert(p + q, x) == Insert(p, x) + q
  {
    if q == [] {
      assert p + q == p && Insert(p, x) + q == Insert(p, x);
    } else {
      var n := |q| - 1;
      InsertLow(p, q[..n], x);
      assert (p + q)[..|p| + n] == p + q[..n];
      assert (Insert(p, x) + q[..n]) + [q[n]] == Insert(p, x) + q;
    }
  }

  lemma {:induction false} InsertHigh(p: seq<Item>, q: seq<Item>, x: Item)
    requires forall i :: 0 <= i < |p| ==> Lt(p[i].0, x.0)
    ensures Insert(p + q, x) == p + Insert(q, x)
  {
    if q == [] {
      assert p + q == p;
    } else if Before(q[|q| - 1], x) {
      assert (p + q) + [x] == p + (q + [x]);
    } else {
      var n := |q| - 1;
      InsertHigh(p, q[..n], x);
      assert (p + q)[..|p| + n] == p + q[..n];
      assert (p + Insert(q[..n], x)) + [q[n]] == p + (Insert(q[..n], x) + [q[n]]);
    }
  }

  lemma {:induction false} FilterNone(mid: Date)
    ensures UpTo([], mid) == [] && Later([], mid) == []
  {
  }

  lemma SortedOfNothing()
    ensures Sorted([]) == []
  {
  }

  lemma {:induction false} SortedAppend(items: seq<Item>, x: Item)
    ensures Sorted(items + [x]) == Insert(Sorted(items), x)
  {
  }

  lemma {:induction false} FilterAppend(items: seq<Item>, x: Item, mid: Date)
    ensures UpTo(items + [x], mid) == if Le(x.0, mid) then UpTo(items, mid) + [x] else UpTo(items, mid)
    ensures Later(items + [x], mid) == if Le(x.0, mid) then Later(items, mid) else Later(items, mid) + [x]
  {
  }

  lemma {:induction false} EarlyInsert(items: seq<Item>, x: Item, mid: Date)
    requires Le(x.0, mid)
    ensures Insert(Sorted(UpTo(items, mid)) + Sorted(Later(items, mid)), x) ==
            Insert(Sorted(UpTo(items, mid)), x) + Sorted(Later(items, mid))
  {
    hide Sorted, UpTo, Later, Insert;
    var q := Sorted(Later(items, mid));
    forall i | 0 <= i < |q|
      ensures Lt(x.0, q[i].0)
    {
      PartsMean(items, mid, q[i]);
    }
    InsertLow(Sorted(UpTo(items, mid)), q, x);
  }

  lemma {:induction false} LateInsert(items: seq<Item>, x: Item, mid: Date)
    requires !Le(x.0, mid)
    ensures Insert(Sorted(UpTo(items, mid)) + Sorted(Later(items, mid)), x) ==
            Sorted(UpTo(items, mid)) + Insert(Sorted(Later(items, mid)), x)
  {
    hide Sorted, UpTo, Later, Insert;
    var p := Sorted(UpTo(items, mid));
    forall i | 0 <= i < |p|
      ensures Lt(p[i].0, x.0)
    {
      PartsMean(items, mid, p[i]);
    }
    InsertHigh(p, Sorted(Later(items, mid)), x);
  }

  /** Sorting is sorting the early part and the late part. */
  lemma {:induction false} SortedSplits(items: seq<Item>, mid: Date)
    ensures Sorted(items) == Sorted(UpTo(items, mid)) + Sorted(Later(items, mid))
  {
    hide *;
    if items == [] {
      FilterNone(mid);
      SortedOfNothing();
    } else {
      var n := |items| - 1;
      var front, x := items[..n], items[n];
      SortedSplits(front, mid);
      SortedAppend(front, x);
      FilterAppend(front, x, mid);
      assert items == front + [x];
      if Le(x.0, mid) {
        EarlyInsert(front, x, mid);
        SortedAppend(UpTo(front, mid), x);
      } else {
        LateInsert(front, x, mid);
        SortedAppend(Later(front, mid), x);
      }
    }
  }

  lemma {:induction false} FilterConcat(a: seq<Item>, b: seq<Item>, mid: Date)
    ensures UpTo(a + b, mid) == UpTo(a, mid) + UpTo(b, mid)
    ensures Later(a + b, mid) == Later(a, mid) + Later(b, mid)
  {
    if b == [] {
      assert a + b == a;
    } else {
      var n := |b| - 1;
      FilterConcat(a, b[..n], mid);
      assert (a + b)[..|a| + n] == a + b[..n];
    }
  }

  lemma {:induction false} DueItemSplits(task: Task, year: int, from: Date, mid: Date, to: Date)
    requires task.month >= 1 && Valid(mid) && Le(from, mid) && Lt(mid, to)
    ensures UpTo(DueItem(task, year, from, to), mid) == DueItem(task, year, from, mid)
    ensures Later(DueItem(task, year, from, to), mid) == DueItem(task, year, NextDay(mid), to)
  {
  }

  lemma {:induction false} DueInSplits(tasks: seq<Task>, year: int, from: Date, mid: Date, to: Date)
    requires Proper(tasks) && Valid(mid) && Le(from, mid) && Lt(mid, to)
    ensures UpTo(DueIn(tasks, year, from, to), mid) == DueIn(tasks, year, from, mid)
    ensures Later(DueIn(tasks, year, from, to), mid) == DueIn(tasks, year, NextDay(mid), to)
  {
    if tasks != [] {
      var n := |tasks| - 1;
      DueInSplits(tasks[..n], year, from, mid, to);
      DueItemSplits(tasks[n], year, from, mid, to);
      FilterConcat(DueIn(tasks[..n], year, from, to), DueItem(tasks[n], year, from, to), mid);
    }
  }

  lemma {:induction false} CollectedMore(tasks: seq<Task>, first: int, count: nat, from: Date, to: Date)
    requires Proper(tasks) && count > 0
    ensures Collected(tasks, first, count, from, to) ==
            Collected(tasks, first, count - 1, from, to) + DueIn(tasks, first + (count - 1), from, to)
  {
  }

  lemma {:induction false} CollectedSplits(tasks: seq<Task>, first: int, count: nat, from: Date, mid: Date, to: Date)
    requires Proper(tasks) && Valid(mid) && Le(from, mid) && Lt(mid, to)
    ensures UpTo(Collected(tasks, first, count, from, to), mid) == Collected(tasks, first, count, from, mid)
    ensures Later(Collected(tasks, first, count, from, to), mid) == Collected(tasks, first, count, NextDay(mid), to)
  {
    hide DueIn, Valid, Le, Lt, NextDay;
    if count == 0 {
      FilterNone(mid);
    } else {
      hide *;
      CollectedSplits(tasks, first, count - 1, from, mid, to);
      DueInSplits(tasks, first + (count - 1), from, mid, to);
      FilterConcat(Collected(tasks, first, count - 1, from, to), DueIn(tasks, first + (count - 1), from, to), mid);
      CollectedMore(tasks, first, count, from, to);
      CollectedMore(tasks, first, count, from, mid);
      CollectedMore(tasks, first, count, NextDay(mid), to);
    }
  }

  lemma {:induction false} NothingDueOutside(tasks: seq<Task>, year: int, from: Date, to: Date)
    requires Proper(tasks) && (year < from.year || to.year < year)
    ensures DueIn(tasks, year, from, to) == []
  {
    if tasks != [] {
      NothingDueOutside(tasks[..|tasks| - 1], year, from, to);
      DueDateMeans(year, tasks[|tasks| - 1]);
    }
  }

  /** Years outside the window add nothing, before it or after it. */
  lemma {:induction false} CollectedYears(tasks: seq<Task>, first: int, count: nat, from: Date, to: Date)
    requires Proper(tasks) && first <= from.year <= to.year < first + count
    ensures Collected(tasks, first, count, from, to) == Collected(tasks, from.year, Span(from, to), from, to)
    decreases count
  {
    hide DueIn, Collected;
    if to.year < first + count - 1 {
      NothingDueOutside(tasks, first + (count - 1), from, to);
      CollectedYears(tasks, first, count - 1, from, to);
      CollectedMore(tasks, first, count, from, to);
    } else {
      CollectedFrom(tasks, first, count, from, to);
    }
  }

  lemma {:induction false} CollectedFrom(tasks: seq<Task>, first: int, count: nat, from: Date, to: Date)
    requires Proper(tasks) && first <= from.year
    ensures Collected(tasks, first, count, from, to) ==
            Collected(tasks, from.year, if first + count > from.year then first + count - from.year else 0, from, to)
  {
    hide DueIn, Proper;
    if count > 0 {
      var year := first + (count - 1);
      CollectedFrom(tasks, first, count - 1, from, to);
      if year < from.year {
        NothingDueOutside(tasks, year, from, to);
      } else {
        assert from.year + (year - from.year) == year;
      }
    }
  }

  /** A window is its first part followed by the rest, wherever it is cut and however many
      years it spans: no task is lost, repeated or moved at the cut. */
  lemma {:induction false} WindowsSplit(tasks: seq<Task>, from: Date, mid: Date, to: Date)
    requires Proper(tasks) && Valid(mid) && Valid(to) && Le(from, mid) && Lt(mid, to)
    ensures Valid(NextDay(mid))
    ensures Between(tasks, from, to) == Between(tasks, from, mid) + Between(tasks, NextDay(mid), to)
  {
    var count := Span(from, to);
    var items := Collected(tasks, from.year, count, from, to);
    NextIsNext(mid, to);
    CutIsOrdered(from, mid, to);
    hide DueIn, Collected, Sorted, UpTo, Later, Valid, Le, NextDay;
    CollectedSplits(tasks, from.year, count, from, mid, to);
    CollectedYears(tasks, from.year, count, from, mid);
    CollectedYears(tasks, from.year, count, NextDay(mid), to);
    SortedSplits(items, mid);
  }

  lemma CutIsOrdered(from: Date, mid: Date, to: Date)
    requires Valid(mid) && Valid(to) && Le(from, mid) && Lt(mid, to)
    ensures Valid(NextDay(mid)) && from.year <= mid.year <= NextDay(mid).year <= to.year
    ensures !Lt(to, from) && !Lt(mid, from) && !Lt(to, NextDay(mid))
  {
  }

  predicate Ordinary(t: Task) {
    1 <= t.month <= 12 && 1 <= t.onDay <= 28
  }

  lemma TroopTasksAreOrdinary(i: nat)
    requires i < |SEASONAL_TASKS|
    ensures Ordinary(SEASONAL_TASKS[i])
  {
  }

  /** The troop year is proper, and every year the library represents has every task on the day
      it names, save December in the last one. */
  lemma TroopYear(year: int, i: nat)
    requires i < |SEASONAL_TASKS| && MIN_YEAR <= year <= MAX_YEAR
    ensures Proper(SEASONAL_TASKS)
    ensures var t := SEASONAL_TASKS[i];
            DueDate(year, t) ==
            if t.month == 12 && year == MAX_YEAR then None else Some(Date(year, t.month, t.onDay))
  {
    forall t | t in SEASONAL_TASKS
      ensures Ordinary(t)
    {
      var k :| 0 <= k < |SEASONAL_TASKS| && SEASONAL_TASKS[k] == t;
      TroopTasksAreOrdinary(k);
    }
    TroopTasksAreOrdinary(i);
    DueDateMeans(year, SEASONAL_TASKS[i]);
    hide SEASONAL_TASKS, DueDate;
  }
}
