/** `MealHistoryView`: every meal from before today, grouped by the day it was
    created on, newest day first, each group with its calorie total and its
    meals listed newest first. `day` stands for `Calendar.startOfDay(for:)`;
    none of the properties below depend on which function it is. */
module MealHistory {
  import opened Basics
  import opened MealModel

  /** One section of the history: a day and the meals created on it. */
  datatype DateGroup = DateGroup(date: int, meals: seq<Meal>)

  /** The meals whose day starts before `today`. */
  function PastMeals(meals: seq<Meal>, today: int, day: int -> int): seq<Meal> {
    Filter(meals, (m: Meal) => day(m.createdAt) < today)
  }

  /** The meals created on day `d`, in their original order. */
  function OnDay(meals: seq<Meal>, day: int -> int, d: int): seq<Meal> {
    Filter(meals, (m: Meal) => day(m.createdAt) == d)
  }

  /** Group dates strictly decrease along the list. */
  ghost predicate NewestFirst(groups: seq<DateGroup>) {
    forall i, j :: 0 <= i < j < |groups| ==> groups[i].date > groups[j].date
  }

  /** The meals of the group for day `d`, or none if there is no such group. */
  function MealsOn(groups: seq<DateGroup>, d: int): seq<Meal> {
    if groups == [] then []
    else if groups[0].date == d then groups[0].meals
    else MealsOn(groups[1..], d)
  }

  /** All meals of all groups, group after group. */
  function Flatten(groups: seq<DateGroup>): seq<Meal> {
    if groups == [] then [] else groups[0].meals + Flatten(groups[1..])
  }

  /** In a newest-first list, the group at index `i` is the one `MealsOn` finds
      for its date, and no group has a date above the first one's. */
  lemma {:induction false} MealsOnIndex(groups: seq<DateGroup>, i: nat)
    requires NewestFirst(groups) && i < |groups|
    ensures MealsOn(groups, groups[i].date) == groups[i].meals
  {
    if i > 0 {
      MealsOnIndex(groups[1..], i - 1);
    }
  }

  /** A date that no group carries has no meals. */
  lemma {:induction false} MealsOnAbsent(groups: seq<DateGroup>, d: int)
    requires forall i :: 0 <= i < |groups| ==> groups[i].date != d
    ensures MealsOn(groups, d) == []
  {
    if groups != [] {
      MealsOnAbsent(groups[1..], d);
    }
  }

  /** `Dictionary(grouping:)` for one more meal `m` whose day is `d`: appended to
      the group for `d`, or a new group for `d` placed by date. */
  function AddToGroups(groups: seq<DateGroup>, m: Meal, d: int): seq<DateGroup> {
    if groups == [] then [DateGroup(d, [m])]
    else if groups[0].date == d then [DateGroup(d, groups[0].meals + [m])] + groups[1..]
    else if groups[0].date < d then [DateGroup(d, [m])] + groups
    else [groups[0]] + AddToGroups(groups[1..], m, d)
  }

  ghost predicate NonEmptyGroups(groups: seq<DateGroup>) {
    forall i :: 0 <= i < |groups| ==> groups[i].meals != []
  }

  /** Adding a meal keeps the list newest first with no empty group, and its
      first date is either `d` or the old first date. */
  lemma {:induction false} AddToGroupsShape(groups: seq<DateGroup>, m: Meal, d: int)
    requires NewestFirst(groups) && NonEmptyGroups(groups)
    ensures NewestFirst(AddToGroups(groups, m, d)) && NonEmptyGroups(AddToGroups(groups, m, d))
    ensures AddToGroups(groups, m, d) != []
    ensures AddToGroups(groups, m, d)[0].date == d
            || (groups != [] && AddToGroups(groups, m, d)[0].date == groups[0].date)
  {
    if groups != [] && groups[0].date > d {
      var rest := AddToGroups(groups[1..], m, d);
      AddToGroupsShape(groups[1..], m, d);
      var r := [groups[0]] + rest;
      assert |groups| > 1 ==> groups[0].date > groups[1].date;
      assert r[0].date > rest[0].date;
      forall i, j | 0 <= i < j < |r| ensures r[i].date > r[j].date {
        if i > 0 {
          assert r[i] == rest[i - 1] && r[j] == rest[j - 1];
        } else {
          assert r[j] == rest[j - 1];
          assert j - 1 == 0 || rest[0].date > rest[j - 1].date;
        }
      }
    }
  }

  /** Adding `m` on day `d` appends it to the meals of day `d` and changes no other day. */
  lemma {:induction false} AddToGroupsMealsOn(groups: seq<DateGroup>, m: Meal, d: int, e: int)
    requires NewestFirst(groups)
    ensures MealsOn(AddToGroups(groups, m, d), e) == MealsOn(groups, e) + (if e == d then [m] else [])
  {
    if groups == [] {
    } else if groups[0].date == d {
    } else if groups[0].date < d {
      if e == d {
        MealsOnAbsent(groups, d);
      }
    } else {
      AddToGroupsMealsOn(groups[1..], m, d, e);
    }
  }

  /** Adding a meal adds exactly that meal to the groups' contents. */
  lemma {:induction false} AddToGroupsFlatten(groups: seq<DateGroup>, m: Meal, d: int)
    ensures multiset(Flatten(AddToGroups(groups, m, d))) == multiset(Flatten(groups)) + multiset{m}
  {
    if groups == [] {
    } else if groups[0].date == d {
      var r := AddToGroups(groups, m, d);
      assert r[1..] == groups[1..];
      assert Flatten(r) == (groups[0].meals + [m]) + Flatten(groups[1..]);
    } else if groups[0].date < d {
      var r := AddToGroups(groups, m, d);
      assert r[1..] == groups;
    } else {
      var r := AddToGroups(groups, m, d);
      AddToGroupsFlatten(groups[1..], m, d);
      assert r[1..] == AddToGroups(groups[1..], m, d);
    }
  }

  /** `Dictionary(grouping: meals) { day($0.createdAt) }`, listed newest day first. */
  function GroupByDay(meals: seq<Meal>, day: int -> int): seq<DateGroup> {
    if meals == [] then []
    else
      var last := meals[|meals| - 1];
      AddToGroups(GroupByDay(meals[..|meals| - 1], day), last, day(last.createdAt))
  }

  /** The meals of day `e` among `init + [last]`. */
  lemma OnDaySnoc(init: seq<Meal>, last: Meal, day: int -> int, e: int)
    ensures OnDay(init + [last], day, e) == OnDay(init, day, e) + (if day(last.createdAt) == e then [last] else [])
  {
    FilterConcat(init, [last], (m: Meal) => day(m.createdAt) == e);
  }

  /** Grouping yields non-empty groups, newest day first. */
  lemma {:induction false} GroupByDayShape(meals: seq<Meal>, day: int -> int)
    ensures NewestFirst(GroupByDay(meals, day)) && NonEmptyGroups(GroupByDay(meals, day))
  {
    if meals != [] {
      var last := meals[|meals| - 1];
      GroupByDayShape(meals[..|meals| - 1], day);
      AddToGroupsShape(GroupByDay(meals[..|meals| - 1], day), last, day(last.createdAt));
    }
  }

  /** The group for each day holds exactly that day's meals, in their original order. */
  lemma {:induction false} GroupByDayMealsOn(meals: seq<Meal>, day: int -> int, e: int)
    ensures MealsOn(GroupByDay(meals, day), e) == OnDay(meals, day, e)
  {
    if meals != [] {
      var init := meals[..|meals| - 1];
      var last := meals[|meals| - 1];
      var prev := GroupByDay(init, day);
      assert GroupByDay(meals, day) == AddToGroups(prev, last, day(last.createdAt));
      GroupByDayMealsOn(init, day, e);
      GroupByDayShape(init, day);
      AddToGroupsMealsOn(prev, last, day(last.createdAt), e);
      assert meals == init + [last];
      OnDaySnoc(init, last, day, e);
    }
  }

  /** The groups together contain exactly the meals. */
  lemma {:induction false} GroupByDayFlatten(meals: seq<Meal>, day: int -> int)
    ensures multiset(Flatten(GroupByDay(meals, day))) == multiset(meals)
  {
    if meals != [] {
      var init := meals[..|meals| - 1];
      var last := meals[|meals| - 1];
      GroupByDayFlatten(init, day);
      AddToGroupsFlatten(GroupByDay(init, day), last, day(last.createdAt));
      assert meals == init + [last];
    }
  }

  /** `mealsByDate` */
  function MealsByDate(meals: seq<Meal>, today: int, day: int -> int): seq<DateGroup> {
    GroupByDay(PastMeals(meals, today, day), day)
  }

  /** The history is a partition of the past meals by day: dates strictly
      decrease, every group is non-empty and holds exactly the past meals of its
      own day in their original order, no group holds a meal from today or
      later, and every past meal is in the group of its day. */
  lemma MealsByDateSpec(meals: seq<Meal>, today: int, day: int -> int)
    ensures NewestFirst(MealsByDate(meals, today, day))
    ensures forall i :: 0 <= i < |MealsByDate(meals, today, day)| ==>
              var g := MealsByDate(meals, today, day)[i];
              g.meals != [] && g.date < today && g.meals == OnDay(PastMeals(meals, today, day), day, g.date)
    ensures forall i, m :: 0 <= i < |MealsByDate(meals, today, day)| && m in MealsByDate(meals, today, day)[i].meals ==>
              m in meals && day(m.createdAt) == MealsByDate(meals, today, day)[i].date
    ensures forall m :: m in meals && day(m.createdAt) < today ==>
              exists i :: 0 <= i < |MealsByDate(meals, today, day)| && m in MealsByDate(meals, today, day)[i].meals
    ensures multiset(Flatten(MealsByDate(meals, today, day))) == multiset(PastMeals(meals, today, day))
  {
    var past := PastMeals(meals, today, day);
    var groups := MealsByDate(meals, today, day);
    GroupByDayShape(past, day);
    GroupByDayFlatten(past, day);
    forall e ensures MealsOn(groups, e) == OnDay(past, day, e) {
      GroupByDayMealsOn(past, day, e);
    }
    forall i | 0 <= i < |groups|
      ensures groups[i].meals == OnDay(past, day, groups[i].date) && groups[i].date < today
    {
      MealsOnIndex(groups, i);
      var m := groups[i].meals[0];
      assert m in OnDay(past, day, groups[i].date);
    }
    forall m | m in meals && day(m.createdAt) < today
      ensures exists i :: 0 <= i < |groups| && m in groups[i].meals
    {
      var d := day(m.createdAt);
      assert m in OnDay(past, day, d);
      if forall i :: 0 <= i < |groups| ==> groups[i].date != d {
        MealsOnAbsent(groups, d);
        assert false;
      }
      var i :| 0 <= i < |groups| && groups[i].date == d;
      MealsOnIndex(groups, i);
    }
  }

  /** `MealDateSection.totalCalories` */
  function SectionTotal(meals: seq<Meal>): int {
    SumCalories(meals)
  }

  /** The section totals add up to the calories of all past meals. */
  lemma {:induction false} SectionTotalsAddUp(groups: seq<DateGroup>)
    ensures SumOf(groups, (g: DateGroup) => SectionTotal(g.meals)) == SumCalories(Flatten(groups))
  {
    if groups != [] {
      SectionTotalsAddUp(groups[1..]);
      SumConcat(groups[0].meals, Flatten(groups[1..]), (m: Meal) => m.calories);
    }
  }

  lemma HistoryTotal(meals: seq<Meal>, today: int, day: int -> int)
    ensures SumOf(MealsByDate(meals, today, day), (g: DateGroup) => SectionTotal(g.meals))
         == SumCalories(PastMeals(meals, today, day))
  {
    var groups := MealsByDate(meals, today, day);
    GroupByDayFlatten(PastMeals(meals, today, day), day);
    SectionTotalsAddUp(groups);
    SumPermutation(Flatten(groups), PastMeals(meals, today, day), (m: Meal) => m.calories);
  }

  /** Meals ordered newest first (`createdAt` non-increasing). */
  ghost predicate NewestMealFirst(meals: seq<Meal>) {
    forall i, j :: 0 <= i < j < |meals| ==> meals[i].createdAt >= meals[j].createdAt
  }

  /** `m` placed into a newest-first list in front of the first meal it is not
      older than. */
  function InsertByCreatedAt(m: Meal, sorted: seq<Meal>): (r: seq<Meal>)
    requires NewestMealFirst(sorted)
    ensures NewestMealFirst(r)
    ensures multiset(r) == multiset(sorted) + multiset{m}
    ensures |r| > 0 && (r[0] == m || (sorted != [] && r[0] == sorted[0]))
  {
    if sorted == [] || m.createdAt >= sorted[0].createdAt then [m] + sorted
    else
      assert sorted == [sorted[0]] + sorted[1..];
      [sorted[0]] + InsertByCreatedAt(m, sorted[1..])
  }

  /** `meals.sorted { $0.createdAt > $1.createdAt }`: a newest-first
      rearrangement of the section's meals. */
  function SectionRows(meals: seq<Meal>): (r: seq<Meal>)
    ensures NewestMealFirst(r)
    ensures multiset(r) == multiset(meals)
  {
    if meals == [] then []
    else
      assert meals == [meals[0]] + meals[1..];
      InsertByCreatedAt(meals[0], SectionRows(meals[1..]))
  }

  /** Reordering the rows does not change the section's total. */
  lemma SectionRowsTotal(meals: seq<Meal>)
    ensures SectionTotal(SectionRows(meals)) == SectionTotal(meals)
  {
    SumPermutation(SectionRows(meals), meals, (m: Meal) => m.calories);
  }

  /** The word after a section's meal count. */
  function MealNoun(count: nat): (word: string)
    ensures word == "meal" <==> count == 1
    ensures word == "meal" || word == "meals"
  {
    if count == 1 then "meal" else "meals"
  }

  /** What the history screen shows: the spinner while loading, else the
      placeholder when there are no past meals, else the sections. */
  datatype HistoryContent = LoadingHistory | NoHistory | Sections(groups: seq<DateGroup>)

  function HistoryScreen(isLoading: bool, meals: seq<Meal>, today: int, day: int -> int): (c: HistoryContent)
    ensures c.LoadingHistory? <==> isLoading
    ensures c.NoHistory? <==> !isLoading && (forall m :: m in meals ==> day(m.createdAt) >= today)
    ensures c.Sections? ==> c.groups == MealsByDate(meals, today, day)
    ensures !isLoading && MealsByDate(meals, today, day) != [] ==> c == Sections(MealsByDate(meals, today, day))
  {
    var groups := MealsByDate(meals, today, day);
    if isLoading then LoadingHistory
    else if groups == [] then
      MealsByDateSpec(meals, today, day);
      NoHistory
    else
      MealsByDateSpec(meals, today, day);
      assert groups[0].meals[0] in groups[0].meals;
      Sections(groups)
  }
}
