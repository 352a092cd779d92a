/** The meal records, and `MealManager`: the local mirror of the signed-in user's
    meal collection, kept up to date by a snapshot listener, with today's meals
    and their calorie totals derived from it. Timestamps are integers; the clock
    readings the app takes (`Date()`, the start of today and of tomorrow) are
    parameters of the events that take them. */
module MealModel {
  import opened Basics

  datatype MealTime = Breakfast | Lunch | Dinner | Snack

  /** `MealTime.allCases`, in declaration order. */
  const AllMealTimes: seq<MealTime> := [Breakfast, Lunch, Dinner, Snack]

  /** The raw value a meal time is stored under. */
  function RawValue(t: MealTime): string {
    match t
    case Breakfast => "Breakfast"
    case Lunch => "Lunch"
    case Dinner => "Dinner"
    case Snack => "Snack"
  }

  /** `MealTime(rawValue:)`: nil for any string that is not one of the four raw values. */
  function FromRawValue(s: string): (r: Option<MealTime>)
    ensures r.Some? ==> RawValue(r.value) == s
  {
    if s == "Breakfast" then Some(Breakfast)
    else if s == "Lunch" then Some(Lunch)
    else if s == "Dinner" then Some(Dinner)
    else if s == "Snack" then Some(Snack)
    else None
  }

  /** Encoding a meal time and decoding it again gives it back, and every case is
      listed in `allCases`. */
  lemma RawValueRoundTrip(t: MealTime)
    ensures FromRawValue(RawValue(t)) == Some(t)
    ensures t in AllMealTimes
  {
  }

  /** A meal document. `id` is the document id, absent until the store has assigned one. */
  datatype Meal = Meal(
    id: Option<string>,
    name: string,
    calories: int,
    mealTime: MealTime,
    description: string,
    imageURL: Option<string>,
    userId: string,
    createdAt: int)

  /** `meals.reduce(0) { $0 + $1.calories }` */
  function SumCalories(meals: seq<Meal>): int {
    SumOf(meals, (m: Meal) => m.calories)
  }

  /** The meals created in the half-open window [today, tomorrow). */
  function TodaysMeals(meals: seq<Meal>, today: int, tomorrow: int): seq<Meal> {
    Filter(meals, (m: Meal) => today <= m.createdAt < tomorrow)
  }

  /** The meals eaten at meal time `t`. */
  function AtMealTime(meals: seq<Meal>, t: MealTime): seq<Meal> {
    Filter(meals, (m: Meal) => m.mealTime == t)
  }

  /** Today's meals are exactly the meals of the window, each as often as it
      occurs in `meals`, in the order of `meals`. */
  lemma TodaysMealsSpec(meals: seq<Meal>, today: int, tomorrow: int)
    ensures forall m :: m in TodaysMeals(meals, today, tomorrow) <==>
                        m in meals && today <= m.createdAt < tomorrow
    ensures forall m :: multiset(TodaysMeals(meals, today, tomorrow))[m] ==
                        if today <= m.createdAt < tomorrow then multiset(meals)[m] else 0
    ensures IsSubsequence(TodaysMeals(meals, today, tomorrow), meals)
  {
    FilterCounts(meals, (m: Meal) => today <= m.createdAt < tomorrow);
    FilterIsSubsequence(meals, (m: Meal) => today <= m.createdAt < tomorrow);
  }

  /** The four per-meal-time sums add up to the total. */
  lemma {:induction false} MealTimeTotalsAddUp(meals: seq<Meal>)
    ensures SumCalories(AtMealTime(meals, Breakfast)) + SumCalories(AtMealTime(meals, Lunch))
          + SumCalories(AtMealTime(meals, Dinner)) + SumCalories(AtMealTime(meals, Snack))
         == SumCalories(meals)
  {
    if meals != [] {
      MealTimeTotalsAddUp(meals[1..]);
    }
  }

  /** One registration of the snapshot listener; `Remove` detaches it. */
  class ListenerRegistration {
    const userId: string
    var active: bool

    constructor (userId: string)
      ensures this.userId == userId && active
    {
      this.userId := userId;
      active := true;
    }

    method Remove()
      modifies this
      ensures !active
    {
      active := false;
    }
  }

  /** A snapshot listener notification. `documents[i]` is the decoded meal, or
      `None` when the document does not decode as a `Meal`. */
  datatype SnapshotEvent =
    | SnapshotError(message: string)
    | NoSnapshot
    | Documents(documents: seq<Option<Meal>>)

  /** The request a `deleteMeal` call issues: the document to delete. */
  datatype DeleteRequest = DeleteDocument(mealId: string)

  class MealManager {
    var meals: seq<Meal>
    var isLoading: bool
    var todaysMeals: seq<Meal>
    var listener: ListenerRegistration?

    /** The window [windowStart, windowEnd) that `todaysMeals` was last computed for. */
    ghost var windowStart: int
    ghost var windowEnd: int

    /** `todaysMeals` is always the day window of `meals` it was last computed for. */
    ghost predicate Valid()
      reads this
    {
      todaysMeals == TodaysMeals(meals, windowStart, windowEnd)
    }

    constructor ()
      ensures Valid()
      ensures meals == [] && todaysMeals == [] && !isLoading && listener == null
    {
      meals := [];
      isLoading := false;
      todaysMeals := [];
      listener := null;
    }

    /** `totalCalories`: the calories of today's meals, which are also the sum of
        the four meal times' calories. */
    function TotalCalories(): (total: int)
      reads this
      ensures total == SumCalories(AtMealTime(todaysMeals, Breakfast)) + SumCalories(AtMealTime(todaysMeals, Lunch))
                     + SumCalories(AtMealTime(todaysMeals, Dinner)) + SumCalories(AtMealTime(todaysMeals, Snack))
    {
      MealTimeTotalsAddUp(todaysMeals);
      SumCalories(todaysMeals)
    }

    /** `caloriesByMealTime`: one entry per meal time, each the calories of
        today's meals at that time; together they make up the total. */
    method CaloriesByMealTime() returns (calories: map<MealTime, int>)
      ensures forall t: MealTime :: t in calories
      ensures forall t :: t in calories ==> calories[t] == SumCalories(AtMealTime(todaysMeals, t))
      ensures calories[Breakfast] + calories[Lunch] + calories[Dinner] + calories[Snack] == TotalCalories()
    {
      calories := map[];
      for i := 0 to |AllMealTimes|
        invariant forall t :: t in calories <==> t in AllMealTimes[..i]
        invariant forall t :: t in calories ==> calories[t] == SumCalories(AtMealTime(todaysMeals, t))
      {
        var mealTime := AllMealTimes[i];
        calories := calories[mealTime := SumCalories(AtMealTime(todaysMeals, mealTime))];
      }
      assert AllMealTimes[..4] == AllMealTimes;
      forall t: MealTime ensures t in calories {
        RawValueRoundTrip(t);
      }
      MealTimeTotalsAddUp(todaysMeals);
    }

    /** `startListening(for:)`: raises `isLoading`, removes the previous
        registration and registers a new listener for `userId`. The mirror itself
        is untouched until the first notification. */
    method StartListening(userId: string)
      requires Valid()
      modifies this, listener
      ensures Valid()
      ensures isLoading
      ensures fresh(listener) && listener.active && listener.userId == userId
      ensures old(listener) != null ==> !old(listener).active
      ensures meals == old(meals) && todaysMeals == old(todaysMeals)
    {
      isLoading := true;
      StopListening();
      listener := new ListenerRegistration(userId);
    }

    /** `stopListening()`: the slot is empty afterwards, whatever it held. */
    method StopListening()
      modifies this`listener, listener
      ensures listener == null
      ensures old(listener) != null ==> !old(listener).active
    {
      if listener != null {
        listener.Remove();
      }
      listener := null;
    }

    /** The listener callback, for a notification delivered while the clock reads
        a time whose day starts at `today` and whose next day starts at `tomorrow`.
        An error or a missing snapshot keeps the last-known mirror; otherwise the
        decodable documents replace `meals` wholesale and today's meals are
        recomputed. `isLoading` is cleared in every case. The app keeps no
        guard against a notification that arrives after `stopListening`. */
    method OnSnapshot(event: SnapshotEvent, today: int, tomorrow: int)
      requires Valid()
      modifies this`meals, this`isLoading, this`todaysMeals, this`windowStart, this`windowEnd
      ensures Valid()
      ensures !isLoading
      ensures !event.Documents? ==> meals == old(meals) && todaysMeals == old(todaysMeals)
      ensures event.Documents? ==>
                meals == Somes(event.documents) && todaysMeals == TodaysMeals(meals, today, tomorrow)
    {
      isLoading := false;
      if event.SnapshotError? {
        return;
      }
      if event.NoSnapshot? {
        return;
      }
      meals := Somes(event.documents);
      UpdateTodaysMeals(today, tomorrow);
    }

    /** `updateTodaysMeals()` */
    method UpdateTodaysMeals(today: int, tomorrow: int)
      modifies this`todaysMeals, this`windowStart, this`windowEnd
      ensures Valid() && windowStart == today && windowEnd == tomorrow
    {
      todaysMeals := TodaysMeals(meals, today, tomorrow);
      windowStart, windowEnd := today, tomorrow;
    }

    /** `addMeal(...)`: the document written, stamped with the current time `now`
        and without an id. The local mirror is left to the listener. */
    method AddMeal(name: string, calories: int, mealTime: MealTime, description: string,
                   userId: string, imageURL: Option<string>, now: int)
      returns (written: Meal)
      ensures written == Meal(None, name, calories, mealTime, description, imageURL, userId, now)
    {
      written := Meal(None, name, calories, mealTime, description, imageURL, userId, now);
    }

    /** `deleteMeal(_:)`: a meal without an id fails at once and issues no request;
        otherwise the delete of its document is issued. Nothing local changes. */
    method DeleteMeal(meal: Meal) returns (request: Option<DeleteRequest>)
      ensures request.None? <==> meal.id.None?
      ensures request.Some? ==> request.value.mealId == meal.id.value
    {
      if meal.id.None? {
        return None;
      }
      request := Some(DeleteDocument(meal.id.value));
    }
  }
}
