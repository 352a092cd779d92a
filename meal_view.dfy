/** `MealView`: today's meal list over a `MealManager`, with an optimistic delete
    overlay (`deletingMealIds`) that hides a meal from the moment its delete is
    requested, and the consumption card that totals today's meals. The 0.5 s
    delay before a confirmed delete leaves the overlay is a timer event. */
module MealView {
  import opened Basics
  import opened MealModel

  /** `meal.id ?? ""`, the key a meal is looked up by in the overlay. */
  function OverlayKey(meal: Meal): string {
    meal.id.GetOr("")
  }

  /** The rows of the list: today's meals whose key is not in the overlay, in order. */
  function VisibleMeals(todaysMeals: seq<Meal>, deleting: set<string>): seq<Meal> {
    Filter(todaysMeals, (m: Meal) => OverlayKey(m) !in deleting)
  }

  /** The meals the overlay currently hides. */
  function HiddenMeals(todaysMeals: seq<Meal>, deleting: set<string>): seq<Meal> {
    Filter(todaysMeals, (m: Meal) => OverlayKey(m) in deleting)
  }

  /** The visible list is today's meals minus the hidden ones, in their order;
      its length is what is left after the hidden ones are taken out. */
  lemma VisibleMealsSpec(todaysMeals: seq<Meal>, deleting: set<string>)
    ensures forall m :: m in VisibleMeals(todaysMeals, deleting) <==>
                        m in todaysMeals && OverlayKey(m) !in deleting
    ensures IsSubsequence(VisibleMeals(todaysMeals, deleting), todaysMeals)
    ensures |VisibleMeals(todaysMeals, deleting)| == |todaysMeals| - |HiddenMeals(todaysMeals, deleting)|
  {
    FilterIsSubsequence(todaysMeals, (m: Meal) => OverlayKey(m) !in deleting);
    FilterSplitLength(todaysMeals, (m: Meal) => OverlayKey(m) !in deleting, (m: Meal) => OverlayKey(m) in deleting);
  }

  /** The card counts hidden meals too: its total is the visible meals' calories
      plus the hidden meals' calories. */
  lemma CardCountsHiddenMeals(todaysMeals: seq<Meal>, deleting: set<string>)
    ensures SumCalories(todaysMeals)
         == SumCalories(VisibleMeals(todaysMeals, deleting)) + SumCalories(HiddenMeals(todaysMeals, deleting))
  {
    SumFilterSplit(todaysMeals, (m: Meal) => m.calories,
                   (m: Meal) => OverlayKey(m) !in deleting, (m: Meal) => OverlayKey(m) in deleting);
  }

  /** The amount the card shows for a meal time: `caloriesByMealTime[t] ?? 0`. */
  function CardCalories(byMealTime: map<MealTime, int>, t: MealTime): int {
    if t in byMealTime then byMealTime[t] else 0
  }

  /** Over the map `caloriesByMealTime` returns, each line of the card shows that
      meal time's calories today, and the four lines add up to the Total line. */
  lemma CardLinesAddUp(byMealTime: map<MealTime, int>, todaysMeals: seq<Meal>)
    requires forall t: MealTime :: t in byMealTime && byMealTime[t] == SumCalories(AtMealTime(todaysMeals, t))
    ensures forall t :: CardCalories(byMealTime, t) == SumCalories(AtMealTime(todaysMeals, t))
    ensures CardCalories(byMealTime, Breakfast) + CardCalories(byMealTime, Lunch)
          + CardCalories(byMealTime, Dinner) + CardCalories(byMealTime, Snack)
         == SumCalories(todaysMeals)
  {
    MealTimeTotalsAddUp(todaysMeals);
  }

  /** The empty-state placeholder appears when there are no meals today and none
      are loading; the overlay plays no part. */
  function ShowsEmptyState(todaysMeals: seq<Meal>, isLoading: bool): bool {
    todaysMeals == [] && !isLoading
  }

  /** When the placeholder shows, the list is empty; but an overlay that hides
      all of today's meals empties the list without bringing up the placeholder. */
  lemma EmptyStateVersusOverlay(todaysMeals: seq<Meal>, deleting: set<string>, isLoading: bool)
    ensures ShowsEmptyState(todaysMeals, isLoading) ==> VisibleMeals(todaysMeals, deleting) == []
    ensures todaysMeals != [] && (forall m :: m in todaysMeals ==> OverlayKey(m) in deleting) ==>
              VisibleMeals(todaysMeals, deleting) == [] && !ShowsEmptyState(todaysMeals, isLoading)
  {
    var visible := VisibleMeals(todaysMeals, deleting);
    if visible != [] {
      assert visible[0] in visible;
    }
  }

  class MealListView {
    const manager: MealManager
    var deletingMealIds: set<string>
    var selectedMeal: Option<Meal>
    /** Ids whose delete succeeded and whose 0.5 s removal timer has not fired yet. */
    var pendingRemovals: multiset<string>

    constructor (manager: MealManager)
      ensures this.manager == manager
      ensures deletingMealIds == {} && selectedMeal == None && pendingRemovals == multiset{}
    {
      this.manager := manager;
      deletingMealIds := {};
      selectedMeal := None;
      pendingRemovals := multiset{};
    }

    function Visible(): seq<Meal>
      reads this, manager
    {
      VisibleMeals(manager.todaysMeals, deletingMealIds)
    }

    /** `deleteMeal(_:)`: a meal without an id is ignored. Otherwise its id joins
        the overlay, which hides it at once, and only then is the delete issued. */
    method DeleteMeal(meal: Meal) returns (request: Option<DeleteRequest>)
      modifies this`deletingMealIds
      ensures meal.id.None? ==> request.None? && deletingMealIds == old(deletingMealIds)
      ensures meal.id.Some? ==>
                && deletingMealIds == old(deletingMealIds) + {meal.id.value}
                && request == Some(DeleteDocument(meal.id.value))
                && meal !in Visible()
    {
      if meal.id.None? {
        return None;
      }
      deletingMealIds := deletingMealIds + {meal.id.value};
      request := manager.DeleteMeal(meal);
    }

    /** The delete's completion. A failure takes the id out of the overlay at once,
        so the meal shows again; a success starts the removal timer and keeps it
        hidden meanwhile. */
    method OnDeleteCompleted(mealId: string, success: bool)
      modifies this`deletingMealIds, this`pendingRemovals
      ensures success ==> deletingMealIds == old(deletingMealIds)
                          && pendingRemovals == old(pendingRemovals) + multiset{mealId}
      ensures !success ==> deletingMealIds == old(deletingMealIds) - {mealId}
                           && pendingRemovals == old(pendingRemovals)
      ensures !success ==> forall m :: m in manager.todaysMeals && m.id == Some(mealId) ==> m in Visible()
    {
      if success {
        pendingRemovals := pendingRemovals + multiset{mealId};
      } else {
        deletingMealIds := deletingMealIds - {mealId};
      }
    }

    /** A removal timer fires: the id leaves the overlay, so a meal the listener
        has not yet dropped reappears. */
    method OnRemovalTimerFired(mealId: string)
      requires mealId in pendingRemovals
      modifies this`deletingMealIds, this`pendingRemovals
      ensures deletingMealIds == old(deletingMealIds) - {mealId}
      ensures pendingRemovals == old(pendingRemovals) - multiset{mealId}
      ensures forall m :: m in manager.todaysMeals && m.id == Some(mealId) ==> m in Visible()
    {
      pendingRemovals := pendingRemovals - multiset{mealId};
      deletingMealIds := deletingMealIds - {mealId};
    }

    /** A tap opens the meal's details unless the meal is being deleted. */
    method Tap(meal: Meal)
      modifies this`selectedMeal
      ensures selectedMeal == if OverlayKey(meal) in deletingMealIds then old(selectedMeal) else Some(meal)
    {
      if OverlayKey(meal) !in deletingMealIds {
        selectedMeal := Some(meal);
      }
    }
  }

  /** A delete that succeeds while no new snapshot arrives: the meal is hidden
      until the timer fires, then shows again. */
  method DeleteWithoutConfirmingSnapshot(view: MealListView, meal: Meal)
    requires meal in view.manager.todaysMeals && meal.id.Some?
    modifies view
  {
    var request := view.DeleteMeal(meal);
    assert meal !in view.Visible();
    view.OnDeleteCompleted(meal.id.value, true);
    assert meal !in view.Visible();
    view.OnRemovalTimerFired(meal.id.value);
    assert meal in view.Visible();
  }
}
