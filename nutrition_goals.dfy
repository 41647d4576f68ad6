/** The nutrition-goal screen: four goal fields, a POST whose outcome only
    decides the popup, and a line chart of the goals. */
module NutritionTargets {
  import opened Http
  import opened Widgets

  /** The form record `goals`, also the body of the POST. */
  datatype NutritionGoalSet = NutritionGoalSet(calorieGoal: int, proteinGoal: int, carbGoal: int, fatGoal: int)

  const DefaultGoals := NutritionGoalSet(2000, 100, 250, 70)

  /** A change event of one of the four inputs; each input has its own handler. */
  datatype GoalInput =
    | CalorieGoalChanged(amount: int)
    | ProteinGoalChanged(amount: int)
    | CarbGoalChanged(amount: int)
    | FatGoalChanged(amount: int)

  datatype Request = PostNutritionGoals(body: NutritionGoalSet)

  const GoalSetText := "Goal successfully set!"
  const GenericErrorText := "An error occurred. Please try again."

  const GoalLabels := ["Calories", "Protein", "Carbs", "Fat"]

  /** The goal, in a goal set, for the nutrient a chart label names. */
  function GoalFor(g: NutritionGoalSet, category: string): int {
    if category == "Calories" then g.calorieGoal
    else if category == "Protein" then g.proteinGoal
    else if category == "Carbs" then g.carbGoal
    else if category == "Fat" then g.fatGoal
    else 0
  }

  /** The line chart: the four nutrient labels, each point the goal for the
      nutrient its label names. */
  function GoalsChart(g: NutritionGoalSet): (chart: Series)
    ensures chart.labels == GoalLabels
    ensures |chart.values| == |chart.labels|
    ensures forall i :: 0 <= i < |chart.values| ==> chart.values[i] == GoalFor(g, chart.labels[i])
  {
    Series(GoalLabels, [g.calorieGoal, g.proteinGoal, g.carbGoal, g.fatGoal])
  }

  /** The NutritionGoals component: its two state fields and the requests it
      has issued, oldest first. */
  class NutritionGoals {
    var goals: NutritionGoalSet
    var popup: Popup
    ghost var requests: seq<Request>

    constructor ()
      ensures goals == DefaultGoals && popup == ClosedPopup && requests == []
    {
      goals := DefaultGoals;
      popup := ClosedPopup;
      requests := [];
    }

    /** The four inline `onChange` handlers: each replaces its own goal and
        keeps the other three. */
    method HandleInput(input: GoalInput)
      modifies this`goals
      ensures goals.calorieGoal == (if input.CalorieGoalChanged? then input.amount else old(goals.calorieGoal))
      ensures goals.proteinGoal == (if input.ProteinGoalChanged? then input.amount else old(goals.proteinGoal))
      ensures goals.carbGoal == (if input.CarbGoalChanged? then input.amount else old(goals.carbGoal))
      ensures goals.fatGoal == (if input.FatGoalChanged? then input.amount else old(goals.fatGoal))
    {
      match input
      case CalorieGoalChanged(n) => goals := goals.(calorieGoal := n);
      case ProteinGoalChanged(n) => goals := goals.(proteinGoal := n);
      case CarbGoalChanged(n) => goals := goals.(carbGoal := n);
      case FatGoalChanged(n) => goals := goals.(fatGoal := n);
    }

    /** `handleGoalSubmit`: the outcome decides the popup only; the goals are
        never reset, whatever the outcome. */
    method HandleGoalSubmit(result: FetchResult)
      modifies this`popup, this`requests
      ensures requests == old(requests) + [PostNutritionGoals(goals)]
      ensures result.Parsed? && ResponseOk(result.status) ==> popup == Popup(true, GoalSetText, "success")
      ensures result.Parsed? && !ResponseOk(result.status) ==> popup == Popup(true, result.message, "error")
      ensures !result.Parsed? ==> popup == Popup(true, GenericErrorText, "error")
    {
      requests := requests + [PostNutritionGoals(goals)];
      match result
      case Parsed(status, message) =>
        if ResponseOk(status) {
          popup := Popup(true, GoalSetText, "success");
        } else {
          popup := Popup(true, message, "error");
        }
      case UnparsableBody(_) =>
        popup := Popup(true, GenericErrorText, "error");
      case NetworkFailure =>
        popup := Popup(true, GenericErrorText, "error");
    }

    /** The popup's Close button. */
    method ClosePopup()
      modifies this`popup
      ensures popup == ClosedPopup
    {
      popup := ClosedPopup;
    }
  }
}
