/** The food logger: a six-field food record, a POST whose success appends the
    record to a list kept in memory and resets the form, a dismissible popup,
    and a chart of the record being edited. */
module Food {
  import opened Http
  import opened Widgets

  /** The form record `foodLog`, also the body of the POST. */
  datatype FoodLog = FoodLog(foodName: string, calories: int, protein: int, carbs: int, fat: int, mealType: string)

  const DefaultFoodLog := FoodLog("", 0, 0, 0, 0, "breakfast")

  /** A change event of one of the six inputs; each input has its own handler. */
  datatype FoodInput =
    | FoodNameChanged(text: string)
    | CaloriesChanged(amount: int)
    | ProteinChanged(amount: int)
    | CarbsChanged(amount: int)
    | FatChanged(amount: int)
    | MealTypeChanged(text: string)

  datatype Request = PostFoodLog(body: FoodLog)

  const AddedText := "Food log added successfully!"
  const GenericErrorText := "An error occurred. Please try again."

  const NutrientLabels := ["Calories", "Protein", "Carbs", "Fat"]

  /** The amount, in a food record, of the nutrient a chart label names. */
  function NutrientAmount(f: FoodLog, category: string): int {
    if category == "Calories" then f.calories
    else if category == "Protein" then f.protein
    else if category == "Carbs" then f.carbs
    else if category == "Fat" then f.fat
    else 0
  }

  /** The polar-area chart: the four nutrient labels, each point the amount of
      the nutrient its label names, read from the record being edited. */
  function NutritionChart(f: FoodLog): (chart: Series)
    ensures chart.labels == NutrientLabels
    ensures |chart.values| == |chart.labels|
    ensures forall i :: 0 <= i < |chart.values| ==> chart.values[i] == NutrientAmount(f, chart.labels[i])
  {
    Series(NutrientLabels, [f.calories, f.protein, f.carbs, f.fat])
  }

  /** The NutritionTracking component: its three state fields and the requests
      it has issued, oldest first. */
  class NutritionTracking {
    var foodLog: FoodLog
    var popup: Popup
    var loggedFoodLogs: seq<FoodLog>
    ghost var requests: seq<Request>

    constructor ()
      ensures foodLog == DefaultFoodLog && popup == ClosedPopup && loggedFoodLogs == []
      ensures requests == []
    {
      foodLog := DefaultFoodLog;
      popup := ClosedPopup;
      loggedFoodLogs := [];
      requests := [];
    }

    /** The six inline `onChange` handlers: each replaces its own field of
        `foodLog` and keeps the other five. */
    method HandleInput(input: FoodInput)
      modifies this`foodLog
      ensures foodLog.foodName == (if input.FoodNameChanged? then input.text else old(foodLog.foodName))
      ensures foodLog.calories == (if input.CaloriesChanged? then input.amount else old(foodLog.calories))
      ensures foodLog.protein == (if input.ProteinChanged? then input.amount else old(foodLog.protein))
      ensures foodLog.carbs == (if input.CarbsChanged? then input.amount else old(foodLog.carbs))
      ensures foodLog.fat == (if input.FatChanged? then input.amount else old(foodLog.fat))
      ensures foodLog.mealType == (if input.MealTypeChanged? then input.text else old(foodLog.mealType))
    {
      match input
      case FoodNameChanged(s) => foodLog := foodLog.(foodName := s);
      case CaloriesChanged(n) => foodLog := foodLog.(calories := n);
      case ProteinChanged(n) => foodLog := foodLog.(protein := n);
      case CarbsChanged(n) => foodLog := foodLog.(carbs := n);
      case FatChanged(n) => foodLog := foodLog.(fat := n);
      case MealTypeChanged(s) => foodLog := foodLog.(mealType := s);
    }

    /** `handleSubmit`: the body is parsed before `ok` is looked at, so a body
        that is not JSON takes the generic error path like a network failure. */
    method HandleSubmit(result: FetchResult)
      modifies this`popup, this`loggedFoodLogs, this`foodLog, this`requests
      ensures requests == old(requests) + [PostFoodLog(old(foodLog))]
      // ok: the submitted record is appended, the form resets, success popup
      ensures result.Parsed? && ResponseOk(result.status) ==>
        && loggedFoodLogs == old(loggedFoodLogs) + [old(foodLog)]
        && foodLog == DefaultFoodLog
        && popup == Popup(true, AddedText, "success")
      // not ok: the server's message in an error popup; form and list kept
      ensures result.Parsed? && !ResponseOk(result.status) ==>
        && popup == Popup(true, "Error: " + result.message, "error")
        && foodLog == old(foodLog) && loggedFoodLogs == old(loggedFoodLogs)
      // exception: the generic error popup; form and list kept
      ensures !result.Parsed? ==>
        && popup == Popup(true, GenericErrorText, "error")
        && foodLog == old(foodLog) && loggedFoodLogs == old(loggedFoodLogs)
    {
      requests := requests + [PostFoodLog(foodLog)];
      match result
      case Parsed(status, message) =>
        if ResponseOk(status) {
          popup := Popup(true, AddedText, "success");
          loggedFoodLogs := loggedFoodLogs + [foodLog];
          foodLog := DefaultFoodLog;
        } else {
          popup := Popup(true, "Error: " + message, "error");
        }
      case UnparsableBody(_) =>
        popup := Popup(true, GenericErrorText, "error");
      case NetworkFailure =>
        popup := Popup(true, GenericErrorText, "error");
    }

    /** The popup's Close button. */
    method ClosePopup()
      modifies this`popup
      ensures popup == ClosedPopup
    {
      popup := ClosedPopup;
    }
  }
}
