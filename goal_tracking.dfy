/** The goal and progress tracker: two independent record forms, a flag that
    reveals the progress form once goals have been submitted, a modal for the
    outcome of either POST, and a line chart of the progress record. */
module GoalTracker {
  import opened Http

  /** The form record `goals`. */
  datatype GoalSet = GoalSet(dailyStepsGoal: int, weeklyWorkoutsGoal: int, calorieIntakeGoal: int)

  const DefaultGoals := GoalSet(10000, 5, 2000)

  /** The form record `progress`. */
  datatype Progress = Progress(dailySteps: int, weeklyWorkouts: int, calorieIntake: int)

  const DefaultProgress := Progress(0, 0, 0)

  /** A change event of a goal input; the inputs are named after the fields. */
  datatype GoalInput =
    | DailyStepsGoalChanged(amount: int)
    | WeeklyWorkoutsGoalChanged(amount: int)
    | CalorieIntakeGoalChanged(amount: int)

  /** A change event of a progress input; the inputs are named after the fields. */
  datatype ProgressInput =
    | DailyStepsChanged(amount: int)
    | WeeklyWorkoutsChanged(amount: int)
    | CalorieIntakeChanged(amount: int)

  datatype Request = PostGoals(goals: GoalSet) | PostProgress(progress: Progress)

  const GoalsSetText := "Goals set successfully!"
  const GoalsErrorText := "Error setting goals. Please try again."
  const ProgressSetText := "Progress updated successfully!"
  const ProgressErrorText := "Error updating progress. Please try again."

  /** The line chart: two points, "Today" and "This Week", and two series. */
  datatype ProgressChart = ProgressChart(labels: seq<string>, stepsSeries: seq<int>, caloriesSeries: seq<int>)

  /** The chart of a progress record. Only the "Today" point follows the
      record; the "This Week" point of both series is the constant 100, and no
      goal is drawn. */
  function ChartOf(p: Progress): (chart: ProgressChart)
    ensures chart.labels == ["Today", "This Week"]
    ensures |chart.stepsSeries| == |chart.labels| && |chart.caloriesSeries| == |chart.labels|
    ensures chart.stepsSeries[0] == p.dailySteps && chart.caloriesSeries[0] == p.calorieIntake
    ensures chart.stepsSeries[1] == 100 && chart.caloriesSeries[1] == 100
  {
    ProgressChart(["Today", "This Week"], [p.dailySteps, 100], [p.calorieIntake, 100])
  }

  /** The GoalTracking component: its five state fields and the requests it
      has issued, oldest first. */
  class GoalTracking {
    var goals: GoalSet
    var progress: Progress
    var isGoalSet: bool
    var showModal: bool
    var modalMessage: string
    ghost var requests: seq<Request>

    constructor ()
      ensures goals == DefaultGoals && progress == DefaultProgress
      ensures !isGoalSet && !showModal && modalMessage == ""
      ensures requests == []
    {
      goals := DefaultGoals;
      progress := DefaultProgress;
      isGoalSet := false;
      showModal := false;
      modalMessage := "";
      requests := [];
    }

    /** The progress form, its inputs and its chart are rendered only once
        `isGoalSet` holds. */
    predicate ProgressFormShown()
      reads this
    {
      isGoalSet
    }

    /** `handleGoalChange`: replaces the named goal only; `progress` is not touched. */
    method HandleGoalChange(input: GoalInput)
      modifies this`goals
      ensures goals.dailyStepsGoal ==
        (if input.DailyStepsGoalChanged? then input.amount else old(goals.dailyStepsGoal))
      ensures goals.weeklyWorkoutsGoal ==
        (if input.WeeklyWorkoutsGoalChanged? then input.amount else old(goals.weeklyWorkoutsGoal))
      ensures goals.calorieIntakeGoal ==
        (if input.CalorieIntakeGoalChanged? then input.amount else old(goals.calorieIntakeGoal))
    {
      match input
      case DailyStepsGoalChanged(n) => goals := goals.(dailyStepsGoal := n);
      case WeeklyWorkoutsGoalChanged(n) => goals := goals.(weeklyWorkoutsGoal := n);
      case CalorieIntakeGoalChanged(n) => goals := goals.(calorieIntakeGoal := n);
    }

    /** `handleProgressChange`: the mirror image of `HandleGoalChange`. */
    method HandleProgressChange(input: ProgressInput)
      requires ProgressFormShown()
      modifies this`progress
      ensures progress.dailySteps ==
        (if input.DailyStepsChanged? then input.amount else old(progress.dailySteps))
      ensures progress.weeklyWorkouts ==
        (if input.WeeklyWorkoutsChanged? then input.amount else old(progress.weeklyWorkouts))
      ensures progress.calorieIntake ==
        (if input.CalorieIntakeChanged? then input.amount else old(progress.calorieIntake))
    {
      match input
      case DailyStepsChanged(n) => progress := progress.(dailySteps := n);
      case WeeklyWorkoutsChanged(n) => progress := progress.(weeklyWorkouts := n);
      case CalorieIntakeChanged(n) => progress := progress.(calorieIntake := n);
    }

    /** `handleGoalSubmit`: `isGoalSet` is raised before the request, whatever
        its outcome. The response status is never looked at: once the body has
        parsed the success message is shown. */
    method HandleGoalSubmit(result: FetchResult)
      modifies this`isGoalSet, this`showModal, this`modalMessage, this`requests
      ensures isGoalSet && ProgressFormShown()
      ensures requests == old(requests) + [PostGoals(goals)]
      ensures showModal
      ensures modalMessage == (if result.Parsed? then GoalsSetText else GoalsErrorText)
    {
      isGoalSet := true;
      requests := requests + [PostGoals(goals)];
      match result
      case Parsed(_, _) =>
        modalMessage := GoalsSetText;
        showModal := true;
      case UnparsableBody(_) =>
        modalMessage := GoalsErrorText;
        showModal := true;
      case NetworkFailure =>
        modalMessage := GoalsErrorText;
        showModal := true;
    }

    /** `handleProgressSubmit`: as `HandleGoalSubmit`, without the flag. */
    method HandleProgressSubmit(result: FetchResult)
      requires ProgressFormShown()
      modifies this`showModal, this`modalMessage, this`requests
      ensures requests == old(requests) + [PostProgress(progress)]
      ensures showModal
      ensures modalMessage == (if result.Parsed? then ProgressSetText else ProgressErrorText)
    {
      requests := requests + [PostProgress(progress)];
      match result
      case Parsed(_, _) =>
        modalMessage := ProgressSetText;
        showModal := true;
      case UnparsableBody(_) =>
        modalMessage := ProgressErrorText;
        showModal := true;
      case NetworkFailure =>
        modalMessage := ProgressErrorText;
        showModal := true;
    }

    /** `closeModal` */
    method CloseModal()
      modifies this`showModal, this`modalMessage
      ensures !showModal && modalMessage == ""
    {
      showModal := false;
      modalMessage := "";
    }
  }
}
