/** The exercise logger: a three-field form, a calorie table applied at submit
    time, a validated POST, and a bar chart of the exercise list fetched back
    from the server. */
module Exercise {
  import opened Http
  import opened Widgets

  /** The form record `exerciseData`. */
  datatype ExerciseData = ExerciseData(exerciseType: string, duration: int, distance: int)

  const DefaultExerciseData := ExerciseData("Running", 0, 0)

  /** The options of the exercise-type select. */
  const ExerciseTypes: set<string> := {"Running", "Cycling", "Strength Training"}

  /** A change event from one of the form's inputs, which are named
      `exerciseType`, `duration` and `distance`. */
  datatype ExerciseInput =
    | ExerciseTypeChanged(exerciseType: string)
    | DurationChanged(duration: int)
    | DistanceChanged(distance: int)

  /** An exercise record as posted to, and listed by, the exercises endpoint. */
  datatype ExerciseLog = ExerciseLog(exerciseType: string, duration: int, distance: int, caloriesBurned: int)

  datatype Request = PostExercise(body: ExerciseLog) | GetExercises

  /** A toast raised through the toast library. */
  datatype Toast = SuccessToast(text: string) | ErrorToast(text: string)

  const InvalidInputText := "Invalid input! Duration must be positive and distance cannot be negative."
  const LoggedText := "Exercise logged successfully!"
  const LogFailedText := "Failed to log exercise!"

  /** Calories burned: the duration times a per-type rate (10, 8 or 6 per
      minute); a type outside the table burns nothing. */
  function CalculateCalories(e: ExerciseData): (calories: int)
    ensures e.exerciseType == "Running" ==> calories == e.duration * 10
    ensures e.exerciseType == "Cycling" ==> calories == e.duration * 8
    ensures e.exerciseType == "Strength Training" ==> calories == e.duration * 6
    ensures e.exerciseType !in ExerciseTypes ==> calories == 0
    ensures e.duration == 0 ==> calories == 0
    ensures e.duration > 0 ==> (calories > 0 <==> e.exerciseType in ExerciseTypes)
  {
    if e.exerciseType == "Running" then e.duration * 10
    else if e.exerciseType == "Cycling" then e.duration * 8
    else if e.exerciseType == "Strength Training" then e.duration * 6
    else 0
  }

  /** The submit guard: a record with a non-positive duration or a negative
      distance is rejected before any request. */
  predicate FailsValidation(e: ExerciseData) {
    e.duration <= 0 || e.distance < 0
  }

  /** The body of the POST issued for a form record. */
  function PostBody(e: ExerciseData): ExerciseLog {
    ExerciseLog(e.exerciseType, e.duration, e.distance, CalculateCalories(e))
  }

  /** `exerciseLogs.map(log => log.exerciseType)` */
  function Labels(logs: seq<ExerciseLog>): (labels: seq<string>)
    ensures |labels| == |logs|
    ensures forall i :: 0 <= i < |logs| ==> labels[i] == logs[i].exerciseType
  {
    if logs == [] then [] else [logs[0].exerciseType] + Labels(logs[1..])
  }

  /** `exerciseLogs.map(log => log.caloriesBurned)` */
  function Values(logs: seq<ExerciseLog>): (values: seq<int>)
    ensures |values| == |logs|
    ensures forall i :: 0 <= i < |logs| ==> values[i] == logs[i].caloriesBurned
  {
    if logs == [] then [] else [logs[0].caloriesBurned] + Values(logs[1..])
  }

  /** What the chart area shows: the "No logs to display." placeholder, or one
      bar per logged exercise. */
  datatype ChartArea = NoLogsPlaceholder | BarChart(bars: Series)

  /** The chart area of a log list: the placeholder exactly when the list is
      empty, otherwise one bar per entry, labelled with its exercise type and
      valued at its calories, in list order. */
  function CaloriesChart(logs: seq<ExerciseLog>): (area: ChartArea)
    ensures area.NoLogsPlaceholder? <==> logs == []
    ensures area.BarChart? ==> |area.bars.labels| == |logs| && |area.bars.values| == |logs|
    ensures area.BarChart? ==> forall i :: 0 <= i < |logs| ==>
      area.bars.labels[i] == logs[i].exerciseType && area.bars.values[i] == logs[i].caloriesBurned
  {
    if |logs| > 0 then BarChart(Series(Labels(logs), Values(logs))) else NoLogsPlaceholder
  }

  /** The FitnessLog component: its two state fields, plus the toasts it has
      raised and the requests it has issued, oldest first. */
  class FitnessLog {
    var exerciseData: ExerciseData
    var exerciseLogs: seq<ExerciseLog>
    ghost var toasts: seq<Toast>
    ghost var requests: seq<Request>

    /** Initial state, before the mount-time fetch (`FetchExerciseLogs`). */
    constructor ()
      ensures exerciseData == DefaultExerciseData && exerciseLogs == []
      ensures toasts == [] && requests == []
    {
      exerciseData := DefaultExerciseData;
      exerciseLogs := [];
      toasts := [];
      requests := [];
    }

    /** `handleInputChange`: the field named by the input takes its value; the
        other two fields and everything else stay as they were. */
    method HandleInputChange(input: ExerciseInput)
      modifies this`exerciseData
      ensures exerciseData.exerciseType ==
        (if input.ExerciseTypeChanged? then input.exerciseType else old(exerciseData.exerciseType))
      ensures exerciseData.duration ==
        (if input.DurationChanged? then input.duration else old(exerciseData.duration))
      ensures exerciseData.distance ==
        (if input.DistanceChanged? then input.distance else old(exerciseData.distance))
    {
      match input
      case ExerciseTypeChanged(t) => exerciseData := exerciseData.(exerciseType := t);
      case DurationChanged(d) => exerciseData := exerciseData.(duration := d);
      case DistanceChanged(d) => exerciseData := exerciseData.(distance := d);
    }

    /** `handleSubmit`. `post` is what the POST settles to, `refresh` what the
        list refresh issued after a successful POST settles to. */
    method HandleSubmit(post: AxiosResult<()>, refresh: AxiosResult<seq<ExerciseLog>>)
      modifies this
      // validation blocks the request and changes neither the form nor the list
      ensures FailsValidation(old(exerciseData)) ==>
        && exerciseData == old(exerciseData)
        && exerciseLogs == old(exerciseLogs)
        && requests == old(requests)
        && toasts == old(toasts) + [ErrorToast(InvalidInputText)]
      // a valid record is posted first, with its calories
      ensures !FailsValidation(old(exerciseData)) ==>
        && |requests| > |old(requests)|
        && requests[|old(requests)|] == PostExercise(PostBody(old(exerciseData)))
      // success: toast, reset to the default form, then exactly one list refresh
      ensures !FailsValidation(old(exerciseData)) && post.Resolved? ==>
        && exerciseData == DefaultExerciseData
        && toasts == old(toasts) + [SuccessToast(LoggedText)]
        && requests == old(requests) + [PostExercise(PostBody(old(exerciseData))), GetExercises]
        && exerciseLogs == (if refresh.Resolved? then refresh.data else old(exerciseLogs))
      // failure: toast, form and list kept
      ensures !FailsValidation(old(exerciseData)) && post.Rejected? ==>
        && exerciseData == old(exerciseData)
        && exerciseLogs == old(exerciseLogs)
        && toasts == old(toasts) + [ErrorToast(LogFailedText)]
        && requests == old(requests) + [PostExercise(PostBody(old(exerciseData)))]
    {
      if FailsValidation(exerciseData) {
        toasts := toasts + [ErrorToast(InvalidInputText)];
        return;
      }
      var calories := CalculateCalories(exerciseData);
      var body := ExerciseLog(exerciseData.exerciseType, exerciseData.duration, exerciseData.distance, calories);
      requests := requests + [PostExercise(body)];
      match post
      case Resolved(_, _) =>
        toasts := toasts + [SuccessToast(LoggedText)];
        exerciseData := DefaultExerciseData;
        FetchExerciseLogs(refresh);
      case Rejected(_) =>
        toasts := toasts + [ErrorToast(LogFailedText)];
    }

    /** `fetchExerciseLogs`, run on mount and after every successful POST: a
        successful GET replaces the whole list, a failed one keeps it (the
        failure is only logged to the console). */
    method FetchExerciseLogs(get: AxiosResult<seq<ExerciseLog>>)
      modifies this`exerciseLogs, this`requests
      ensures requests == old(requests) + [GetExercises]
      ensures exerciseLogs == (if get.Resolved? then get.data else old(exerciseLogs))
    {
      requests := requests + [GetExercises];
      if get.Resolved? {
        exerciseLogs := get.data;
      }
    }
  }
}
