/** The profile page: a user record fetched on mount and edited in place, an
    edit mode, a loading flag, a notification banner, and the user's health
    history. */
module Profiles {
  import opened Http

  /** A value of the user record: a text field, or the nested `preferences`
      record of the two selects. */
  datatype ProfileValue = Text(text: string) | Preferences(unit: string, goal: string)

  /** The user record `userData`, a JavaScript object: a map from its
      top-level keys to their values. */
  type UserData = map<string, ProfileValue>

  const DefaultUserData: UserData := map[
    "name" := Text(""),
    "email" := Text(""),
    "password" := Text(""),
    "preferences" := Preferences("metric", "maintain")
  ]

  /** The `name` attributes of the two selects. */
  const UnitSelectName := "preferences.unit"
  const GoalSelectName := "preferences.goal"

  /** The `{ message, type }` notification (`type` is called `kind` here). */
  datatype Notification = Notification(message: string, kind: string)

  const NoNotification := Notification("", "")

  /** An entry of the health history, as listed by the tracking endpoint. */
  datatype HealthItem = HealthItem(date: string, exercise: string, calories: int, nutrition: string)

  datatype Request = GetProfile | GetTracking | PutProfile(body: UserData)

  const UserFetchErrorText := "Error fetching user data"
  const HealthFetchErrorText := "Error fetching health data"
  const SavedText := "Profile updated successfully!"
  const SaveFailedText := "Failed to update profile!"

  /** `{ ...userData, [name]: value }`: the top-level key equal to the input's
      name takes the value, every other key keeps its value, and no key is
      removed. */
  function ApplyChange(u: UserData, name: string, value: string): (r: UserData)
    ensures r.Keys == u.Keys + {name}
    ensures r[name] == Text(value)
    ensures forall k :: k in u && k != name ==> r[k] == u[k]
  {
    u[name := Text(value)]
  }

  /** What the unit select displays, `userData.preferences.unit` (None where
      JavaScript would read `undefined`). */
  function SelectedUnit(u: UserData): Option<string> {
    if "preferences" in u && u["preferences"].Preferences? then Some(u["preferences"].unit) else None
  }

  /** What the goal select displays, `userData.preferences.goal`. */
  function SelectedGoal(u: UserData): Option<string> {
    if "preferences" in u && u["preferences"].Preferences? then Some(u["preferences"].goal) else None
  }

  /** The selects' dotted names are not paths: a selection adds a top-level
      key spelled "preferences.unit" (or "preferences.goal") and leaves the
      nested `preferences` record, which both selects display and which is
      what the record means by a preference, exactly as it was. */
  lemma PreferenceSelectsMissNestedRecord(u: UserData, value: string)
    ensures ApplyChange(u, UnitSelectName, value)[UnitSelectName] == Text(value)
    ensures ApplyChange(u, GoalSelectName, value)[GoalSelectName] == Text(value)
    ensures "preferences" in u ==> ApplyChange(u, UnitSelectName, value)["preferences"] == u["preferences"]
    ensures "preferences" in u ==> ApplyChange(u, GoalSelectName, value)["preferences"] == u["preferences"]
    ensures SelectedUnit(ApplyChange(u, UnitSelectName, value)) == SelectedUnit(u)
    ensures SelectedGoal(ApplyChange(u, GoalSelectName, value)) == SelectedGoal(u)
  {
  }

  /** The Save button is enabled, `disabled={!isEditing || isLoading}` is
      false, exactly while editing and not loading. */
  function SaveEnabled(isEditing: bool, isLoading: bool): (enabled: bool)
    ensures enabled <==> isEditing && !isLoading
  {
    !(!isEditing || isLoading)
  }

  /** `notificationClass`: green for a success notification, red for any other. */
  function NotificationClass(n: Notification): (cls: string)
    ensures cls in {"bg-green-500", "bg-red-500"}
    ensures cls == "bg-green-500" <==> n.kind == "success"
  {
    if n.kind == "success" then "bg-green-500" else "bg-red-500"
  }

  /** What the health-progress section shows. */
  datatype HealthView = NoHealthData | HealthList(items: seq<HealthItem>)

  /** The placeholder exactly when the history is empty, otherwise every entry in order. */
  function HealthSection(h: seq<HealthItem>): (view: HealthView)
    ensures view.NoHealthData? <==> |h| == 0
    ensures view.HealthList? ==> view.items == h
  {
    if |h| == 0 then NoHealthData else HealthList(h)
  }

  /** The ProfilePage component: its six state fields and the requests it has
      issued, oldest first. */
  class ProfilePage {
    var userData: UserData
    var isEditing: bool
    var healthData: seq<HealthItem>
    var notification: Notification
    var isLoading: bool
    var showPassword: bool
    ghost var requests: seq<Request>

    /** Initial state, before the two mount-time fetches. */
    constructor ()
      ensures userData == DefaultUserData && !isEditing && healthData == []
      ensures notification == NoNotification && !isLoading && !showPassword
      ensures requests == []
    {
      userData := DefaultUserData;
      isEditing := false;
      healthData := [];
      notification := NoNotification;
      isLoading := false;
      showPassword := false;
      requests := [];
    }

    /** Whether the Save button is enabled in the current state. */
    predicate CanSave()
      reads this
    {
      SaveEnabled(isEditing, isLoading)
    }

    /** `fetchUserData`, run on mount: a successful GET replaces the user
        record; a failed one keeps it and raises an error notification. */
    method FetchUserData(get: AxiosResult<UserData>)
      modifies this`isLoading, this`userData, this`notification, this`requests
      ensures requests == old(requests) + [GetProfile]
      ensures !isLoading
      ensures get.Resolved? ==> userData == get.data && notification == old(notification)
      ensures get.Rejected? ==> userData == old(userData) && notification == Notification(UserFetchErrorText, "error")
    {
      isLoading := true;
      requests := requests + [GetProfile];
      match get {
        case Resolved(_, data) =>
          userData := data;
        case Rejected(_) =>
          notification := Notification(UserFetchErrorText, "error");
      }
      isLoading := false;
    }

    /** `fetchHealthData`, run on mount: as `FetchUserData`, for the history. */
    method FetchHealthData(get: AxiosResult<seq<HealthItem>>)
      modifies this`isLoading, this`healthData, this`notification, this`requests
      ensures requests == old(requests) + [GetTracking]
      ensures !isLoading
      ensures get.Resolved? ==> healthData == get.data && notification == old(notification)
      ensures get.Rejected? ==> healthData == old(healthData) && notification == Notification(HealthFetchErrorText, "error")
    {
      isLoading := true;
      requests := requests + [GetTracking];
      match get {
        case Resolved(_, data) =>
          healthData := data;
        case Rejected(_) =>
          notification := Notification(HealthFetchErrorText, "error");
      }
      isLoading := false;
    }

    /** `handleChange`, shared by the five inputs, which are disabled outside
        edit mode. */
    method HandleChange(name: string, value: string)
      requires isEditing
      modifies this`userData
      ensures userData == ApplyChange(old(userData), name, value)
    {
      userData := userData[name := Text(value)];
    }

    /** `handleSubmit`: PUTs the whole record. Success leaves edit mode with a
        success notification; failure stays in edit mode with an error one.
        The record itself is kept on both paths, and loading ends on both.
        The form can be submitted only through the Save button. */
    method HandleSubmit(put: AxiosResult<()>)
      requires CanSave()
      modifies this`isLoading, this`isEditing, this`notification, this`requests
      ensures requests == old(requests) + [PutProfile(userData)]
      ensures !isLoading
      ensures put.Resolved? ==> !isEditing && notification == Notification(SavedText, "success")
      ensures put.Rejected? ==> isEditing && notification == Notification(SaveFailedText, "error")
    {
      isLoading := true;
      requests := requests + [PutProfile(userData)];
      match put {
        case Resolved(_, _) =>
          isEditing := false;
          notification := Notification(SavedText, "success");
        case Rejected(_) =>
          notification := Notification(SaveFailedText, "error");
      }
      isLoading := false;
    }

    /** The Edit Profile / Cancel button. */
    method ToggleEditing()
      modifies this`isEditing
      ensures isEditing == !old(isEditing)
    {
      isEditing := !isEditing;
    }

    /** The Show / Hide password button. */
    method TogglePassword()
      modifies this`showPassword
      ensures showPassword == !old(showPassword)
    {
      showPassword := !showPassword;
    }

    /** The notification timer firing: a notification with a message is
        cleared to empty message and type; with no message nothing was
        scheduled. */
    method NotificationTimeout()
      modifies this`notification
      ensures old(notification.message) != "" ==> notification == NoNotification
      ensures old(notification.message) == "" ==> notification == old(notification)
    {
      if notification.message != "" {
        notification := NoNotification;
      }
    }
  }
}
