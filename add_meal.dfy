/** `AddMealView`: the form that creates a meal. `isFormValid` enables the Save
    button; `saveMeal` checks its guards in a fixed order, optionally uploads the
    picked photo first, and hands the trimmed fields to `MealManager.addMeal`.
    The signed-in user's id and the clock are parameters of the events that
    read them; the upload, the write and the 0.1 s dismiss delay are events. */
module AddMeal {
  import opened Basics
  import opened Text
  import opened MealModel

  /** `isFormValid`: a name that is not blank after trimming, and a calorie
      field that parses as a positive `Int`. */
  predicate IsFormValid(mealName: string, calories: string) {
    && Trim(mealName) != []
    && calories != []
    && ParseInt(calories) != None
    && ParseInt(calories).GetOr(0) > 0
  }

  /** A calorie field passes when it is the decimal form of a positive 64-bit
      integer, and a name passes when it has one character that is not whitespace;
      any whitespace around the number makes it fail. */
  lemma IsFormValidIff(mealName: string, calories: string)
    ensures IsFormValid(mealName, calories) <==>
              && (exists i :: 0 <= i < |mealName| && !IsWhitespace(mealName[i]))
              && ParseInt(calories).Some? && ParseInt(calories).value > 0
    ensures (|calories| > 0 && (IsWhitespace(calories[0]) || IsWhitespace(calories[|calories| - 1])))
              ==> !IsFormValid(mealName, calories)
  {
    TrimEmptyIff(mealName);
  }

  /** The form accepts the number a user types as `String(n)` for every positive `n`. */
  lemma IsFormValidDecimal(mealName: string, n: int)
    requires Trim(mealName) != []
    requires 0 < n <= IntMax
    ensures IsFormValid(mealName, Decimal(n))
  {
    ParseDecimal(n);
  }

  /** What `saveMeal` carries past its guards. */
  datatype ValidatedMeal = ValidatedMeal(userId: string, calories: int, name: string)

  /** The guards of `saveMeal`, in order: a signed-in user, then a positive
      calorie value, then a non-blank name. */
  function SaveGuard(userId: Option<string>, mealName: string, calories: string): (r: Result<ValidatedMeal>)
    ensures r.Ok? <==> userId.Some? && IsFormValid(mealName, calories)
    ensures r.Ok? ==> r.value == ValidatedMeal(userId.value, ParseInt(calories).value, Trim(mealName))
    ensures userId.None? ==> r == Err("User not authenticated")
    ensures userId.Some? && !(ParseInt(calories).Some? && ParseInt(calories).value > 0) ==>
              r == Err("Please enter a valid calorie amount")
    ensures userId.Some? && ParseInt(calories).Some? && ParseInt(calories).value > 0 && Trim(mealName) == [] ==>
              r == Err("Please enter a meal name")
  {
    if userId.None? then Err("User not authenticated")
    else
      var parsed := ParseInt(calories);
      if parsed.None? || parsed.value <= 0 then Err("Please enter a valid calorie amount")
      else
        var trimmedName := Trim(mealName);
        if trimmedName == [] then Err("Please enter a meal name")
        else Ok(ValidatedMeal(userId.value, parsed.value, trimmedName))
  }

  /** The Save button: disabled while saving or while the form is invalid. */
  predicate SaveButtonEnabled(isLoading: bool, mealName: string, calories: string) {
    !isLoading && IsFormValid(mealName, calories)
  }

  /** Once the button is enabled, the only guard `saveMeal` can still fail is the
      signed-in user; and the saved name is never blank. */
  lemma EnabledSaveOnlyNeedsUser(isLoading: bool, userId: Option<string>, mealName: string, calories: string)
    requires SaveButtonEnabled(isLoading, mealName, calories)
    ensures SaveGuard(userId, mealName, calories).Err? ==> userId.None?
    ensures SaveGuard(userId, mealName, calories).Ok? ==>
              var name := SaveGuard(userId, mealName, calories).value.name;
              name != [] && !IsWhitespace(name[0]) && !IsWhitespace(name[|name| - 1])
  {
  }

  /** How the photo upload ended: the upload failed, the download-URL lookup
      failed, or the lookup returned an optional URL. */
  datatype UploadOutcome = PutFailed | URLLookupFailed | URLFetched(url: Option<string>)

  /** `uploadImageToStorage`'s completion value: nil unless the lookup succeeded. */
  function UploadedImageURL(outcome: UploadOutcome): (url: Option<string>)
    ensures url.Some? <==> outcome.URLFetched? && outcome.url.Some?
    ensures url.Some? ==> url == outcome.url
  {
    match outcome
    case PutFailed => None
    case URLLookupFailed => None
    case URLFetched(u) => u
  }

  /** The request `saveMeal` issues once its guards pass: the photo upload (its
      completion then writes the meal), or the meal write itself. */
  datatype SaveRequest =
    | NoRequest
    | UploadImage(data: seq<bv8>, pending: ValidatedMeal)
    | WriteMeal(meal: Meal)

  class AddMealForm {
    const manager: MealManager
    var mealName: string
    var calories: string
    var selectedMealTime: MealTime
    var description: string
    var isLoading: bool
    var showAlert: bool
    var alertMessage: string
    var selectedImageData: Option<seq<bv8>>
    /** The 0.1 s dismiss delay has been started and has not fired yet. */
    var dismissPending: bool
    var dismissed: bool

    constructor (manager: MealManager)
      ensures this.manager == manager
      ensures mealName == "" && calories == "" && selectedMealTime == Breakfast && description == ""
      ensures !isLoading && !showAlert && alertMessage == "" && selectedImageData == None
      ensures !dismissPending && !dismissed
    {
      this.manager := manager;
      mealName, calories, selectedMealTime, description := "", "", Breakfast, "";
      isLoading, showAlert, alertMessage := false, false, "";
      selectedImageData := None;
      dismissPending, dismissed := false, false;
    }

    /** The photo picker's load: the data is kept only when it loaded. */
    method OnPhotoLoaded(data: Option<seq<bv8>>)
      modifies this`selectedImageData
      ensures selectedImageData == if data.Some? then data else old(selectedImageData)
    {
      if data.Some? {
        selectedImageData := data;
      }
    }

    /** `showError(_:)` */
    method ShowError(message: string)
      modifies this`alertMessage, this`showAlert
      ensures alertMessage == message && showAlert
    {
      alertMessage := message;
      showAlert := true;
    }

    /** `saveMeal()` for the signed-in user `userId` at time `now`. A failed guard
        shows its message and issues nothing. Otherwise `isLoading` rises and,
        with a photo picked, the upload is issued; without one, the meal is written
        at once with trimmed name and description and no image URL. */
    method SaveMeal(userId: Option<string>, now: int) returns (request: SaveRequest)
      modifies this`isLoading, this`alertMessage, this`showAlert
      ensures var guard := SaveGuard(userId, mealName, calories);
              guard.Err? ==>
                && request == NoRequest
                && showAlert && alertMessage == guard.message
                && isLoading == old(isLoading)
      ensures var guard := SaveGuard(userId, mealName, calories);
              guard.Ok? ==>
                && isLoading
                && showAlert == old(showAlert) && alertMessage == old(alertMessage)
                && (selectedImageData.Some? ==> request == UploadImage(selectedImageData.value, guard.value))
                && (selectedImageData.None? ==>
                      request == WriteMeal(Meal(None, guard.value.name, guard.value.calories, selectedMealTime,
                                                Trim(description), None, guard.value.userId, now)))
    {
      var guard := SaveGuard(userId, mealName, calories);
      if guard.Err? {
        ShowError(guard.message);
        return NoRequest;
      }
      isLoading := true;
      var v := guard.value;
      if selectedImageData.Some? {
        request := UploadImage(selectedImageData.value, v);
      } else {
        var written := manager.AddMeal(v.name, v.calories, selectedMealTime, Trim(description), v.userId, None, now);
        request := WriteMeal(written);
      }
    }

    /** The upload's completion at time `now`: the meal is written whatever the
        upload's outcome, with the URL only if one came back. The meal time and
        description are read when the completion runs. */
    method OnImageUploaded(pending: ValidatedMeal, outcome: UploadOutcome, now: int) returns (written: Meal)
      ensures written == Meal(None, pending.name, pending.calories, selectedMealTime, Trim(description),
                              UploadedImageURL(outcome), pending.userId, now)
      ensures !outcome.URLFetched? ==> written.imageURL == None
    {
      written := manager.AddMeal(pending.name, pending.calories, selectedMealTime, Trim(description),
                                 pending.userId, UploadedImageURL(outcome), now);
    }

    /** The write's completion: `isLoading` falls either way; success starts the
        dismiss delay, failure shows the error. */
    method OnSaveCompleted(error: Option<string>)
      modifies this`isLoading, this`dismissPending, this`alertMessage, this`showAlert
      ensures !isLoading
      ensures error.None? ==> dismissPending && showAlert == old(showAlert) && alertMessage == old(alertMessage)
      ensures error.Some? ==> dismissPending == old(dismissPending)
                              && showAlert && alertMessage == "Error saving meal: " + error.value
    {
      isLoading := false;
      if error.None? {
        dismissPending := true;
      } else {
        ShowError("Error saving meal: " + error.value);
      }
    }

    /** The dismiss delay fires and the sheet closes. */
    method OnDismissTimerFired()
      requires dismissPending
      modifies this`dismissPending, this`dismissed
      ensures !dismissPending && dismissed
    {
      dismissPending := false;
      dismissed := true;
    }
  }

  /** A photo upload that fails still writes the meal, with no image URL, and
      the sheet closes once the write succeeds. */
  method SaveWithFailedUpload(form: AddMealForm, pending: ValidatedMeal, now: int)
    modifies form
  {
    var written := form.OnImageUploaded(pending, PutFailed, now);
    form.OnSaveCompleted(None);
    assert !form.isLoading;
    form.OnDismissTimerFired();
    assert written.imageURL == None && written.name == pending.name;
    assert form.dismissed;
  }
}
