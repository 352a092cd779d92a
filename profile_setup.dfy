/** `ProfileSetupView`: the first-run form that stores the user's profile under
    `users/<uid>` (merging into any existing document) and, once the write
    succeeds, sets the root view's `isProfileComplete` binding. The signed-in
    user and the clock are parameters; the write's completion is an event. */
module ProfileSetup {
  import opened Basics
  import opened Text
  import opened UserModel
  import opened ContentView

  /** The signed-in Firebase user as `saveProfile` reads it. */
  datatype AuthUser = AuthUser(uid: string, email: Option<string>)

  /** `saveProfile`'s guards: a signed-in user, then a non-empty username. The
      username is tested as typed, before trimming. */
  function SaveProfileCheck(user: Option<AuthUser>, username: string): (r: Option<string>)
    ensures r.None? <==> user.Some? && username != []
    ensures user.None? ==> r == Some("User not authenticated")
    ensures user.Some? && username == [] ==> r == Some("Please enter a username")
  {
    if user.None? then Some("User not authenticated")
    else if username == [] then Some("Please enter a username")
    else None
  }

  /** The fields `saveProfile` writes at time `now`: the stored form of a user
      with the trimmed username, the account's email or "", the chosen birth
      date, the time as creation date, and `profileComplete` true. */
  function ProfileData(username: string, email: Option<string>, birthDate: int, now: int): Document {
    EncodeUser(User(None, Trim(username), email.GetOr(""), birthDate, now, true))
  }

  /** `setData(_:merge: true)`: the written fields replace their old values and
      every other field of an existing document stays. */
  function MergeDocument(existing: Option<Document>, update: Document): (merged: Document)
    ensures forall k :: k in update ==> k in merged && merged[k] == update[k]
    ensures forall k :: k in merged <==> k in update || (existing.Some? && k in existing.value)
    ensures forall k :: k in merged && k !in update ==> existing.Some? && merged[k] == existing.value[k]
  {
    existing.GetOr(map[]) + update
  }

  /** Whatever the document held before, the saved profile reads back as complete. */
  lemma SavedProfileIsComplete(existing: Option<Document>, username: string,
                               email: Option<string>, birthDate: int, now: int)
    ensures ProfileComplete(Snapshot(Some(MergeDocument(existing, ProfileData(username, email, birthDate, now)))))
  {
    var update := ProfileData(username, email, birthDate, now);
    assert update["profileComplete"] == BoolField(true);
    assert MergeDocument(existing, update)["profileComplete"] == BoolField(true);
  }

  /** ... and decodes as the user that was entered, with the trimmed username. */
  lemma SavedProfileDecodes(uid: string, existing: Option<Document>, username: string,
                            email: Option<string>, birthDate: int, now: int)
    ensures DecodeUser(uid, MergeDocument(existing, ProfileData(username, email, birthDate, now)))
         == Some(User(Some(uid), Trim(username), email.GetOr(""), birthDate, now, true))
  {
    DecodeEncode(uid, User(None, Trim(username), email.GetOr(""), birthDate, now, true), existing.GetOr(map[]));
  }

  /** The guard tests the untrimmed name but the trimmed one is stored: a name of
      only whitespace passes and is saved as "". */
  lemma BlankUsernameStoredEmpty(user: AuthUser, username: string, birthDate: int, now: int)
    requires username != [] && forall i :: 0 <= i < |username| ==> IsWhitespace(username[i])
    ensures SaveProfileCheck(Some(user), username).None?
    ensures ProfileData(username, user.email, birthDate, now)["username"] == StringField("")
  {
    TrimEmptyIff(username);
  }

  /** The Continue button is disabled while the name is empty or a save runs. */
  predicate ContinueDisabled(username: string, isLoading: bool) {
    username == [] || isLoading
  }

  /** With the button enabled, the only guard that can still fail is the user's. */
  lemma EnabledContinueOnlyNeedsUser(user: Option<AuthUser>, username: string, isLoading: bool)
    requires !ContinueDisabled(username, isLoading)
    ensures SaveProfileCheck(user, username).Some? <==> user.None?
  {
  }

  /** The write `saveProfile` issues: the profile fields, merged into `users/<uid>`. */
  datatype ProfileWrite = NoWrite | MergeProfile(userId: string, data: Document)

  class ProfileSetupForm {
    var username: string
    var birthDate: int
    var isLoading: bool
    var showAlert: bool
    var alertMessage: string
    /** The view whose `isProfileComplete` this form's binding writes. */
    const parent: ContentView

    /** The form opens with an empty name and today's date `now` as birth date. */
    constructor (parent: ContentView, now: int)
      ensures this.parent == parent
      ensures username == "" && birthDate == now && !isLoading && !showAlert && alertMessage == ""
    {
      this.parent := parent;
      username, birthDate := "", now;
      isLoading, showAlert, alertMessage := false, false, "";
    }

    /** `showError(_:)` */
    method ShowError(message: string)
      modifies this`alertMessage, this`showAlert
      ensures alertMessage == message && showAlert
    {
      alertMessage := message;
      showAlert := true;
    }

    /** `saveProfile()` for `user` at time `now`: a failed guard shows its message
        and writes nothing; otherwise `isLoading` rises and the profile, with
        `profileComplete` true, is merged into the user's document. */
    method SaveProfile(user: Option<AuthUser>, now: int) returns (write: ProfileWrite)
      modifies this`isLoading, this`alertMessage, this`showAlert
      ensures SaveProfileCheck(user, username).Some? ==>
                && write == NoWrite && isLoading == old(isLoading)
                && showAlert && alertMessage == SaveProfileCheck(user, username).value
      ensures SaveProfileCheck(user, username).None? ==>
                && isLoading && showAlert == old(showAlert) && alertMessage == old(alertMessage)
                && write == MergeProfile(user.value.uid, ProfileData(username, user.value.email, birthDate, now))
                && write.data["profileComplete"] == BoolField(true)
    {
      var check := SaveProfileCheck(user, username);
      if check.Some? {
        ShowError(check.value);
        return NoWrite;
      }
      isLoading := true;
      write := MergeProfile(user.value.uid, ProfileData(username, user.value.email, birthDate, now));
    }

    /** The write's completion: `isLoading` falls; success sets the parent's
        `isProfileComplete`, an error only shows its message. */
    method OnProfileSaved(error: Option<string>)
      modifies this`isLoading, this`alertMessage, this`showAlert, parent`isProfileComplete
      ensures !isLoading
      ensures error.None? ==> parent.isProfileComplete && showAlert == old(showAlert)
                              && alertMessage == old(alertMessage)
      ensures error.Some? ==> parent.isProfileComplete == old(parent.isProfileComplete)
                              && showAlert && alertMessage == "Error saving profile: " + error.value
    {
      isLoading := false;
      if error.Some? {
        ShowError("Error saving profile: " + error.value);
      } else {
        parent.isProfileComplete := true;
      }
    }
  }

  /** A successful save takes a signed-in user whose check has answered from
      profile setup to the main app. */
  method SaveThenEnterApp(form: ProfileSetupForm, user: AuthUser, now: int)
    requires form.username != []
    requires form.parent.isUserAuthenticated && !form.parent.isCheckingProfile && !form.parent.isProfileComplete
    modifies form, form.parent
  {
    assert form.parent.CurrentScreen() == ProfileSetupScreen;
    var write := form.SaveProfile(Some(user), now);
    assert write.MergeProfile?;
    form.OnProfileSaved(None);
    assert form.parent.CurrentScreen() == MainScreen;
  }
}
