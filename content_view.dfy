/** `ContentView`: the root view that routes between sign-in, a loading screen,
    profile setup and the main app from three flags, and keeps those flags in
    step with the authentication listener and the profile check. The signed-in
    user, as Firebase Auth reports it, is a parameter of the events that read it;
    the profile check and the user fetch are requests. */
module ContentView {
  import opened Basics
  import opened UserModel

  datatype Screen = AuthenticationScreen | LoadingScreen | ProfileSetupScreen | MainScreen

  /** The `body`'s if-chain. */
  function SelectScreen(isUserAuthenticated: bool, isCheckingProfile: bool, isProfileComplete: bool): (s: Screen)
    ensures !isUserAuthenticated ==> s == AuthenticationScreen
    ensures s == LoadingScreen <==> isUserAuthenticated && isCheckingProfile
    ensures s == ProfileSetupScreen <==> isUserAuthenticated && !isCheckingProfile && !isProfileComplete
    ensures s == MainScreen <==> isUserAuthenticated && !isCheckingProfile && isProfileComplete
  {
    if !isUserAuthenticated then AuthenticationScreen
    else if isCheckingProfile then LoadingScreen
    else if !isProfileComplete then ProfileSetupScreen
    else MainScreen
  }

  /** A remote read the view starts: the profile-complete check or the user fetch. */
  datatype Request = CheckProfile(userId: string) | FetchUserDocument(userId: string)

  class ContentView {
    var isUserAuthenticated: bool
    var isProfileComplete: bool
    var isCheckingProfile: bool
    var authListenerActive: bool
    const userManager: UserManager

    constructor (userManager: UserManager)
      ensures this.userManager == userManager
      ensures !isUserAuthenticated && !isProfileComplete && !isCheckingProfile && !authListenerActive
    {
      this.userManager := userManager;
      isUserAuthenticated, isProfileComplete, isCheckingProfile := false, false, false;
      authListenerActive := false;
    }

    function CurrentScreen(): Screen
      reads this
    {
      SelectScreen(isUserAuthenticated, isCheckingProfile, isProfileComplete)
    }

    /** `checkUserProfile(userId:)`: the loading screen shows until the check answers. */
    method CheckUserProfile(userId: string) returns (request: Request)
      modifies this`isCheckingProfile
      ensures isCheckingProfile && request == CheckProfile(userId)
    {
      isCheckingProfile := true;
      request := CheckProfile(userId);
    }

    /** `checkAuthenticationState()` on appearing, with the current user's id: a
        signed-in user is authenticated and their profile is checked; otherwise
        both flags fall. Either way the listener is registered. */
    method CheckAuthenticationState(currentUser: Option<string>) returns (requests: seq<Request>)
      modifies this`isUserAuthenticated, this`isProfileComplete, this`isCheckingProfile, this`authListenerActive
      ensures authListenerActive
      ensures isUserAuthenticated == currentUser.Some?
      ensures currentUser.Some? ==> isCheckingProfile && isProfileComplete == old(isProfileComplete)
                                    && requests == [CheckProfile(currentUser.value)]
                                    && CurrentScreen() == LoadingScreen
      ensures currentUser.None? ==> !isProfileComplete && isCheckingProfile == old(isCheckingProfile)
                                    && requests == []
                                    && CurrentScreen() == AuthenticationScreen
    {
      if currentUser.Some? {
        isUserAuthenticated := true;
        var request := CheckUserProfile(currentUser.value);
        requests := [request];
      } else {
        isUserAuthenticated := false;
        isProfileComplete := false;
        requests := [];
      }
      authListenerActive := true;
    }

    /** The auth listener fires with the user now signed in, if any. A sign-in
        starts the profile check and the user fetch; a sign-out clears the
        profile flags and the fetched user. */
    method OnAuthStateChanged(user: Option<string>) returns (requests: seq<Request>)
      requires authListenerActive
      modifies this`isUserAuthenticated, this`isProfileComplete, this`isCheckingProfile,
               userManager`isLoading, userManager`currentUser
      ensures isUserAuthenticated == user.Some?
      ensures user.Some? ==> && isCheckingProfile && isProfileComplete == old(isProfileComplete)
                             && userManager.isLoading && userManager.currentUser == old(userManager.currentUser)
                             && requests == [CheckProfile(user.value), FetchUserDocument(user.value)]
                             && CurrentScreen() == LoadingScreen
      ensures user.None? ==> && !isProfileComplete && !isCheckingProfile
                             && userManager.currentUser == None && userManager.isLoading == old(userManager.isLoading)
                             && requests == []
                             && CurrentScreen() == AuthenticationScreen
    {
      isUserAuthenticated := user.Some?;
      if user.Some? {
        var check := CheckUserProfile(user.value);
        userManager.FetchUser(user.value);
        requests := [check, FetchUserDocument(user.value)];
      } else {
        isProfileComplete := false;
        isCheckingProfile := false;
        userManager.currentUser := None;
        requests := [];
      }
    }

    /** The profile check answers with the read `response`: the flag takes the
        check's value and the loading screen ends, so a signed-in user sees the
        main app exactly when the stored profile says it is complete. */
    method OnProfileChecked(response: DocumentResponse)
      modifies this`isProfileComplete, this`isCheckingProfile
      ensures isProfileComplete == ProfileComplete(response) && !isCheckingProfile
      ensures isUserAuthenticated ==> (CurrentScreen() == MainScreen <==> ProfileComplete(response))
      ensures isUserAuthenticated && response.FetchError? ==> CurrentScreen() == ProfileSetupScreen
    {
      isProfileComplete := ProfileComplete(response);
      isCheckingProfile := false;
    }

    /** `onChange(of: isProfileComplete)`, delivered with the flag's new value:
        when the flag turns true and a user is signed in, that user is fetched again. */
    method OnProfileCompleteChanged(newValue: bool, currentUser: Option<string>) returns (request: Option<Request>)
      requires newValue == isProfileComplete
      modifies userManager`isLoading
      ensures newValue && currentUser.Some? ==> request == Some(FetchUserDocument(currentUser.value))
                                                && userManager.isLoading
      ensures !(newValue && currentUser.Some?) ==> request.None? && userManager.isLoading == old(userManager.isLoading)
    {
      request := None;
      if newValue && currentUser.Some? {
        userManager.FetchUser(currentUser.value);
        request := Some(FetchUserDocument(currentUser.value));
      }
    }

    /** `removeAuthListener()` on disappearing: no listener events follow. */
    method RemoveAuthListener()
      modifies this`authListenerActive
      ensures !authListenerActive
    {
      authListenerActive := false;
    }
  }

  /** Signing in shows the loading screen until the profile check answers, then
      the main app for a complete profile; signing out returns to sign-in
      whatever the profile said. */
  method SignInThenOut(view: ContentView, uid: string, stored: Document)
    requires view.authListenerActive
    requires "profileComplete" in stored && stored["profileComplete"] == BoolField(true)
    modifies view, view.userManager
  {
    var requests := view.OnAuthStateChanged(Some(uid));
    assert view.CurrentScreen() == LoadingScreen;
    view.OnProfileChecked(Snapshot(Some(stored)));
    assert view.CurrentScreen() == MainScreen;
    requests := view.OnAuthStateChanged(None);
    assert view.CurrentScreen() == AuthenticationScreen;
  }
}
