/**
 * The login screen: form validation with early return, the remember-me
 * preference writes, and the session flags written by the delayed callbacks
 * of a normal login and of guest mode.
 */
module Login {
  import opened Wrappers
  import opened KotlinText
  import opened Entities

  datatype FormError = NimEmpty | PasswordEmpty

  /** A callback posted with `postDelayed` and not yet run. */
  datatype Delayed = FinishLogin | FinishGuest

  /** What a press of the login button did. */
  datatype Outcome = RejectedNim | RejectedPassword | Accepted

  /** The result of `attemptLogin`'s checks: the trimmed NIM is checked first, then the untrimmed password. */
  function Validate(nimText: string, passwordText: string): (o: Outcome)
    ensures o == RejectedNim <==> AllWhitespace(nimText)
    ensures o == RejectedPassword <==> !AllWhitespace(nimText) && passwordText == []
    ensures o == Accepted <==> !AllWhitespace(nimText) && passwordText != []
  {
    TrimEmptyIff(nimText);
    if Trim(nimText) == [] then RejectedNim
    else if passwordText == [] then RejectedPassword
    else Accepted
  }

  /** A password of spaces only passes the password check: it is not trimmed. */
  lemma BlankPasswordAccepted(nimText: string)
    requires !AllWhitespace(nimText)
    ensures Validate(nimText, "   ") == Accepted
  {
  }

  /** The preferences after a successful check: remember-me and the NIM it keeps (the trimmed one, or none). */
  function RememberPrefs(prefs: Prefs, remember: bool, nim: string): (p: Prefs)
    ensures p.rememberMe == remember
    ensures p.savedNim == if remember then nim else ""
    ensures p.isLoggedIn == prefs.isLoggedIn && p.isGuestMode == prefs.isGuestMode && p.userName == prefs.userName
  {
    if remember then prefs.(rememberMe := true, savedNim := nim)
    else prefs.(rememberMe := false, savedNim := "")
  }

  class LoginActivity {
    var prefs: Prefs
    var nimText: string
    var passwordText: string
    var rememberChecked: bool
    var nimError: Option<FormError>
    var passwordError: Option<FormError>
    /** `showLoading(true)`: the login button disabled and showing "processing". */
    var loading: bool
    /** `DataInitializer.initializeGuestData` was asked to seed the store (its work is not part of this model). */
    var guestDataRequested: bool
    var pending: seq<Delayed>
    var navigatedToMain: bool

    /** `onCreate`: an empty form over the stored preferences, then the saved credentials. */
    constructor (stored: Prefs)
      ensures prefs == stored && passwordText == [] && nimError == None && passwordError == None
      ensures !loading && !guestDataRequested && pending == [] && !navigatedToMain
      ensures stored.rememberMe ==> nimText == stored.savedNim && rememberChecked
      ensures !stored.rememberMe ==> nimText == [] && !rememberChecked
    {
      prefs := stored;
      nimText, passwordText, rememberChecked := [], [], false;
      nimError, passwordError := None, None;
      loading, guestDataRequested, pending, navigatedToMain := false, false, [], false;
      new;
      LoadSavedCredentials();
    }

    /** With remember-me stored, the NIM field gets the saved NIM and the box is checked; otherwise nothing changes. */
    method LoadSavedCredentials()
      modifies this`nimText, this`rememberChecked
      ensures prefs.rememberMe ==> nimText == prefs.savedNim && rememberChecked
      ensures !prefs.rememberMe ==> nimText == old(nimText) && rememberChecked == old(rememberChecked)
    {
      if prefs.rememberMe {
        nimText := prefs.savedNim;
        rememberChecked := true;
      }
    }

    /** The user edits the form. */
    method EnterForm(nim: string, password: string, remember: bool)
      modifies this`nimText, this`passwordText, this`rememberChecked
      ensures nimText == nim && passwordText == password && rememberChecked == remember
    {
      nimText, passwordText, rememberChecked := nim, password, remember;
    }

    /**
     * `attemptLogin`, run by a press of the login button, which loading
     * disables. A blank NIM sets the NIM error and stops; a non-blank
     * NIM with an empty password clears the NIM error, sets the password
     * error and stops; otherwise both errors are cleared, remember-me and the
     * saved NIM are written, loading is shown and the login callback posted.
     */
    method AttemptLogin() returns (outcome: Outcome)
      requires !loading
      modifies this`nimError, this`passwordError, this`prefs, this`loading, this`pending
      ensures outcome == Validate(nimText, passwordText)
      ensures outcome == RejectedNim ==>
        nimError == Some(NimEmpty) && passwordError == old(passwordError) &&
        prefs == old(prefs) && loading == old(loading) && pending == old(pending)
      ensures outcome == RejectedPassword ==>
        nimError == None && passwordError == Some(PasswordEmpty) &&
        prefs == old(prefs) && loading == old(loading) && pending == old(pending)
      ensures outcome == Accepted ==>
        nimError == None && passwordError == None &&
        prefs == RememberPrefs(old(prefs), rememberChecked, Trim(nimText)) &&
        loading && pending == old(pending) + [FinishLogin]
    {
      var nim := Trim(nimText);
      var password := passwordText;

      if nim == [] {
        nimError := Some(NimEmpty);
        return RejectedNim;
      } else {
        nimError := None;
      }

      if password == [] {
        passwordError := Some(PasswordEmpty);
        return RejectedPassword;
      } else {
        passwordError := None;
      }

      if rememberChecked {
        prefs := prefs.(rememberMe := true);
        prefs := prefs.(savedNim := nim);
      } else {
        prefs := prefs.(rememberMe := false);
        prefs := prefs.(savedNim := "");
      }

      loading := true;
      pending := pending + [FinishLogin];
      outcome := Accepted;
    }

    /** `startGuestMode`: guest mode on at once, the store seeded, the finishing callback posted. */
    method StartGuestMode()
      modifies this`loading, this`prefs, this`guestDataRequested, this`pending
      ensures loading && guestDataRequested
      ensures prefs == old(prefs).(isGuestMode := true)
      ensures pending == old(pending) + [FinishGuest]
    {
      loading := true;
      prefs := prefs.(isGuestMode := true);
      guestDataRequested := true;
      pending := pending + [FinishGuest];
    }

    /**
     * Runs the `k`-th posted callback (the two delays, 1500 ms and 500 ms,
     * decide the order, which this model leaves open). Both hide loading and
     * navigate on; the login one also ends guest mode and marks the session
     * logged in. The guest one writes no preference.
     */
    method RunDelayed(k: nat)
      requires k < |pending|
      modifies this`loading, this`prefs, this`pending, this`navigatedToMain
      ensures pending == old(pending[..k] + pending[k + 1..])
      ensures !loading && navigatedToMain
      ensures old(pending[k]) == FinishLogin ==> prefs == old(prefs).(isGuestMode := false, isLoggedIn := true)
      ensures old(pending[k]) == FinishGuest ==> prefs == old(prefs)
    {
      var action := pending[k];
      pending := pending[..k] + pending[k + 1..];
      loading := false;
      if action == FinishLogin {
        prefs := prefs.(isGuestMode := false);
        prefs := prefs.(isLoggedIn := true);
      }
      navigatedToMain := true;
    }
  }

  /**
   * A login followed by a fresh login screen over the preferences it left:
   * an accepted login with remember-me brings the trimmed NIM back into the
   * field with the box checked; without remember-me the field stays empty; a
   * rejected login leaves the preferences as they were.
   */
  method RememberMeRoundTrip(stored: Prefs, nim: string, password: string, remember: bool)
    returns (outcome: Outcome, reopened: LoginActivity)
    ensures outcome == Validate(nim, password)
    ensures outcome == Accepted ==> reopened.prefs.rememberMe == remember
    ensures outcome == Accepted ==> reopened.rememberChecked == remember
    ensures outcome == Accepted ==> reopened.nimText == if remember then Trim(nim) else []
    ensures outcome == Accepted ==> reopened.nimError == None && reopened.passwordText == []
    ensures outcome != Accepted ==> reopened.prefs == stored
  {
    var screen := new LoginActivity(stored);
    screen.EnterForm(nim, password, remember);
    outcome := screen.AttemptLogin();
    reopened := new LoginActivity(screen.prefs);
  }
}
