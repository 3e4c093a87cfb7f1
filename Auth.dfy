/**
 * The local login (`AuthViewModel`): a fixed table of three accounts, a
 * blank-field check, and the screen state that login and logout update.
 */
module Auth {
  import opened Wrappers
  import opened Model
  import opened KotlinText

  /** What the login screen observes. */
  datatype AuthUiState = AuthUiState(
    isLoading: bool := false,
    isAuthenticated: bool := false,
    currentUser: Option<User> := None,
    errorMessage: Option<string> := None)

  /** User name (lower case) to password. */
  const ValidCredentials: map<string, string> :=
    map["admin" := "admin123", "usuario" := "usuario123", "test" := "test123"]

  const BlankFieldsMessage: string := "Por favor complete todos los campos"
  const WrongCredentialsMessage: string :=
    "\U{274C} Datos incorrectos. Por favor, ingrese los datos nuevamente."

  /** `validCredentials[username.lowercase()] == password` */
  predicate CredentialsMatch(username: string, password: string) {
    var key := Lowercase(username);
    key in ValidCredentials && ValidCredentials[key] == password
  }

  /** The table holds exactly these three accounts. */
  lemma ThreeAccounts()
    ensures ValidCredentials.Keys == {"admin", "usuario", "test"}
    ensures |ValidCredentials| == 3
  {
    assert "admin" != "usuario" && "admin" != "test" && "usuario" != "test";
  }

  /**
   * A login matches exactly when the lowered user name and the password, as
   * typed, are one of the three pairs.
   */
  lemma CredentialsMatchIff(username: string, password: string)
    ensures CredentialsMatch(username, password) <==>
      || (Lowercase(username) == "admin" && password == "admin123")
      || (Lowercase(username) == "usuario" && password == "usuario123")
      || (Lowercase(username) == "test" && password == "test123")
  {
  }

  /** The user name is matched without regard to case. */
  lemma UserNameCaseIgnored(username: string, password: string)
    ensures CredentialsMatch(username, password) == CredentialsMatch(Lowercase(username), password)
  {
    LowercaseIdempotent(username);
  }

  /**
   * The blank-field check never turns away a matching account: every user
   * name that lowers to a key, and every password, starts with a letter.
   */
  lemma MatchingCredentialsAreNotBlank(username: string, password: string)
    requires CredentialsMatch(username, password)
    ensures !IsBlank(username) && !IsBlank(password)
  {
    var key := Lowercase(username);
    CredentialsMatchIff(username, password);
    assert !IsWhitespace(key[0]);
    assert key[0] == LowerChar(username[0]);
    assert !IsWhitespace(username[0]);
    assert !IsWhitespace(password[0]);
  }

  /** Upper-case user names are accepted; the password's case matters. */
  lemma CaseExamples()
    ensures CredentialsMatch("ADMIN", "admin123")
    ensures CredentialsMatch("Test", "test123")
    ensures !CredentialsMatch("admin", "ADMIN123")
  {
    assert Lowercase("ADMIN") == "admin";
    assert Lowercase("Test") == "test";
  }

  /**
   * `login`: blank fields only set an error.  Otherwise loading ends, the user
   * is authenticated exactly when the credentials match; on a match the user
   * record keeps the name as typed and the error is cleared, on a mismatch an
   * error is shown and the previous user record stays.
   */
  function LoginStep(s: AuthUiState, username: string, password: string): (r: AuthUiState)
    ensures IsBlank(username) || IsBlank(password) ==>
      r == s.(errorMessage := Some(BlankFieldsMessage))
    ensures !IsBlank(username) && !IsBlank(password) ==>
      && !r.isLoading
      && (r.isAuthenticated <==> CredentialsMatch(username, password))
      && (r.errorMessage.None? <==> CredentialsMatch(username, password))
    ensures !IsBlank(username) && !IsBlank(password) && CredentialsMatch(username, password) ==>
      r.currentUser == Some(User(username, username + "@example.com", true))
    ensures !IsBlank(username) && !IsBlank(password) && !CredentialsMatch(username, password) ==>
      r.currentUser == s.currentUser && r.errorMessage == Some(WrongCredentialsMessage)
  {
    if IsBlank(username) || IsBlank(password) then
      s.(errorMessage := Some(BlankFieldsMessage))
    else
      var loading := s.(isLoading := true, errorMessage := None);
      if CredentialsMatch(username, password) then
        var user := User(username := username, email := username + "@example.com", isAuthenticated := true);
        loading.(isLoading := false, isAuthenticated := true, currentUser := Some(user), errorMessage := None)
      else
        loading.(isLoading := false, isAuthenticated := false, errorMessage := Some(WrongCredentialsMessage))
  }

  /** `logout`: signed out, no user; loading and error untouched. */
  function LogoutStep(s: AuthUiState): (r: AuthUiState)
    ensures !r.isAuthenticated && r.currentUser.None?
    ensures r.isLoading == s.isLoading && r.errorMessage == s.errorMessage
  {
    s.(isAuthenticated := false, currentUser := None)
  }

  /** `clearError`: only the error changes, to none. */
  function ClearErrorStep(s: AuthUiState): (r: AuthUiState)
    ensures r.errorMessage.None?
    ensures r.isLoading == s.isLoading && r.isAuthenticated == s.isAuthenticated
    ensures r.currentUser == s.currentUser
  {
    s.(errorMessage := None)
  }

  /** Logging in with a matching account and logging out leaves no user signed in. */
  lemma LoginThenLogout(s: AuthUiState, username: string, password: string)
    requires !IsBlank(username) && !IsBlank(password) && CredentialsMatch(username, password)
    ensures LoginStep(s, username, password).isAuthenticated
    ensures var r := LogoutStep(LoginStep(s, username, password));
      !r.isAuthenticated && r.currentUser.None? && !r.isLoading && r.errorMessage.None?
  {
  }

  class AuthViewModel {
    var uiState: AuthUiState

    constructor ()
      ensures uiState == AuthUiState()
    {
      uiState := AuthUiState();
    }

    method Login(username: string, password: string)
      modifies this
      ensures uiState == LoginStep(old(uiState), username, password)
    {
      if IsBlank(username) || IsBlank(password) {
        uiState := uiState.(errorMessage := Some(BlankFieldsMessage));
        return;
      }
      uiState := uiState.(isLoading := true, errorMessage := None);
      if CredentialsMatch(username, password) {
        var user := User(username := username, email := username + "@example.com", isAuthenticated := true);
        uiState := uiState.(isLoading := false, isAuthenticated := true, currentUser := Some(user), errorMessage := None);
      } else {
        uiState := uiState.(isLoading := false, isAuthenticated := false, errorMessage := Some(WrongCredentialsMessage));
      }
    }

    method Logout()
      modifies this
      ensures uiState == LogoutStep(old(uiState))
    {
      uiState := uiState.(isAuthenticated := false, currentUser := None);
    }

    method ClearError()
      modifies this
      ensures uiState == ClearErrorStep(old(uiState))
    {
      uiState := uiState.(errorMessage := None);
    }
  }
}
