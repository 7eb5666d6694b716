/**
 * The login page (components/LoginPage.tsx): a local sign-up / sign-in
 * decision over the email-to-password map kept in storage, and the switch
 * between the two modes.
 */
module Login {
  import opened Wrappers

  const FillText := "Por favor, preencha todos os campos."
  const TakenText := "Este e-mail já está cadastrado."
  const InvalidText := "E-mail ou senha inválidos."
  const FailureText := "Ocorreu um erro. Tente novamente."

  /**
   * What the users key holds, as `JSON.parse` sees it: a map from email to
   * password, or text that does not parse. An absent key reads as `'{}'`,
   * which is `Users(map[])`.
   */
  datatype Credentials = Users(passwords: map<string, string>) | Unreadable

  /** `users[email]` is truthy: the email is stored with a non-empty password. */
  predicate Registered(users: map<string, string>, email: string)
  {
    email in users && users[email] != ""
  }

  /**
   * The outcome of a submit, before storage is written: a refusal with the
   * message shown, or a login of `email`, after writing `write` to storage
   * when it is present.
   */
  datatype Decision = Refuse(message: string) | Accept(email: string, write: Option<map<string, string>>)

  /** `handleSubmit`, with storage holding `c`. */
  function Decide(c: Credentials, email: string, password: string, isSignUp: bool): (d: Decision)
    ensures email == "" || password == "" ==> d == Refuse(FillText)
    ensures email != "" && password != "" && c.Unreadable? ==> d == Refuse(FailureText)
    ensures d.Accept? ==> d.email == email && email != "" && password != "" && c.Users?
    ensures d.Accept? && d.write.Some? ==> isSignUp
  {
    if email == "" || password == "" then Refuse(FillText)
    else match c
      case Unreadable => Refuse(FailureText)
      case Users(users) =>
        if isSignUp then
          if Registered(users, email) then Refuse(TakenText)
          else Accept(email, Some(users[email := password]))
        else if Registered(users, email) && users[email] == password then Accept(email, None)
        else Refuse(InvalidText)
  }

  /** Signing up with an email already registered is refused, and nothing is written. */
  lemma SignUpExisting(users: map<string, string>, email: string, password: string)
    requires email != "" && password != "" && Registered(users, email)
    ensures Decide(Users(users), email, password, true) == Refuse(TakenText)
  {
  }

  /**
   * Signing up with a new email logs it in after storing its password, and
   * every other stored email keeps its password.
   */
  lemma SignUpNew(users: map<string, string>, email: string, password: string)
    requires email != "" && password != "" && !Registered(users, email)
    ensures var d := Decide(Users(users), email, password, true);
      && d == Accept(email, Some(users[email := password]))
      && d.write.value.Keys == users.Keys + {email}
      && d.write.value[email] == password
      && forall other :: other in users && other != email ==> d.write.value[other] == users[other]
  {
  }

  /**
   * Signing in succeeds exactly when the email is stored with the given
   * password; a filled-in sign-in that does not match is refused with the
   * invalid-credentials message and no other.
   */
  lemma SignInIff(users: map<string, string>, email: string, password: string)
    requires email != ""
    ensures Decide(Users(users), email, password, false).Accept? <==>
      password != "" && email in users && users[email] == password
    ensures password != "" && !(email in users && users[email] == password) ==>
      Decide(Users(users), email, password, false) == Refuse(InvalidText)
  {
  }

  /** Signing in never writes; when it fails, the message does not say which field was wrong. */
  lemma SignInNeverWrites(c: Credentials, email: string, password: string)
    ensures var d := Decide(c, email, password, false);
      && (d.Accept? ==> d.write.None?)
      && (d.Refuse? ==> d.message in {FillText, FailureText, InvalidText})
  {
  }

  /** The storage behind the page: the value under the users key. */
  class CredentialStore {
    var data: Credentials

    constructor(initial: Credentials)
      ensures data == initial
    {
      data := initial;
    }
  }

  /** The form's state. */
  class LoginPage {
    var email: string
    var password: string
    var isSignUp: bool
    var error: Option<string>

    constructor()
      ensures email == "" && password == "" && !isSignUp && error == None
    {
      email := "";
      password := "";
      isSignUp := false;
      error := None;
    }

    /**
     * `handleSubmit`: `writeFails` says whether writing the users map
     * throws, and `loginFails` whether `onLogin` throws (its own `setItem`,
     * see `App.AppState.Login`); both land in the same `catch`. Returns the
     * email `onLogin` completed for, if it did.
     */
    method Submit(store: CredentialStore, writeFails: bool, loginFails: bool) returns (loggedIn: Option<string>)
      modifies this`error, store
      ensures var d := Decide(old(store.data), email, password, isSignUp);
        match d
        case Refuse(msg) => error == Some(msg) && loggedIn == None && store.data == old(store.data)
        case Accept(who, write) =>
          if write.Some? && writeFails then
            error == Some(FailureText) && loggedIn == None && store.data == old(store.data)
          else
            && store.data == (if write.Some? then Users(write.value) else old(store.data))
            && (loginFails ==> error == Some(FailureText) && loggedIn == None)
            && (!loginFails ==> error == None && loggedIn == Some(who))
    {
      error := None;
      if email == "" || password == "" {
        error := Some(FillText);
        return None;
      }
      match store.data
      case Unreadable =>
        error := Some(FailureText);
        loggedIn := None;
      case Users(users) =>
        if isSignUp {
          if email in users && users[email] != "" {
            error := Some(TakenText);
            loggedIn := None;
          } else if writeFails {
            error := Some(FailureText);
            loggedIn := None;
          } else {
            store.data := Users(users[email := password]);
            loggedIn := CallOnLogin(loginFails);
          }
        } else if email in users && users[email] != "" && users[email] == password {
          loggedIn := CallOnLogin(loginFails);
        } else {
          error := Some(InvalidText);
          loggedIn := None;
        }
    }

    /** `onLogin(email)` inside the `try`: a throw shows the generic error instead. */
    method CallOnLogin(loginFails: bool) returns (loggedIn: Option<string>)
      modifies this`error
      ensures loginFails ==> error == Some(FailureText) && loggedIn == None
      ensures !loginFails ==> error == old(error) && loggedIn == Some(email)
    {
      if loginFails {
        error := Some(FailureText);
        loggedIn := None;
      } else {
        loggedIn := Some(email);
      }
    }

    /** The "Crie uma" / "Entrar" link: switch mode and clear the message. */
    method ToggleMode()
      modifies this`isSignUp, this`error
      ensures isSignUp == !old(isSignUp) && error == None
    {
      isSignUp := !isSignUp;
      error := None;
    }
  }
}
