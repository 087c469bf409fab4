/** The `/api/auth` routes: a demonstration login against one fixed teacher account. */
module AuthRoute {
  import opened Wrappers
  import opened Text
  import opened Request

  const DemoUsername := "teacher"
  const DemoPassword := "demo123"

  /** The body of a successful login. */
  datatype Login = Login(success: bool, userId: string, username: string, role: string, token: string)

  const TeacherLogin := Login(true, "teacher-1", "teacher", "teacher", "demo-token-123")

  /** The validation chain of POST /login: a username that is not blank once trimmed, and a
      non-empty password (the password is not trimmed). */
  function LoginErrors(username: Option<string>, password: Option<string>): (errors: seq<string>)
    ensures errors == [] <==> Trim(FieldText(username)) != [] && FieldText(password) != []
  {
    Check(Trim(FieldText(username)) != [], "Username is required")
      + Check(FieldText(password) != [], "Password is required")
  }

  /** POST /login. */
  function PostLogin(username: Option<string>, password: Option<string>): (r: Reply<Login>)
    ensures r.Ok? || r.BadRequest? || r.Unauthorized?
  {
    if LoginErrors(username, password) != [] then BadRequest(LoginErrors(username, password))
    else if Trim(username.value) == DemoUsername && password.value == DemoPassword then Ok(TeacherLogin)
    else Unauthorized
  }

  /** A login succeeds exactly for the demo credentials, the username compared after trimming,
      and then always answers the same fixed user and token. */
  lemma LoginSucceedsIff(username: Option<string>, password: Option<string>)
    ensures PostLogin(username, password).Ok? <==>
      username.Some? && Trim(username.value) == DemoUsername && password == Some(DemoPassword)
    ensures PostLogin(username, password).Ok? ==> PostLogin(username, password).value == TeacherLogin
  {
    if username.Some? && Trim(username.value) == DemoUsername && password == Some(DemoPassword) {
      assert DemoUsername[0] == 't';
      assert DemoPassword[0] == 'd';
    }
  }

  /** Blank usernames and empty passwords are refused with 400 before the credentials are
      compared; every other failure is a 401. */
  lemma LoginRejections(username: Option<string>, password: Option<string>)
    ensures Trim(FieldText(username)) == [] ==> PostLogin(username, password).BadRequest?
    ensures FieldText(password) == [] ==> PostLogin(username, password).BadRequest?
    ensures Trim(FieldText(username)) != [] && FieldText(password) != [] ==>
      (PostLogin(username, password).Unauthorized? <==>
         !(Trim(username.value) == DemoUsername && password.value == DemoPassword))
  {
  }

  /** Surrounding whitespace on the username is forgiven. */
  lemma PaddedUsernameLogsIn()
    ensures PostLogin(Some(" teacher "), Some(DemoPassword)).Ok?
  {
    assert " teacher "[1..][..7] == DemoUsername;
    TrimStartSpec(" teacher ");
    TrimEndSpec(TrimStart(" teacher "));
    assert TrimStart(" teacher ") == "teacher ";
    assert TrimEnd("teacher ") == DemoUsername;
  }

}
