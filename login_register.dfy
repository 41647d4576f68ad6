/** The login/register page: one form in two modes, a POST whose endpoint and
    body depend on the mode, and a success message and an error message that
    are never shown together. */
module Auth {
  import opened Http

  /** The form record `formData`; `username` is used only when registering. */
  datatype FormData = FormData(email: string, password: string, username: string)

  const DefaultFormData := FormData("", "", "")

  /** A change event of one of the inputs, named `email`, `password` and `username`. */
  datatype FormInput = EmailChanged(text: string) | PasswordChanged(text: string) | UsernameChanged(text: string)

  /** A POST: its URL and its JSON body, an object of string fields. */
  datatype Request = Post(url: string, body: map<string, string>)

  const LoginUrl := "http://localhost:5000/api/auth/login"
  const RegisterUrl := "http://localhost:5000/api/auth/register"

  const LoginSuccessText := "Login successful!"
  const RegisterSuccessText := "Registration successful!"
  const GenericErrorText := "An error occurred"

  /** The endpoint: the login URL exactly in login mode, the register URL otherwise. */
  function Endpoint(isLogin: bool): (url: string)
    ensures url in {LoginUrl, RegisterUrl}
    ensures url == LoginUrl <==> isLogin
  {
    if isLogin then LoginUrl else RegisterUrl
  }

  /** The request body: email and password always, username exactly when
      registering, and no other field. */
  function RequestBody(isLogin: bool, f: FormData): (body: map<string, string>)
    ensures "email" in body && body["email"] == f.email
    ensures "password" in body && body["password"] == f.password
    ensures "username" in body <==> !isLogin
    ensures "username" in body ==> body["username"] == f.username
    ensures body.Keys <= {"email", "password", "username"}
  {
    var credentials := map["email" := f.email, "password" := f.password];
    if isLogin then credentials else credentials["username" := f.username]
  }

  /** The message shown after a status-200 response in the given mode. */
  function SuccessText(isLogin: bool): string {
    if isLogin then LoginSuccessText else RegisterSuccessText
  }

  /** The LoginRegisterPage component: its four state fields (`null` is None)
      and the requests it has issued, oldest first. */
  class LoginRegisterPage {
    var isLogin: bool
    var formData: FormData
    var error: Option<string>
    var successMessage: Option<string>
    ghost var requests: seq<Request>

    /** The two messages are never both set. */
    ghost predicate Valid()
      reads this
    {
      !(error.Some? && successMessage.Some?)
    }

    constructor ()
      ensures Valid()
      ensures isLogin && formData == DefaultFormData
      ensures error == None && successMessage == None && requests == []
    {
      isLogin := true;
      formData := DefaultFormData;
      error := None;
      successMessage := None;
      requests := [];
    }

    /** `handleChange`: replaces the named field only. */
    method HandleChange(input: FormInput)
      requires Valid()
      modifies this`formData
      ensures Valid()
      ensures formData.email == (if input.EmailChanged? then input.text else old(formData.email))
      ensures formData.password == (if input.PasswordChanged? then input.text else old(formData.password))
      ensures formData.username == (if input.UsernameChanged? then input.text else old(formData.username))
    {
      match input
      case EmailChanged(s) => formData := formData.(email := s);
      case PasswordChanged(s) => formData := formData.(password := s);
      case UsernameChanged(s) => formData := formData.(username := s);
    }

    /** The "Register here" / "Login here" button: flips the mode; the form
        data is kept. */
    method ToggleMode()
      requires Valid()
      modifies this`isLogin
      ensures Valid()
      ensures isLogin == !old(isLogin)
    {
      isLogin := !isLogin;
    }

    /** `handleSubmit`. Status 200 shows the mode's success message and clears
        the error; any other 2xx status changes neither message; a rejection
        shows the server's message, or the generic one when no response
        arrived, and clears the success message. */
    method HandleSubmit(post: AxiosResult<()>)
      requires Valid()
      modifies this`error, this`successMessage, this`requests
      ensures Valid()
      ensures requests == old(requests) + [Post(Endpoint(isLogin), RequestBody(isLogin, formData))]
      ensures post.Resolved? && post.status == 200 ==>
        successMessage == Some(SuccessText(isLogin)) && error == None
      ensures post.Resolved? && post.status != 200 ==>
        successMessage == old(successMessage) && error == old(error)
      ensures post.Rejected? ==>
        && successMessage == None
        && error == Some(if post.serverMessage.Some? then post.serverMessage.value else GenericErrorText)
    {
      var url := if isLogin then LoginUrl else RegisterUrl;
      var body := map["email" := formData.email, "password" := formData.password];
      if !isLogin {
        body := body["username" := formData.username];
      }
      requests := requests + [Post(url, body)];
      match post {
        case Resolved(status, _) =>
          if status == 200 {
            successMessage := Some(if isLogin then LoginSuccessText else RegisterSuccessText);
            error := None;
          }
        case Rejected(serverMessage) =>
          error := Some(if serverMessage.Some? then serverMessage.value else GenericErrorText);
          successMessage := None;
      }
    }

    /** The timer set after a successful submit firing: hides the success message. */
    method SuccessTimeout()
      requires Valid()
      modifies this`successMessage
      ensures Valid()
      ensures successMessage == None
    {
      successMessage := None;
    }
  }
}
