/** The user operations of toastcloud/user.go. Signup and Signin are the
    only calls made without the session token. */
module User {
  import opened Base
  import opened Models
  import opened Requests
  import opened Methods
  import opened Responses

  const NoToken: string := "The request was successfull but the remote API did not return an authentication token"

  datatype SignupInput = SignupInput(email: string, password: string)
  datatype SignupOutput = SignupOutput(user: Option<User>)

  /** Signup: an unauthenticated POST of the input; a reply without a user
      is an empty body. */
  function Signup(input: SignupInput, send: Call<SignupInput> -> Reply<Envelope<Option<User>>>): (r: Result<SignupOutput>)
    ensures var c := Invoke(Post, "/signup", Some(input), NoUpload);
      && !c.authed
      && Relays(r, Require(Check(send(c)), (u: Option<User>) => u.Some?, EmptyBody), (u: Option<User>) => SignupOutput(u))
    ensures r.Ok? ==> r.value.user.Some?
  {
    var res := Require(Check(send(Invoke(Post, "/signup", Some(input), NoUpload))), (u: Option<User>) => u.Some?, EmptyBody);
    Output(res, (u: Option<User>) => SignupOutput(u))
  }

  datatype SigninInput = SigninInput(email: string, password: string, extendedSession: bool)

  /** signinRequest: the input, asking for the token and no cookie. */
  datatype SigninRequest = SigninRequest(email: string, password: string, extendedSession: bool, setCookie: bool, setToken: bool)

  function SigninRequestOf(input: SigninInput): (req: SigninRequest)
    ensures req.email == input.email && req.password == input.password && req.extendedSession == input.extendedSession
    ensures !req.setCookie && req.setToken
  {
    SigninRequest(input.email, input.password, input.extendedSession, false, true)
  }

  datatype SigninOutput = SigninOutput(token: string)

  /** Signin: succeeds only with a non-empty token. */
  function Signin(input: SigninInput, send: Call<SigninRequest> -> Reply<Envelope<string>>): (r: Result<SigninOutput>)
    ensures var c := Invoke(Post, "/signin", Some(SigninRequestOf(input)), NoUpload);
      && !c.authed
      && Relays(r, Require(Check(send(c)), (t: string) => t != "", NoToken), (t: string) => SigninOutput(t))
    ensures r.Ok? ==> r.value.token != ""
  {
    var res := Require(Check(send(Invoke(Post, "/signin", Some(SigninRequestOf(input)), NoUpload))), (t: string) => t != "", NoToken);
    Output(res, (t: string) => SigninOutput(t))
  }

  datatype SetupBillingOutput = SetupBillingOutput(url: string)

  /** SetupBilling: an authenticated POST with no body; an empty URL is an
      empty body. */
  function SetupBilling(send: Call<()> -> Reply<Envelope<string>>): (r: Result<SetupBillingOutput>)
    ensures var c := Invoke(AuthedPost, "/user/setupbilling", None, NoUpload);
      && c.authed
      && Relays(r, Require(Check(send(c)), (u: string) => u != "", EmptyBody), (u: string) => SetupBillingOutput(u))
    ensures r.Ok? ==> r.value.url != ""
  {
    var res := Require(Check(send(Invoke(AuthedPost, "/user/setupbilling", None, NoUpload))), (u: string) => u != "", EmptyBody);
    Output(res, (u: string) => SetupBillingOutput(u))
  }

  /** A successful reply with an empty token, an empty URL or no user is
      still a failure, each with its own message. */
  lemma EmptyAnswers(signinInput: SigninInput, signupInput: SignupInput,
                     signin: Call<SigninRequest> -> Reply<Envelope<string>>,
                     billing: Call<()> -> Reply<Envelope<string>>,
                     signup: Call<SignupInput> -> Reply<Envelope<Option<User>>>)
    ensures signin(Invoke(Post, "/signin", Some(SigninRequestOf(signinInput)), NoUpload)) == Decoded(Envelope(true, "")) ==>
      Signin(signinInput, signin) == Fail(Failure(NoToken))
    ensures billing(Invoke(AuthedPost, "/user/setupbilling", None, NoUpload)) == Decoded(Envelope(true, "")) ==>
      SetupBilling(billing) == Fail(Failure(EmptyBody))
    ensures signup(Invoke(Post, "/signup", Some(signupInput), NoUpload)) == Decoded(Envelope(true, None)) ==>
      Signup(signupInput, signup) == Fail(Failure(EmptyBody))
  {
  }
}
