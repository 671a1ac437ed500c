/** The sign-in form: the local check, the login request, the hand-over of
    the token to the session (which the page does twice) and the redirect
    by role. */
module Login {
  import opened Common
  import opened Auth

  datatype Credentials = Credentials(email: string, password: string)

  datatype FormState = FormState(email: string, password: string, error: Option<string>)

  /** The form and the session after a submit, the request sent, the
      notices in the order they pop up, and where the page navigates. */
  datatype Outcome = Outcome(form: FormState, session: SessionState, request: Option<Request<Credentials>>,
                             toasts: seq<Toast>, target: Option<string>)

  const LoginPath := "/users/login"
  const AdminHome := "/admin/pedidos"
  const ClientHome := "/"

  const FillAllFields := "Por favor, preencha todos os campos."
  const LoggedIn := "Login realizado com sucesso!"
  const LoginFallback := "Falha no login. Verifique suas credenciais."
  const Unexpected := "Ocorreu um erro inesperado. Tente novamente."

  function Initial(): FormState {
    FormState("", "", None)
  }

  /** Where a signed-in user lands: admins on the order panel, clients on
      the home page. */
  function HomeOf(u: User): (r: string)
    ensures r == AdminHome <==> u.userType == Admin
  {
    if u.userType == Admin then AdminHome else ClientHome
  }

  /** The error line and notice of a failure, whether of the login request
      itself or of the profile fetch the session rethrows. */
  function FailureText(e: ApiError): string {
    ServerMessageOr(e, LoginFallback, Unexpected)
  }

  /** `handleSubmit`, given the answer of `POST /users/login` (the token)
      and the answers of the two `GET /users/me` calls the page triggers by
      handing the token to the session twice: `me` for the first, `meAgain`
      for the second. The redirect follows the second call's user. */
  function Submit(f: FormState, session: SessionState, response: Response<string>,
                  me: string -> Response<User>, meAgain: string -> Response<User>): Outcome {
    var cleared := f.(error := None);
    if f.email == "" || f.password == "" then
      Outcome(cleared.(error := Some(FillAllFields)), session, None, [], None)
    else
      var request := Some(Post(LoginPath, Credentials(f.email, f.password)));
      match response
      case Failed(e) =>
        Outcome(cleared.(error := Some(FailureText(e))), session, request, [ErrorToast(FailureText(e))], None)
      case Ok(token) =>
        var first := LoginStep(session, token, me);
        match first.result
        case Failed(e) =>
          Outcome(cleared.(error := Some(FailureText(e))), first.session, request,
                  [SuccessToast(LoggedIn), ErrorToast(FailureText(e))], None)
        case Ok(_) =>
          var second := LoginStep(first.session, token, meAgain);
          match second.result
          case Failed(e) =>
            Outcome(cleared.(error := Some(FailureText(e))), second.session, request,
                    [SuccessToast(LoggedIn), ErrorToast(FailureText(e))], None)
          case Ok(u) =>
            Outcome(cleared, second.session, request, [SuccessToast(LoggedIn)], Some(HomeOf(u)))
  }

  // ---------------------------------------------------------------------

  /** Handing the same token to the session a second time, once it has
      validated, leaves the session and the returned user as they were when
      the second profile answer is the first one again. */
  lemma {:induction false} SecondLoginChangesNothing(s: SessionState, t: string,
                                                     me: string -> Response<User>, meAgain: string -> Response<User>)
    requires me(t).Ok? && meAgain(t) == me(t)
    ensures LoginStep(LoginStep(s, t, me).session, t, meAgain) == LoginStep(s, t, me)
  {
    LoginSucceeds(s, t, me);
    LoginSucceeds(LoginStep(s, t, me).session, t, meAgain);
  }

  /** An empty e-mail or password sends nothing and leaves the session. */
  lemma MissingFieldSendsNothing(f: FormState, session: SessionState, response: Response<string>,
                                 me: string -> Response<User>, meAgain: string -> Response<User>)
    requires f.email == "" || f.password == ""
    ensures Submit(f, session, response, me, meAgain) ==
      Outcome(f.(error := Some(FillAllFields)), session, None, [], None)
  {
  }

  /** When both profile fetches succeed, the session holds the user of the
      second answer, with the token, and the page sends admins to the order
      panel and clients home, by that second user. Identical answers make
      the outcome that of a single login. */
  lemma {:induction false} SignInRedirects(f: FormState, session: SessionState, t: string,
                                           me: string -> Response<User>, meAgain: string -> Response<User>)
    requires f.email != "" && f.password != ""
    requires me(t).Ok? && meAgain(t).Ok?
    ensures var o := Submit(f, session, Ok(t), me, meAgain);
      && o.request == Some(Post(LoginPath, Credentials(f.email, f.password)))
      && o.session == LoginStep(LoginStep(session, t, me).session, t, meAgain).session
      && o.session.user == Some(meAgain(t).data) && o.session.token == Some(t) && Consistent(o.session)
      && o.toasts == [SuccessToast(LoggedIn)] && o.form.error == None
      && o.target == Some(HomeOf(meAgain(t).data))
      && (o.target == Some(AdminHome) <==> meAgain(t).data.userType == Admin)
      && (meAgain(t) == me(t) ==> o.session == LoginStep(session, t, me).session)
  {
    LoginSucceeds(session, t, me);
    LoginSucceeds(LoginStep(session, t, me).session, t, meAgain);
    if meAgain(t) == me(t) {
      SecondLoginChangesNothing(session, t, me, meAgain);
    }
  }

  /** A token whose first profile fetch fails ends logged out and shows the
      success notice followed by the failure's text; no second fetch is made. */
  lemma {:induction false} ProfileFailureLogsOut(f: FormState, session: SessionState, t: string,
                                                 me: string -> Response<User>, meAgain: string -> Response<User>)
    requires f.email != "" && f.password != ""
    requires me(t).Failed?
    ensures var o := Submit(f, session, Ok(t), me, meAgain);
      && o.session == LoggedOut(session).(loading := false)
      && o.toasts == [SuccessToast(LoggedIn), ErrorToast(FailureText(me(t).error))]
      && o.form.error == Some(FailureText(me(t).error)) && o.target == None
  {
    LoginFails(session, t, me);
  }

  /** A second profile fetch that fails after the first succeeded also ends
      logged out, with the success notice followed by the second failure's
      text, and the page does not navigate. */
  lemma {:induction false} SecondProfileFailureLogsOut(f: FormState, session: SessionState, t: string,
                                                       me: string -> Response<User>, meAgain: string -> Response<User>)
    requires f.email != "" && f.password != ""
    requires me(t).Ok? && meAgain(t).Failed?
    ensures var o := Submit(f, session, Ok(t), me, meAgain);
      && o.session == LoggedOut(session).(loading := false)
      && o.toasts == [SuccessToast(LoggedIn), ErrorToast(FailureText(meAgain(t).error))]
      && o.form.error == Some(FailureText(meAgain(t).error)) && o.target == None
  {
    LoginSucceeds(session, t, me);
    LoginFails(LoginStep(session, t, me).session, t, meAgain);
  }

  /** A rejected login leaves the session and shows the server's message,
      the credentials notice or the "unexpected" text. */
  lemma RejectedLogin(f: FormState, session: SessionState, e: ApiError,
                      me: string -> Response<User>, meAgain: string -> Response<User>)
    requires f.email != "" && f.password != ""
    ensures var o := Submit(f, session, Failed(e), me, meAgain);
      && o.session == session && o.target == None && o.toasts == [ErrorToast(FailureText(e))]
      && (e.HttpError? && e.message != "" ==> o.form.error == Some(e.message))
      && (e.HttpError? && e.message == "" ==> o.form.error == Some(LoginFallback))
      && (e.NoResponse? ==> o.form.error == Some(Unexpected))
  {
  }

  // ---------------------------------------------------------------------

  class LoginPage {
    var email: string
    var password: string
    var error: Option<string>

    function State(): FormState
      reads this
    {
      FormState(email, password, error)
    }

    constructor ()
      ensures State() == Initial()
    {
      email, password, error := "", "", None;
    }

    method SetInputs(email': string, password': string)
      modifies this
      ensures State() == FormState(email', password', old(error))
    {
      email, password := email', password';
    }

    method HandleSubmit(session: Session, response: Response<string>,
                        me: string -> Response<User>, meAgain: string -> Response<User>)
      returns (request: Option<Request<Credentials>>, toasts: seq<Toast>, target: Option<string>)
      modifies this, session
      ensures Outcome(State(), session.State(), request, toasts, target)
           == Submit(old(State()), old(session.State()), response, me, meAgain)
    {
      error := None;
      if email == "" || password == "" {
        error := Some(FillAllFields);
        return None, [], None;
      }
      request := Some(Post(LoginPath, Credentials(email, password)));
      match response {
        case Failed(e) =>
          toasts := [ErrorToast(FailureText(e))];
          error := Some(FailureText(e));
          target := None;
        case Ok(token) =>
          toasts := [SuccessToast(LoggedIn)];
          var first := session.Login(token, me);
          if first.Failed? {
            toasts := toasts + [ErrorToast(FailureText(first.error))];
            error := Some(FailureText(first.error));
            return request, toasts, None;
          }
          var loggedInUser := session.Login(token, meAgain);
          if loggedInUser.Failed? {
            toasts := toasts + [ErrorToast(FailureText(loggedInUser.error))];
            error := Some(FailureText(loggedInUser.error));
            return request, toasts, None;
          }
          target := Some(if loggedInUser.data.userType == Admin then AdminHome else ClientHome);
      }
    }
  }
}
