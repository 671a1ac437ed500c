/** The sign-up form: the two local checks, the request with the consent
    flag, and the error line and notice each failure shows. */
module Register {
  import opened Common

  datatype RegisterBody = RegisterBody(name: string, email: string, phone: string, password: string,
                                       acceptsTerms: bool)

  datatype FormState = FormState(name: string, email: string, phone: string, password: string,
                                 acceptTerms: bool, error: Option<string>)

  /** The form, the request sent, the notice and where the page navigates. */
  datatype Outcome = Outcome(state: FormState, request: Option<Request<RegisterBody>>, toast: Toast,
                             target: Option<string>)

  const UsersPath := "/users"
  const LoginPath := "/login"

  const FillAllFields := "Por favor, preencha todos os campos."
  const TermsRequired := "Você precisa aceitar os termos de privacidade para continuar."
  const TermsToast := "Você precisa aceitar os termos de privacidade."
  const AccountCreated := "Conta criada com sucesso! Faça o login."
  const SignUpFallback := "Falha ao criar conta."
  const Unexpected := "Ocorreu um erro inesperado."

  function Initial(): FormState {
    FormState("", "", "", "", false, None)
  }

  /** `!name || !email || !phone || !password` */
  predicate MissingField(s: FormState) {
    s.name == "" || s.email == "" || s.phone == "" || s.password == ""
  }

  /** `handleSubmit`. The error line is cleared first; an empty field sets
      it without a notice; unaccepted terms set it and pop a shorter notice;
      a failed request shows the same text in both. */
  function Submit(s: FormState, response: Response<()>): Outcome {
    var cleared := s.(error := None);
    if MissingField(s) then Outcome(cleared.(error := Some(FillAllFields)), None, NoToast, None)
    else if !s.acceptTerms then Outcome(cleared.(error := Some(TermsRequired)), None, ErrorToast(TermsToast), None)
    else
      var request := Some(Post(UsersPath, RegisterBody(s.name, s.email, s.phone, s.password, s.acceptTerms)));
      match response
      case Ok(_) => Outcome(cleared, request, SuccessToast(AccountCreated), Some(LoginPath))
      case Failed(e) =>
        var msg := ServerMessageOr(e, SignUpFallback, Unexpected);
        Outcome(cleared.(error := Some(msg)), request, ErrorToast(msg), None)
  }

  // ---------------------------------------------------------------------

  /** A request is sent exactly when every field is filled and the terms are
      accepted; it carries the fields and consent as given. */
  lemma SubmitSendsIffComplete(s: FormState, response: Response<()>)
    ensures var o := Submit(s, response);
      && (o.request.Some? <==> !MissingField(s) && s.acceptTerms)
      && (o.request.Some? ==>
            o.request == Some(Post(UsersPath, RegisterBody(s.name, s.email, s.phone, s.password, true))))
  {
  }

  /** The page moves to the login page exactly when the account was created. */
  lemma NavigatesOnlyOnSuccess(s: FormState, response: Response<()>)
    ensures var o := Submit(s, response);
      && (o.target.Some? <==> !MissingField(s) && s.acceptTerms && response.Ok?)
      && (o.target.Some? ==> o.target == Some(LoginPath) && o.toast == SuccessToast(AccountCreated)
                             && o.state.error == None)
  {
  }

  /** The local checks: an empty field is reported first and only on the
      error line; missing consent is reported on the line and, in other
      words, in a notice. */
  lemma LocalChecks(s: FormState, response: Response<()>)
    ensures MissingField(s) ==>
      Submit(s, response).state.error == Some(FillAllFields) && Submit(s, response).toast == NoToast
    ensures !MissingField(s) && !s.acceptTerms ==>
      Submit(s, response).state.error == Some(TermsRequired) && Submit(s, response).toast == ErrorToast(TermsToast)
    ensures TermsRequired != TermsToast
  {
  }

  /** A failed request shows one text both on the error line and in the
      notice: the server's message, the fallback or the "unexpected" text. */
  lemma FailureShowsSameText(s: FormState, e: ApiError)
    requires !MissingField(s) && s.acceptTerms
    ensures var o := Submit(s, Failed(e));
      && o.state.error.Some? && o.toast == ErrorToast(o.state.error.value)
      && (e.HttpError? && e.message != "" ==> o.state.error == Some(e.message))
      && (e.HttpError? && e.message == "" ==> o.state.error == Some(SignUpFallback))
      && (e.NoResponse? ==> o.state.error == Some(Unexpected))
      && o.state.(error := None) == s.(error := None)
  {
  }

  // ---------------------------------------------------------------------

  class RegisterPage {
    var name: string
    var email: string
    var phone: string
    var password: string
    var acceptTerms: bool
    var error: Option<string>

    function State(): FormState
      reads this
    {
      FormState(name, email, phone, password, acceptTerms, error)
    }

    constructor ()
      ensures State() == Initial()
    {
      name, email, phone, password, acceptTerms, error := "", "", "", "", false, None;
    }

    method SetInputs(name': string, email': string, phone': string, password': string, acceptTerms': bool)
      modifies this
      ensures State() == FormState(name', email', phone', password', acceptTerms', old(error))
    {
      name, email, phone, password, acceptTerms := name', email', phone', password', acceptTerms';
    }

    method HandleSubmit(response: Response<()>)
      returns (request: Option<Request<RegisterBody>>, toast: Toast, target: Option<string>)
      modifies this
      ensures Outcome(State(), request, toast, target) == Submit(old(State()), response)
    {
      error := None;
      if name == "" || email == "" || phone == "" || password == "" {
        error := Some(FillAllFields);
        return None, NoToast, None;
      }
      if !acceptTerms {
        error := Some(TermsRequired);
        return None, ErrorToast(TermsToast), None;
      }
      request := Some(Post(UsersPath, RegisterBody(name, email, phone, password, acceptTerms)));
      match response {
        case Ok(_) =>
          toast := SuccessToast(AccountCreated);
          target := Some(LoginPath);
        case Failed(e) =>
          var msg := ServerMessageOr(e, SignUpFallback, Unexpected);
          toast := ErrorToast(msg);
          error := Some(msg);
          target := None;
      }
    }
  }
}
