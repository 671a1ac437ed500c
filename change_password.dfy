/** The password change form of the account area: the two local checks,
    the request, and the notice each failure maps to. */
module ChangePassword {
  import opened Common

  datatype PasswordBody = PasswordBody(oldPassword: string, newPassword: string)

  datatype FormState = FormState(oldPassword: string, newPassword: string, confirmPassword: string, loading: bool)

  datatype Outcome = Outcome(state: FormState, request: Option<Request<PasswordBody>>, toast: Toast)

  const MinPassword := 6
  const PasswordPath := "/users/me/password"

  const Mismatch := "As novas senhas não coincidem."
  const TooShort := "A nova senha deve ter no mínimo 6 caracteres."
  const Changed := "Senha alterada com sucesso!"
  const WrongOldPassword := "A sua senha antiga está incorreta."
  const ChangeFallback := "Não foi possível alterar a senha."
  const Unexpected := "Ocorreu um erro inesperado."

  function Initial(): FormState {
    FormState("", "", "", false)
  }

  /** The local checks, in order: the two new passwords must agree, then the
      new one must have at least six characters. */
  function Validate(newPassword: string, confirmPassword: string): (r: Option<string>)
    ensures r.None? <==> newPassword == confirmPassword && |newPassword| >= MinPassword
    ensures newPassword != confirmPassword ==> r == Some(Mismatch)
  {
    if newPassword != confirmPassword then Some(Mismatch)
    else if |newPassword| < MinPassword then Some(TooShort)
    else None
  }

  /** The notice of a failed request: 401 means the old password is wrong;
      another HTTP error shows the server's message or the fallback; any
      other failure shows the "unexpected" notice. */
  function FailureNotice(e: ApiError): string {
    if HasStatus(e, 401) then WrongOldPassword else ServerMessageOr(e, ChangeFallback, Unexpected)
  }

  /** `handleSubmit`: a success empties the three inputs; loading is over
      whichever way the handler ends. */
  function Submit(s: FormState, response: Response<()>): Outcome {
    match Validate(s.newPassword, s.confirmPassword)
    case Some(msg) => Outcome(s.(loading := false), None, ErrorToast(msg))
    case None =>
      var request := Some(Put(PasswordPath, PasswordBody(s.oldPassword, s.newPassword)));
      match response
      case Ok(_) => Outcome(FormState("", "", "", false), request, SuccessToast(Changed))
      case Failed(e) => Outcome(s.(loading := false), request, ErrorToast(FailureNotice(e)))
  }

  // ---------------------------------------------------------------------

  /** A request is sent exactly when the checks pass, and it carries the
      old and the new password. */
  lemma SubmitSendsIffValid(s: FormState, response: Response<()>)
    ensures var o := Submit(s, response);
      && (o.request.Some? <==> s.newPassword == s.confirmPassword && |s.newPassword| >= MinPassword)
      && (o.request.Some? ==> o.request == Some(Put(PasswordPath, PasswordBody(s.oldPassword, s.newPassword))))
  {
  }

  /** A mismatch is reported before the length: two short passwords that
      differ get the mismatch notice. */
  lemma MismatchFirst(s: FormState, response: Response<()>)
    ensures s.newPassword != s.confirmPassword ==> Submit(s, response).toast == ErrorToast(Mismatch)
    ensures s.newPassword == s.confirmPassword && |s.newPassword| < MinPassword ==>
      Submit(s, response).toast == ErrorToast(TooShort)
  {
  }

  /** Loading is off after every submit, and only a successful change
      clears the inputs. */
  lemma SubmitSettles(s: FormState, response: Response<()>)
    ensures var o := Submit(s, response);
      && !o.state.loading
      && (o.toast == SuccessToast(Changed) ==> o.state == Initial())
      && (o.toast != SuccessToast(Changed) ==> o.state == s.(loading := false))
  {
  }

  /** The notices of a failed change, one per kind of failure. */
  lemma FailureNotices(e: ApiError)
    ensures HasStatus(e, 401) ==> FailureNotice(e) == WrongOldPassword
    ensures e.HttpError? && e.status != 401 && e.message != "" ==> FailureNotice(e) == e.message
    ensures e.HttpError? && e.status != 401 && e.message == "" ==> FailureNotice(e) == ChangeFallback
    ensures e.NoResponse? ==> FailureNotice(e) == Unexpected
  {
  }

  // ---------------------------------------------------------------------

  class ChangePasswordPage {
    var oldPassword: string
    var newPassword: string
    var confirmPassword: string
    var loading: bool

    function State(): FormState
      reads this
    {
      FormState(oldPassword, newPassword, confirmPassword, loading)
    }

    constructor ()
      ensures State() == Initial()
    {
      oldPassword, newPassword, confirmPassword, loading := "", "", "", false;
    }

    method SetInputs(current: string, next: string, confirm: string)
      modifies this
      ensures State() == old(State()).(oldPassword := current, newPassword := next, confirmPassword := confirm)
    {
      oldPassword, newPassword, confirmPassword := current, next, confirm;
    }

    method HandleSubmit(response: Response<()>) returns (request: Option<Request<PasswordBody>>, toast: Toast)
      modifies this
      ensures Outcome(State(), request, toast) == Submit(old(State()), response)
    {
      loading := true;
      if newPassword != confirmPassword {
        toast := ErrorToast(Mismatch);
        loading := false;
        return None, toast;
      }
      if |newPassword| < MinPassword {
        toast := ErrorToast(TooShort);
        loading := false;
        return None, toast;
      }
      request := Some(Put(PasswordPath, PasswordBody(oldPassword, newPassword)));
      match response {
        case Ok(_) =>
          toast := SuccessToast(Changed);
          oldPassword, newPassword, confirmPassword := "", "", "";
        case Failed(e) =>
          if e.HttpError? && e.status == 401 {
            toast := ErrorToast(WrongOldPassword);
          } else {
            toast := ErrorToast(ServerMessageOr(e, ChangeFallback, Unexpected));
          }
      }
      loading := false;
    }
  }
}
