/** The category administration page: the form with its create and edit
    modes, its length check, and the delete with its conflict notice. */
module AdminCategories {
  import opened Common

  datatype CategoryBody = CategoryBody(description: string)

  datatype PageState = PageState(categories: seq<Category>, description: string, editingCategoryId: Option<string>)

  /** The page's outcome of one handler: the state, the request sent and the notice. */
  datatype Outcome = Outcome(state: PageState, request: Option<Request<CategoryBody>>, toast: Toast)

  const MinDescription := 2

  const TooShort := "A descrição deve ter pelo menos 2 caracteres."
  const CategoryUpdated := "Categoria atualizada com sucesso!"
  const CategoryCreated := "Categoria criada com sucesso!"
  const SaveFallback := "Erro ao guardar a categoria."
  const Unexpected := "Ocorreu um erro inesperado."
  const CategoryDeleted := "Categoria apagada com sucesso."
  const CategoryInUse := "Não é possível apagar: esta categoria está em uso por um item."
  const DeleteFailed := "Não foi possível apagar a categoria."

  function Initial(): PageState {
    PageState([], "", None)
  }

  /** `fetchCategories`: the list the server answers with, or the current one. */
  function Load(s: PageState, response: Response<seq<Category>>): PageState {
    match response
    case Ok(data) => s.(categories := data)
    case Failed(_) => s
  }

  function EditClick(s: PageState, c: Category): PageState {
    s.(description := c.description, editingCategoryId := Some(c.id))
  }

  function CancelEdit(s: PageState): PageState {
    s.(description := "", editingCategoryId := None)
  }

  /** The notice of a failed save: a conflict shows the server's `message`
      as it is; another HTTP error shows the first validation message or the
      fallback; any other failure shows the "unexpected" notice. */
  function SaveError(e: ApiError): string {
    if HasStatus(e, 409) then e.message else FirstErrorOr(e, SaveFallback, Unexpected)
  }

  /** `handleSubmit`. */
  function Submit(s: PageState, response: Response<()>, reload: Response<seq<Category>>): Outcome {
    if |s.description| < MinDescription then Outcome(s, None, ErrorToast(TooShort))
    else
      var body := CategoryBody(s.description);
      var request := if Editing(s.editingCategoryId) then Put("/categories/" + s.editingCategoryId.value, body)
                     else Post("/categories", body);
      match response
      case Ok(_) =>
        var toast := SuccessToast(if Editing(s.editingCategoryId) then CategoryUpdated else CategoryCreated);
        Outcome(Load(CancelEdit(s), reload), Some(request), toast)
      case Failed(e) => Outcome(s, Some(request), ErrorToast(SaveError(e)))
  }

  /** `handleDelete`; `confirmed` is the answer to the confirmation dialog. */
  function DeleteCategory(s: PageState, id: string, confirmed: bool, response: Response<()>,
                          reload: Response<seq<Category>>): Outcome {
    if !confirmed then Outcome(s, None, NoToast)
    else
      var request := Some(Delete("/categories/" + id));
      match response
      case Ok(_) => Outcome(Load(s, reload), request, SuccessToast(CategoryDeleted))
      case Failed(e) => Outcome(s, request, ErrorToast(if HasStatus(e, 409) then CategoryInUse else DeleteFailed))
  }

  // ---------------------------------------------------------------------

  /** A description shorter than two characters sends nothing and keeps the
      form; a long enough one always sends exactly one request. */
  lemma SubmitValidates(s: PageState, response: Response<()>, reload: Response<seq<Category>>)
    ensures var o := Submit(s, response, reload);
      && (|s.description| < MinDescription <==> o.request.None?)
      && (|s.description| < MinDescription ==> o.state == s && o.toast == ErrorToast(TooShort))
  {
  }

  /** A long enough description is sent by PUT `/categories/{id}` in edit
      mode and by POST `/categories` otherwise. */
  lemma SubmitRequest(s: PageState, response: Response<()>, reload: Response<seq<Category>>)
    requires |s.description| >= MinDescription
    ensures var o := Submit(s, response, reload);
      && (Editing(s.editingCategoryId) ==>
            o.request == Some(Put("/categories/" + s.editingCategoryId.value, CategoryBody(s.description))))
      && (!Editing(s.editingCategoryId) ==> o.request == Some(Post("/categories", CategoryBody(s.description))))
  {
  }

  /** A successful save empties the form, leaves edit mode and takes the
      reloaded list. */
  lemma SubmitSuccessResets(s: PageState, reload: Response<seq<Category>>)
    requires |s.description| >= MinDescription
    ensures var o := Submit(s, Ok(()), reload);
      && o.state.description == "" && o.state.editingCategoryId == None
      && o.state.categories == (if reload.Ok? then reload.data else s.categories)
      && o.toast.SuccessToast?
  {
  }

  /** The notices of a failed save, one per kind of failure; the form is kept. */
  lemma SubmitFailureNotice(s: PageState, e: ApiError, reload: Response<seq<Category>>)
    requires |s.description| >= MinDescription
    ensures var o := Submit(s, Failed(e), reload);
      && o.state == s
      && (HasStatus(e, 409) ==> o.toast == ErrorToast(e.message))
      && (e.HttpError? && e.status != 409 && e.firstError != "" ==> o.toast == ErrorToast(e.firstError))
      && (e.HttpError? && e.status != 409 && e.firstError == "" ==> o.toast == ErrorToast(SaveFallback))
      && (e.NoResponse? ==> o.toast == ErrorToast(Unexpected))
  {
  }

  /** Edit then cancel gives back the list with an empty form outside edit
      mode, whatever was typed before. */
  lemma EditThenCancel(s: PageState, c: Category)
    ensures EditClick(s, c).description == c.description && EditClick(s, c).editingCategoryId == Some(c.id)
    ensures CancelEdit(EditClick(s, c)) == CancelEdit(s)
    ensures CancelEdit(s) == PageState(s.categories, "", None)
  {
  }

  /** A declined delete does nothing; a conflict gets the "in use" notice,
      any other failure the generic one, and a success the reloaded list. */
  lemma DeleteNotices(s: PageState, id: string, response: Response<()>, reload: Response<seq<Category>>)
    ensures DeleteCategory(s, id, false, response, reload) == Outcome(s, None, NoToast)
    ensures var o := DeleteCategory(s, id, true, response, reload);
      && o.request == Some(Delete("/categories/" + id))
      && (response.Ok? ==> o.state == Load(s, reload) && o.toast == SuccessToast(CategoryDeleted))
      && (response.Failed? ==> o.state == s)
      && (response.Failed? && HasStatus(response.error, 409) ==> o.toast == ErrorToast(CategoryInUse))
      && (response.Failed? && !HasStatus(response.error, 409) ==> o.toast == ErrorToast(DeleteFailed))
  {
  }

  // ---------------------------------------------------------------------

  class AdminCategoriesPage {
    var categories: seq<Category>
    var description: string
    var editingCategoryId: Option<string>

    function State(): PageState
      reads this
    {
      PageState(categories, description, editingCategoryId)
    }

    constructor ()
      ensures State() == Initial()
    {
      categories, description, editingCategoryId := [], "", None;
    }

    method FetchCategories(response: Response<seq<Category>>)
      modifies this
      ensures State() == Load(old(State()), response)
    {
      if response.Ok? {
        categories := response.data;
      }
    }

    method SetDescription(text: string)
      modifies this
      ensures State() == old(State()).(description := text)
    {
      description := text;
    }

    method HandleEditClick(c: Category)
      modifies this
      ensures State() == EditClick(old(State()), c)
    {
      description := c.description;
      editingCategoryId := Some(c.id);
    }

    method HandleCancelEdit()
      modifies this
      ensures State() == CancelEdit(old(State()))
    {
      description := "";
      editingCategoryId := None;
    }

    method HandleSubmit(response: Response<()>, reload: Response<seq<Category>>)
      returns (request: Option<Request<CategoryBody>>, toast: Toast)
      modifies this
      ensures Outcome(State(), request, toast) == Submit(old(State()), response, reload)
    {
      if |description| < MinDescription {
        return None, ErrorToast(TooShort);
      }
      var body := CategoryBody(description);
      var editing := editingCategoryId.Some? && editingCategoryId.value != "";
      if editing {
        request := Some(Put("/categories/" + editingCategoryId.value, body));
      } else {
        request := Some(Post("/categories", body));
      }
      match response {
        case Ok(_) =>
          toast := SuccessToast(if editing then CategoryUpdated else CategoryCreated);
          HandleCancelEdit();
          FetchCategories(reload);
        case Failed(e) =>
          if e.HttpError? && e.status == 409 {
            toast := ErrorToast(e.message);
          } else {
            toast := ErrorToast(FirstErrorOr(e, SaveFallback, Unexpected));
          }
      }
    }

    method HandleDelete(id: string, confirmed: bool, response: Response<()>, reload: Response<seq<Category>>)
      returns (request: Option<Request<CategoryBody>>, toast: Toast)
      modifies this
      ensures Outcome(State(), request, toast) == DeleteCategory(old(State()), id, confirmed, response, reload)
    {
      if !confirmed {
        return None, NoToast;
      }
      request := Some(Delete("/categories/" + id));
      match response {
        case Ok(_) =>
          toast := SuccessToast(CategoryDeleted);
          FetchCategories(reload);
        case Failed(e) =>
          toast := ErrorToast(if e.HttpError? && e.status == 409 then CategoryInUse else DeleteFailed);
      }
    }
  }
}
