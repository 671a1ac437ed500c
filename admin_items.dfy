/** The catalogue administration page: the category filter, the item form
    with its create and edit modes, and the reload that picks a default
    category for the form. */
module AdminItems {
  import opened Common

  /** The form's fields; the price is the text typed in. */
  datatype ItemForm = ItemForm(description: string, unitPrice: string, categoryId: string)

  /** The body of the write request. `parseFloat` of the price text is not
      modelled: the body carries the text. */
  datatype ItemBody = ItemBody(description: string, unitPrice: string, categoryId: string)

  /** The answers of `GET /items` and `GET /categories`, which are awaited
      together, so either both arrive or neither is used. */
  datatype Catalog = Catalog(items: seq<MenuItem>, categories: seq<Category>)

  datatype PageState = PageState(items: seq<MenuItem>, categories: seq<Category>, form: ItemForm,
                                 editingItemId: Option<string>, categoryFilter: string)

  /** The page's outcome of one handler: the state, the request sent and the notice. */
  datatype Outcome = Outcome(state: PageState, request: Option<Request<ItemBody>>, toast: Toast)

  const InitialForm := ItemForm("", "", "")
  const AllCategories := "all"

  const ItemUpdated := "Item atualizado com sucesso!"
  const ItemCreated := "Item criado com sucesso!"
  const SaveFallback := "Erro ao guardar o item."
  const Unexpected := "Ocorreu um erro inesperado."
  const ItemDeleted := "Item apagado com sucesso."
  const DeleteFailed := "Não foi possível apagar o item."

  /** `items.filter(item => categoryFilter === 'all' || item.categoryId === categoryFilter)` */
  function FilteredItems(items: seq<MenuItem>, filter: string): (r: seq<MenuItem>)
    ensures |r| <= |items|
  {
    if items == [] then []
    else if filter == AllCategories || items[0].categoryId == filter
    then [items[0]] + FilteredItems(items[1..], filter)
    else FilteredItems(items[1..], filter)
  }

  function DefaultCategoryId(categories: seq<Category>): string {
    if |categories| > 0 then categories[0].id else ""
  }

  function Initial(): PageState {
    PageState([], [], InitialForm, None, AllCategories)
  }

  /** `fetchData`, with `editing` the edit id the handler that called it
      saw: a loaded catalogue replaces both lists and, when not editing,
      puts the first category in the form. */
  function Load(s: PageState, loaded: Option<Catalog>, editing: Option<string>): PageState {
    match loaded
    case None => s
    case Some(c) =>
      var form := if |c.categories| > 0 && !Editing(editing) then s.form.(categoryId := c.categories[0].id) else s.form;
      s.(items := c.items, categories := c.categories, form := form)
  }

  /** `handleEditClick`. */
  function EditClick(s: PageState, item: MenuItem): PageState {
    s.(form := ItemForm(item.description, item.unitPrice, item.categoryId), editingItemId := Some(item.id))
  }

  /** `handleCancelEdit`. */
  function CancelEdit(s: PageState): PageState {
    s.(form := InitialForm.(categoryId := DefaultCategoryId(s.categories)), editingItemId := None)
  }

  /** `handleSubmit`. On success the form is reset as Cancel does and the
      catalogue reloaded; that reload's closure still sees the edit id from
      before the submit. */
  function Submit(s: PageState, response: Response<()>, reload: Option<Catalog>): Outcome {
    var body := ItemBody(s.form.description, s.form.unitPrice, s.form.categoryId);
    var request := if Editing(s.editingItemId) then Put("/items/" + s.editingItemId.value, body)
                   else Post("/items", body);
    match response
    case Ok(_) =>
      var toast := SuccessToast(if Editing(s.editingItemId) then ItemUpdated else ItemCreated);
      Outcome(Load(CancelEdit(s), reload, s.editingItemId), Some(request), toast)
    case Failed(e) =>
      Outcome(s, Some(request), ErrorToast(FirstErrorOr(e, SaveFallback, Unexpected)))
  }

  /** `handleDelete`; `confirmed` is the answer to the confirmation dialog. */
  function DeleteItem(s: PageState, id: string, confirmed: bool, response: Response<()>,
                      reload: Option<Catalog>): Outcome {
    if !confirmed then Outcome(s, None, NoToast)
    else
      match response
      case Ok(_) => Outcome(Load(s, reload, s.editingItemId), Some(Delete("/items/" + id)), SuccessToast(ItemDeleted))
      case Failed(_) => Outcome(s, Some(Delete("/items/" + id)), ErrorToast(DeleteFailed))
  }

  // ---------------------------------------------------------------------

  /** The "all" filter keeps every item. */
  lemma {:induction false} FilterAllKeepsEverything(items: seq<MenuItem>)
    ensures FilteredItems(items, AllCategories) == items
  {
    if items != [] {
      FilterAllKeepsEverything(items[1..]);
      assert items == [items[0]] + items[1..];
    }
  }

  /** Any other filter keeps exactly the items of that category. */
  lemma {:induction false} FilterCategoryMembers(items: seq<MenuItem>, filter: string)
    requires filter != AllCategories
    ensures forall x :: x in FilteredItems(items, filter) <==> x in items && x.categoryId == filter
  {
    if items != [] {
      FilterCategoryMembers(items[1..], filter);
      assert items == [items[0]] + items[1..];
    }
  }

  /** Filtering keeps the catalogue order: it commutes with concatenation. */
  lemma {:induction false} FilterConcat(a: seq<MenuItem>, b: seq<MenuItem>, filter: string)
    ensures FilteredItems(a + b, filter) == FilteredItems(a, filter) + FilteredItems(b, filter)
  {
    if a == [] {
      assert a + b == b;
    } else {
      assert (a + b)[0] == a[0];
      assert (a + b)[1..] == a[1..] + b;
      FilterConcat(a[1..], b, filter);
    }
  }

  /** Edit copies the item's description, price and category into the form
      and enters edit mode for its id; nothing else changes. */
  lemma EditClickFills(s: PageState, item: MenuItem)
    ensures var r := EditClick(s, item);
      && r.form.description == item.description && r.form.unitPrice == item.unitPrice
      && r.form.categoryId == item.categoryId && r.editingItemId == Some(item.id)
      && r.items == s.items && r.categories == s.categories && r.categoryFilter == s.categoryFilter
  {
  }

  /** Cancel empties description and price, picks the first category (or
      none when there is none) and leaves edit mode. */
  lemma CancelResets(s: PageState)
    ensures var r := CancelEdit(s);
      && r.form.description == "" && r.form.unitPrice == ""
      && (|s.categories| > 0 ==> r.form.categoryId == s.categories[0].id)
      && (|s.categories| == 0 ==> r.form.categoryId == "")
      && r.editingItemId == None && r.items == s.items && r.categories == s.categories
  {
  }

  /** Submit sends PUT `/items/{id}` in edit mode and POST `/items`
      otherwise, with the form's fields as the body. */
  lemma SubmitRequest(s: PageState, response: Response<()>, reload: Option<Catalog>)
    ensures var o := Submit(s, response, reload);
      var body := ItemBody(s.form.description, s.form.unitPrice, s.form.categoryId);
      && (Editing(s.editingItemId) ==> o.request == Some(Put("/items/" + s.editingItemId.value, body)))
      && (!Editing(s.editingItemId) ==> o.request == Some(Post("/items", body)))
  {
  }

  /** A successful submit resets the form as Cancel does; without a reload
      the state is exactly Cancel's. */
  lemma SubmitSuccessResets(s: PageState, reload: Option<Catalog>)
    ensures var o := Submit(s, Ok(()), reload);
      && o.state.editingItemId == None
      && o.state.form.description == "" && o.state.form.unitPrice == ""
      && (reload.None? ==> o.state == CancelEdit(s))
  {
  }

  /** A failed save keeps the form and shows the first server message, the
      fallback, or the "unexpected" notice. */
  lemma SubmitFailureNotice(s: PageState, e: ApiError, reload: Option<Catalog>)
    ensures var o := Submit(s, Failed(e), reload);
      && o.state == s
      && (e.HttpError? && e.firstError != "" ==> o.toast == ErrorToast(e.firstError))
      && (e.HttpError? && e.firstError == "" ==> o.toast == ErrorToast(SaveFallback))
      && (e.NoResponse? ==> o.toast == ErrorToast(Unexpected))
  {
  }

  /** After a load with categories, outside edit mode, the form's category
      is the first category's id; in edit mode the form is kept. */
  lemma LoadPicksDefaultCategory(s: PageState, c: Catalog, editing: Option<string>)
    ensures var r := Load(s, Some(c), editing);
      && r.items == c.items && r.categories == c.categories
      && (|c.categories| > 0 && !Editing(editing) ==> r.form.categoryId == c.categories[0].id)
      && (Editing(editing) ==> r.form == s.form)
  {
  }

  /** After a successful create with a catalogue reloaded, the form's
      category is the first reloaded category; after a successful edit it
      is the first category of the list loaded before. */
  lemma SubmitReloadCategory(s: PageState, c: Catalog)
    requires |c.categories| > 0
    ensures var o := Submit(s, Ok(()), Some(c));
      && (!Editing(s.editingItemId) ==> o.state.form.categoryId == c.categories[0].id)
      && (Editing(s.editingItemId) ==> o.state.form.categoryId == DefaultCategoryId(s.categories))
  {
  }

  /** A declined delete does nothing; a confirmed one sends DELETE
      `/items/{id}`, reloads on success with the success notice, and keeps
      the state with the generic notice on failure. */
  lemma DeleteNotices(s: PageState, id: string, response: Response<()>, reload: Option<Catalog>)
    ensures DeleteItem(s, id, false, response, reload) == Outcome(s, None, NoToast)
    ensures var o := DeleteItem(s, id, true, response, reload);
      && o.request == Some(Delete("/items/" + id))
      && (response.Ok? ==> o.state == Load(s, reload, s.editingItemId) && o.toast == SuccessToast(ItemDeleted))
      && (response.Failed? ==> o.state == s && o.toast == ErrorToast(DeleteFailed))
  {
  }

  // ---------------------------------------------------------------------

  class AdminItemsPage {
    var items: seq<MenuItem>
    var categories: seq<Category>
    var form: ItemForm
    var editingItemId: Option<string>
    var categoryFilter: string

    function State(): PageState
      reads this
    {
      PageState(items, categories, form, editingItemId, categoryFilter)
    }

    constructor ()
      ensures State() == Initial()
    {
      items, categories, form, editingItemId, categoryFilter := [], [], InitialForm, None, AllCategories;
    }

    method FetchData(loaded: Option<Catalog>, editing: Option<string>)
      modifies this
      ensures State() == Load(old(State()), loaded, editing)
    {
      if loaded.Some? {
        items := loaded.value.items;
        categories := loaded.value.categories;
        if |loaded.value.categories| > 0 && !(editing.Some? && editing.value != "") {
          form := form.(categoryId := loaded.value.categories[0].id);
        }
      }
    }

    method HandleEditClick(item: MenuItem)
      modifies this
      ensures State() == EditClick(old(State()), item)
    {
      form := ItemForm(item.description, item.unitPrice, item.categoryId);
      editingItemId := Some(item.id);
    }

    method HandleCancelEdit()
      modifies this
      ensures State() == CancelEdit(old(State()))
    {
      var defaultCatId := if |categories| > 0 then categories[0].id else "";
      form := InitialForm.(categoryId := defaultCatId);
      editingItemId := None;
    }

    method SetCategoryFilter(filter: string)
      modifies this
      ensures State() == old(State()).(categoryFilter := filter)
    {
      categoryFilter := filter;
    }

    method HandleSubmit(response: Response<()>, reload: Option<Catalog>)
      returns (request: Option<Request<ItemBody>>, toast: Toast)
      modifies this
      ensures Outcome(State(), request, toast) == Submit(old(State()), response, reload)
    {
      var editing := editingItemId;
      var body := ItemBody(form.description, form.unitPrice, form.categoryId);
      if editing.Some? && editing.value != "" {
        request := Some(Put("/items/" + editing.value, body));
      } else {
        request := Some(Post("/items", body));
      }
      match response {
        case Ok(_) =>
          toast := SuccessToast(if editing.Some? && editing.value != "" then ItemUpdated else ItemCreated);
          HandleCancelEdit();
          FetchData(reload, editing);
        case Failed(e) =>
          toast := ErrorToast(FirstErrorOr(e, SaveFallback, Unexpected));
      }
    }

    method HandleDelete(id: string, confirmed: bool, response: Response<()>, reload: Option<Catalog>)
      returns (request: Option<Request<ItemBody>>, toast: Toast)
      modifies this
      ensures Outcome(State(), request, toast) == DeleteItem(old(State()), id, confirmed, response, reload)
    {
      if !confirmed {
        return None, NoToast;
      }
      request := Some(Delete("/items/" + id));
      if response.Ok? {
        toast := SuccessToast(ItemDeleted);
        FetchData(reload, editingItemId);
      } else {
        toast := ErrorToast(DeleteFailed);
      }
    }
  }
}
