/** The client's address book: the list, the address form with its create
    and edit modes, and the per-field input handler. */
module Addresses {
  import opened Common

  /** The six inputs of the form; this record is also the request body. */
  datatype AddressForm = AddressForm(street: string, number: string, district: string,
                                     city: string, state: string, zipCode: string)

  /** The `name` attribute of an input. */
  datatype Field = Street | Number | District | City | StateField | ZipCode

  datatype PageState = PageState(addresses: seq<Address>, form: AddressForm, editingAddressId: Option<string>)

  /** The page's outcome of one handler: the state, the request sent and the notice. */
  datatype Outcome = Outcome(state: PageState, request: Option<Request<AddressForm>>, toast: Toast)

  const InitialForm := AddressForm("", "", "", "", "", "")

  const AddressUpdated := "Endereço atualizado com sucesso!"
  const AddressAdded := "Endereço adicionado com sucesso!"
  const SaveFallback := "Erro ao guardar endereço."
  const Unexpected := "Ocorreu um erro inesperado."

  function Initial(): PageState {
    PageState([], InitialForm, None)
  }

  /** The form's copy of an address: every field but the id. */
  function FormOf(a: Address): AddressForm {
    AddressForm(a.street, a.number, a.district, a.city, a.state, a.zipCode)
  }

  /** The value an input shows. */
  function Get(f: AddressForm, field: Field): string {
    match field
    case Street => f.street
    case Number => f.number
    case District => f.district
    case City => f.city
    case StateField => f.state
    case ZipCode => f.zipCode
  }

  /** `handleChange`: `{...prev, [name]: value}`. */
  function Set(f: AddressForm, field: Field, value: string): AddressForm {
    match field
    case Street => f.(street := value)
    case Number => f.(number := value)
    case District => f.(district := value)
    case City => f.(city := value)
    case StateField => f.(state := value)
    case ZipCode => f.(zipCode := value)
  }

  /** `fetchAddresses`: the list the server answers with, or the current one. */
  function Load(s: PageState, response: Response<seq<Address>>): PageState {
    match response
    case Ok(data) => s.(addresses := data)
    case Failed(_) => s
  }

  function EditClick(s: PageState, a: Address): PageState {
    s.(form := FormOf(a), editingAddressId := Some(a.id))
  }

  function CancelEdit(s: PageState): PageState {
    s.(form := InitialForm, editingAddressId := None)
  }

  /** `handleSubmit`: the form is the body of PUT `/addresses/{id}` in edit
      mode and of POST `/addresses` otherwise; a success empties the form,
      leaves edit mode and awaits the reload. */
  function Submit(s: PageState, response: Response<()>, reload: Response<seq<Address>>): Outcome {
    var request := if Editing(s.editingAddressId) then Put("/addresses/" + s.editingAddressId.value, s.form)
                   else Post("/addresses", s.form);
    match response
    case Ok(_) =>
      var toast := SuccessToast(if Editing(s.editingAddressId) then AddressUpdated else AddressAdded);
      Outcome(Load(CancelEdit(s), reload), Some(request), toast)
    case Failed(e) => Outcome(s, Some(request), ErrorToast(FirstErrorOr(e, SaveFallback, Unexpected)))
  }

  // ---------------------------------------------------------------------

  /** Typing into one input changes that input's value and no other. */
  lemma SetGet(f: AddressForm, field: Field, value: string)
    ensures Get(Set(f, field, value), field) == value
    ensures forall other: Field :: other != field ==> Get(Set(f, field, value), other) == Get(f, other)
  {
  }

  /** Retyping the value an input already shows changes nothing. */
  lemma SetUnchanged(f: AddressForm, field: Field)
    ensures Set(f, field, Get(f, field)) == f
  {
  }

  /** Edit shows every field of the address in its own input and enters
      edit mode for its id; the list is kept. */
  lemma EditClickFills(s: PageState, a: Address)
    ensures var r := EditClick(s, a);
      && Get(r.form, Street) == a.street && Get(r.form, Number) == a.number
      && Get(r.form, District) == a.district && Get(r.form, City) == a.city
      && Get(r.form, StateField) == a.state && Get(r.form, ZipCode) == a.zipCode
      && r.editingAddressId == Some(a.id) && r.addresses == s.addresses
  {
  }

  /** Cancel empties every input and leaves edit mode, whatever was being
      edited. */
  lemma CancelEmpties(s: PageState, a: Address)
    ensures forall field: Field :: Get(CancelEdit(s).form, field) == ""
    ensures CancelEdit(s).editingAddressId == None
    ensures CancelEdit(EditClick(s, a)) == CancelEdit(s)
  {
  }

  /** Editing an address and saving without a change sends that address's
      own fields to its own path. */
  lemma EditThenSubmit(s: PageState, a: Address, response: Response<()>, reload: Response<seq<Address>>)
    requires a.id != ""
    ensures Submit(EditClick(s, a), response, reload).request == Some(Put("/addresses/" + a.id, FormOf(a)))
  {
  }

  /** Submit sends PUT in edit mode and POST otherwise; a success empties
      the form and leaves edit mode; a failure keeps the form and shows the
      first validation message, the fallback or the "unexpected" notice. */
  lemma SubmitOutcomes(s: PageState, response: Response<()>, reload: Response<seq<Address>>)
    ensures var o := Submit(s, response, reload);
      && (Editing(s.editingAddressId) ==> o.request == Some(Put("/addresses/" + s.editingAddressId.value, s.form)))
      && (!Editing(s.editingAddressId) ==> o.request == Some(Post("/addresses", s.form)))
      && (response.Ok? ==> o.state.form == InitialForm && o.state.editingAddressId == None
                           && o.state.addresses == (if reload.Ok? then reload.data else s.addresses))
      && (response.Failed? ==> o.state == s)
      && (response.Failed? && response.error.HttpError? && response.error.firstError != "" ==>
            o.toast == ErrorToast(response.error.firstError))
      && (response.Failed? && response.error.HttpError? && response.error.firstError == "" ==>
            o.toast == ErrorToast(SaveFallback))
      && (response.Failed? && response.error.NoResponse? ==> o.toast == ErrorToast(Unexpected))
  {
  }

  // ---------------------------------------------------------------------

  class AddressesPage {
    var addresses: seq<Address>
    var form: AddressForm
    var editingAddressId: Option<string>

    function State(): PageState
      reads this
    {
      PageState(addresses, form, editingAddressId)
    }

    constructor ()
      ensures State() == Initial()
    {
      addresses, form, editingAddressId := [], InitialForm, None;
    }

    method FetchAddresses(response: Response<seq<Address>>)
      modifies this
      ensures State() == Load(old(State()), response)
    {
      if response.Ok? {
        addresses := response.data;
      }
    }

    method HandleChange(field: Field, value: string)
      modifies this
      ensures State() == old(State()).(form := Set(old(form), field, value))
    {
      form := Set(form, field, value);
    }

    method HandleEditClick(a: Address)
      modifies this
      ensures State() == EditClick(old(State()), a)
    {
      form := FormOf(a);
      editingAddressId := Some(a.id);
    }

    method HandleCancelEdit()
      modifies this
      ensures State() == CancelEdit(old(State()))
    {
      form := InitialForm;
      editingAddressId := None;
    }

    method HandleSubmit(response: Response<()>, reload: Response<seq<Address>>)
      returns (request: Option<Request<AddressForm>>, toast: Toast)
      modifies this
      ensures Outcome(State(), request, toast) == Submit(old(State()), response, reload)
    {
      var editing := editingAddressId.Some? && editingAddressId.value != "";
      if editing {
        request := Some(Put("/addresses/" + editingAddressId.value, form));
      } else {
        request := Some(Post("/addresses", form));
      }
      match response {
        case Ok(_) =>
          toast := SuccessToast(if editing then AddressUpdated else AddressAdded);
          form := InitialForm;
          editingAddressId := None;
          FetchAddresses(reload);
        case Failed(e) =>
          toast := ErrorToast(FirstErrorOr(e, SaveFallback, Unexpected));
      }
    }

    /** The delete button's handler has an empty body: it sends nothing and
        changes nothing. */
    method HandleDeleteAddress(id: string)
      modifies this
      ensures unchanged(this)
    {
    }
  }
}
