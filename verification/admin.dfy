/**
 * The admin panel's local state machines: the passcode gate, the medicine
 * form (add, edit, cancel) and the ad form. A form action produces the new
 * form state together with the provider request it issues, if any; the
 * request is then carried out by the provider operations.
 */
module Admin {
  import opened Types
  import Provider

  // ---------------------------------------------------------------------------
  // Passcode gate

  /** The single shared passcode. */
  const Passcode: string := "011"

  /** The inline message shown after a wrong passcode. */
  const WrongPasscodeMessage: string := "كلمة المرور غير صحيحة"

  datatype Gate = Gate(authenticated: bool, password: string, error: string)

  const InitialGate: Gate := Gate(false, "", "")

  /** `handleLogin`: exact comparison with the passcode; success clears the error, failure sets it. */
  function HandleLogin(g: Gate): (r: Gate)
    ensures g.password == Passcode ==> r.authenticated && r.error == ""
    ensures g.password != Passcode ==> r.authenticated == g.authenticated && r.error != ""
    ensures r.password == g.password
  {
    if g.password == Passcode then g.(authenticated := true, error := "")
    else g.(error := WrongPasscodeMessage)
  }

  /** From a locked gate, a login opens it exactly when the typed password is the passcode. */
  lemma LoginOpensOnlyWithPasscode(g: Gate)
    requires !g.authenticated
    ensures HandleLogin(g).authenticated <==> g.password == Passcode
    ensures HandleLogin(g).error == "" <==> g.password == Passcode
  {
  }

  /** The gate starts locked, and an untouched password box does not open it. */
  lemma InitialGateIsLocked()
    ensures !InitialGate.authenticated
    ensures !HandleLogin(InitialGate).authenticated && HandleLogin(InitialGate).error != ""
  {
  }

  // ---------------------------------------------------------------------------
  // Medicine form

  /** The medicine form's fields; the price is the text typed in. */
  datatype MedForm = MedForm(
    name: string,
    kind: MedicineType,
    price: string,
    isAvailable: bool,
    editingId: Option<string>)

  const InitialMedForm: MedForm := MedForm("", Tablet, "", true, None)

  /** What a form action asks the provider to do. */
  datatype Request =
    | NoRequest
    | UpdateRequest(id: string, patch: Provider.Patch)
    | AddRequest(med: NewMedicine)

  /** `if (editingId)`: a present, non-empty id. */
  predicate IsEditing(f: MedForm)
  {
    f.editingId.Some? && f.editingId.value != ""
  }

  datatype Saved = Saved(form: MedForm, request: Request)

  /**
   * `handleSaveMed`. `parsedPrice` is what parseFloat makes of the price text.
   * Nothing happens when the name or the price text is empty; otherwise the
   * form issues an update (in edit mode, leaving it) or an add, and resets.
   */
  function HandleSaveMed(f: MedForm, parsedPrice: real): (r: Saved)
    ensures f.name == "" || f.price == "" ==> r == Saved(f, NoRequest)
    ensures f.name != "" && f.price != "" ==>
      && r.form.name == "" && r.form.kind == Tablet && r.form.price == "" && r.form.isAvailable
      && (IsEditing(f) ==>
            && r.form.editingId == None
            && r.request == UpdateRequest(f.editingId.value,
                 Provider.Patch(None, Some(f.name), Some(f.kind), Some(parsedPrice), Some(f.isAvailable), None)))
      && (!IsEditing(f) ==>
            && r.form.editingId == f.editingId
            && r.request == AddRequest(NewMedicine(f.name, f.kind, parsedPrice, f.isAvailable, None)))
  {
    if f.name == "" || f.price == "" then Saved(f, NoRequest)
    else
      var cleared := MedForm("", Tablet, "", true, f.editingId);
      if IsEditing(f) then
        Saved(cleared.(editingId := None),
              UpdateRequest(f.editingId.value,
                Provider.Patch(None, Some(f.name), Some(f.kind), Some(parsedPrice), Some(f.isAvailable), None)))
      else
        Saved(cleared, AddRequest(NewMedicine(f.name, f.kind, parsedPrice, f.isAvailable, None)))
  }

  /** `startEdit`: load a medicine into the form; `priceText` is the price's toString. */
  function StartEdit(f: MedForm, med: Medicine, priceText: string): (r: MedForm)
    ensures r.editingId == Some(med.id)
    ensures r.name == med.name && r.kind == med.kind && r.price == priceText && r.isAvailable == med.isAvailable
  {
    MedForm(med.name, med.kind, priceText, med.isAvailable, Some(med.id))
  }

  /** `cancelEdit`: leaves edit mode and clears name, price and availability, but not the kind. */
  function CancelEdit(f: MedForm): (r: MedForm)
    ensures r.editingId == None && r.name == "" && r.price == "" && r.isAvailable
    ensures r.kind == f.kind
  {
    f.(editingId := None, name := "", price := "", isAvailable := true)
  }

  /**
   * After a cancel the form is out of edit mode and a save does nothing until
   * a name and price are typed again; the untouched initial form likewise
   * saves nothing.
   */
  lemma CancelThenSaveIsNoOp(f: MedForm, parsedPrice: real)
    ensures !IsEditing(CancelEdit(f))
    ensures HandleSaveMed(CancelEdit(f), parsedPrice) == Saved(CancelEdit(f), NoRequest)
    ensures HandleSaveMed(InitialMedForm, parsedPrice) == Saved(InitialMedForm, NoRequest)
  {
  }

  /**
   * Editing a medicine and saving without changes asks for an update of that
   * medicine which, once carried out, leaves it as it was. The parsed price
   * passed to the save is the medicine's own price: the form's price text is
   * the price's `toString`, and JavaScript's `parseFloat` reads that text back
   * as the same number.
   */
  lemma EditThenSaveIsIdentity(f: MedForm, med: Medicine, priceText: string)
    requires med.id != "" && med.name != "" && priceText != ""
    ensures HandleSaveMed(StartEdit(f, med, priceText), med.price).request.UpdateRequest?
    ensures HandleSaveMed(StartEdit(f, med, priceText), med.price).request.id == med.id
    ensures Provider.Merge(med, HandleSaveMed(StartEdit(f, med, priceText), med.price).request.patch) == med
  {
  }

  /**
   * A save in edit mode, once the store accepts the update, gives the edited
   * medicine the form's name, kind, price and availability, keeps its id and
   * image, and leaves every other medicine alone.
   */
  lemma SaveInEditModeUpdatesCatalogue(s: Provider.State, f: MedForm, parsedPrice: real, i: int)
    requires f.name != "" && f.price != "" && IsEditing(f)
    requires 0 <= i < |s.medicines|
    ensures var r := HandleSaveMed(f, parsedPrice).request;
      var after := Provider.UpdateMedicine(s, r.id, r.patch, Ok(())).medicines;
      && (s.medicines[i].id == f.editingId.value ==>
            after[i] == Medicine(s.medicines[i].id, f.name, f.kind, parsedPrice, f.isAvailable, s.medicines[i].imageUrl))
      && (s.medicines[i].id != f.editingId.value ==> after[i] == s.medicines[i])
  {
  }

  // ---------------------------------------------------------------------------
  // Ad form

  datatype AdForm = AdForm(url: string, text: string)

  /** An empty text box means "not given". */
  function Given(s: string): (o: Option<string>)
    ensures o.None? <==> s == ""
    ensures o.Some? ==> o.value == s
  {
    if s == "" then None else Some(s)
  }

  /** The arguments of the provider's `addAd`, which become the inserted row's columns. */
  datatype AdInsert = AdInsert(url: Option<string>, text: Option<string>)

  datatype AdSubmitted = AdSubmitted(form: AdForm, request: Option<AdInsert>)

  /**
   * `handleAddAd`: nothing happens when both boxes are empty; otherwise the
   * ad is requested with empty boxes as absent values, and both boxes clear.
   */
  function HandleAddAd(a: AdForm): (r: AdSubmitted)
    ensures a.url == "" && a.text == "" ==> r == AdSubmitted(a, None)
    ensures a.url != "" || a.text != "" ==>
      && r.form == AdForm("", "")
      && r.request.Some?
      && (r.request.value.url.Some? <==> a.url != "")
      && (r.request.value.text.Some? <==> a.text != "")
      && (r.request.value.url.Some? ==> r.request.value.url.value == a.url)
      && (r.request.value.text.Some? ==> r.request.value.text.value == a.text)
  {
    if a.url == "" && a.text == "" then AdSubmitted(a, None)
    else AdSubmitted(AdForm("", ""), Some(AdInsert(Given(a.url), Given(a.text))))
  }

  /** The form never requests an ad with neither image nor text, though the ad record would allow it. */
  lemma AdFormRequestsSomething(a: AdForm)
    ensures HandleAddAd(a).request.Some? ==>
      HandleAddAd(a).request.value.url.Some? || HandleAddAd(a).request.value.text.Some?
  {
  }
}
