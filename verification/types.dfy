/**
 * The shared records of the pharmacy catalogue: medicines, promotional ads,
 * chat messages, and the two small wrappers used everywhere else (an optional
 * value, and the outcome of a call to the remote data store).
 */
module Types {

  /** A value that may be absent, like an optional property of a record. */
  datatype Option<+T> = None | Some(value: T)

  /** What a remote data-store call produced: the row(s) it returned, or an error. */
  datatype Outcome<+T> = Ok(value: T) | Err

  /** The five kinds of product the catalogue knows about. */
  datatype MedicineType = Tablet | Syrup | Injection | Suppository | Supplies

  /** Every kind, in declaration order (the order the admin form lists them in). */
  const AllMedicineTypes: seq<MedicineType> := [Tablet, Syrup, Injection, Suppository, Supplies]

  /** The label a kind is stored and displayed as (the enumeration's string value). */
  function Label(t: MedicineType): string
  {
    match t
    case Tablet => "برشام"
    case Syrup => "شراب"
    case Injection => "حقنة"
    case Suppository => "لبوس"
    case Supplies => "مستلزمات"
  }

  /** The kind whose label is `s`, if there is one. */
  function FromLabel(s: string): (r: Option<MedicineType>)
    ensures r.Some? ==> Label(r.value) == s
  {
    if s == Label(Tablet) then Some(Tablet)
    else if s == Label(Syrup) then Some(Syrup)
    else if s == Label(Injection) then Some(Injection)
    else if s == Label(Suppository) then Some(Suppository)
    else if s == Label(Supplies) then Some(Supplies)
    else None
  }

  /** There are exactly five kinds, each listed once, and their labels are distinct. */
  lemma MedicineTypeHasFiveVariants()
    ensures |AllMedicineTypes| == 5
    ensures forall t: MedicineType :: t in AllMedicineTypes
    ensures forall i, j :: 0 <= i < j < |AllMedicineTypes| ==> AllMedicineTypes[i] != AllMedicineTypes[j]
    ensures forall t: MedicineType, u: MedicineType :: Label(t) == Label(u) ==> t == u
    ensures forall t: MedicineType :: FromLabel(Label(t)) == Some(t)
  {
    forall t: MedicineType ensures t in AllMedicineTypes && FromLabel(Label(t)) == Some(t) {
      match t
      case Tablet => assert AllMedicineTypes[0] == t;
      case Syrup =>
        assert AllMedicineTypes[1] == t;
        assert Label(Syrup)[0] != Label(Tablet)[0];
      case Injection =>
        assert AllMedicineTypes[2] == t;
        assert Label(Injection)[0] != Label(Tablet)[0];
        assert Label(Injection)[0] != Label(Syrup)[0];
      case Suppository =>
        assert AllMedicineTypes[3] == t;
        assert Label(Suppository)[0] != Label(Tablet)[0];
        assert Label(Suppository)[0] != Label(Syrup)[0];
        assert Label(Suppository)[0] != Label(Injection)[0];
      case Supplies =>
        assert AllMedicineTypes[4] == t;
        assert Label(Supplies)[0] != Label(Tablet)[0];
        assert Label(Supplies)[0] != Label(Syrup)[0];
        assert Label(Supplies)[0] != Label(Injection)[0];
        assert Label(Supplies)[0] != Label(Suppository)[0];
    }
  }

  /**
   * A catalogue entry. Identity, name, kind, price and availability are always
   * present; only the image reference is optional. The price is a JavaScript
   * number in the application, modelled as a real.
   */
  datatype Medicine = Medicine(
    id: string,
    name: string,
    kind: MedicineType,
    price: real,
    isAvailable: bool,
    imageUrl: Option<string>)

  /** A medicine before the data store has given it an identity. */
  datatype NewMedicine = NewMedicine(
    name: string,
    kind: MedicineType,
    price: real,
    isAvailable: bool,
    imageUrl: Option<string>)

  /** A carousel ad: both the image URL and the caption are optional. */
  datatype AdImage = AdImage(id: string, url: Option<string>, text: Option<string>)

  /** Who wrote a chat message: the user or the assistant. */
  datatype Sender = User | Ai

  /** The tag a sender is written as. */
  function SenderTag(s: Sender): string
  {
    match s
    case User => "user"
    case Ai => "ai"
  }

  /** The sender whose tag is `tag`, if there is one. */
  function SenderFromTag(tag: string): (r: Option<Sender>)
    ensures r.Some? <==> tag == "user" || tag == "ai"
    ensures r.Some? ==> SenderTag(r.value) == tag
  {
    if tag == "user" then Some(User)
    else if tag == "ai" then Some(Ai)
    else None
  }

  /** The only tags a sender can carry are "user" and "ai", and tags identify senders. */
  lemma SenderTagsExact()
    ensures forall s: Sender :: SenderTag(s) == "user" || SenderTag(s) == "ai"
    ensures forall s: Sender :: SenderFromTag(SenderTag(s)) == Some(s)
    ensures SenderTag(User) != SenderTag(Ai)
  {
    assert SenderTag(User)[0] != SenderTag(Ai)[0];
  }

  /**
   * One entry of the chat history. The timestamp is the creation time in
   * milliseconds; the id is derived from it by the caller.
   */
  datatype ChatMessage = ChatMessage(id: string, text: string, sender: Sender, timestamp: int)
}
