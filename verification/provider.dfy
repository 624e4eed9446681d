/**
 * The shared application state provider: the in-memory medicines, favourites,
 * ads and chat history, the loading flag, and every operation that changes
 * them. Each call to the remote data store is replaced by an `Outcome`
 * parameter carrying what the store answered; the local state changes only
 * when that answer is `Ok`.
 */
module Provider {
  import opened Types
  import opened Seqs

  datatype State = State(
    medicines: seq<Medicine>,
    favorites: set<string>,
    ads: seq<AdImage>,
    chatHistory: seq<ChatMessage>,
    isLoading: bool)

  /** The state on first mount: empty collections, and loading until the first fetch settles. */
  function Initial(): (s: State)
    ensures s.isLoading
    ensures s.medicines == [] && s.ads == [] && s.chatHistory == [] && s.favorites == {}
  {
    State([], {}, [], [], true)
  }

  // ---------------------------------------------------------------------------
  // Row <-> entity mapping

  /** A `medicines` row as the data store returns it (column names kept). */
  datatype MedicineRow = MedicineRow(
    id: string,
    name: string,
    kind: MedicineType,
    price: real,
    is_available: bool,
    image_url: Option<string>)

  /** The entity a fetched row becomes. */
  function FromRow(row: MedicineRow): Medicine
  {
    Medicine(row.id, row.name, row.kind, row.price, row.is_available, row.image_url)
  }

  /** The row an entity corresponds to. */
  function ToRow(m: Medicine): MedicineRow
  {
    MedicineRow(m.id, m.name, m.kind, m.price, m.isAvailable, m.imageUrl)
  }

  /** The fetch mapping loses nothing: rows and entities correspond one to one. */
  lemma RowMappingRoundTrip(row: MedicineRow, m: Medicine)
    ensures ToRow(FromRow(row)) == row
    ensures FromRow(ToRow(m)) == m
    ensures FromRow(row).isAvailable == row.is_available && FromRow(row).imageUrl == row.image_url
  {
  }

  /** Every row of a fetch result mapped to an entity, in the order the store returned them. */
  function FromRows(rows: seq<MedicineRow>): (ms: seq<Medicine>)
    ensures |ms| == |rows|
    ensures forall i :: 0 <= i < |rows| ==> ToRow(ms[i]) == rows[i]
  {
    seq(|rows|, i requires 0 <= i < |rows| => FromRow(rows[i]))
  }

  // ---------------------------------------------------------------------------
  // Initial load

  /** The start of a fetch: the loading flag goes up, nothing else changes. */
  function BeginFetch(s: State): (r: State)
    ensures r.isLoading
    ensures r.(isLoading := s.isLoading) == s
  {
    s.(isLoading := true)
  }

  /**
   * The settling of a fetch, given what the two queries answered. Either error
   * aborts the whole fetch; the loading flag comes down in every case.
   */
  function FetchData(s: State, meds: Outcome<seq<MedicineRow>>, ads: Outcome<seq<AdImage>>): (r: State)
    ensures !r.isLoading
    ensures r.favorites == s.favorites && r.chatHistory == s.chatHistory
    ensures meds.Err? || ads.Err? ==> r.medicines == s.medicines && r.ads == s.ads
    ensures meds.Ok? && ads.Ok? ==>
      && r.ads == ads.value
      && |r.medicines| == |meds.value|
      && forall i :: 0 <= i < |meds.value| ==> ToRow(r.medicines[i]) == meds.value[i]
  {
    if meds.Err? || ads.Err? then s.(isLoading := false)
    else s.(medicines := FromRows(meds.value), ads := ads.value, isLoading := false)
  }

  /** The whole session start: initial state, then one fetch that settles. */
  lemma MountLoadsOnce(meds: Outcome<seq<MedicineRow>>, ads: Outcome<seq<AdImage>>)
    ensures Initial().isLoading && BeginFetch(Initial()).isLoading
    ensures !FetchData(BeginFetch(Initial()), meds, ads).isLoading
    ensures meds.Err? || ads.Err? ==>
      FetchData(BeginFetch(Initial()), meds, ads) == Initial().(isLoading := false)
  {
  }

  // ---------------------------------------------------------------------------
  // Adding a medicine

  /** The columns sent when creating a medicine. */
  datatype MedicineInsert = MedicineInsert(name: string, kind: MedicineType, price: real, is_available: bool)

  /** The insert payload: name, kind, price and availability, and nothing else. */
  function InsertPayload(med: NewMedicine): (p: MedicineInsert)
    ensures p.name == med.name && p.kind == med.kind && p.price == med.price && p.is_available == med.isAvailable
  {
    MedicineInsert(med.name, med.kind, med.price, med.isAvailable)
  }

  /** The image reference never reaches the store on creation. */
  lemma InsertPayloadIgnoresImage(med: NewMedicine, url: Option<string>)
    ensures InsertPayload(med.(imageUrl := url)) == InsertPayload(med)
  {
  }

  /** The entity built from the row a successful insert returned; it has no image reference. */
  function FromInsertedRow(row: MedicineRow): (m: Medicine)
    ensures m.imageUrl == None
    ensures m == FromRow(row).(imageUrl := None)
  {
    Medicine(row.id, row.name, row.kind, row.price, row.is_available, None)
  }

  /** `addMedicine`: on success the new entity goes in front of the list. */
  function AddMedicine(s: State, inserted: Outcome<MedicineRow>): (r: State)
    ensures inserted.Err? ==> r == s
    ensures inserted.Ok? ==>
      && |r.medicines| == |s.medicines| + 1
      && r.medicines[0] == FromInsertedRow(inserted.value)
      && r.medicines[0].id == inserted.value.id
      && r.medicines[0].imageUrl.None?
      && r.medicines[1..] == s.medicines
      && r.(medicines := s.medicines) == s
  {
    if inserted.Err? then s
    else s.(medicines := [FromInsertedRow(inserted.value)] + s.medicines)
  }

  /** When the store echoes the submitted columns, the new head is the submitted medicine, minus its image. */
  lemma AddMedicineEchoesInput(s: State, med: NewMedicine, row: MedicineRow)
    requires row.name == InsertPayload(med).name && row.kind == InsertPayload(med).kind
    requires row.price == InsertPayload(med).price && row.is_available == InsertPayload(med).is_available
    ensures AddMedicine(s, Ok(row)).medicines[0] ==
      Medicine(row.id, med.name, med.kind, med.price, med.isAvailable, None)
  {
  }

  // ---------------------------------------------------------------------------
  // Removing

  /** The medicines whose id differs from `id`, in order. */
  function WithoutMedicine(ms: seq<Medicine>, id: string): (r: seq<Medicine>)
    ensures forall m :: m in r <==> m in ms && m.id != id
    ensures IsSubsequence(r, ms)
  {
    Filter(ms, (m: Medicine) => m.id != id)
  }

  /** `removeMedicine`: on success no medicine with that id remains; the rest keep their order. */
  function RemoveMedicine(s: State, id: string, deleted: Outcome<()>): (r: State)
    ensures deleted.Err? ==> r == s
    ensures deleted.Ok? ==>
      && (forall m :: m in r.medicines ==> m.id != id)
      && (forall m :: m in s.medicines && m.id != id ==> m in r.medicines)
      && IsSubsequence(r.medicines, s.medicines)
      && r.(medicines := s.medicines) == s
  {
    if deleted.Err? then s else s.(medicines := WithoutMedicine(s.medicines, id))
  }

  /** The ads whose id differs from `id`, in order. */
  function WithoutAd(ads: seq<AdImage>, id: string): (r: seq<AdImage>)
    ensures forall a :: a in r <==> a in ads && a.id != id
    ensures IsSubsequence(r, ads)
  {
    Filter(ads, (a: AdImage) => a.id != id)
  }

  /** `removeAd`: on success no ad with that id remains; the rest keep their order. */
  function RemoveAd(s: State, id: string, deleted: Outcome<()>): (r: State)
    ensures deleted.Err? ==> r == s
    ensures deleted.Ok? ==>
      && (forall a :: a in r.ads ==> a.id != id)
      && (forall a :: a in s.ads && a.id != id ==> a in r.ads)
      && IsSubsequence(r.ads, s.ads)
      && r.(ads := s.ads) == s
  {
    if deleted.Err? then s else s.(ads := WithoutAd(s.ads, id))
  }

  /** The ids present in a medicine list. */
  ghost function MedicineIds(ms: seq<Medicine>): set<string>
  {
    set m | m in ms :: m.id
  }

  /** Adding a medicine with a fresh id and then deleting it restores the state. */
  lemma {:induction false} RemoveUndoesAdd(s: State, row: MedicineRow)
    requires row.id !in MedicineIds(s.medicines)
    ensures RemoveMedicine(AddMedicine(s, Ok(row)), row.id, Ok(())) == s
  {
    var keep := (m: Medicine) => m.id != row.id;
    var added := [FromInsertedRow(row)] + s.medicines;
    assert added[1..] == s.medicines;
    assert Filter(added, keep) == Filter(s.medicines, keep);
    forall m | m in s.medicines ensures keep(m) {
      assert m.id in MedicineIds(s.medicines);
    }
    FilterKeepsAll(s.medicines, keep);
  }

  // ---------------------------------------------------------------------------
  // Updating a medicine

  /** A partial medicine: every property may be absent (TypeScript's Partial<Medicine>). */
  datatype Patch = Patch(
    id: Option<string>,
    name: Option<string>,
    kind: Option<MedicineType>,
    price: Option<real>,
    isAvailable: Option<bool>,
    imageUrl: Option<Option<string>>)

  const EmptyPatch: Patch := Patch(None, None, None, None, None, None)

  function Pick<T>(o: Option<T>, prior: T): T
  {
    if o.Some? then o.value else prior
  }

  /** The object spread `{ ...m, ...p }`: properties present in `p` win. */
  function Merge(m: Medicine, p: Patch): Medicine
  {
    Medicine(
      Pick(p.id, m.id), Pick(p.name, m.name), Pick(p.kind, m.kind),
      Pick(p.price, m.price), Pick(p.isAvailable, m.isAvailable), Pick(p.imageUrl, m.imageUrl))
  }

  /** A patch in which later properties override earlier ones. */
  function Then(p: Patch, q: Patch): Patch
  {
    Patch(
      if q.id.Some? then q.id else p.id,
      if q.name.Some? then q.name else p.name,
      if q.kind.Some? then q.kind else p.kind,
      if q.price.Some? then q.price else p.price,
      if q.isAvailable.Some? then q.isAvailable else p.isAvailable,
      if q.imageUrl.Some? then q.imageUrl else p.imageUrl)
  }

  /** Merging is an override: absent properties keep their values, present ones win, and repeats change nothing. */
  lemma MergeLaws(m: Medicine, p: Patch, q: Patch)
    ensures Merge(m, EmptyPatch) == m
    ensures Merge(Merge(m, p), p) == Merge(m, p)
    ensures Merge(Merge(m, p), q) == Merge(m, Then(p, q))
    ensures (p.id.None? ==> Merge(m, p).id == m.id) && (p.id.Some? ==> Merge(m, p).id == p.id.value)
    ensures (p.name.None? ==> Merge(m, p).name == m.name) && (p.name.Some? ==> Merge(m, p).name == p.name.value)
    ensures (p.kind.None? ==> Merge(m, p).kind == m.kind) && (p.kind.Some? ==> Merge(m, p).kind == p.kind.value)
    ensures (p.price.None? ==> Merge(m, p).price == m.price) && (p.price.Some? ==> Merge(m, p).price == p.price.value)
    ensures (p.isAvailable.None? ==> Merge(m, p).isAvailable == m.isAvailable)
      && (p.isAvailable.Some? ==> Merge(m, p).isAvailable == p.isAvailable.value)
    ensures (p.imageUrl.None? ==> Merge(m, p).imageUrl == m.imageUrl)
      && (p.imageUrl.Some? ==> Merge(m, p).imageUrl == p.imageUrl.value)
  {
  }

  /** The columns sent when updating a medicine; absent ones are left alone by the store. */
  datatype MedicineUpdate = MedicineUpdate(
    name: Option<string>,
    kind: Option<MedicineType>,
    price: Option<real>,
    is_available: Option<bool>)

  /**
   * The `dbUpdate` object built from a patch. Name and price are sent only
   * when truthy (a non-empty string, a non-zero number); the kind is always
   * truthy, its labels being non-empty; availability is sent whenever it is
   * defined. The id and the image reference are never sent.
   */
  function UpdatePayload(p: Patch): (u: MedicineUpdate)
    ensures u.name.Some? <==> p.name.Some? && p.name.value != ""
    ensures u.price.Some? <==> p.price.Some? && p.price.value != 0.0
    ensures u.kind == p.kind && u.is_available == p.isAvailable
    ensures u.name.Some? ==> u.name == p.name
    ensures u.price.Some? ==> u.price == p.price
  {
    MedicineUpdate(
      if p.name.Some? && p.name.value != "" then p.name else None,
      if p.kind.Some? && Label(p.kind.value) != "" then p.kind else None,
      if p.price.Some? && p.price.value != 0.0 then p.price else None,
      p.isAvailable)
  }

  /** What the data store does with an update payload: it sets exactly the columns sent. */
  function ApplyUpdate(row: MedicineRow, u: MedicineUpdate): MedicineRow
  {
    MedicineRow(
      row.id, Pick(u.name, row.name), Pick(u.kind, row.kind),
      Pick(u.price, row.price), Pick(u.is_available, row.is_available), row.image_url)
  }

  /** A patch whose name and price, when present, are truthy, and that leaves id and image alone. */
  predicate SentInFull(p: Patch)
  {
    && p.id.None? && p.imageUrl.None?
    && (p.name.Some? ==> p.name.value != "")
    && (p.price.Some? ==> p.price.value != 0.0)
  }

  /** For such a patch the stored row and the merged local entity agree after the update. */
  lemma UpdatePayloadAgreesWithMerge(m: Medicine, p: Patch)
    requires SentInFull(p)
    ensures ApplyUpdate(ToRow(m), UpdatePayload(p)) == ToRow(Merge(m, p))
  {
  }

  /**
   * A zero price or an empty name is merged locally but not sent, so the
   * local entity and the stored row disagree once the update succeeds.
   */
  lemma UpdatePayloadDivergesOnFalsy(m: Medicine, p: Patch)
    requires (p.price == Some(0.0) && m.price != 0.0) || (p.name == Some("") && m.name != "")
    ensures p.price == Some(0.0) ==>
      Merge(m, p).price == 0.0 && ApplyUpdate(ToRow(m), UpdatePayload(p)).price == m.price
    ensures p.name == Some("") ==>
      Merge(m, p).name == "" && ApplyUpdate(ToRow(m), UpdatePayload(p)).name == m.name
    ensures ApplyUpdate(ToRow(m), UpdatePayload(p)) != ToRow(Merge(m, p))
  {
  }

  /** Each medicine with id `id` shallow-merged with `p`; the others as they were. */
  function MergeWhere(ms: seq<Medicine>, id: string, p: Patch): (r: seq<Medicine>)
    ensures |r| == |ms|
    ensures forall i :: 0 <= i < |ms| && ms[i].id != id ==> r[i] == ms[i]
    ensures forall i :: 0 <= i < |ms| && ms[i].id == id ==> r[i] == Merge(ms[i], p)
  {
    seq(|ms|, i requires 0 <= i < |ms| => if ms[i].id == id then Merge(ms[i], p) else ms[i])
  }

  /** `updateMedicine`: on success every entry with that id is merged with the patch, the rest untouched. */
  function UpdateMedicine(s: State, id: string, p: Patch, updated: Outcome<()>): (r: State)
    ensures updated.Err? ==> r == s
    ensures updated.Ok? ==>
      && |r.medicines| == |s.medicines|
      && (forall i :: 0 <= i < |s.medicines| && s.medicines[i].id != id ==> r.medicines[i] == s.medicines[i])
      && (forall i :: 0 <= i < |s.medicines| && s.medicines[i].id == id ==>
            && r.medicines[i].name == Pick(p.name, s.medicines[i].name)
            && r.medicines[i].price == Pick(p.price, s.medicines[i].price)
            && r.medicines[i].kind == Pick(p.kind, s.medicines[i].kind)
            && r.medicines[i].isAvailable == Pick(p.isAvailable, s.medicines[i].isAvailable)
            && r.medicines[i].imageUrl == Pick(p.imageUrl, s.medicines[i].imageUrl)
            && r.medicines[i].id == Pick(p.id, id))
      && r.(medicines := s.medicines) == s
  {
    if updated.Err? then s else s.(medicines := MergeWhere(s.medicines, id, p))
  }

  /** An empty patch changes nothing, and a patch without an id keeps the list's ids in place. */
  lemma UpdateMedicineLaws(s: State, id: string, p: Patch)
    ensures UpdateMedicine(s, id, EmptyPatch, Ok(())) == s
    ensures p.id.None? ==>
      forall i :: 0 <= i < |s.medicines| ==> UpdateMedicine(s, id, p, Ok(())).medicines[i].id == s.medicines[i].id
  {
    assert MergeWhere(s.medicines, id, EmptyPatch) == s.medicines;
  }

  // ---------------------------------------------------------------------------
  // Favourites

  /** `toggleFavorite`: flips the membership of `id` and of no other id. */
  function ToggleFavorite(s: State, id: string): (r: State)
    ensures id in r.favorites <==> id !in s.favorites
    ensures forall x :: x != id ==> (x in r.favorites <==> x in s.favorites)
    ensures r.(favorites := s.favorites) == s
  {
    s.(favorites := if id in s.favorites then s.favorites - {id} else s.favorites + {id})
  }

  /** Toggling the same id twice restores the favourites. */
  lemma ToggleTwiceRestores(s: State, id: string)
    ensures ToggleFavorite(ToggleFavorite(s, id), id) == s
  {
  }

  // ---------------------------------------------------------------------------
  // Ads

  /** `addAd`: on success the row the store returned goes in front of the ads, as it is. */
  function AddAd(s: State, inserted: Outcome<AdImage>): (r: State)
    ensures inserted.Err? ==> r == s
    ensures inserted.Ok? ==>
      && |r.ads| == |s.ads| + 1
      && r.ads[0] == inserted.value
      && r.ads[1..] == s.ads
      && r.(ads := s.ads) == s
  {
    if inserted.Err? then s else s.(ads := [inserted.value] + s.ads)
  }

  /** The ids present in an ad list. */
  ghost function AdIds(ads: seq<AdImage>): set<string>
  {
    set a | a in ads :: a.id
  }

  /** Adding an ad with a fresh id and then deleting it restores the state. */
  lemma {:induction false} RemoveAdUndoesAddAd(s: State, ad: AdImage)
    requires ad.id !in AdIds(s.ads)
    ensures RemoveAd(AddAd(s, Ok(ad)), ad.id, Ok(())) == s
  {
    var keep := (a: AdImage) => a.id != ad.id;
    var added := [ad] + s.ads;
    assert added[1..] == s.ads;
    assert Filter(added, keep) == Filter(s.ads, keep);
    forall a | a in s.ads ensures keep(a) {
      assert a.id in AdIds(s.ads);
    }
    FilterKeepsAll(s.ads, keep);
  }

  // ---------------------------------------------------------------------------
  // Chat

  /**
   * `addToChat`: appends one message with the given text and sender. The id
   * and timestamp come from the clock, here passed in.
   */
  function AddToChat(s: State, text: string, sender: Sender, id: string, timestamp: int): (r: State)
    ensures |r.chatHistory| == |s.chatHistory| + 1
    ensures r.chatHistory[..|s.chatHistory|] == s.chatHistory
    ensures Last(r.chatHistory).text == text && Last(r.chatHistory).sender == sender
    ensures Last(r.chatHistory).id == id && Last(r.chatHistory).timestamp == timestamp
    ensures r.(chatHistory := s.chatHistory) == s
  {
    s.(chatHistory := s.chatHistory + [ChatMessage(id, text, sender, timestamp)])
  }

  function Last<T>(s: seq<T>): T
    requires |s| > 0
  {
    s[|s| - 1]
  }

  /** Messages are kept in call order: two appends leave the first before the second. */
  lemma AddToChatInOrder(s: State, t1: string, s1: Sender, id1: string, ts1: int,
                         t2: string, s2: Sender, id2: string, ts2: int)
    ensures AddToChat(AddToChat(s, t1, s1, id1, ts1), t2, s2, id2, ts2).chatHistory ==
      s.chatHistory + [ChatMessage(id1, t1, s1, ts1), ChatMessage(id2, t2, s2, ts2)]
  {
  }
}
