# Pharmacy catalogue: client-side state layer in Dafny

This project models the client-side state of a small pharmacy catalogue app.
The app has a storefront with search and favourites, an ad carousel, an
assistant chat, and a passcode-gated admin panel. Every state change is
written as a pure function over immutable values:

- `Types` holds the shared records. A `Medicine` always has an id, name,
  kind, price and availability; only its image reference is optional. An
  `AdImage` has an optional URL and an optional caption. A `ChatMessage` has
  a `Sender`, which is `User` or `Ai`. There are five medicine kinds.
  `Option` stands for an optional property. `Outcome` (`Ok(value)` / `Err`)
  stands for what the remote data store answered.
- `Provider` is the shared state provider. It holds the medicines, the
  favourite ids, the ads, the chat history and the loading flag. It also
  holds the fetch, add, remove and update operations for medicines and ads,
  plus favourite toggling and chat appends. Each data-store call is an
  `Outcome` parameter, so the collections change only when the call
  succeeded; a settled fetch always lowers the loading flag. This
  module also has the row↔entity mapping (`is_available`/`image_url` ↔
  `isAvailable`/`imageUrl`). It has the insert and update payloads too. The
  update payload drops a falsy name or price, so it can disagree with the
  local shallow merge. The data store's own handling of an update
  (`ApplyUpdate`: it sets exactly the columns it is sent) is modelled only so
  that this disagreement can be stated.
- `Home` is the catalogue view: the case-insensitive name search, the
  carousel timer step and the dot buttons.
- `App` is the shell: the favourites view (favourite ids joined against the
  live catalogue) and the tab selector.
- `Admin` covers the passcode gate and the medicine and ad forms. Each form
  action gives back the new form state and the provider request it makes.
- `Chat` is the assistant view. It covers the send step before and after the
  reply arrives, and the guard on the send button.
- `Seqs` (order-preserving filter, subsequence) and `Text` (ASCII lower-case,
  substring search, JavaScript `trim`) are shared helpers.

Numbers the app gets from JavaScript are passed in as parameters:
`parseFloat` of the price text, `toString` of a price, and `Date.now()`
for chat ids and timestamps. The assistant's reply is also a parameter: any
string.

Chat ids come from `Date.now()`, so the model claims no uniqueness for
them. A created medicine's entry is built from the returned row without its
image reference (context/PharmacyContext.tsx:76-82; `Provider.FromInsertedRow`).

The name `kind` stands for the source's `type` property, because `type` is
a Dafny keyword.

## Model

| member | source | states |
|---|---|---|
| Types.FromLabel | services/types.ts:2-8 | a label maps back to a kind only if it is that kind's enumeration value |
| Types.MedicineTypeHasFiveVariants | services/types.ts:2-8 | there are exactly five kinds, each listed once; their labels are distinct, and each label maps back to its kind |
| Types.SenderFromTag | services/types.ts:28 | a sender tag is accepted exactly when it is "user" or "ai", and maps back to that tag |
| Types.SenderTagsExact | services/types.ts:25-30 | every sender is written as "user" or "ai"; the two tags differ and round-trip |
| Seqs.Filter | context/PharmacyContext.tsx:90 | `Array.filter`: the result is no longer than the input; it holds exactly the elements that pass, and is empty exactly when none passes; it is a subsequence in the original order |
| Seqs.FilterCounts | context/PharmacyContext.tsx:90 | `Array.filter` keeps every copy of an element that passes, with its input multiplicity, and no copy of one that fails |
| Text.LowerChar | components/Home.tsx:13 | an upper-case ASCII letter becomes the lower-case letter 32 code points above it; characters other than A-Z are unchanged; the result is never upper-case ASCII |
| Text.Lower | components/Home.tsx:13 | lower-casing keeps the length and works one character at a time |
| Text.Contains | components/Home.tsx:13 | no contract of its own; what it computes is stated by Text.ContainsIff and Text.ContainsEmpty |
| Text.ContainsIff | components/Home.tsx:13 | `includes` holds exactly when the term occurs at some position of the string |
| Text.TrimStart | components/AIChat.tsx:23 | stripping leading whitespace gives the empty string exactly when the input is blank; otherwise the result starts with a non-space; the result is a suffix of the input and everything stripped is whitespace |
| Text.TrimEnd | components/AIChat.tsx:23 | stripping trailing whitespace gives a prefix of the input that, unless empty, ends with a non-space, strips only whitespace, and gives the empty string exactly when the input is blank |
| Text.Trim | components/AIChat.tsx:23 | no contract of its own; stated by Text.TrimStart, Text.TrimEnd and Text.TrimEmptyIffBlank |
| Text.TrimEmptyIffBlank | components/AIChat.tsx:23 | `trim()` is falsy exactly when every character is JavaScript whitespace |
| Provider.Initial | context/PharmacyContext.tsx:24-28 | the provider starts with empty collections and the loading flag set |
| Provider.RowMappingRoundTrip | context/PharmacyContext.tsx:44-51 | the row→entity mapping and its reverse invert each other; availability and image come from `is_available` and `image_url` |
| Provider.FromRow | context/PharmacyContext.tsx:44-51 | no contract of its own; stated by Provider.RowMappingRoundTrip |
| Provider.FromRows | context/PharmacyContext.tsx:44-51 | fetched rows become entities one for one, in order, each corresponding to its row |
| Provider.BeginFetch | context/PharmacyContext.tsx:35 | a fetch raises the loading flag and changes nothing else |
| Provider.FetchData | context/PharmacyContext.tsx:34-60 | the loading flag is down once the fetch settles; an error from either query leaves both collections unchanged; on success the medicines are the mapped rows and the ads are the rows as returned; favourites and chat are untouched |
| Provider.MountLoadsOnce | context/PharmacyContext.tsx:28-60 | loading is on from mount until the single fetch settles; a failed first fetch leaves empty collections |
| Provider.InsertPayload | context/PharmacyContext.tsx:63-68 | the insert carries the medicine's name, kind, price and availability |
| Provider.InsertPayloadIgnoresImage | context/PharmacyContext.tsx:63-68 | the image reference never reaches the insert payload |
| Provider.FromInsertedRow | context/PharmacyContext.tsx:76-82 | the entity built from the inserted row is the fetch mapping with no image reference |
| Provider.AddMedicine | context/PharmacyContext.tsx:62-85 | a failed insert changes nothing; a successful one adds exactly one entry in front: it is the returned row's id, name, kind, price and availability with no image, and the old list is its tail; nothing else changes |
| Provider.AddMedicineEchoesInput | context/PharmacyContext.tsx:62-85 | when the store echoes the submitted columns, the new head is the submitted medicine with the new id and no image |
| Provider.WithoutMedicine | context/PharmacyContext.tsx:90 | the remaining medicines are exactly those with another id, in their original order |
| Provider.RemoveMedicine | context/PharmacyContext.tsx:87-92 | a failed delete changes nothing; a successful one leaves no medicine with that id, keeps every other one, keeps their order, and touches nothing else |
| Provider.WithoutAd | context/PharmacyContext.tsx:126 | the remaining ads are exactly those with another id, in their original order |
| Provider.RemoveAd | context/PharmacyContext.tsx:123-128 | a failed delete changes nothing; a successful one leaves no ad with that id, keeps every other one, keeps their order, and touches nothing else |
| Provider.RemoveAdUndoesAddAd | context/PharmacyContext.tsx:116-128 | adding an ad whose id is fresh and then deleting that id gives back the original state |
| Provider.RemoveUndoesAdd | context/PharmacyContext.tsx:83-90 | adding a medicine whose id is fresh and then deleting that id gives back the original state |
| Provider.Merge | context/PharmacyContext.tsx:103 | no contract of its own; stated by Provider.MergeLaws, Provider.UpdateMedicine and Provider.UpdatePayloadAgreesWithMerge |
| Provider.MergeLaws | context/PharmacyContext.tsx:103 | the shallow merge is an override: an empty patch is the identity, re-applying a patch changes nothing, two merges are one merge of the combined patch, and for each of the six fields an absent property keeps the entity's value while a present one wins |
| Provider.UpdatePayload | context/PharmacyContext.tsx:95-99 | name and price are sent exactly when present and truthy (non-empty, non-zero); the kind is sent whenever present; availability is sent whenever defined; the id and image are never sent |
| Provider.UpdatePayloadAgreesWithMerge | context/PharmacyContext.tsx:95-103 | for a patch whose present name and price are truthy and which leaves the id and image alone, the stored row after the update equals the merged local entity |
| Provider.UpdatePayloadDivergesOnFalsy | context/PharmacyContext.tsx:96-103 | a zero price or an empty name is merged locally but not sent, so the stored row keeps the old value and differs from the local entity |
| Provider.MergeWhere | context/PharmacyContext.tsx:103 | the mapped list has the same length; entries with that id are merged with the patch and all others are unchanged |
| Provider.UpdateMedicine | context/PharmacyContext.tsx:94-105 | a failed update changes nothing; a successful one gives each entry with that id its patched fields and its prior values elsewhere, and leaves other entries and other collections unchanged |
| Provider.UpdateMedicineLaws | context/PharmacyContext.tsx:103 | an empty patch changes nothing; a patch without an id keeps every entry's id |
| Provider.ToggleFavorite | context/PharmacyContext.tsx:107-114 | the membership of the id is flipped; every other id keeps its membership; nothing else changes |
| Provider.ToggleTwiceRestores | context/PharmacyContext.tsx:107-114 | toggling the same id twice gives back the original state |
| Provider.AddAd | context/PharmacyContext.tsx:116-121 | a failed insert changes nothing; a successful one puts the returned row, as it is, in front of the unchanged ads |
| Provider.AddToChat | context/PharmacyContext.tsx:130-132 | exactly one message is appended at the end; the old history is a prefix; text, sender, id and timestamp are as given; nothing else changes |
| Provider.AddToChatInOrder | context/PharmacyContext.tsx:130-132 | two appends record the two messages in call order after the old history |
| Home.Search | components/Home.tsx:12-14 | the result is a subsequence of the catalogue, in catalogue order; a medicine is in it exactly when its lower-cased name contains the lower-cased term |
| Home.SearchFindsSubstrings | components/Home.tsx:12-14 | a medicine is found exactly when the lower-cased term occurs at some position of its lower-cased name |
| Home.EmptySearchShowsAll | components/Home.tsx:12-14 | an empty term returns the whole catalogue |
| Home.SearchIgnoresTermCase | components/Home.tsx:12-14 | a term and its lower-cased form find the same medicines |
| Home.Advance | components/Home.tsx:16-22 | with at most one ad the index never moves; otherwise the next index is in range, one further on, wrapping to 0 after the last ad |
| Home.AdvanceTimesSteps | components/Home.tsx:19 | before the last ad is reached, k firings move the index k places on |
| Home.AdvanceTimesCompose | components/Home.tsx:19 | i firings and then j firings are i + j firings |
| Home.AdvanceFullCycle | components/Home.tsx:19 | from any index on screen, as many firings as there are ads return to that index |
| Home.Dots | components/Home.tsx:78-86 | there are no dots with at most one ad; otherwise one dot per ad, and dot i stands for index i |
| Home.ClickDot | components/Home.tsx:80-83 | clicking dot k selects index k, which is within the ads |
| App.FavMeds | App.tsx:12 | the favourites view is a subsequence of the catalogue, in catalogue order; a medicine is in it exactly when its id is a favourite |
| App.FavoriteCount | App.tsx:19 | the badge shows the length of the favourites view; it is at most the catalogue size, and is zero exactly when no catalogued medicine is a favourite |
| App.OrphanFavoritesIgnored | App.tsx:12 | favourite ids that name no medicine, when added or removed, leave the view unchanged |
| App.ToggleShowsOrHides | App.tsx:12 | toggling a catalogued medicine's id adds it to the favourites view if it was not shown, and removes it if it was |
| App.RenderedViews | App.tsx:49-52 | for every tab exactly one view is rendered, namely that tab's view |
| App.InitialTabShowsHome | App.tsx:43 | the application opens on the catalogue view |
| App.TabsRenderDistinctViews | App.tsx:49-52 | different tabs render different views |
| Admin.HandleLogin | components/Admin.tsx:25-33 | the exact passcode "011" authenticates and clears the error; any other input sets a non-empty error and leaves authentication as it was |
| Admin.InitialGateIsLocked | components/Admin.tsx:9-11 | the gate starts locked, and a login with the untouched empty password fails with an error |
| Admin.LoginOpensOnlyWithPasscode | components/Admin.tsx:25-33 | from a locked gate, login opens it and clears the error exactly when the password is "011" |
| Admin.HandleSaveMed | components/Admin.tsx:35-60 | an empty name or price text is a no-op; otherwise edit mode asks for an update of the edited id with the form's four fields and leaves edit mode, other modes ask for an add, and the form resets to an empty name, Tablet, an empty price and available |
| Admin.StartEdit | components/Admin.tsx:62-67 | the form takes the medicine's id as the edited id, and its name, kind, price text and availability |
| Admin.CancelThenSaveIsNoOp | components/Admin.tsx:35-77 | after a cancel the form is not in edit mode and a save issues no request; the initial empty form saves nothing either |
| Admin.CancelEdit | components/Admin.tsx:72-77 | edit mode ends; name and price are cleared and availability is reset to true; the kind is kept |
| Admin.EditThenSaveIsIdentity | components/Admin.tsx:35-67 | loading a medicine into the form and saving it unchanged asks for an update of that medicine which merges back to the same medicine; the parsed price is taken to be the medicine's own price, which holds when the price text is its `toString` because JavaScript's number-to-string conversion round-trips through `parseFloat` |
| Admin.SaveInEditModeUpdatesCatalogue | components/Admin.tsx:38-45 | once the store accepts the update, the edited medicine carries the form's fields with its own id and image, and all other medicines are unchanged |
| Admin.Given | components/Admin.tsx:81 | an empty box is passed as absent; any other text is passed as it is |
| Admin.HandleAddAd | components/Admin.tsx:79-84 | with both boxes empty nothing happens; otherwise an ad is requested with the empty boxes as absent values and both boxes clear |
| Admin.AdFormRequestsSomething | components/Admin.tsx:79-81 | no requested ad lacks both its URL and its text |
| Chat.IsBlankText | components/AIChat.tsx:23 | `!input.trim()` holds exactly when the input is blank |
| Chat.SendEnabled | components/AIChat.tsx:136 | the send button is enabled exactly when the input is not blank and no reply is pending |
| Chat.SendStart | components/AIChat.tsx:22-29 | a blank input changes nothing; otherwise the input clears, the user's untrimmed text is appended as a user message, and the typing flag goes on |
| Chat.SendFinish | components/AIChat.tsx:30-33 | when the reply arrives the typing flag goes off and the reply is appended as an assistant message |
| Chat.HandleSend | components/AIChat.tsx:22-34 | no contract of its own; stated by Chat.HandleSendRecordsExchange and Chat.BlankSendIsNoOp |
| Chat.HandleSendRecordsExchange | components/AIChat.tsx:22-34 | a full send of a non-blank input ends with an empty input, the flag off, and the history extended by exactly the user message and then the reply |
| Chat.BlankSendIsNoOp | components/AIChat.tsx:23 | a blank input leaves the input, the history and the typing flag unchanged |
| Chat.ClickSend | components/AIChat.tsx:134-136 | the button does nothing while a reply is pending; otherwise it runs the send step |
| Chat.EnterBypassesTypingGuard | components/AIChat.tsx:128 | while a reply is pending the button does nothing, yet Enter on a non-blank input still appends a user message |

## Left out

- Remote data store: queries, ordering by `created_at`, and the data store itself. Each call is an `Outcome` parameter; the rows it returns are taken as given. services/supabase is not part of this model.
- Provider.FetchData: does not model a query that succeeds with null data. It also takes the unchecked `as MedicineType` cast as valid: a row's kind is always one of the five kinds.
- Provider.AddMedicine: does not model a successful insert that returns an empty array; in the source `data[0]` would then be undefined.
- Provider.AddAd: does not model a successful insert that returns null or an empty array; the returned row is taken as given.
- Provider.Merge and Provider.UpdatePayload: a property that is present but explicitly `undefined` is treated as absent. A NaN price is not representable with `real`. The only caller always passes four defined fields.
- Text.Lower: lower-cases ASCII letters only. Unicode case mapping for Arabic and other scripts is not modelled.
- Chat.HandleSend: does not model the user typing during the wait, or two sends overlapping. The model is sequential.
- The assistant bridge (services/geminiService.ts). Its reply is an arbitrary string parameter, because the bridge always returns some text, falling back to fixed messages.
- `Date.now()`/`new Date()`: chat ids and timestamps are parameters. Id uniqueness is not claimed, because millisecond ids can collide.
- `parseFloat` and `Number.toString`: their results are parameters of `Admin.HandleSaveMed` and `Admin.StartEdit`.
- Timers and effects: the `setInterval` timer (the timer itself is not modelled; its firings are iterations of `Home.Advance`, as `Home.AdvanceTimes`), its cleanup, `window.scrollTo`, the chat auto-scroll, and the React context wiring, including the `usePharmacy` guard.
- Presentation: all markup and styling, and components/MedicineCard.tsx (icons and styling; it reads `favorites.has` and calls `toggleFavorite`, which is `Provider.ToggleFavorite`).
