# Classifieds marketplace: catalog, category labels and listing-creation draft

A Dafny model of the behaviour in the marketplace's single screen component
(`src/App.tsx`) and its record types (`src/types.ts`):

- **Catalog** (`catalog.dfy`). The six seed listings. The filter by the active
  category. The choice between the card grid and the "no listings in this
  section" notice. The filter is proved to be the greatest order-preserving
  selection of the active category's listings. It keeps every such listing
  exactly as often as the catalog holds it. It distributes over
  concatenation, and is idempotent. The five category sections partition the
  catalog. On the seed data, "cars" shows listings 2 and 6 in that order, and
  "uber" shows the empty notice.
- **Labels** (`labels.dfy`). The badge on a listing card and the market word
  in the market-insights question. Both name real estate and cars. Both fold
  factories, heavy equipment and transport onto one "equipment" word, and the
  two mappings group the categories the same way. The market can be read back
  out of the question, so two categories get the same question exactly when
  they name the same market.
- **Draft** (`draft.dfy`). The creation modal's draft as a class with the
  source's four state fields: `image`, `isProcessing`, `aiResult`, `aiType`.
  It has one method per event: file chosen, AI button pressed, service call
  settled, image cleared. An AI button's handler is split at its `await`:
  `StartAi` runs the guard, raises the flag and issues the call. `SettleAi`
  applies the outcome and lowers the flag in every case. The outcome is a
  parameter: a returned string, a returned null, or a thrown error. The UI
  stays live between the two halves, so the user can clear the image or
  stage another meanwhile. A ghost multiset of outstanding calls shows when
  calls run one at a time. That holds only when calls start while the tool
  buttons are shown. The handlers themselves check only for a staged image.

The model follows the code on these points:

- JavaScript truthiness is modelled. The tests `!image`, `if (result)` and
  `aiResult || image` treat the empty string like null (`Draft.Truthy`,
  `Draft.Delivered`).
- A null result or an error does not return the draft to "staged, no result".
  It leaves whatever result an earlier call kept.
- Clearing the image drops only the image. A stage-again after a clear
  therefore previews the earlier AI result, not the new image
  (`Draft.ReuploadShowsEarlierResult`).
- A result that settles after the image was cleared is still kept.

## Model

| member | source | states |
|---|---|---|
| Catalog.Filter | src/App.tsx:256 | every listing kept has the active category and comes from the catalog; the result is no longer than the catalog |
| Catalog.FilterIsSubsequence | src/App.tsx:256 | the shown listings keep the catalog's relative order |
| Catalog.FilterMaximal | src/App.tsx:256 | every order-preserving selection of active-category listings is a selection from the result, so nothing matching is dropped |
| Catalog.FilterCounts | src/App.tsx:256 | a listing of the active category appears as often as in the catalog; any other listing never appears |
| Catalog.FilterMembership | src/App.tsx:256 | a listing is shown if and only if it is in the catalog and has the active category |
| Catalog.FilterAppend | src/App.tsx:256 | filtering a concatenation is the concatenation of the filtered parts |
| Catalog.FilterIdempotent | src/App.tsx:256 | filtering the result again by the same category changes nothing |
| Catalog.FilterPartition | src/App.tsx:256 | the five category sections together hold exactly as many listings as the catalog |
| Catalog.CatalogGrid | src/App.tsx:327-335 | the empty-section notice appears exactly when no listing has the active category; otherwise the non-empty filtered cards are shown |
| Catalog.SeedListings | src/App.tsx:247-254 | the catalog holds six listings; the records themselves are the body, field for field as in the seed data |
| Catalog.SeedCars | src/App.tsx:247-256 | on the seed data, "cars" shows ids 2 and 6, the Land Cruiser then the G63 |
| Catalog.SeedUber | src/App.tsx:327-334 | on the seed data, "uber" selects nothing and shows the empty-section notice |
| Catalog.SeedCounts | src/App.tsx:247-254 | the seed data holds two real-estate, two car, one heavy-equipment, one factory and no transport listing |
| Labels.BadgeLabel | src/App.tsx:62 | the card badge is the real-estate word exactly for real estate, the car word exactly for cars, and the equipment word for the other three |
| Labels.MarketWord | src/App.tsx:259 | the market word is the real-estate market exactly for real estate, the car market exactly for cars, and heavy equipment for the other three |
| Labels.BadgeMarketAgree | src/App.tsx:259 | two categories share a badge if and only if they share a market word |
| Labels.InsightsQuery | src/App.tsx:259 | the question has the fixed opening and closing around the market word |
| Labels.QueryRoundTrip | src/App.tsx:259 | the market word is recovered from the question |
| Labels.QueryDistinguishesMarkets | src/App.tsx:259 | two categories get the same question if and only if they name the same market |
| Draft.Instruction | src/App.tsx:100-116 | the fixed instructions of lines 100 and 116, one per operation; the contract states only that neither is empty |
| Draft.CreationDraft.constructor | src/App.tsx:82-85 | a new draft has no image, no result, no tag and the flag down |
| Draft.CreationDraft.Preview | src/App.tsx:147-159 | upload prompt exactly without a staged image; the player exactly for a kept video result; otherwise a picture of the result if any, else of the staged image |
| Draft.CreationDraft.HandleImageUpload | src/App.tsx:87-94 | no chosen file changes nothing; a finished read stages its data URI; a failed read stages null; result, tag and flag are untouched |
| Draft.CreationDraft.StartAi | src/App.tsx:96-116 | without a staged image no call is issued and nothing changes; otherwise the flag goes up and the staged image goes out with the operation's instruction; one call at a time is kept when started from the shown buttons |
| Draft.CreationDraft.SettleAi | src/App.tsx:99-125 | the flag is down afterwards on every outcome; a delivered result replaces the result and is tagged edit or video; null or an error leave result and tag; the image is never touched |
| Draft.CreationDraft.ClearImage | src/App.tsx:161 | only the staged image is dropped; result, tag and flag stay |
| Draft.PreviewFollowsTag | src/App.tsx:155-158 | with a staged image, a video result is always shown in the player and an edited image always as a picture, never the other way |
| Draft.ToolsOnlyWhenIdle | src/App.tsx:168-192 | while calls run one at a time, the buttons (shown exactly with a staged image and the flag down) appear only when no call is outstanding; with StartAi's last clause, a call started from them keeps one call at a time |
| Draft.NoImageNoCall | src/App.tsx:97 | pressing an AI button on a fresh draft issues no call and the upload prompt stays |
| Draft.ReuploadShowsEarlierResult | src/App.tsx:158 | after edit, clear and a new upload, the preview shows the earlier edited image |
| Draft.VideoReplacesEdit | src/App.tsx:117-120 | a video after an edit replaces the edited image and the preview switches to the player |
| Draft.FailureKeepsEarlierResult | src/App.tsx:121-125 | a null or failed video call after an edit leaves the edited image shown |

## Left out

- The image-edit, video-synthesis and market-insights service calls (`src/services/geminiService.ts`): the settled outcome of a call is a parameter of `SettleAi`. The video polling loop, its timer and the asset download are not modelled.
- Draft.CreationDraft.HandleImageUpload: reading the file is one step that receives how the read ended (no file, the data URI, or a failed read that stages null). Two overlapping reads, each landing later, are not modelled.
- The market-insights fetch and the banner text it sets: network I/O; only its question is modelled.
- The active category, modal open/close state, the unused `step` state, the uncontrolled form inputs and the publish button, which has no handler: view state without behaviour to state.
- A call settling after the modal has closed: the component is gone and the late updates are dropped by the UI framework.
- Price formatting with `toLocaleString`: locale-dependent. `price` is an integer here, where the source has a floating-point number.
- The `User` record: declared but used nowhere.
- All markup, styling and animation, including the transport section's static buttons.
