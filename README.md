# PokemonTCG core, modelled in Dafny

This project models the non-UI core of the PokemonTCG iOS app, a browser for the cards of the
Pokémon Trading Card Game served by the TCGdex REST API (`https://api.tcgdex.net/v2/en/cards`).
It covers:

- **The data models and their JSON rules.** `CardListItem` (`card_list_item.dfy`) is the list
  projection of a card. Its `id`, `localId` and `name` are required. The optional image base URL
  travels under the key `"image"`. `Card` (`card.dfy`) is the full record: 21 optional
  properties and the nested `Set`, `CardCount`, `Variants`, `Attack`, `Weekness` and `Legal`
  records. `Legal.expanded` is the only required field anywhere in it. `json.dfy` states Swift's
  synthesised `Decodable` rules over an abstract JSON tree: required keys, `decodeIfPresent`,
  unknown keys ignored and `encodeIfPresent`.
- **`DataManager`** (`data_manager.dfy`). Its process-wide state is one `DataManager` object
  holding:
  - the persisted key-value store (`UserDefaults`), with the card list in the single slot
    `"cachedCardItems"`;
  - the in-memory image cache (`NSCache`), keyed by the URL's absolute string;
  - the number of background refreshes still running;
  - a ghost log of the network requests sent.

  `getCardItems` is cache-first. A persisted list that decodes is returned at once and starts a
  refresh. The refresh finishes as the separate step `CompleteBackgroundRefresh` and overwrites
  the slot only on success. Without a usable persisted list, the list is fetched, persisted and
  returned. `getImage` serves a cached image without a request and caches a fetched one. The list
  fetch builds its URL with `endpoint()`, while the image fetch takes its URL as an argument.
  Both apply the same 2xx status guard and report the `NetworkError` cases.
- **The list search state** (`list_search.dfy`) of `CardListView.ViewModel`
  (`card_list_view.dfy`) and of its older twin `MainView.ViewModel` (`main_view.dfy`). The state
  is the full list, the filtered list and the searching flag. The displayed list is derived from
  the three. It also covers the refresh, the name search, the item count and bounds-checked
  access.
- **The display strings** of `CardDetailView.ViewModel` (`card_detail_view.dfy`) and
  `CardCellView.ViewModel` (`card_cell_view.dfy`): labelled lines with their defaults, the
  high-quality and low-quality image URLs, the legality summary, the update date, and the
  attack and weakness sub-views. The cell's `getCardImage` goes through the `DataManager` image
  cache.
- **Helpers.** `text.dfy` holds `joined(separator:)`, decimal rendering of integers and their
  read-back. `urls.dfy` holds `appendingPathComponent`. `constants.dfy` holds the API and
  storage constants.

Foreign behaviour enters as parameters.
- `localized: string -> string` is `String(localized:)`.
- `matches: (string, string) -> bool` is `localizedCaseInsensitiveContains`.
- `parseUrl: string -> Option<Url>` is `URL(string:)`.
- `formatDate: string -> Option<string>` is the ISO 8601 parse followed by medium-style
  formatting.
- A network exchange is a `Transport` value. It is either a reply (HTTP or not, a status code,
  and a body already parsed as JSON or as an image) or a transport error.

Several behaviours of the code are easy to misread; the model follows the code:
- **Empty search results.** A search that matches nothing shows an empty list, not the full
  list. `displayedItems` falls back to `allItems` only while no search is active.
- **Cache hits.** A persisted list counts as a cache hit whenever it is present and decodes,
  even when it is empty.
- **Refresh keeps the search flag.** A refresh (`getCardItems`) replaces the full list and
  clears the filter but keeps `isSearching`. So a refresh during a search shows an empty list
  until the next search.
- **The `hp` line.** It is `<hp_label>: <hp>`, with `0` for an absent value. The detail view
  model's test expects `"110 HP"`, which that code cannot produce for any translation of
  `hp_label`: the line always ends in the digits (`CardDetailView.HpNever110HP`).
- **The row model's input.** `CardCellView.ViewModel` declares `init(card: Card)` but reads
  `CardListItem` fields (`name` as a plain string, `imageBaseURLString`). It is called with
  `item:` and so is modelled over `CardListItem`.

## Model

| member | source | states |
|---|---|---|
| Json.Optional | PokemonTCG/Models/Card.swift:8-29 | an optional property is absent when its key is missing or `null`, decodes when its value has the right type, and fails the whole record otherwise |
| Json.Required | PokemonTCG/Models/CardListItem.swift:10-12 | a required property decodes only when its key is present and its value decodes |
| Json.AsString | PokemonTCG/Models/Card.swift:9-15 | a value decodes as a `String` exactly when it is a JSON string, to that string |
| Json.AsInt | PokemonTCG/Models/Card.swift:19 | a number decodes as an `Int` exactly when it lies in the 64-bit range |
| Json.AsBool | PokemonTCG/Models/Card.swift:46-50 | a value decodes as a `Bool` exactly when it is a JSON boolean, to that boolean |
| Json.DecodeElements | PokemonTCG/DataManager.swift:78-81 | an array decodes exactly when every element does, to a list of the same length whose i-th entry is the i-th element decoded |
| Json.AsArrayOf | PokemonTCG/Models/Card.swift:18-25 | a value decodes as `[T]` exactly when it is a JSON array whose every element decodes as `T`, to a list of the same length whose i-th entry is the i-th element decoded |
| Json.OptionalIgnoresOtherKeys | PokemonTCG/Models/Card.swift:8-29 | removing some other key never changes how an optional property decodes |
| Json.OptionalStillDecodesWithout | PokemonTCG/Models/Card.swift:8-29 | an optional property still decodes after any key is removed, and decodes as absent once its own key is gone |
| Json.EncodeIfPresent | PokemonTCG/Models/CardListItem.swift:13 | an absent optional writes no key; a present one writes its string under the key |
| CardListItemModel.DecodeItem | PokemonTCG/Models/CardListItem.swift:9-20 | an item decodes if and only if `id`, `localId` and `name` are strings and `"image"` is missing, `null` or a string; the fields are those values, and the image is absent exactly when its key is missing or `null` |
| CardListItemModel.EncodeItem | PokemonTCG/Models/CardListItem.swift:9-20 | the encoded object has exactly the keys `id`, `localId`, `name`, plus `"image"` when the image is present |
| CardListItemModel.DecodeItems | PokemonTCG/DataManager.swift:124-127 | a list decodes exactly when it is an array whose elements all decode as items, preserving length and order |
| CardListItemModel.EncodeItems | PokemonTCG/DataManager.swift:130-135 | the encoded list is an array of the encoded items, in order |
| CardListItemModel.ItemRoundTrip | PokemonTCG/Models/CardListItem.swift:9-20 | decoding an encoded item gives the same item back |
| CardListItemModel.ItemsRoundTrip | PokemonTCG/DataManager.swift:124-135 | the persisted list reads back as exactly the list that was written |
| CardListItemModel.MissingRequiredKeyFails | PokemonTCG/Models/CardListItem.swift:10-12 | an object without `id`, `localId` or `name` does not decode |
| CardListItemModel.AbsentImageDecodesAsNone | PokemonTCG/Models/CardListItem.swift:13 | an object without `"image"` decodes with an absent image URL |
| CardModel.DecodeCardCount | PokemonTCG/Models/Card.swift:39-42 | decodes if and only if the value is an object whose `official` and `total` are each missing, `null` or a number |
| CardModel.DecodeSet | PokemonTCG/Models/Card.swift:32-43 | decodes if and only if the value is an object whose five properties each decode as optional |
| CardModel.DecodeVariants | PokemonTCG/Models/Card.swift:45-51 | decodes if and only if the value is an object whose five flags are each missing, `null` or a boolean |
| CardModel.DecodeAttack | PokemonTCG/Models/Card.swift:53-58 | decodes if and only if the value is an object whose `cost`, `name` and `effect` each decode as optional; `damage` is never read |
| CardModel.DecodeWeekness | PokemonTCG/Models/Card.swift:61-64 | decodes if and only if the value is an object whose `type` and `value` are each missing, `null` or a string |
| CardModel.DecodeLegal | PokemonTCG/Models/Card.swift:66-69 | decodes if and only if `expanded` is a boolean and `standard` is missing, `null` or a boolean |
| CardModel.DecodeCard | PokemonTCG/Models/Card.swift:8-29 | a card decodes if and only if the value is an object whose 21 properties each decode as optional, and each field of the card is its property decoded on its own, so a missing or `null` key gives an absent field |
| CardModel.EmptyObjectDecodes | PokemonTCG/Models/Card.swift:8-29 | an empty object is a card with every property absent |
| CardModel.DroppingAKeyStillDecodes | PokemonTCG/Models/Card.swift:8-29 | removing any key from a decodable card payload leaves it decodable: no card property is required |
| CardModel.UnknownKeysIgnored | PokemonTCG/Models/Card.swift:8-29 | removing a key the card does not read leaves the decoded card unchanged |
| CardModel.MissingNameDecodesAsAbsent | PokemonTCG/Models/Card.swift:14 | without `"name"` a decodable card decodes to the same card with `name` absent |
| CardModel.MissingIdDecodesAsAbsent | PokemonTCG/Models/Card.swift:10 | without `"id"` a decodable card decodes to the same card with `id` absent |
| CardModel.LegalWithoutExpandedFails | PokemonTCG/Models/Card.swift:66-69 | a `legal` object without `expanded` fails, and so does any card that carries it |
| CardModel.LegalWithoutStandardDecodes | PokemonTCG/Models/Card.swift:67 | a `legal` object may leave out `standard` |
| CardModel.DamageIsNeverDecoded | PokemonTCG/Models/Card.swift:57 | an attack's `"damage"` key, whatever its value, does not affect decoding |
| CardModel.NestedRecordsAllOptional | PokemonTCG/Models/Card.swift:32-64 | set, card count, variants, weakness and attack each decode from an empty object with every field absent |
| CardModel.OutOfRangeHpFails | PokemonTCG/Models/Card.swift:19 | an `hp` number outside the 64-bit range fails the whole card |
| Urls.AppendPathComponent | PokemonTCG/ViewModels/CardDetailView+ViewModel.swift:21 | the result ends in `/` and the component, with no doubled separator when the URL already ends in `/` |
| Urls.QualityImageUrl | PokemonTCG/ViewModels/CardCellView+ViewModel.swift:15-23 | no URL without a base string or when it does not parse; otherwise the parsed base with `<quality>.png` appended |
| Text.Join | PokemonTCG/ViewModels/CardDetailView+ViewModel.swift:46 | joining no strings gives the empty string and joining one gives that string |
| Text.JoinAppend | PokemonTCG/ViewModels/CardDetailView+ViewModel.swift:116-119 | appending a string to a list adds the separator and that string to its join, except for an empty list |
| Text.IntToDecimal | PokemonTCG/ViewModels/CardDetailView+ViewModel.swift:42 | a negative number is written with a leading minus sign, a non-negative one in digits only |
| Text.NatToDecimal | PokemonTCG/ViewModels/CardDetailView+ViewModel.swift:42 | the text of a natural number is a non-empty string of decimal digits with no leading zero |
| Text.DecimalRoundTrip | PokemonTCG/ViewModels/CardDetailView+ViewModel.swift:42 | reading back the decimal digits of a number gives that number |
| Text.NatToDecimalInjective | PokemonTCG/ViewModels/CardDetailView+ViewModel.swift:41-43 | different natural numbers have different digits |
| Text.IntToDecimalInjective | PokemonTCG/ViewModels/CardDetailView+ViewModel.swift:41-43 | different numbers are written differently |
| DataManagement.IsSuccessStatus | PokemonTCG/DataManager.swift:73 | a status code passes the guard exactly when it lies in `200...299`; it is a predicate whose meaning is its definition |
| DataManagement.ComponentsUrl | PokemonTCG/DataManager.swift:110-118 | a URL exists exactly when the path is empty or starts with `/`, and it reads scheme, `://`, host and path |
| DataManagement.Endpoint | PokemonTCG/DataManager.swift:110-118 | the endpoint is `https://api.tcgdex.net/v2/en/cards` |
| DataManagement.ListRequests | PokemonTCG/DataManager.swift:64-69 | a list fetch sends exactly one request, to the endpoint |
| DataManagement.CheckedBody | PokemonTCG/DataManager.swift:69-76 | the body is used only for an HTTP reply with a 2xx status; other replies are `invalidServerResponse` and a transport error is rethrown |
| DataManagement.FetchCardItems | PokemonTCG/DataManager.swift:64-85 | succeeds only for a 2xx HTTP reply whose body decodes as a list, and then returns that list; otherwise the transport error, `invalidServerResponse` or a decoding error |
| DataManagement.FetchImage | PokemonTCG/DataManager.swift:87-106 | no URL is `invalidURL`; a 2xx HTTP reply whose data is an image gives that image; other replies are `invalidServerResponse`; data that is no image is `invalidImageData` |
| DataManagement.DataManager.constructor | PokemonTCG/DataManager.swift:12 | a manager starts from the persisted store, with an empty image cache, no refresh running and no request sent |
| DataManagement.DataManager.LoadCardItems | PokemonTCG/DataManager.swift:124-127 | no list when the slot is empty; otherwise whatever the slot decodes to, so an undecodable value reads as no list |
| DataManagement.DataManager.Cache | PokemonTCG/DataManager.swift:130-135 | only the `"cachedCardItems"` slot changes, and it then loads back as exactly the list written |
| DataManagement.DataManager.ClearCardsCache | PokemonTCG/DataManager.swift:143-146 | only the `"cachedCardItems"` slot is removed, after which no list loads |
| DataManagement.DataManager.ClearImageCache | PokemonTCG/DataManager.swift:138-140 | the image cache is emptied |
| DataManagement.DataManager.EvictImage | PokemonTCG/DataManager.swift:12 | the platform drops one image cache entry and no other |
| DataManagement.DataManager.GetCardItems | PokemonTCG/DataManager.swift:17-39 | a usable persisted list is returned unchanged, without a request, and starts one refresh; otherwise the list is fetched with one request to the endpoint and persisted on success, and the fetch's error is rethrown on failure, leaving the store unchanged; every list returned is the list that then loads |
| DataManagement.DataManager.CompleteBackgroundRefresh | PokemonTCG/DataManager.swift:23-30 | a finished refresh sends one request; it overwrites the slot with the fresh list on success and leaves the store unchanged on failure |
| DataManagement.DataManager.GetImage | PokemonTCG/DataManager.swift:41-61 | no URL is `invalidURL`; a cached image is returned without a request; on a miss there is one request to the URL, and a fetched image is cached under the URL string and returned while a failure caches nothing |
| DataManagement.StaleWhileRevalidateScenario | PokemonTCG/DataManager.swift:17-39 | with one item persisted and a fetch that would give two, the first two calls return the persisted item and a call after the refresh finishes returns the fresh list |
| DataManagement.ImageCacheScenario | PokemonTCG/DataManager.swift:41-61 | an image fetched once is returned again from the cache when the network then fails |
| ListSearch.Filter | PokemonTCG/ViewModels/CardListView+ViewModel.swift:54 | `allItems.filter`: the result is no longer than the list and every record in it passes the test; `FilterIsSubsequence`, `FilterCount` and `FilterMembership` pin it to exactly the passing records, in order |
| ListSearch.FilterIsSubsequence | PokemonTCG/ViewModels/CardListView+ViewModel.swift:54 | the search result is the full list with some records left out, in the same order |
| ListSearch.FilterCount | PokemonTCG/ViewModels/CardListView+ViewModel.swift:54 | the search result keeps every copy of each matching record and no copy of any other |
| ListSearch.FilterMembership | PokemonTCG/ViewModels/CardListView+ViewModel.swift:54 | a record is in the search result if and only if it is in the full list and matches |
| ListSearch.FilterNoneKept | PokemonTCG/ViewModels/CardListView+ViewModel.swift:54 | a query that matches no record gives an empty result |
| ListSearch.FilterAllKept | PokemonTCG/ViewModels/CardListView+ViewModel.swift:54 | a query that matches every record gives the full list back |
| ListSearch.SearchList.constructor | PokemonTCG/ViewModels/CardListView+ViewModel.swift:13-15 | the state starts with no records, no filter result and no search |
| ListSearch.SearchList.Displayed | PokemonTCG/ViewModels/CardListView+ViewModel.swift:16-18 | the displayed list is the filter result exactly while a search is active, even when empty, and the full list otherwise |
| ListSearch.SearchList.NumberOfItems | PokemonTCG/ViewModels/CardListView+ViewModel.swift:22-24 | the count is that of the filter result during a search and of the full list otherwise |
| ListSearch.SearchList.ItemAt | PokemonTCG/ViewModels/CardListView+ViewModel.swift:36-42 | a record is given if and only if `0 <= index < numberOfItems`, and it is the displayed record at `index` |
| ListSearch.SearchList.UncheckedItemAt | PokemonTCG/ViewModels/CardListView+ViewModel.swift:32-34 | an in-bounds read gives the record `cardItem(at:)` gives |
| ListSearch.SearchList.Refresh | PokemonTCG/ViewModels/CardListView+ViewModel.swift:44-50 | a fetched list replaces the full list, clears the filter result, keeps the search flag and notifies once; an error is rethrown with nothing changed |
| ListSearch.SearchList.Search | PokemonTCG/ViewModels/CardListView+ViewModel.swift:52-56 | an empty query ends the search and shows the full list; any other query shows the records whose names match, in list order, and an empty list when none match; notifies once |
| CardListView.NewViewModel | PokemonTCG/ViewModels/CardListView+ViewModel.swift:13-15 | a fresh list view model searches by record name and shows nothing |
| CardListView.GetCardItems | PokemonTCG/ViewModels/CardListView+ViewModel.swift:44-50 | the full list becomes the persisted list when one is usable, otherwise the fetched list; a fetch error is rethrown and leaves the search state unchanged; the data manager's store, request log and pending refreshes change as `DataManager.getCardItems` changes them, and after a successful refresh the persisted list is the full list |
| CardListView.CardCellViewModel | PokemonTCG/ViewModels/CardListView+ViewModel.swift:32-34 | the new row model is built from the displayed record at `index`, with no image loaded |
| MainView.NewViewModel | PokemonTCG/ViewModels/MainView+ViewModel.swift:13-15 | a fresh main view model has no cards and no search |
| MainView.NumberOfCards | PokemonTCG/ViewModels/MainView+ViewModel.swift:21-23 | the count is that of the filtered cards during a search and of all cards otherwise |
| MainView.CardAt | PokemonTCG/ViewModels/MainView+ViewModel.swift:35-41 | a card is given if and only if `0 <= index < numberOfCards`, and it is the displayed card at `index` |
| MainView.GetCards | PokemonTCG/ViewModels/MainView+ViewModel.swift:43-51 | fetched cards replace all cards and clear the filter result, keeping the search flag; an error is rethrown with nothing changed |
| MainView.SearchCards | PokemonTCG/ViewModels/MainView+ViewModel.swift:53-57 | an empty query ends the search; any other query filters all cards by name, in list order |
| CardCellView.CellTitle | PokemonTCG/ViewModels/CardCellView+ViewModel.swift:26-28 | the row title is the record's name |
| CardCellView.ImageURL | PokemonTCG/ViewModels/CardCellView+ViewModel.swift:15-23 | no URL without a base string or when it does not parse; otherwise the base with `low.png` appended |
| CardCellView.ViewModel.constructor | PokemonTCG/ViewModels/CardCellView+ViewModel.swift:43-45 | a row model holds its record and has no image yet |
| CardCellView.ViewModel.GetCardImage | PokemonTCG/ViewModels/CardCellView+ViewModel.swift:48-60 | without a URL there is no image and no request; a cached image is kept and returned without a request; on a miss one request is sent, and a fetched image is cached, kept and returned while a failure returns no image and leaves the kept image as it was |
| CardDetailView.LabelledLineDeterminesValue | PokemonTCG/ViewModels/CardDetailView+ViewModel.swift:24-30 | a labelled line determines the value it shows |
| CardDetailView.Labelled | PokemonTCG/ViewModels/CardDetailView+ViewModel.swift:24-30 | a labelled line is the translated label, `": "` and the value |
| CardDetailView.CardName | PokemonTCG/ViewModels/CardDetailView+ViewModel.swift:15 | the card's name, or the `unknown_card_name` text when it has none |
| CardDetailView.ImageURL | PokemonTCG/ViewModels/CardDetailView+ViewModel.swift:17-22 | no URL without an image string or when it does not parse; otherwise the base with `high.png` appended |
| CardDetailView.Illustrator | PokemonTCG/ViewModels/CardDetailView+ViewModel.swift:24-26 | the illustrator's line shows the illustrator, or its default text |
| CardDetailView.Rarity | PokemonTCG/ViewModels/CardDetailView+ViewModel.swift:28-30 | the rarity line shows the rarity, or the illustrator's default text |
| CardDetailView.SetName | PokemonTCG/ViewModels/CardDetailView+ViewModel.swift:32-34 | the set line shows the set's name, or the default when the set or its name is absent |
| CardDetailView.SetSymbolURL | PokemonTCG/ViewModels/CardDetailView+ViewModel.swift:36-39 | the set's symbol string parsed as a URL, and no URL without a set or a symbol |
| CardDetailView.Hp | PokemonTCG/ViewModels/CardDetailView+ViewModel.swift:41-43 | the hit point line shows the hit points in decimal, and `0` when absent |
| CardDetailView.Types | PokemonTCG/ViewModels/CardDetailView+ViewModel.swift:45-47 | the type line shows the types joined by `", "`, the default when absent, and nothing after the label for an empty list |
| CardDetailView.EvolveFrom | PokemonTCG/ViewModels/CardDetailView+ViewModel.swift:49-53 | the `n_a` text when the predecessor is missing or empty, otherwise the labelled predecessor |
| CardDetailView.Description | PokemonTCG/ViewModels/CardDetailView+ViewModel.swift:55-57 | the description without a label, or its default |
| CardDetailView.Stage | PokemonTCG/ViewModels/CardDetailView+ViewModel.swift:59-61 | the stage line shows the stage, or its default |
| CardDetailView.RetreatCost | PokemonTCG/ViewModels/CardDetailView+ViewModel.swift:71-73 | the retreat line shows the retreat cost in decimal, and `0` when absent |
| CardDetailView.RegulationMark | PokemonTCG/ViewModels/CardDetailView+ViewModel.swift:75-77 | the regulation line shows the mark, or its default |
| CardDetailView.LegalFormats | PokemonTCG/ViewModels/CardDetailView+ViewModel.swift:115-118 | one entry per format the card is legal in, the standard status first and the expanded status last |
| CardDetailView.LegalStatus | PokemonTCG/ViewModels/CardDetailView+ViewModel.swift:115-120 | standard and expanded joined by `", "`, either one alone, or the none text, according to the two flags, absent flags counting as false |
| CardDetailView.ComputeLegalStatus | PokemonTCG/ViewModels/CardDetailView+ViewModel.swift:115-120 | appending one status per legal format and joining gives the legal status |
| CardDetailView.Legalities | PokemonTCG/ViewModels/CardDetailView+ViewModel.swift:79-81 | the legalities line shows the legal status |
| CardDetailView.FormattedDate | PokemonTCG/ViewModels/CardDetailView+ViewModel.swift:122-131 | the formatted date when `updated` parses; else the raw `updated` text; else the default |
| CardDetailView.LastUpdated | PokemonTCG/ViewModels/CardDetailView+ViewModel.swift:83-85 | the update line is the label, one space and the formatted date, with no colon |
| CardDetailView.AttackView | PokemonTCG/ViewModels/CardDetailView+ViewModel.swift:141-155 | an attack's name, effect and cost joined by `", "` (or their defaults), with damage always `"??"` |
| CardDetailView.Attacks | PokemonTCG/ViewModels/CardDetailView+ViewModel.swift:63-65 | one attack view per attack, in order, and none without an attack list |
| CardDetailView.WeaknessView | PokemonTCG/ViewModels/CardDetailView+ViewModel.swift:158-168 | a weakness's type and value, or their defaults |
| CardDetailView.Weaknesses | PokemonTCG/ViewModels/CardDetailView+ViewModel.swift:67-69 | one weakness view per weakness, in order, and none without a weakness list |
| CardDetailView.RarityDefaultIsIllustratorDefault | PokemonTCG/ViewModels/CardDetailView+ViewModel.swift:24-30 | with neither illustrator nor rarity, both lines show the same default text |
| CardDetailView.HpShownIsRecoverable | PokemonTCG/ViewModels/CardDetailView+ViewModel.swift:41-43 | the text after the label is `0` for absent hit points; for non-negative hit points it is digits that read back as the value; for negative ones it is a minus sign followed by digits that read back as the magnitude |
| CardDetailView.HpNever110HP | PokemonTCGTests/CardDetailViewModelTests.swift:57-59 | with 110 hit points the line is not `"110 HP"` for any translation, since it ends in the digits |
| CardDetailView.ImageUrlExample | PokemonTCGTests/CardDetailViewModelTests.swift:39-43 | the test card's base URL gives its `high.png` image URL |
| CardDetailView.LegalitiesExample | PokemonTCGTests/CardDetailViewModelTests.swift:85-87 | a card legal only in the expanded format reads `Legalities: Expanded` |

## Left out

- Views, view controllers, fonts, colours, corner radii, the empty-list message, the search
  placeholder and the `onCardItemSelected` callback: these are UIKit presentation with no logic
  of their own. `onDataUpdated` is modelled only as a count of notifications.
- Concurrency: `async` calls are modelled as atomic steps, and the detached refresh `Task` as the
  separate `CompleteBackgroundRefresh`. The interleavings of several refreshes and the thread on
  which a store write lands are not modelled.
- `String(localized:)`, `localizedCaseInsensitiveContains`, `URL(string:)`,
  `ISO8601DateFormatter` and `DateFormatter` are parameters. Their results are not modelled.
- JSON is an abstract tree: byte-level parsing and serialisation and the `UIImage(data:)` image
  decode sit outside the model. A network body arrives already parsed, or as "does not parse".
- JSON numbers are integers only. Every numeric property of the core is an `Int`, and floating
  point inputs are not modelled. `Json.AsInt` rejects numbers outside the 64-bit range of Swift's
  `Int`, as `JSONDecoder` does.
- Urls.AppendPathComponent: a URL is its absolute string, so the component is appended at its
  end. URLs with a query or a fragment, where Foundation inserts the component into the path
  before them, are not modelled. The TCGdex image base URLs have neither.
- DataManagement.DataManager.Cache: the `JSONEncoder` failure path, which skips the write, is not
  modelled, because encoding a list of string records cannot fail.
- `getCard(for:)`: `CardListViewController` calls it, but `DataManager.swift` does not define
  it, so DataManager.swift has no such operation to model.
- `getMockedCardItems()`: it reads a bundled JSON file. Only the cell view model's test set-up
  calls it, and the app's calls to it are commented out.
- `NSCache` eviction is modelled only as the explicit `EvictImage` step. The cost limits that
  trigger eviction are not modelled.
- MainView.ViewModel: the source fetches through `DataManager.NetworkData.getCards`, which does
  not exist, and reads the optional `Card.name` as a plain string. The model therefore takes the
  fetched cards (or the error) as an argument and the card's name as a parameter. Its
  `cardCellViewModel(at:)` builds a row model from a `Card` and is not modelled.
- `NetworkError.errorDescription`: localised message text only.
- The `print` diagnostics in `DataManager` and the view models.
