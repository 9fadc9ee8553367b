# Room annotations, quotes and the member gate of the Mordiva theme

This project models the logic inside four browser scripts of the storefront theme:

- `assets/assign-to-rooms.js` lets a shopper attach a free-text "Assign to Room" note to each item. The note is cached per cart scope in local storage. A reconciler then copies the cached notes into the `/cart.js` line-item properties. Its parts:
  - the `norm` normaliser;
  - the `linekey:`, `sku:` and `title:` key schemes;
  - the store with delete-on-empty writes;
  - the sequential update requests;
  - the scope copy on the saved-cart list page.
- `assets/send-qoute-org.js` covers the quote page. Its parts:
  - money, quantity and total extraction from scraped text;
  - HTML escaping;
  - variant and product ids from the "add item" button;
  - a second room store that keeps empty values;
  - the intercepted add-to-cart payload;
  - the rows of the printable quote.
- `assets/send-qoute.js` covers the e-mail quote. Its parts:
  - first-match lookup over selector lists;
  - the row filter and quantity normalisation;
  - the plain-text e-mail body.
- `assets/member-lock.js` decides whether a page under a locked collection redirects an anonymous visitor to the login page.

Modules:

| module | file | models |
|---|---|---|
| `Wrappers` | wrappers.dfy | `Option`, which stands for `null`/`undefined` |
| `Text` | text.dfy | ECMAScript `\s`, `trim`, ASCII lower case, character filters, decimal numerals, `join`/`split`, the shared `text(el)` |
| `RoomKeys` | room_keys.dfy | `norm`, scope and `STORE_KEY`, the key schemes, `buildSavedItemKey` |
| `NoteStore` | note_store.dfy | local storage as a class with a `map` field; `getNote`/`setNote`; the scope copy |
| `CartSync` | cart_sync.dfy | `syncCachedNotesIntoCartProperties`: the update list, the request loop, their effect on the cart, idempotence |
| `QuoteFormat` | quote_format.dfy | `moneyKeepDollar`, `escapeHtml`, `extractQty`, `extractLineTotal`, `parseInt` |
| `QuoteOrg` | quote_org.dfy | ids, item key, the room store (a class), the add-to-cart payload, the print items and rows |
| `EmailQuote` | email_quote.dfy | `$`/`$all`, `cleanMoney`, `parseItemsFromDOM`, `buildEmailBody`, `sendQuoteEmail` |
| `MemberLock` | member_lock.dfy | the lock predicate and the redirect decision |

How the model represents the page:

- Each fixed regular expression is written as a matcher on the text where a match would begin. `Text.Leftmost` tries those positions left to right, as `String.prototype.match` does.
- The page is passed in as plain records: a cart line, a quote row, a button with its `dataset`.
- `querySelector` and `querySelectorAll` are passed in as functions from a selector to a result.
- A local-storage entry is either a parsed object or `Unparseable`.

Behaviour of the code that the model keeps:

- A cart line's key is `"linekey:"` followed by the line's `key` (assets/assign-to-rooms.js:105, :113, :146).
- `setNote` stores its argument untrimmed and deletes the entry when the argument is empty (assets/assign-to-rooms.js:61-66). Its callers do the trimming.
- A missing signal falls back to another key. `buildSavedItemKey` uses the title when it finds no SKU (assets/assign-to-rooms.js:89-92). The quote page uses a random `row_` key when a row has none (assets/send-qoute-org.js:142); that random key is a parameter here.
- The scope copy runs whenever both cart ids are known (assets/assign-to-rooms.js:333-359). An empty or unparseable source writes `{}` to the destination.
- The request loop sends one request per update and returns nothing (assets/assign-to-rooms.js:173-185).

## Model

| member | source | states |
|---|---|---|
| RoomKeys.CollapseShape | assets/assign-to-rooms.js:28 | replacing whitespace runs gives a single-spaced string that starts with a space iff the input starts with whitespace, and is empty iff the input is |
| RoomKeys.NormIsNormal | assets/assign-to-rooms.js:26-31 | the result of `norm` has no leading, trailing or doubled space, no whitespace other than a plain space and no upper-case letter |
| RoomKeys.NormIdempotent | assets/assign-to-rooms.js:26-31 | `norm(norm(s)) == norm(s)` |
| RoomKeys.Scope | assets/assign-to-rooms.js:47-49 | the scope is `cartId` if non-empty, else the cart token if non-empty, else `"cart"`; never empty |
| RoomKeys.StoreKey | assets/assign-to-rooms.js:53 | the storage key is `cp_assign_to_room__` followed by exactly the scope |
| RoomKeys.StoreKeyInjective | assets/assign-to-rooms.js:53 | two scopes share a storage entry only if they are equal |
| RoomKeys.SchemesDisjoint | assets/assign-to-rooms.js:146-148 | `linekey:`, `sku:` and `title:` keys never collide, whatever the raw values |
| RoomKeys.FindSku | assets/assign-to-rooms.js:82-83 | the captured SKU consists only of `[A-Za-z0-9._-]` characters |
| RoomKeys.FindSkuFirst | assets/assign-to-rooms.js:82-83 | a non-empty SKU is the capture at some position of the text with no match before it; the SKU is empty iff no position of the text starts a match |
| RoomKeys.FindSkuAfter | assets/assign-to-rooms.js:82-83 | when no position of a prefix starts a match, the SKU of prefix-then-text is the capture at the start of the text |
| RoomKeys.SkuOfLabelAfter | assets/assign-to-rooms.js:82-83 | a prefix without the letter `S`, then `SKU:`, optional whitespace and a token followed by a non-token character, yields that token, as in `Item SKU: EP123` |
| RoomKeys.FindSkuNeedsLabel | assets/assign-to-rooms.js:78-83 | text in which `SKU:` does not occur yields no SKU |
| RoomKeys.SkuOfLabel | assets/assign-to-rooms.js:82 | `SKU:`, optional whitespace and a token followed by a non-token character yields exactly that token |
| RoomKeys.FirstSkuText | assets/assign-to-rooms.js:78-80 | the element searched is one of the row's element texts and mentions `SKU:`; there is none iff no element text mentions `SKU:` |
| RoomKeys.FirstSkuTextFirst | assets/assign-to-rooms.js:78-80 | the element searched is at some index of the row's element texts with no text before it mentioning `SKU:` |
| RoomKeys.BuildSavedItemKey | assets/assign-to-rooms.js:75-93 | a found SKU gives `"sku:" + norm(sku)`; otherwise `"title:"` + at most 120 characters of `norm(title)`, the title being the link, else the heading, else the row text |
| NoteStore.ParseSlot | assets/assign-to-rooms.js:40-42 | a stored object is read as is; a missing or unparseable entry reads as `{}` |
| NoteStore.WithNote | assets/assign-to-rooms.js:61-66 | an empty value removes the key, any other value upserts it; reading the key back gives the value; every other key is unchanged |
| NoteStore.WithNoteKeepsNoEmpty | assets/assign-to-rooms.js:61-66 | a map without empty notes keeps having none after a write |
| NoteStore.WithNoteOfCurrent | assets/assign-to-rooms.js:61-70 | writing back the note `getNote` returns leaves the map unchanged |
| NoteStore.NoteStore.GetNote | assets/assign-to-rooms.js:67-70 | the stored note, or `""` when the key is absent or the entry unparseable |
| NoteStore.NoteStore.SetNote | assets/assign-to-rooms.js:61-66 | the scope's entry becomes the loaded map with the write applied; `getNote` then returns the value; other keys and other scopes are unchanged |
| NoteStore.NoteStore.CopyOnClick | assets/assign-to-rooms.js:301-359 | on "view cart"/"load cart" (trimmed, any case) with both cart ids known, the destination scope's map becomes the source's map (overwrite, not merge); otherwise storage is unchanged; other scopes never change |
| CartSync.CachedNote | assets/assign-to-rooms.js:146-156 | the first of the line-key, SKU-key and title-key entries that exists and is non-empty; `""` iff none is |
| CartSync.Prop | assets/assign-to-rooms.js:158 | a property reads as its value when present, non-null and non-empty, else `""` |
| CartSync.KeptProperties | assets/assign-to-rooms.js:162-168 | exactly the existing properties that are non-null and non-empty, with their values |
| CartSync.NewProperties | assets/assign-to-rooms.js:156-171 | a line gets a property set iff it has a cached note differing from its current room under `norm`; that set is the kept properties plus "Assign to Room" = the cached note |
| CartSync.CollectAscending | assets/assign-to-rooms.js:143-144 | update lines are 1-based, within the cart and strictly ascending |
| CartSync.CollectOwnLines | assets/assign-to-rooms.js:143-172 | each update carries the property set computed for its own line |
| CartSync.CollectExactly | assets/assign-to-rooms.js:143-172 | a line has an update iff its property set is computed |
| CartSync.CollectExactlyAt | assets/assign-to-rooms.js:143-172 | the same fact for one given line |
| CartSync.CollectNone | assets/assign-to-rooms.js:143-172 | a cart in which no line needs anything yields no updates |
| CartSync.UpdatesShape | assets/assign-to-rooms.js:141-172 | the updates ascend, carry their own line's properties, and a line has one iff it needs an update |
| CartSync.NothingCachedNoUpdates | assets/assign-to-rooms.js:133-134 | with nothing cached no update is computed |
| CartSync.ComputeUpdates | assets/assign-to-rooms.js:133-172 | the `forEach`/`push` loop yields exactly the specified update list |
| CartSync.Requests | assets/assign-to-rooms.js:175-185 | one request per update, in order, each resending its line's quantity from the snapshot |
| CartSync.SendUpdates | assets/assign-to-rooms.js:175-186 | the request loop sends one request per update in list order |
| CartSync.SyncRequests | assets/assign-to-rooms.js:127-186 | no requests when the cart fetch fails; otherwise the specified requests |
| CartSync.ApplyAllNamed | assets/assign-to-rooms.js:175-186 | when requests go to strictly ascending lines and each resends its line's quantity with the planned properties, the line the k-th request names ends up in its synced form |
| CartSync.ApplyAllUnnamed | assets/assign-to-rooms.js:175-186 | a line no request names keeps its contents |
| CartSync.RequestsOrdered | assets/assign-to-rooms.js:175-185 | requests go to distinct ascending lines with their planned properties and original quantity |
| CartSync.SyncedAt | assets/assign-to-rooms.js:175-186 | after the requests, a given line is in its synced form |
| CartSync.ApplyRequestsSyncs | assets/assign-to-rooms.js:175-186 | after the requests, every line is in its synced form |
| CartSync.SecondPassEmpty | assets/assign-to-rooms.js:141-186 | if synced lines need nothing, a second pass over the resulting cart plans nothing |
| CartSync.SyncedIsSettled | assets/assign-to-rooms.js:156-171 | a line carrying its update needs no further update |
| CartSync.SyncIdempotent | assets/assign-to-rooms.js:141-186 | recomputing the updates on the cart the requests produce gives `[]` |
| Text.ElementText | assets/send-qoute-org.js:29-31 | `text(el)`: `""` without an element, otherwise its trimmed text |
| Text.ShowRoundTrip | assets/send-qoute-org.js:262 | `String(n)` reads back as `n` |
| Text.SplitJoin | assets/send-qoute.js:190 | lines without line breaks split back from their join |
| Text.Leftmost | assets/send-qoute-org.js:56 | a match found is a match at some position; a match at position 0 is the one found |
| Text.LeftmostFirst | assets/send-qoute-org.js:56 | a match found is the match at some position with no match before it; there is no match iff no position matches |
| Text.LeftmostAfter | assets/send-qoute-org.js:56 | when no position of a prefix matches, the match of prefix-then-text is the match at the start of the text |
| Text.KeepMoneyAppend | assets/send-qoute-org.js:35 | removing every character other than digits, `.`, `,` and `-` from a concatenation removes them from each part |
| Text.KeepMoneyChar | assets/send-qoute-org.js:35 | a single character survives that removal exactly when it is a digit, `.`, `,` or `-` |
| Text.KeepMoneyEmpty | assets/send-qoute-org.js:35-36 | nothing survives exactly when the text has no digit, `.`, `,` or `-` |
| Text.KeepDigitsAppend | assets/send-qoute.js:110 | removing every non-digit from a concatenation removes them from each part |
| Text.KeepDigitsChar | assets/send-qoute.js:110 | a single character survives that removal exactly when it is a digit |
| QuoteFormat.MoneyKeepDollar | assets/send-qoute-org.js:32-37 | after dropping three-capital words and trimming: text with `$` as is; otherwise `""` exactly when it has no digit, `.`, `,` or `-`, and `"$"` followed by those characters when it has some |
| QuoteFormat.StripCodesFromPlain | assets/send-qoute-org.js:33 | text without capitals is left unchanged by the code removal |
| QuoteFormat.MoneyOfAmount | assets/send-qoute-org.js:32-37 | a `$` amount of money characters is returned unchanged |
| QuoteFormat.MoneyIdempotentOnAmounts | assets/send-qoute-org.js:32-37 | on text without `$`, formatting the result again changes nothing |
| QuoteFormat.MoneyWithCode | assets/send-qoute-org.js:32-37 | an amount followed by a currency code, like `12.50 USD`, gives `$12.50` |
| QuoteFormat.ChainEscapes | assets/send-qoute-org.js:38-44 | replacing `&` first, then `<`, `>`, `"` escapes every character exactly once |
| QuoteFormat.EscapeHtml | assets/send-qoute-org.js:38-44 | null gives `""`; the result has no raw `<`, `>` or `"` |
| QuoteFormat.EscapeRoundTrip | assets/send-qoute-org.js:38-44 | escaped text reads back as the original |
| QuoteFormat.QtyMatch | assets/send-qoute-org.js:56 | a match captures a non-empty run of digits |
| QuoteFormat.ExtractQty | assets/send-qoute-org.js:55-58 | the value of the first `Qty:` capture, or 1 without a match |
| QuoteFormat.QtyOfLabel | assets/send-qoute-org.js:55-58 | `"Qty: " + n` gives `n` |
| QuoteFormat.NoLabelQtyOne | assets/send-qoute-org.js:55-58 | text with no `qty` in any letter case gives 1 |
| QuoteFormat.TotalMatch | assets/send-qoute-org.js:60 | the capture holds no line terminator |
| QuoteFormat.ExtractLineTotal | assets/send-qoute-org.js:59-62 | `moneyKeepDollar` of the text after `Total:`, or of the whole text without that label |
| QuoteFormat.TotalOfLabel | assets/send-qoute-org.js:59-62 | `"Total: " + v` formats `v` |
| QuoteFormat.ParseIntRoundTrip | assets/send-qoute-org.js:223 | `parseInt` of a printed number gives the number |
| QuoteOrg.QuotedArg | assets/send-qoute-org.js:93 | a quoted argument is non-empty, free of quotes, and the text is exactly quote, argument, quote, rest |
| QuoteOrg.QuotedArgOf | assets/send-qoute-org.js:93 | a quoted argument is read back exactly |
| QuoteOrg.VariantIdFallback | assets/send-qoute-org.js:96-103 | without an onclick match: `data-variant-id`, else `data-variant`, else `data-id` |
| QuoteOrg.ProductIdFallback | assets/send-qoute-org.js:111-112 | without an onclick match: `data-product-id`, else `data-product` |
| QuoteOrg.NoButtonNoIds | assets/send-qoute-org.js:88-89 | no button, no ids |
| QuoteOrg.ProductArgOfOnclick | assets/send-qoute-org.js:108-110 | the first argument of `addItemToCart('p','v'...)` is `p` |
| QuoteOrg.VariantArgOfOnclick | assets/send-qoute-org.js:92-94 | the second argument of `addItemToCart('p','v'...)` is `v` |
| QuoteOrg.OnclickIds | assets/send-qoute-org.js:88-113 | the onclick ids win over any data attributes |
| QuoteOrg.ItemKeyPriority | assets/send-qoute-org.js:115-120 | the item key is the variant id, else the product id, else the trimmed title |
| QuoteOrg.RoomStorageKey | assets/send-qoute-org.js:71-73 | `uncap_room_assignments__` followed by the cart id, or by `unknown` without one |
| QuoteOrg.RoomStorageKeyShared | assets/send-qoute-org.js:71-73 | two carts share a room map iff their ids agree once `""` is read as `unknown` |
| QuoteOrg.PrintItemOf | assets/send-qoute-org.js:259-265 | a print item's quantity is a non-empty digit string |
| QuoteOrg.GrandTotal | assets/send-qoute-org.js:63-68 | `""` without the summary row or its second `div`, otherwise that div formatted as money |
| QuoteOrg.RoomStore.RoomFor | assets/send-qoute-org.js:249-254 | the stored room for the key, `""` when absent or unparseable |
| QuoteOrg.RoomStore.Save | assets/send-qoute-org.js:167-173 | the row key (or the mount key) gets the trimmed input even when empty; every other key and every other cart's map is unchanged |
| QuoteOrg.RoomStore.ParseItemsWithRoom | assets/send-qoute-org.js:256-268 | the print items of the rows with the stored rooms, and the grand total |
| QuoteOrg.ReadRows | assets/send-qoute-org.js:257-266 | the `forEach`/`push` loop yields the specified print items |
| QuoteOrg.PrintItemsInOrder | assets/send-qoute-org.js:256-268 | one print item per row, in order, each from its own row and room |
| QuoteOrg.AddToCart | assets/send-qoute-org.js:193-226 | without a variant id the original onclick runs; otherwise one item with `parseInt(variantId)`, `extractQty` quantity, and "Assign to Room" only when the trimmed room is non-empty |
| QuoteOrg.AddNumericVariant | assets/send-qoute-org.js:193-226 | a numeric variant in the onclick is posted as that number |
| QuoteOrg.RoomLineReadsBack | assets/send-qoute-org.js:276-282 | the "Room:" line is empty iff the room is; otherwise it holds the escaped room, which reads back as the room |
| QuoteOrg.RoomLineTags | assets/send-qoute-org.js:276-282 | the room line contains two tags (an opening and a closing `div`) when set, none otherwise |
| QuoteOrg.PrintRowTags | assets/send-qoute-org.js:271-288 | a row contains exactly 10 tags, or 12 with a room, counting opening and closing tags, whatever its fields hold |
| QuoteOrg.RowHtmlTags | assets/send-qoute-org.js:271-288 | the row template contains ten tags of its own plus those of the room line when its fields contain none |
| QuoteOrg.PrintRowsAppend | assets/send-qoute-org.js:271-289 | the table of `a + b` is the table of `a` followed by that of `b` |
| QuoteOrg.PrintRowsSnoc | assets/send-qoute-org.js:271-289 | each item appends exactly its own row |
| EmailQuote.FirstMatch | assets/send-qoute.js:54-61 | null iff no selector finds an element; otherwise the element of the first selector that finds one |
| EmailQuote.FirstMatchAt | assets/send-qoute.js:54-61 | if selectors before `i` find nothing and `i` finds an element, that element is returned |
| EmailQuote.Select | assets/send-qoute.js:54-61 | the early-return loop returns the first match |
| EmailQuote.FirstNonEmpty | assets/send-qoute.js:64-71 | empty iff every selector finds nothing; otherwise the matches of the first selector with any |
| EmailQuote.FirstNonEmptyAt | assets/send-qoute.js:64-71 | the matches of the first non-empty selector are returned |
| EmailQuote.SelectAll | assets/send-qoute.js:64-71 | the early-return loop returns the first non-empty match list |
| EmailQuote.CleanMoney | assets/send-qoute.js:78-80 | only digits, `.`, `,` and `-` remain, in order |
| EmailQuote.CleanMoneyIdempotent | assets/send-qoute.js:78-80 | cleaning twice equals cleaning once |
| EmailQuote.CartName | assets/send-qoute.js:87-90 | the trimmed heading, else the trimmed document title, else `Saved Cart` |
| EmailQuote.NormalizeQty | assets/send-qoute.js:109-114 | the digits when there are any, else the text itself, and `"1"` for empty text; never empty |
| EmailQuote.NormalizeQtyIdempotent | assets/send-qoute.js:109-114 | a recorded quantity is recorded unchanged |
| EmailQuote.NormalizeQtyOfLabel | assets/send-qoute.js:109-110 | `Qty: n` is recorded as `n` |
| EmailQuote.RowItem | assets/send-qoute.js:96-117 | a row is dropped iff its title is empty or contains "add to cart" or "remove" in any case; otherwise title, normalised quantity and cleaned prices |
| EmailQuote.CollectAppend | assets/send-qoute.js:96-118 | rows keep their DOM order |
| EmailQuote.CollectAll | assets/send-qoute.js:96-118 | a property of every row's item holds of every collected item |
| EmailQuote.ItemsAreQuotable | assets/send-qoute.js:107-114 | every item has a title that is not skipped and a non-empty quantity |
| EmailQuote.ReadRow | assets/send-qoute.js:97-117 | reading one row through `$` gives the specified item |
| EmailQuote.ParseItemsFromDOM | assets/send-qoute.js:92-124 | the items of the `$all` rows, read in order, and the cleaned grand total |
| EmailQuote.EmailLayout | assets/send-qoute.js:170-188 | quote line, cart id line only when set, link, blank, `Items:`, separator, one line per item in order, separator, grand total only when set, blank, generated |
| EmailQuote.BuildEmailBody | assets/send-qoute.js:165-191 | the pushed lines joined with `\n` are the specified lines |
| EmailQuote.BodyLinesRoundTrip | assets/send-qoute.js:190 | without line breaks in the fields, the body splits back into its lines |
| EmailQuote.SendQuoteEmail | assets/send-qoute.js:193-203 | no items gives the warning; otherwise subject `Quote - name` and the built body |
| MemberLock.StripTrailingSlashes | assets/member-lock.js:6 | the result is a prefix without a trailing `/`, and only slashes were removed |
| MemberLock.StripUpTo | assets/member-lock.js:6 | a path made of a prefix not ending in `/` followed only by slashes strips to exactly that prefix |
| MemberLock.StripExtraSlashes | assets/member-lock.js:6 | adding trailing slashes does not change the stripped path |
| MemberLock.IsLocked | assets/member-lock.js:8-10 | locked iff the path equals an entry or starts with an entry plus `/` |
| MemberLock.Decide | assets/member-lock.js:6-24 | redirect iff the stripped path is locked, not under `/account`, and the visitor is not logged in; the target is the login URL with the encoded original pathname + search |
| MemberLock.AccountNeverRedirects | assets/member-lock.js:15 | paths under `/account` never redirect |
| MemberLock.LoggedInStays | assets/member-lock.js:18-20 | a logged-in visitor never redirects |
| MemberLock.LockedCollectionRedirects | assets/member-lock.js:2-23 | the locked collection, with any trailing slashes, redirects an anonymous visitor |
| MemberLock.SubpageRedirects | assets/member-lock.js:8-10 | a page below the locked collection redirects too |
| MemberLock.SiblingNotLocked | assets/member-lock.js:2-10 | `/collections/sell-price-tier-1x` is not locked |

## Left out

- DOM querying, element creation, styling, duplicate-injection guards, event listeners, `debounce`, `setTimeout`/`setInterval` polling and `MutationObserver` re-hydration are user-interface and timing concerns. Selectors are modelled as query functions and elements as their text.
- The page-type guards at the top of each script (`location.pathname` checks) are routing glue and are not modelled.
- `fetch` to `/cart.js`, `/cart/change.js` and `/cart/add.js`, and the handling of responses, are network I/O. The model gives the requests and their order. A failed cart fetch is `None`. A failed change request is not modelled, and the model does not report per-line results.
- `localStorage` and JSON are modelled as a map from storage key to a parsed object or `Unparseable`. Stored JSON that parses to something other than an object of strings (`null`, an array, numbers) is not modelled.
- The input handlers of `initCartPage` and `initSavedCartPage` trim the input and call `setNote`. They are glue around `NoteStore.NoteStore.SetNote`. Filling an input from the cache is glue around `GetNote`.
- Extracting the destination and source cart ids from link `href`s is DOM and URL parsing. The ids are parameters of `NoteStore.NoteStore.CopyOnClick`.
- RoomKeys.Norm: lower-cases ASCII letters only. `toLowerCase` also maps non-ASCII letters, and that mapping is not modelled.
- `new Function(oc)` evaluation, `location.reload`, `alert`, `Math.random()` and `new Date().toLocaleString()` are not modelled. The original onclick becomes the `RunOnclick` outcome. The random fallback key becomes the `mountKey` parameter of `QuoteOrg.RoomStore.Save`. The date is the `generated` parameter of the e-mail body.
- `encodeURIComponent` is a parameter of `MemberLock.Decide`. The `mailto:` URL built from the subject and body is not modelled.
- `buildPrintHtml` is modelled only for its table rows (`QuoteOrg.PrintRow`). The document header, the cart name that the `<title>` and the `Quote:` heading embed through `escapeHtml(getCartName())` (assets/send-qoute-org.js:296, :306) and the total line embedding `data.grandTotal` (assets/send-qoute-org.js:314) are not modelled. `printPDF`, `downloadPDFPrint`, assets/print-save.js and assets/save-cart.js are print-window and visibility I/O.
- CartSync.ApplyRequest: assumes that `/cart/change.js` keeps each line's `key`, `sku` and `product_title` and changes only its quantity and properties. Shopify derives a line's key from its properties, so a property change gives the line a new key, and that is not modelled.
- CartSync.SyncIdempotent: holds under the `CartSync.ApplyRequest` assumption above. When the key changes it can fail. Take a cache with `linekey:k` set to Kitchen and `sku:s` set to Bath, and a line with key `k` and SKU `s`. The first pass writes Kitchen. After the change the line's key is no longer `k`, so the next pass finds `sku:s` and writes Bath.
- RoomKeys.TitleKey: keeps the first 120 characters of the normalised title. `.slice(0, 120)` (assets/assign-to-rooms.js:148) counts UTF-16 code units, so a title with characters outside the Basic Multilingual Plane is cut shorter, possibly inside a surrogate pair. Strings here are sequences of characters, so that is not modelled.
- RoomKeys.BuildSavedItemKey: the same 120-character cap as `RoomKeys.TitleKey` (assets/assign-to-rooms.js:92), with the same UTF-16 difference left out.
- QuoteFormat.ExtractQty: returns the captured digits as an unbounded natural number. `parseInt` (assets/send-qoute-org.js:57) returns a double, which is inexact above 2^53. That rounding is not modelled.
- QuoteFormat.QtyOfLabel: gives back `n` exactly for every `n`. With doubles this holds only up to 2^53.
- QuoteOrg.PrintItemOf: its quantity is the decimal form of the natural number, so it is all digits. `String()` of the double (assets/send-qoute-org.js:262) prints exponent notation such as `1e+21` from 10^21 upward, and that is not modelled.
- QuoteOrg.AddToCart: the quantity sent is the unbounded `extractQty` value, and `parseInt(variantId)` is read the same way. Double rounding above 2^53 is not modelled for either.
- QuoteFormat.ParseInt: its contract only says that a result needs digits. The value is pinned down only for printed numbers (`QuoteFormat.ParseIntRoundTrip`). Numbers beyond the double range are not modelled.
