# Gaming-gear storefront: catalogue, cart and assistant chat in Dafny

This project models the in-memory state logic of a single-page storefront for gaming gear. The storefront holds all its state in React state cells. Two parts of it carry logic:

- **The root component's updaters** (`App.tsx`). They cover the product catalogue (update by id, delete by id, the shop's category filter, and the admin form's save) and the shopping cart (add a product, the total, the item count). Each updater is a pure function from the old array to the new one (module `Catalogue`). The state cells are classes whose setter methods assign what those functions compute (module `Storefront`).
- **The AI consultant chat** (`components/AIConsultant.tsx`). It keeps a transcript of messages, an input box, a loading flag and a lazily created chat handle. Its `handleSend` method guards against blank input and in-flight requests, then appends the user message and creates the chat handle on first use. Next it appends an empty model message and grows it chunk by chunk in a loop. On failure it appends a fixed apology. It always clears the loading flag. Module `Consultant` models this as a class `Chat`. Its `HandleSend` follows the source step by step. A ghost field `history` records the value each `setMessages` call asks for, and each method is proved against pure specification functions (`AfterSend`, `SendUpdates`).

The records of `types.ts` are datatypes in module `Types`:
- `Product` has the closed `Category` set.
- `CartItem` is a product snapshot plus a quantity.
- `Message` has a `User` or `Model` role.

Prices are whole cents and ratings are tenths of a star, so sums are exact.

Points where the model makes the code's behaviour explicit:

- `addToCart` increments the existing line with `{...i, quantity: i.quantity + 1}`. The line keeps the product as it was when first added. If the admin has changed the product's price since then, the total grows by the line's recorded price, not the current catalogue price. `TotalAddToCart` states this exactly. `TotalAddToCartAtCataloguePrice` states the plain "+ price" form when the line and the product agree.
- `handleSave` tests `formData.id` for truthiness. A product with the empty id `""` is therefore never saved (`Commits`, `SaveAfterEdits`).
- The filter is compared as a string. `"All"` keeps everything, a category name keeps that category, and any other string keeps nothing (`ShopViewCases`).
- The remote reply is a finite sequence of chunks, optionally followed by a failure (`Reply`). A chunk without `text` contributes `""`. Calling the async generator `sendMessageStream` cannot throw, so once a handle exists the empty model message is always appended before any failure. A failed stream therefore adds three messages (user, partial reply, apology). A failed handle creation adds two (user, apology) and leaves `chatRef` empty, so the next send tries to create the handle again.
- The text sent to the model is the input as typed, untrimmed. The guard uses `trim`'s full whitespace set (`IsWhitespace`).

## Model

| member | source | states |
|---|---|---|
| `Types.CategoryName` | types.ts:5 | the string a category is compared as is never `"All"` |
| `Catalogue.Where` | App.tsx:279 | `filter` keeps exactly the elements the predicate accepts and is never longer than its input |
| `Catalogue.WhereAppend` | App.tsx:279 | filtering a concatenation concatenates the filtered parts, so the original order is kept |
| `Catalogue.WhereKeepsAll` | App.tsx:345 | a predicate accepting every element returns the array unchanged |
| `Catalogue.WhereKeepsNone` | App.tsx:345 | a predicate rejecting every element returns the empty array |
| `Catalogue.UpdateProduct` | App.tsx:274-276 | same length and same id at every position; each product with `u.id` becomes `u`; every other product is unchanged |
| `Catalogue.UpdateProductIdempotent` | App.tsx:274-276 | saving the same product twice equals saving it once |
| `Catalogue.DeleteProduct` | App.tsx:278-280 | the result holds exactly the products whose id differs from `id`; no longer than the input |
| `Catalogue.DeleteProductKeepsOrder` | App.tsx:278-280 | deletion distributes over concatenation, so survivors keep their relative order |
| `Catalogue.DeleteProductAbsentOrRepeated` | App.tsx:278-280 | deleting an absent id changes nothing; deleting twice equals deleting once |
| `Catalogue.UpdateDeleteCommute` | App.tsx:274-280 | update then delete equals delete then update; when the ids match, it equals delete alone |
| `Catalogue.ShopView` | App.tsx:345 | a product is shown iff it is in the catalogue and the filter is `"All"` or its category name |
| `Catalogue.ShopViewCases` | App.tsx:338-345 | `"All"` shows the whole catalogue in order; a category name shows exactly that category in order; any other string shows nothing |
| `Catalogue.ApplyEdit` | App.tsx:177-205 | a form edit keeps the form present or empty as it was, and never changes its id or category |
| `Catalogue.EditsKeepId` | App.tsx:177-205 | no sequence of form edits changes which product id the form holds |
| `Catalogue.SaveAfterEdits` | App.tsx:107-117 | after `startEdit(p)` and any edits, save replaces exactly the products with `p.id` by the edited form; nothing changes when `p.id` is empty or the form is empty |
| `Catalogue.FindLine` | App.tsx:284 | `find` returns the first line with the id, or none exactly when no line has it |
| `Catalogue.IncrementLines` | App.tsx:285 | same length; lines for the id gain exactly one unit; all other lines are unchanged |
| `Catalogue.AddToCartNewLine` | App.tsx:286 | a product not in the cart is appended as a quantity-1 line at the end; earlier lines are unchanged |
| `Catalogue.AddToCartExistingLine` | App.tsx:284-285 | a product in the cart keeps the length; its line's quantity rises by exactly 1 and its product stays the same; every other line is unchanged |
| `Catalogue.AddToCartWellFormed` | App.tsx:282-288 | `addToCart` keeps cart ids pairwise distinct and every quantity at least 1 |
| `Catalogue.SumByChangeOne` | App.tsx:272 | changing one line of the cart changes a left-to-right sum by exactly that line's difference |
| `Catalogue.CartCountAddToCart` | App.tsx:282-290 | every `addToCart` raises `cartCount` by exactly 1 |
| `Catalogue.TotalAddToCart` | App.tsx:272-288 | `addToCart` raises `total` by `p.price` for a new line, or by the existing line's recorded unit price |
| `Catalogue.TotalAddToCartAtCataloguePrice` | App.tsx:272-288 | when the cart's line for `p.id` carries `p`'s price, `addToCart(p)` raises `total` by exactly `p.price` |
| `Catalogue.LineTotalIncrement` | App.tsx:272 | one more unit adds the unit price to a line's `price * quantity` |
| `Storefront.Shop.constructor` | App.tsx:268-270 | initial state: the given catalogue, an empty cart, filter `"All"` |
| `Storefront.Shop.AddToCart` | App.tsx:282-290 | the cart becomes `AddToCart` of the old cart; the cart invariant is kept and the item count rises by 1 |
| `Storefront.Shop.UpdateProduct` | App.tsx:274-276 | the catalogue becomes `UpdateProduct` of the old one; the cart and filter are untouched |
| `Storefront.Shop.DeleteProduct` | App.tsx:278-280 | the catalogue loses every product with the id; the cart is untouched |
| `Storefront.Shop.SetFilter` | App.tsx:339 | the filter becomes the chosen string, and the grid then shows `ShopView` of the catalogue under it |
| `Storefront.AdminDashboard.constructor` | App.tsx:104-105 | no product is being edited and the form is empty |
| `Storefront.AdminDashboard.StartEdit` | App.tsx:107-110 | the editing id and the form both become the chosen product |
| `Storefront.AdminDashboard.Edit` | App.tsx:177-205 | the form changes by exactly one field edit |
| `Storefront.AdminDashboard.Cancel` | App.tsx:169 | the form closes and keeps its data |
| `Storefront.AdminDashboard.HandleSave` | App.tsx:112-117 | commits to the catalogue and closes the form only when the form holds a non-empty id; otherwise the catalogue and editing id stay unchanged |
| `Consultant.TrimStart` | components/AIConsultant.tsx:25 | the result is a suffix of the input, preceded only by whitespace, and does not start with whitespace |
| `Consultant.TrimEnd` | components/AIConsultant.tsx:25 | the result is a prefix of the input, followed only by whitespace, and does not end with whitespace |
| `Consultant.BlankIffAllWhitespace` | components/AIConsultant.tsx:25 | the guard's `!input.trim()` holds iff every character is whitespace |
| `Consultant.AccumulatedAppend` | components/AIConsultant.tsx:43-44 | the text accumulated from a concatenation of chunk runs is the concatenation of their texts |
| `Consultant.AccumulatedGrows` | components/AIConsultant.tsx:43-49 | the text after fewer chunks is a prefix of the text after more |
| `Consultant.AccumulatedSkipsMissingText` | components/AIConsultant.tsx:44 | a chunk whose `text` is missing or empty leaves the assistant text unchanged |
| `Consultant.StreamUpdates` | components/AIConsultant.tsx:43-50 | the stream writes exactly one transcript update per chunk |
| `Consultant.UpdatesEndAtAfterSend` | components/AIConsultant.tsx:27-56 | the last transcript value written during a send is the transcript the send leaves |
| `Consultant.AfterSendShape` | components/AIConsultant.tsx:27-53 | the old transcript is a prefix; next comes a user message with the typed input; then the joined reply (two new messages), or the reply plus the apology on stream failure (three), or just the apology when the handle cannot be made (two) |
| `Consultant.StreamUpdatesSteps` | components/AIConsultant.tsx:43-49 | each streaming update rewrites only the last message, keeping role and timestamp and extending its text |
| `Consultant.StreamUpdatesPrefixOfFinal` | components/AIConsultant.tsx:43-49 | every intermediate assistant text is a prefix of the final one |
| `Consultant.SendUpdatesSteps` | components/AIConsultant.tsx:27-53 | every transcript update of a send appends a message or extends the last one; earlier messages are never rewritten |
| `Consultant.AfterSendTurnTaking` | components/AIConsultant.tsx:27-53 | a completed send keeps "every user message is directly followed by a model message" |
| `Consultant.TwoSends` | components/AIConsultant.tsx:24-57 | two successful sends add exactly user1, reply1, user2, reply2 in that order |
| `Consultant.MouseRecommendationReply` | components/AIConsultant.tsx:43-49 | the chunks "I'd", " recommend", " the Ghost V3." give three updates whose texts grow fragment by fragment to the full sentence |
| `Consultant.Chat.constructor` | components/AIConsultant.tsx:8-14 | the transcript is exactly one model greeting; the input is empty, nothing is loading, and no chat handle exists |
| `Consultant.Chat.SetInput` | components/AIConsultant.tsx:95 | the input becomes the typed text |
| `Consultant.Chat.HandleSend` | components/AIConsultant.tsx:24-57 | blank input or a request in flight changes nothing; otherwise the input is cleared, loading ends false, the transcript and its update history are exactly `AfterSend`/`SendUpdates`, an existing handle is reused, and the utterance is sent once through the handle |
| `Consultant.Chat.Submit` | components/AIConsultant.tsx:27-56 | past the guard: the same outcome as `HandleSend`, with the handle created at most once over the component's life (`Valid`) |
| `Consultant.Chat.EnsureChat` | components/AIConsultant.tsx:33-35 | an existing handle is returned unchanged; otherwise one is created unless creation throws; at most one handle is ever created |
| `Consultant.Chat.Respond` | components/AIConsultant.tsx:37-56 | appends the empty model message, streams into it, and appends the apology if the stream fails; loading ends false and turn-taking holds |
| `Consultant.Chat.Stream` | components/AIConsultant.tsx:43-50 | after the loop the last message holds all chunk texts joined in order, and the update history gained exactly `StreamUpdates` |

## Left out

- Presentation is not modelled: JSX, CSS, images, the open/close toggle, the `'...'` placeholder, the scroll-to-bottom effect (components/AIConsultant.tsx:16-22), and whether the edit modal shows.
- `formatLKR` is not modelled. It is locale formatting of floating-point numbers through `Intl.NumberFormat`.
- Floating-point prices and ratings are whole cents and tenths here. The admin price input's `parseFloat` is not modelled: `EditPrice` takes the already-parsed whole number, so `NaN` is not represented.
- Quantities and sums are unbounded integers. JavaScript number precision above 2^53 is not represented.
- `services/geminiService.ts` and the remote model are not part of this model. Each send gets the reply as a parameter (`Reply`), and handle creation is a parameter that says whether it throws. The remote conversation history, the system instruction and the model id are not modelled. `ChatHandle` records only which creation produced it.
- `Consultant.Chat.HandleSend`: every message it creates gets the same `now` timestamp. The source reads the clock separately for each `new Date()`.
- Asynchronous scheduling and React's render cycle are not modelled. A send runs to completion as one sequential method, so `isLoading` is false between methods. The in-flight guard is stated for any state, but no interleaved second call is modelled. Two events handled before React re-renders would both see the old `isLoading`, and that case is not represented either. `history[k]` is the transcript as of the k-th `setMessages` call, with the assistant text as it was when that call was made. React may run a queued updater only at the next render. The streaming updater reads the mutable `assistantText` variable, so when several chunks arrive before a render, an earlier update already sees the later text. The transcripts React commits are therefore an in-order subsequence of `history`, not all of it. Each committed transcript keeps every earlier message, and its assistant text is a prefix of the final text (`StreamUpdatesPrefixOfFinal`). Two committed transcripts in a row differ by one or more of the steps `SendUpdatesSteps` describes, not always by one. The synchronous start of a send (components/AIConsultant.tsx:27-41) is batched, so the user message first appears together with the empty model message, or together with the apology when creating the handle throws. `MouseRecommendationReply`'s three distinct intermediate texts are a property of `history`; the source does not guarantee that React commits all three.
- `console.error` in the error path is not modelled.
- `AuthScreen`'s timed mock login and the payment and success screens are not modelled.
- `Consultant.Chat` is one mount of the component. The consultant is rendered only while the route is not the sign-in screen (App.tsx:376). Visiting the sign-in screen (App.tsx:52) unmounts it, and coming back (App.tsx:299) mounts a fresh one: the transcript is the greeting alone, `chatRef` is empty, and the next send creates a second handle in the same page. So "at most one handle" (`Valid`'s `creations <= 1`) holds per mount, not per page. Routing between screens is not modelled.
- `Storefront.AdminDashboard` is likewise one mount. Leaving the admin route (App.tsx:302-304) unmounts it and discards `editingId` and `formData`.
- The "ADD NEW GEAR" button has no handler in the source, so there is nothing to model.
- `constants.tsx` (the seed catalogue) is not part of this model. `Storefront.Shop.constructor` takes any initial catalogue.
- The form's partially filled state (a `Partial<Product>` with some fields but no id) is not represented. The form is either empty or a full product. Its inputs are only shown after `startEdit`, and a form without an id is never saved in any case.
- Strings are sequences of Unicode scalar values, not UTF-16 code units. Lone surrogates are not represented.
