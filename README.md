# Image gallery: upload rules, pagination and view state, in Dafny

This project models the logic of a small React image gallery. The gallery
lists images page by page from a REST API. It lets the user upload a new
image through a validated form, and it shows a chosen image enlarged in a
modal. Three pieces carry that logic:

- **The upload form** (`FormAddImage`). A rule table guards the three fields:
  - the file must be under 10 000 000 bytes and of type JPEG, PNG or GIF;
  - the title must have 2 to 20 UTF-16 code units;
  - the description must have 1 to 65 UTF-16 code units.

  The submit handler refuses a blank uploaded-image URL. Otherwise it posts
  `{title, description, url}` and raises a success or a failure notice. In a
  `finally` block it always resets the draft and closes the hosting modal.
- **The home page** (`Home`). It requests the first page with `after = null`
  and takes the next cursor as `lastPage.after || null`. It flattens the pages
  into one card list and shows loading, error or content, in that priority.
- **The card list** (`CardList`). It renders one card per record, in order. It
  keeps the pair (isOpen, selectedImageUrl) that drives the single view modal.

Files:
- `wrappers.dfy` holds `Option`.
- `form_add_image.dfy` holds the rule table, ECMAScript `trim`, the
  unanchored MIME-type pattern, the submit effect `Submission` and the
  `UploadForm` class. `UploadForm` holds the component's state: the two
  image URLs, the field values and the inline errors. It also keeps logs of
  the notices raised, the bodies posted, the cache invalidations and the
  `closeModal` calls.
- `card_list.dfy` holds card rendering, the view-state machine (`Step`,
  `Run`) and the `CardListComponent` class. Its handlers are proved against
  `Step`.
- `home.dfy` holds cursors and their JavaScript truthiness, the accumulated
  query data, `FormattedData` and the render choice.

Outside effects are parameters:
- The POST's outcome is a `PostOutcome` (`Resolved` or `Rejected`).
- A fetched page is an opaque `Page` value.
- The uploaded URL arrives through the setter the file input receives.

Four behaviours of the code are easy to misread; the model keeps them:
- A refused submission (no uploaded image) returns early from the `try`
  block, but the `finally` block still runs. The draft is cleared and the
  modal closes even then.
- After a submission the form calls `reset(data)`, which gives the fields
  the values just submitted rather than empty ones. The model sets the
  form's values to the submitted data.
- Every falsy `after` ends the list: `null`, `undefined` and `""` alike.
- Lengths are JavaScript `.length`, counted in UTF-16 code units: a
  character outside the Basic Multilingual Plane (an emoji, say) counts
  twice (`JsLength`).

## Model

| member | source | states |
|---|---|---|
| `FormAddImage.SizeBoundary` | src/components/Form/FormAddImage.tsx:36-38 | the size rule accepts exactly sizes up to 9 999 999 bytes; 9 999 999 passes and 10 000 000 fails |
| `FormAddImage.SearchFrom` | src/components/Form/FormAddImage.tsx:39-41 | the search returns the leftmost index where the MIME pattern (`image/` then `jpeg`, `png` or `gif`) matches, and none exactly when the pattern matches nowhere |
| `FormAddImage.PatternAtIff` | src/components/Form/FormAddImage.tsx:40 | the pattern `image/` followed by an alternative matches at an index iff one of the three full MIME types occurs there |
| `FormAddImage.AcceptedFormatIffContains` | src/components/Form/FormAddImage.tsx:39-41 | a file passes the format rule iff its MIME type contains `image/jpeg`, `image/png` or `image/gif` anywhere (the pattern is unanchored) |
| `FormAddImage.UnanchoredMatch` | src/components/Form/FormAddImage.tsx:40 | a MIME type with the pattern in its middle (`x-image/gif; charset=binary`) is accepted |
| `FormAddImage.NearMissesRejected` | src/components/Form/FormAddImage.tsx:40 | `image/jpg` and `IMAGE/PNG` are rejected: the match is exact and case-sensitive |
| `FormAddImage.ImageError` | src/components/Form/FormAddImage.tsx:33-43 | a missing file breaks `required`; otherwise a size of at least 10 000 000 breaks the size rule; otherwise a non-matching type breaks the format rule; the file is accepted iff it is present, small enough and of an accepted format |
| `FormAddImage.JsLength` | src/components/Form/FormAddImage.tsx:46-60 | the `.length` the length rules read: one character counts 2 UTF-16 units when astral and 1 otherwise; the total lies between the character count and twice it, and is zero only for the empty string |
| `FormAddImage.JsLengthConcat` | src/components/Form/FormAddImage.tsx:46-60 | the length of a concatenation is the sum of the lengths, so with the one-character case the length of every string, mixed ones included, is fixed |
| `FormAddImage.TitleError` | src/components/Form/FormAddImage.tsx:44-54 | lengths are JS `.length` (UTF-16 code units); an empty title breaks `required`, length 1 breaks the minimum, more than 20 breaks the maximum; a title is accepted iff its length is 2 to 20 |
| `FormAddImage.TitleBoundaries` | src/components/Form/FormAddImage.tsx:46-53 | titles of UTF-16 length 0, 1 and 21 are rejected with the matching rule; lengths 2 and 20 are accepted |
| `FormAddImage.DescriptionError` | src/components/Form/FormAddImage.tsx:55-61 | lengths are JS `.length` (UTF-16 code units); an empty description breaks `required`, more than 65 code units breaks the maximum, and there is no other minimum; accepted iff its length is 1 to 65 |
| `FormAddImage.DescriptionBoundaries` | src/components/Form/FormAddImage.tsx:55-61 | descriptions of UTF-16 length 1 and 65 are accepted; the empty description and length 66 are rejected |
| `FormAddImage.AstralLengths` | src/components/Form/FormAddImage.tsx:46-60 | one emoji is a valid title (length 2); `a` followed by an emoji has length 3; 11 emoji exceed the 20-unit title maximum and 33 exceed the 65-unit description maximum |
| `FormAddImage.Validate` | src/components/Form/FormAddImage.tsx:32-62 | the form has no inline error iff all three fields obey all their rules (lengths in UTF-16 code units), and each field shows an error iff one of its rules fails |
| `FormAddImage.TrimStart` | src/components/Form/FormAddImage.tsx:86 | the result is a suffix of the input, everything dropped is white space, and it starts with a non-white-space character or is empty |
| `FormAddImage.TrimEnd` | src/components/Form/FormAddImage.tsx:86 | the result is a prefix of the input, everything dropped is white space, and it ends with a non-white-space character or is empty |
| `FormAddImage.BlankIffAllWhitespace` | src/components/Form/FormAddImage.tsx:86 | `imageUrl.trim()` is empty (falsy) iff the URL is empty or made only of white space |
| `FormAddImage.Submission` | src/components/Form/FormAddImage.tsx:83-116 | nothing is posted iff the URL is blank; a post carries exactly the submitted title and description and the uploaded URL; the `images` query is invalidated iff the post resolved; the not-added, added and failed notices each come exactly in their case |
| `FormAddImage.UploadForm.constructor` | src/components/Form/FormAddImage.tsx:28-29 | both image URLs start empty, with no field values, no errors and nothing posted or raised |
| `FormAddImage.UploadForm.SetImageUrl` | src/components/Form/FormAddImage.tsx:123 | the uploaded-image URL becomes the given one |
| `FormAddImage.UploadForm.SetLocalImageUrl` | src/components/Form/FormAddImage.tsx:124-125 | the preview URL becomes the given one |
| `FormAddImage.UploadForm.Edit` | src/components/Form/FormAddImage.tsx:121-144 | the registered inputs, the file input included, set the field values; nothing else changes |
| `FormAddImage.UploadForm.TryPost` | src/components/Form/FormAddImage.tsx:85-109 | the `try`/`catch` part appends the effect of `Submission` on the current URL: the body posted (if any), the one notice raised and the invalidation (if any) |
| `FormAddImage.UploadForm.OnSubmit` | src/components/Form/FormAddImage.tsx:83-116 | the submit effect of the old URL is recorded, and on every path, the early return included, both URLs become empty, the form holds the submitted values with no errors, and `closeModal` is called once |
| `FormAddImage.UploadForm.HandleSubmit` | src/components/Form/FormAddImage.tsx:119 | with a broken rule only the inline errors change (nothing posted, no notice, modal left open); with none, the submit handler runs on the current values |
| `FormAddImage.BlankUrlScenario` | src/components/Form/FormAddImage.tsx:83-116 | submitting with a white-space-only uploaded URL posts nothing, raises only the not-added notice, invalidates nothing, and still clears the URL, keeps the submitted values and closes the modal once |
| `CardList.RenderCards` | src/components/CardList.tsx:46-50 | exactly one card element per record, in input order, keyed by the record's id and showing that record |
| `CardList.RenderCardsAppend` | src/components/CardList.tsx:46-50 | rendering a concatenation of records renders each part, in order |
| `CardList.KeysDistinct` | src/components/CardList.tsx:48 | records with distinct ids get distinct keys |
| `CardList.RunLast` | src/components/CardList.tsx:24-32 | after any non-empty sequence of view and close actions the state depends on the last one only: open with its URL after a view, closed with `''` after a close (one modal, no stacking) |
| `CardList.RunConsistent` | src/components/CardList.tsx:20-32 | from a consistent state, every sequence of actions keeps the selection `''` whenever the modal is closed |
| `CardList.CardListComponent.constructor` | src/components/CardList.tsx:20-22 | the list starts closed with selected URL `''` |
| `CardList.CardListComponent.HandleViewImage` | src/components/CardList.tsx:24-27 | whatever the prior state, the modal is open and shows the given URL, replacing any earlier selection |
| `CardList.CardListComponent.HandleCloseViewImage` | src/components/CardList.tsx:29-32 | whatever the prior state, the modal is closed and the selected URL is `''` |
| `CardList.CardListComponent.Render` | src/components/CardList.tsx:34-53 | the modal receives the current `isOpen` and selected URL, and the grid holds one element per card in order |
| `CardList.SelectionScenario` | src/components/CardList.tsx:20-53 | view card a, close, view b, view a again: the modal shows a, then is closed with `''`, then shows a (the last selection replaces the earlier one); the grid shows a then b |
| `Home.RequestAfter` | src/pages/index.tsx:22-27 | a request never sends `undefined`: a missing page parameter becomes `null`, any other is sent as it is |
| `Home.NextPageParam` | src/pages/index.tsx:32 | the next cursor is `lastPage.after` when that is truthy (a non-empty string) and `null` otherwise |
| `Home.FalsyCursorsEndTheList` | src/pages/index.tsx:32 | `undefined`, `null` and `""` all give a `null` next cursor; `"c1"` gives `"c1"` |
| `Home.FormattedDataMembers` | src/pages/index.tsx:36-44 | every record of every page is in the flattened list, and every record in it comes from some page |
| `Home.FormattedDataAppend` | src/pages/index.tsx:36-44 | a page fetched at the end adds its records at the end of the list |
| `Home.FormattedDataSplit` | src/pages/index.tsx:36-44 | flattening the pages before and after any split point and joining the results gives the whole list |
| `Home.FormattedDataAt` | src/pages/index.tsx:36-44 | record k of page i sits at position (records of the earlier pages) + k: nothing is dropped or reordered |
| `Home.DistinctIdsConcat` | src/pages/index.tsx:36-44 | two lists each without repeated ids and with no id in common join into a list without repeated ids |
| `Home.FormattedDataIdsDistinct` | src/pages/index.tsx:36-44 | when ids are unique within each page and no two pages share an id, the flattened list has no repeated id |
| `Home.RenderedKeysDistinct` | src/pages/index.tsx:36-59 | under the same condition the cards the grid renders from the flattened list have pairwise distinct keys |
| `Home.FirstFetch` | src/pages/index.tsx:20-34 | the first page is requested with `after = null`, and the list is that page's data |
| `Home.FetchNext` | src/pages/index.tsx:20-34 | a further page is requested with the next cursor of the last page, and its records are appended to the list |
| `Home.RequestedCursors` | src/pages/index.tsx:22-32 | every request after the first sends the previous page's truthy `after`, or `null` |
| `Home.LoadMoreAppendsCards` | src/pages/index.tsx:36-59 | after a further page, the rendered cards are the earlier cards followed by the new page's cards |
| `Home.Render` | src/pages/index.tsx:46-68 | loading, error and content are mutually exclusive with priority loading > error > content; the content shows the flattened list; the load-more button is present iff there is a next page; its label is "Carregando..." iff a next page is being fetched and "Carregar mais" otherwise |
| `Home.TwoPageScenario` | src/pages/index.tsx:20-68 | page one `{[a], "c1"}` shows [a] with the button; the next request sends `"c1"`; page two `{[b], null}` shows [a, b] without the button |

## Left out

- src/components/Modal/ViewImage.tsx: the modal's markup is presentation
  only. The model keeps only the props it receives (`ModalProps`).
- HTTP calls: `api.get` and `api.post` become an opaque `Page` value and a
  `PostOutcome`. Response bodies, status codes, timeouts and axios's
  serialisation of a `null` parameter are not modelled.
- The file input and its upload to the image host: the file input is not
  part of this model. Only the two URL setters it receives are modelled.
- react-query internals: the page cache, refetch after invalidation, and
  errors on later pages. `FirstFetch` and `FetchNext` state how the library
  is assumed to accumulate pages and page parameters. `hasNextPage` is taken
  as "the next-page parameter of the last page is not null". Invalidation is
  only counted.
- Home.Render: requires `Settled`: a query that is neither loading nor failed
  holds data whose pages are `Chained` (the first fetched without a page
  parameter, each later one with the next-page parameter of the page
  before). The library guarantees this. Without data, the page would pass
  `undefined` to the card list.
- react-hook-form internals:
  - The order of the rules within a field is assumed to be the declared one:
    `required` first, then the length or `validate` rules, and only the first
    failure is shown.
  - How `required` treats an empty file list: a missing file is `None`.
  - `reset(data)` is modelled as "values become `data`, errors cleared".
    Default values and dirty/touched flags are not modelled.
- The rule messages and notice texts are kept as data (`Message`,
  `NoticeText`); toast display, timing and styling are not modelled.
- The file size is a natural number of bytes, as a browser reports it. The
  MIME type is compared character by character; MIME types are ASCII, so
  this agrees with JavaScript's UTF-16 comparison.
- FormAddImage.UploadForm.Edit: after a first submission react-hook-form
  re-validates a field whenever it changes; the model updates the inline
  errors only on submit.
- Async scheduling and `isSubmitting` button disabling: each handler runs to
  completion in one step. Chakra layout, the grid's column count and the
  `viewImage` wiring inside `Card` are also left out; the `Card` component is
  not part of this model.
