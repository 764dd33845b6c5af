# IPTV storefront: verified model of the client state

This project models, in Dafny, the state logic of a small React storefront that sells
IPTV subscriptions:

- the **admin dashboard** (`src/pages/AdminDashboard.js`): a product list kept in the
  browser's storage. Its handlers toggle the active flag by id, delete by id, edit by id,
  append a new product and load a default seed of four subscriptions. They also fill and
  clear the product form and check image uploads.
- the **home page's visibility filter** (`src/pages/Home.js`): customers see the products
  whose `is_active` is the boolean `true` or the string `"true"`.
- the **carousel** (`src/components/ImageSlider.js`): a cyclic index over three slides.
- the **application shell** (`src/App.js`): hash routing over four pages, an `isAdmin`
  flag read from storage, login and logout, and the guard in front of the dashboard.
- the **catalog store** (`src/contexts/ProductsContext.js`): the customer-side product list
  fetched from the remote collection, and its loading flag.

Product records are modelled as JavaScript objects (`JsValues.Record`, a map from
property name to a primitive `JsValue`). This keeps the code's own semantics:
`===` (`StrictEquals`, under which `NaN` equals nothing), truthiness (`!p.is_active`
flips by truthiness), `||`, object spread (a map update or a map union, later fields
winning), and a missing property reading as `undefined`. Component state that the
handlers update becomes a class (`Dashboard`, `Slider`, `AppState`, `ProductsProvider`).
The `map`/`filter`/spread expressions those handlers apply are functions in `ProductList`,
`Home` and `Seqs`, and the lemmas about them are proved there.

Inputs the code gets from outside are parameters:
- the outcome of the remote fetch (`FetchOutcome`);
- the clock reading used as a new product's id (`now`);
- what `parseFloat`/`parseInt` make of the form's text;
- the text rendering of a price and a channel count;
- the user's answer to the delete confirmation;
- the picked file's size, type and data URL;
- whether a storage write of the product list completes or throws (`written`; it throws when the storage quota is exceeded);
- the admin flag the login page leaves in storage before it reports a login (`storedAfter`);
- the key and value of a storage event raised by another tab.

Facts about the code that shape the model:
- The admin flag has no expiry or timestamp. Admin status is exactly "the stored value is
  the string `'true'`" (src/App.js:20).
- The dashboard's mutations rewrite a list kept in the browser's storage. They never call
  the remote collection and re-check nothing (src/pages/AdminDashboard.js:74-79).
- The customer filter also accepts the string `"true"`, not only a boolean
  (src/pages/Home.js:24).
- The customer catalog is loaded from the remote collection (src/contexts/ProductsContext.js:22),
  not from the dashboard's stored list. The two lists are modelled as the separate state
  they are (`Dashboard.products`, `ProductsProvider.products`).
- The dashboard's save dispatches a `productsUpdated` event in its own tab
  (src/pages/AdminDashboard.js:78). The only listener is on the home page (src/pages/Home.js:16),
  and the shell renders one page at a time (src/App.js:78-95). So while the dashboard is on
  screen the event reaches no listener; the model only counts it.
- The cart lives in `src/contexts/CartContext.js`, and CartContext.js is not part of this
  model.

## Model

| member | source | states |
|---|---|---|
| ProductList.ToggleActive | src/pages/AdminDashboard.js:180-185 | same length; products without the id unchanged; each product with the id gets a boolean flag of the opposite truthiness, keeps every other field and gains no key but `is_active` |
| ProductList.ToggleTwiceRestores | src/pages/AdminDashboard.js:180-185 | toggling one id twice gives back the original list when the matching products carry boolean flags |
| ProductList.ToggleTwiceNormalisesStringFlag | src/pages/AdminDashboard.js:182 | with a string flag `"true"` the double toggle is not the identity: the flag comes back as boolean `true` |
| ProductList.ToggleKeepsIds | src/pages/AdminDashboard.js:180-185 | toggling leaves the sequence of ids unchanged |
| ProductList.DeleteById | src/pages/AdminDashboard.js:175 | a product is in the result iff it was in the list and does not carry the id; each survivor keeps its number of occurrences; kept and removed counts add up to the old length |
| ProductList.DeleteKeepsOrder | src/pages/AdminDashboard.js:175 | the survivors are a subsequence of the old list (order kept) |
| ProductList.DeleteAbsentId | src/pages/AdminDashboard.js:175 | deleting an id no product carries leaves the list unchanged |
| ProductList.DeleteIdempotent | src/pages/AdminDashboard.js:175 | deleting the same id twice equals deleting it once |
| ProductList.EditById | src/pages/AdminDashboard.js:122-132 | same length; every product carrying the id is replaced by the form's record, all others unchanged |
| ProductList.EditKeepsIds | src/pages/AdminDashboard.js:120-132 | since the stored record takes the edited id, the sequence of ids is unchanged |
| ProductList.EditIdempotent | src/pages/AdminDashboard.js:120-132 | submitting the same edit twice equals submitting it once |
| ProductList.Append | src/pages/AdminDashboard.js:142 | one more element; the old list is an unchanged prefix; the new record is last |
| ProductList.AppendMayDuplicateId | src/pages/AdminDashboard.js:133-142 | a new id equal to an existing one is not rejected: two products then share it |
| ProductList.NormalizeImage | src/pages/AdminDashboard.js:129 | a missing, empty or white-space-only image becomes `null`; any other image string is kept verbatim |
| ProductList.FormToProduct | src/pages/AdminDashboard.js:124-141 | the stored record has exactly the seven product fields: the given id, the parsed price, the parsed channel count or `null` when it is falsy, the normalised image, and name, description and flag from the form |
| ProductList.FormFromProduct | src/pages/AdminDashboard.js:161-168 | every form field the edit form shows as text is a string; the channels field is the count's text when the count is truthy, and is empty iff the count is falsy or its text is empty; for a dashboard-written record the form holds its name and description, its image field is empty exactly when the image is `null`, and normalising that field gives the stored image back |
| ProductList.EditRoundTrip | src/pages/AdminDashboard.js:120-168 | opening a well-formed product for editing and submitting unchanged stores the same record again |
| ProductList.CheckUpload | src/pages/AdminDashboard.js:84-94 | accepted iff size ≤ 2·1024·1024 and the MIME type starts with `image/`; an oversized file is refused as too large whatever its type (size is checked first) |
| ProductList.DefaultProducts | src/pages/AdminDashboard.js:30-67 | four products with ids 1 to 4, all active, no image, each well-formed |
| AdminDashboard.Dashboard.constructor | src/pages/AdminDashboard.js:5-17 | empty list, loading, form hidden and empty, nothing being edited, no preview |
| AdminDashboard.Dashboard.LoadProducts | src/pages/AdminDashboard.js:23-72 | a saved list (even an empty one) is used as is; with nothing saved the defaults are installed and saved; not loading afterwards; stored and shown lists equal |
| AdminDashboard.Dashboard.SaveProducts | src/pages/AdminDashboard.js:74-79 | when the storage write completes, stored and shown lists both become the new list and one update event is dispatched; when it throws, nothing changes |
| AdminDashboard.Dashboard.HandleImageUpload | src/pages/AdminDashboard.js:81-104 | no file: nothing; a refused file leaves form and preview unchanged; an accepted one sets both to the data URL |
| AdminDashboard.Dashboard.HandleImageUrlChange | src/pages/AdminDashboard.js:106-114 | the form's image becomes the URL; the preview is the URL unless it is blank, then `null` |
| AdminDashboard.Dashboard.RemoveImage | src/pages/AdminDashboard.js:291-294 | preview cleared, the form's image emptied |
| AdminDashboard.Dashboard.ResetForm | src/pages/AdminDashboard.js:187-199 | form hidden and cleared, nothing being edited, no preview |
| AdminDashboard.Dashboard.OpenAddForm | src/pages/AdminDashboard.js:217-229 | empty form shown in add mode |
| AdminDashboard.Dashboard.HandleEdit | src/pages/AdminDashboard.js:159-171 | the product is being edited, the form is filled from it, the preview is its image or `null` |
| AdminDashboard.Dashboard.HandleSubmit | src/pages/AdminDashboard.js:116-157 | edit mode replaces the products with the edited id; add mode appends one record with id `now`; the list is saved and the form reset; when the storage write throws, list, stored copy and form all stay as they were |
| AdminDashboard.Dashboard.HandleDelete | src/pages/AdminDashboard.js:173-178 | confirmed and written: the list becomes the delete result and the stored copy equals it; declined, or the storage write throws: nothing changes |
| AdminDashboard.Dashboard.ToggleActive | src/pages/AdminDashboard.js:180-185 | the list becomes the toggle result and the stored copy equals it; when the storage write throws, nothing changes |
| Home.ActiveProducts | src/pages/Home.js:24 | a product is shown iff it is in the catalog and its flag is exactly boolean `true` or string `"true"`; each visible product appears as many times as in the catalog, each hidden one not at all |
| Home.ActiveProductsKeepOrder | src/pages/Home.js:24 | the shown products are a subsequence of the catalog |
| Home.ActiveProductsIdempotent | src/pages/Home.js:24 | filtering the shown list again changes nothing |
| Home.StrictFlagExcludes | src/pages/Home.js:24 | flags `false`, `"false"`, `1`, `"TRUE"` and a missing flag all hide the product |
| Home.VisibleMeansLabelledActive | src/pages/AdminDashboard.js:383-387 | a flag the customer filter accepts is one the admin table labels "Active"; the flag `"false"` is labelled "Active" yet fails the filter (the two pages list different records; this compares the two tests on one flag value) |
| Home.ToggleFlipsFilterVerdict | src/pages/AdminDashboard.js:180-185 | for a record with a boolean flag, the toggled record passes the customer filter iff the original did not (the dashboard list is not the customer catalog, so no dashboard toggle reaches customers) |
| Home.DefaultFlagsPassFilter | src/pages/AdminDashboard.js:30-67 | every seed record's flag passes the customer filter, so filtering the seed keeps all four (the seed is stored by the dashboard and never reaches the customer catalog) |
| Home.ProductsGrid | src/pages/Home.js:34-50 | spinner iff loading; "no products" iff not loading and nothing is visible; otherwise the visible products |
| ImageSlider.Next | src/components/ImageSlider.js:46-50 | an index within the slides stays within the slides |
| ImageSlider.Previous | src/components/ImageSlider.js:40-44 | an index within the slides stays within the slides |
| ImageSlider.NextPreviousInverse | src/components/ImageSlider.js:40-50 | next and previous undo each other on every valid index |
| ImageSlider.FullCycle | src/components/ImageSlider.js:46-50 | as many steps forward as there are slides return to the start |
| ImageSlider.SlideCountIsLength | src/components/ImageSlider.js:8-24 | there are three slides |
| ImageSlider.DotTargets | src/components/ImageSlider.js:81-87 | one dot per slide, dot k passing index k, always a valid index |
| ImageSlider.Slider.constructor | src/components/ImageSlider.js:5 | the index starts at 0 |
| ImageSlider.Slider.GoToSlide | src/components/ImageSlider.js:36-38 | the index becomes the dot's index |
| ImageSlider.Slider.GoToNext | src/components/ImageSlider.js:46-50 | last wraps to 0, otherwise plus one; the index stays valid |
| ImageSlider.Slider.GoToPrevious | src/components/ImageSlider.js:40-44 | 0 wraps to the last, otherwise minus one; the index stays valid |
| ImageSlider.Slider.Tick | src/components/ImageSlider.js:27-31 | the timer's step is the same successor as next |
| App.HashOf | src/App.js:27 | the hash is the location hash with exactly its first character removed (empty stays empty) |
| App.HashRoundTrip | src/App.js:27 | a plain hash set through the setter (such as the three the shell writes) reads back as written |
| App.Route | src/App.js:26-41 | `contact` goes to contact; `admin` or `admin/login` go to admin when logged in, else to the login page; everything else goes home |
| App.ViewFor | src/App.js:78-95 | the dashboard is rendered iff the page is admin and the flag is set; the admin page without the flag renders the login |
| App.FooterOnlyWithCustomerViews | src/App.js:103 | the footer is shown iff the rendered view is home or contact, never with the dashboard |
| App.WrittenHashesRouteBack | src/App.js:26-89 | `#admin` routes to the dashboard when logged in, `#admin/login` to the login page when not, `#home` home |
| App.AppState.constructor | src/App.js:14-15 | the shell starts on home, not admin |
| App.AppState.CheckAdminStatus | src/App.js:19-23 | `isAdmin` and the result are true iff the stored flag is exactly the string `'true'` |
| App.AppState.HandleHashChange | src/App.js:26-44 | the flag is re-read, then the page is the route of the current hash |
| App.AppState.HandleStorageChange | src/App.js:50-54 | a change to the admin key re-reads the flag; other keys change nothing; a full clear elsewhere empties the stored flag but leaves `isAdmin` as it was |
| App.AppState.HandleAdminLogin | src/App.js:63-69 | the stored flag is what the login page left; success sets `isAdmin` and moves to admin with hash `#admin`; failure clears `isAdmin` and leaves page and hash |
| App.AppState.HandleAdminLogout | src/App.js:71-76 | the stored flag is removed, `isAdmin` cleared, page home with hash `#home` |
| App.AppState.RenderPage | src/App.js:78-95 | the dashboard only with `isAdmin`; the admin page without it redirects to the login page and hash |
| ProductsContext.Entry | src/contexts/ProductsContext.js:23 | the entry's id is the data's own `id` when it has one, otherwise the document id; every other field is the data's |
| ProductsContext.EntriesFollowDocs | src/contexts/ProductsContext.js:22-24 | one entry per document, in document order |
| ProductsContext.AfterLoad | src/contexts/ProductsContext.js:19-30 | a failed fetch keeps the list; a successful one replaces it with one entry per document, entry i built from document i |
| ProductsContext.LoadIdempotent | src/contexts/ProductsContext.js:19-30 | loading twice with the same outcome equals loading once |
| ProductsContext.LastFinishWins | src/contexts/ProductsContext.js:19-30 | of two overlapping loads, the successful one that finishes last decides the list |
| ProductsContext.ProductsProvider.constructor | src/contexts/ProductsContext.js:16-17 | the list starts empty and loading |
| ProductsContext.ProductsProvider.BeginLoad | src/contexts/ProductsContext.js:21 | loading is set before the fetch is awaited |
| ProductsContext.ProductsProvider.FinishLoad | src/contexts/ProductsContext.js:22-29 | the list follows the fetch outcome and loading ends, on success and on failure |
| ProductsContext.ProductsProvider.LoadProducts | src/contexts/ProductsContext.js:19-30 | the list follows the fetch outcome; not loading afterwards |
| ProductsContext.ProductsProvider.RefreshProducts | src/contexts/ProductsContext.js:32-34 | exactly the effect of a load |

## Left out

- The remote document database and its SDK (`src/firebase.js`, `getDocs`, `collection`): the fetch's result is an input, and its error is only logged by the source.
- Browser storage and JSON: the dashboard's saved list is held as a list (`savedProducts`), and parsing back what was stringified is taken to give the same list. JSON's own changes are not modelled: `undefined` fields dropped, `NaN` written as `null`.
- Storage is shared, but the model keeps it as two separate fields: the admin flag in `AppState` and the product list in `Dashboard`. The two use different keys.
- AdminDashboard.Dashboard.SaveProducts: writes to the stored `'products'` list from other tabs are not modelled. The source has no storage listener on the dashboard, so another tab's save leaves this tab's list stale and this tab's next save overwrites it (a lost update); the invariant "stored list equals shown list" holds only with this tab as the single writer.
- `parseFloat`, `parseInt`, `toString`, `toFixed` and `toLocaleString`: number parsing and formatting are inputs or are not modelled. Numbers are idealised as reals, without `-0` or rounding.
- A failing storage write in the mount-time seed (`loadProducts`, src/pages/AdminDashboard.js:69) is not modelled: it throws inside React's mount effect, which takes down the component rather than leaving state behind. Failing writes from the event handlers are modelled (`written`).
- `Date.now()` is the parameter `now`. Ids are not checked for uniqueness, and the model does not claim they are unique.
- The FileReader is modelled as finishing at once with the given data URL. The form fields typed while a file is being read are not modelled: the source's handler would overwrite them with the form it captured earlier.
- `window.confirm` is the `confirmed` parameter. `alert` is the returned upload verdict.
- Dispatching `productsUpdated` is counted (`updateEvents`), not delivered: no listener is mounted while the dashboard is on screen, and the event does not cross tabs.
- Assigning `window.location.hash` fires a `hashchange` event later, and only when the hash actually changes (assigning the current hash fires none). The model represents that event as a separate `HandleHashChange` call, made only when the hash changed.
- App.HashFor: the browser's hash setter also drops a leading `#` and percent-encodes characters such as spaces. `HashFor` models only the plain hashes the shell writes (`admin`, `admin/login`, `home`), so `HashRoundTrip` is a browser fact only for such hashes.
- The admin login page (`src/pages/AdminLogin.js`) is not part of this model. The flag it writes to storage before calling back is the input `storedAfter` of `HandleAdminLogin`.
- Event-listener registration and removal, `setInterval` scheduling, and React's batching of state updates are not modelled.
- The form's text-field handlers (name, description, price, channels, the active checkbox) each replace one form field. They are not separate members.
- The navigation bar (its links and its `#products` anchor, which reaches the shell as a `hashchange` that `Route` sends home), the contact form, the product card with its messaging link, the footer and the cart are not modelled.
- NormalizeImage: a truthy image that is not a string makes the source throw at `.trim()` and abort the submit; the model stores `null` instead.
- AdminDashboard.Dashboard.HandleEdit: a product without a price makes the source throw at `price.toString()`; the model takes the price text as an input and does not model the exception.
