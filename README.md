# Tour-booking site client logic, modelled in Dafny

This project models the client-side logic of a tour-booking website's scripts:

- **Request queue** (`request_queue.dfy`, module `Requests`). Asynchronous operations run one at a time, in the order callers submitted them. A successful result stored under a cache key answers later requests with that key for 5000 ms.
- **Pagination** (`pagination.dfy`, module `Pagination`). This covers the slice of data shown on one page and the page controls: the window of page numbers, the jumps to the first and last page, the ellipses and the disabled buttons. It also covers the per-container state that `initPagination`, `goToPage` and `updatePaginationData` keep.
- **Hero slider** (`slider.dfy`, module `Slider`). This covers which slides and dots are built from the database images or from the fallback images. It also covers the carousel that `showSlide`, `nextSlide` and `prevSlide` drive.
- **Shared footer** (`footer.dfy`, module `Footer`). This covers the constant footer template and how admin pages rewrite its links and logo path.
- **Recent bookings** (`admin.dfy`, module `Admin`). This covers the distinct user ids of the fetched bookings, the profile dictionary, and each booking annotated with its user's profile or `null`.
- `wrappers.dfy` (module `Wrappers`) holds the shared `Option` type. It stands for a JavaScript `null`, or for a value that is always truthy.

Each piece that changes state step by step is written as imperative Dafny:

- the queue is a class whose fields are a sequence and a map;
- the pagination registry is a class over a map;
- the carousel is a class over two arrays of `active` flags;
- the loops that build slides, dots, controls and the profile dictionary are `while`/`for` loops.

Each of these methods is proved against a specification function. The properties of that function are proved as lemmas. The footer rewrite is pure, so it is written as functions.

Inputs from outside are explicit parameters:

- **Time** is the argument `now`. While the queue drains, it is the oracle `clock`, which gives the time each caller's operation finished.
- **Each awaited operation** is the oracle `run`. It gives `Ok(data)` or `Err(error)` for the operation a caller submitted.
- **Database answers** are `{data, error}` pairs (`Admin.Fetch`) or an optional list of images.
- **The page** appears only through flags, arrays and the page's path:
  - whether the pagination container, the slider container or the dots container exists (`hasContainer`, `hasSliderContainer`, `hasDotsContainer`);
  - whether a footer already exists (`hasExistingFooter`);
  - the `active` class of each slide and each dot, as the two `bool` arrays of `Slider.Carousel`.

The file's header says the queue prevents duplicate requests (js/request-queue.js:2). But the cache only learns a result when an operation completes (js/request-queue.js:49-57). So two requests with the same key, made before either completes, both run. Each caller is then settled with its own outcome, as `Requests.SameKeyBeforeCompletionBothRun` shows.

## Model

| member | source | states |
|---|---|---|
| `Requests.RequestQueue.constructor` | js/request-queue.js:5-10 | The queue starts empty and not processing, with an empty cache and the 5000 ms timeout. |
| `Requests.RequestQueue.Enqueue` | js/request-queue.js:15-34 | A truthy key with a fresh entry (age strictly below 5000 ms) returns the cached data, and the queue and cache stay unchanged. Otherwise exactly one entry is appended at the tail, so earlier entries keep their order. A truthy key's stale entry is removed. A falsy key (absent or `""`) never reads or changes the cache. |
| `Requests.RequestQueue.Process` | js/request-queue.js:39-69 | The call is a no-op while a drain is running. Otherwise every pending entry is settled in FIFO order. Each entry's settlement is for its own caller and carries its own outcome, so a failure reaches only that caller. The queue ends empty, `processing` ends false, and the cache equals the stores of the keyed successes applied in order. |
| `Requests.RequestQueue.ClearCache` | js/request-queue.js:74-76 | The cache becomes empty. The queue and the drain flag are untouched. |
| `Requests.RequestQueue.ClearCacheEntry` | js/request-queue.js:81-83 | Only the given key is removed. The queue and the drain flag are untouched. |
| `Requests.StoreAllLeavesOthers` | js/request-queue.js:52-57 | A key that no drained entry stored under keeps its cache entry, or its absence. In particular, the empty key is never stored. |
| `Requests.StoreAllLastWriterWins` | js/request-queue.js:52-57 | After a drain, a key holds the data and completion time of the last successful entry with that key. |
| `Requests.FailuresStoreNothing` | js/request-queue.js:48-62 | A drain in which every operation failed leaves the cache unchanged. |
| `Requests.CachedAfterSuccess` | js/request-queue.js:17-57 | Take the last success with a given key in a drain. A request with that key, made less than 5000 ms after that success, finds a fresh entry holding its data. |
| `Pagination.GetPaginatedData` | js/pagination.js:80-93 | `totalItems` is the data's length and `itemsPerPage` is echoed back. `totalPages` is 0 exactly when the data is empty. The reported page is `min(p, totalPages)`, or `min(p, 1)` when there are no pages. |
| `Pagination.CeilDivBounds` | js/pagination.js:81 | The page count is the least number of pages that holds every item. |
| `Pagination.TotalPagesIsCeiling` | js/pagination.js:81 | For any requested page, `totalPages == ceil(len / itemsPerPage)`, stated as `(totalPages - 1) * ipp < len <= totalPages * ipp`. |
| `Pagination.PageSizeBounded` | js/pagination.js:82-84 | Whatever page is asked for, even a negative one, a page holds at most `itemsPerPage` items. |
| `Pagination.PageSlice` | js/pagination.js:82-84 | Page `p >= 1` is `data[(p-1)*ipp .. min(p*ipp, len))`, clamped to the data. |
| `Pagination.PageEmptyPastEnd` | js/pagination.js:81-84 | Page `p >= 1` is empty exactly when `p > totalPages`. |
| `Pagination.PagesAreConsecutivePages` | js/pagination.js:80-84 | Pages 1 to `k` are pages 1 to `k - 1` followed by exactly the `paginatedData` that `getPaginatedData` returns for page `k`. |
| `Pagination.PagesPrefix` | js/pagination.js:80-84 | Pages 1 to `k`, concatenated, are the first `min(k*ipp, len)` items. |
| `Pagination.AllPagesReproduceData` | js/pagination.js:80-84 | Concatenating pages 1 to `totalPages` gives back the data exactly. |
| `Pagination.WindowBounds` | js/pagination.js:34-40 | For `1 <= current <= total` the window satisfies `1 <= start <= current <= end <= total` and holds `min(5, total)` pages. |
| `Pagination.ButtonsAt` | js/pagination.js:49-51 | The numbered buttons run from `start` to `end` in order. Only the current page's button is active. |
| `Pagination.ControlsButtons` | js/pagination.js:49-51 | A numbered button for page `n` appears exactly when `n` is in the window. It is active exactly when `n` is the current page. |
| `Pagination.ControlsShape` | js/pagination.js:14-61 | The controls are empty exactly when `totalPages <= 1`. Prev is disabled exactly on page 1, and Next exactly on the last page. The page-1 button is shown exactly when `start > 1`, followed by an ellipsis exactly when `start > 2`. The last-page button is shown exactly when `end < total`, preceded by an ellipsis exactly when `end < total - 1`. The window is never empty. |
| `Pagination.CreatePaginationHtml` | js/pagination.js:13-71 | Appending the pieces as the source does yields exactly the controls specified by `Controls`. |
| `Pagination.AppendPageButtons` | js/pagination.js:49-51 | The loop appends the buttons `start` to `end` in order, after what was already built. |
| `Pagination.PaginationRegistry.constructor` | js/pagination.js:103-105 | The state map starts empty. |
| `Pagination.ShowState` | js/pagination.js:122-149 | For a stored page, the render function, if set, receives the rows `data[(p-1)*ipp .. min(p*ipp, len))`. The controls of that page are shown exactly when the container element exists. |
| `Pagination.PaginationRegistry.InitPagination` | js/pagination.js:102-116 | The container's entry is (re)set to page 1 with the given data, page size and render function. Other containers are untouched. The new state is then rendered, as `ShowState` gives it. |
| `Pagination.PaginationRegistry.UpdatePagination` | js/pagination.js:122-149 | An unknown container shows nothing. Otherwise the render function, if set, receives the rows of the stored page. The controls are shown only when the container element exists, and they are those of the stored page. |
| `Pagination.PaginationRegistry.GoToPage` | js/pagination.js:156-173 | A page below 1 or above `totalPages`, or an unknown container, leaves all state unchanged and renders nothing. Otherwise only `currentPage` of that container changes and the new page is rendered. The invariant that every stored page is in range is kept. |
| `Pagination.PaginationRegistry.UpdatePaginationData` | js/pagination.js:180-194 | For a known container, the data is replaced and the page reset to 1, keeping the page size and render function. For a new container, an entry is created with 10 items per page and no render function. Either way the container is re-rendered. |
| `Pagination.StoredPageStartsInData` | js/pagination.js:156-193 | Under the registry invariant, the stored page starts inside the data. |
| `Pagination.StoredPageRows` | js/pagination.js:82-84 | Under the registry invariant, the stored page is `data[lo .. min(lo + ipp, len))` with `lo = (page - 1) * ipp` inside the data, so no clamping applies. |
| `Pagination.StoredPageIsReported` | js/pagination.js:89 | Under the registry invariant, `getPaginatedData` reports the stored page without clamping it. |
| `Slider.SlideSources` | js/slider.js:53-104 | A missing or empty image list yields the three fallback URLs. Otherwise the list yields one URL per image, in order. |
| `Slider.SlideCount` | js/slider.js:53-70 | There are 3 slides for the fallback, otherwise one per image. There is always at least one. |
| `Slider.LoadSliderImages` | js/slider.js:39-115 | Without a slider container nothing is built. Otherwise there is one slide per source in order, and only slide 0 is active. With a dots container there is one dot per slide, its `data-slide` equals its index, and only dot 0 is active. |
| `Slider.NextIndex` | js/slider.js:157-160 | `(current + 1) % n` is a valid slide index. |
| `Slider.PrevIndex` | js/slider.js:162-165 | `(current - 1 + n) % n` is a valid slide index. |
| `Slider.NextStep` | js/slider.js:157-160 | From a valid index, next steps forward and wraps from the last slide to 0. |
| `Slider.PrevStep` | js/slider.js:162-165 | From a valid index, prev steps back and wraps from 0 to the last slide. |
| `Slider.PrevUndoesNext` | js/slider.js:157-165 | Prev after next restores the index, and next after prev does too. |
| `Slider.AdvanceWraps` | js/slider.js:157-160 | Up to one full turn, `k` calls of next move `k` slides forward and wrap at most once. |
| `Slider.FullCycle` | js/slider.js:157-160 | `n` calls of next on `n` slides return to the starting slide. |
| `Slider.Carousel.constructor` | js/slider.js:146 | The carousel starts on slide 0 over the given slides and dots. |
| `Slider.Carousel.ShowSlide` | js/slider.js:149-155 | Exactly slide `i` and dot `i` are active, where they exist, and `currentSlide == i`. |
| `Slider.Carousel.NextSlide` | js/slider.js:157-160 | `currentSlide` becomes `(old + 1) % n`. Exactly that slide and its dot are active. |
| `Slider.Carousel.PrevSlide` | js/slider.js:162-165 | `currentSlide` becomes `(old - 1 + n) % n`. Exactly that slide and its dot are active. |
| `Slider.InitSliderManually` | js/slider.js:138-146 | With zero slides there is no carousel. Otherwise a newly allocated carousel over the page's slides and dots starts at slide 0. The caller can then drive it with `ShowSlide`, `NextSlide` and `PrevSlide`. |
| `Footer.RewriteHref` | js/footer.js:73-83 | The result is the link itself or `../` + link. Either way it begins with `http`, `#`, `../` or `/`. |
| `Footer.RewriteHrefCases` | js/footer.js:73-83 | A link is left unchanged exactly when it starts with `http`, `#`, `../` or `/`. Any other link becomes `../` + link. |
| `Footer.RewriteHrefIdempotent` | js/footer.js:79-82 | Rewriting twice equals rewriting once. |
| `Footer.RelativeLinkIsPrefixed` | js/footer.js:79-81 | A link whose first character is not `h`, `#`, `.` or `/` gets the `../` prefix. |
| `Footer.TelAndMailtoArePrefixed` | js/footer.js:73-83 | `tel:` and `mailto:` links are not exempt and get the `../` prefix too. |
| `Footer.AdjustForAdminIdempotent` | js/footer.js:73-85 | Adjusting an already adjusted footer changes nothing. |
| `Footer.AdminFooterLinks` | js/footer.js:72-86 | On admin pages every link of the footer, the phone and mail links included, becomes `../` + link. Every `logo.jpeg` source in the template, of which there is one, becomes `../logo.jpeg`. |
| `Footer.InitFooter` | js/footer.js:62-120 | An existing footer is replaced, and otherwise the footer is appended to the body. Off `/admin/` paths the markup is the template unchanged. On `/admin/` paths it is the adjusted template. |
| `Footer.BothBranchesAgree` | js/footer.js:69-111 | Replacing an existing footer and appending a new one insert identical markup. |
| `Admin.UserIds` | js/admin.js:96 | The ids contain no duplicates. Every booking's `user_id` appears, and nothing else does. There are never more ids than bookings, and the ids are empty exactly when there are no bookings. |
| `Admin.LastProfileWins` | js/admin.js:112-115 | When several profiles share an id, the later one is kept. |
| `Admin.LastProfileMissing` | js/admin.js:112-119 | No profile is found for an id exactly when no profile has that id. A profile that is found is from the list and has that id. |
| `Admin.BuildProfileMap` | js/admin.js:112-115 | The dictionary has exactly the ids of the profiles. Each id maps to the last profile with that id. |
| `Admin.GetRecentBookings` | js/admin.js:93-125 | A bookings-query error gives `{data: null, error}`. Otherwise `error` is `null` and the data has the bookings' length and order, each booking keeping all its fields. Each booking's `profiles` is the last profile whose id equals its `user_id`, or `null`. A profile-query error with no data makes every `profiles` null, without failing the call. |

## Left out

- Database access is left out. This covers the Supabase client checks, the queries and their `limit` and ordering, `getSliderImages`, `getDashboardStats` with its floating-point revenue sum, and `approveBooking`/`rejectBooking`. The last two call `updateBookingStatus`, which is not part of this model. Query results are inputs.
- The DOM is left out. This covers `innerHTML`, `outerHTML`, `insertAdjacentHTML`, `classList`, the removal of old pagination controls, `scrollIntoView` in `goToPage`, and event listeners. Whether a container element exists is a boolean parameter (`hasContainer`, `hasSliderContainer`, `hasDotsContainer`, `hasExistingFooter`), and `active` classes are arrays of flags.
- Timers are left out: the 50 ms pause between queued requests, the 100 ms start timers and the 5000 ms auto-slide interval. What they call is modelled as follows:
  - The 5000 ms interval calls `nextSlide` (`Slider.Carousel.NextSlide`).
  - The click handlers call `nextSlide`, `prevSlide` or `showSlide` and then restart that interval (js/slider.js:176-196). Stopping and restarting the interval is not modelled. `Slider.ThreeSlidesDrivenByHandlers` drives a carousel through such a sequence of calls.
  - The slider's 100 ms start timer calls `initHeroSlider`, which is left out, or `initSliderManually` (`Slider.InitSliderManually`).
  - The footer's 100 ms timer calls `applyTranslations`, which is left out with the other translations.
- `initHeroSlider`, defined in a page that is not part of this model, is left out. So is the slider's catch path.
- Promise scheduling is left out. In the source, the `process()` call inside `enqueue` starts draining at once. Here `Requests.RequestQueue.Enqueue` only queues, and draining is the separate `Process`. A second `Process` while `processing` is set is the no-op case. Interleavings of `enqueue` with a suspended drain are not modelled.
- Translation (`t`, `applyTranslations`) and the markup text of the pagination controls are left out. Controls are modelled as the sequence of widgets they are built from.
- `Pagination.GetPaginatedData`, `Pagination.PaginationRegistry.InitPagination`: a page size of zero or less is excluded. In JavaScript a size of zero gives an `Infinity` or `NaN` page count. A negative size gives a page count of zero or less (`Math.ceil(5 / -2)` is `-2`). The one caller of `initPagination` in the file passes 10 (js/pagination.js:192). Page numbers are integers, so fractional page numbers are not modelled.
- `Footer.InitFooter`: whitespace inside the template is not reproduced. The two regular-expression replacements act on the template's `href`/`src` attributes, which the model holds as separate pieces. A matching attribute hidden inside other markup is not modelled, and the template has none.
- `Admin.GetRecentBookings`: user ids and profile ids are strings. JavaScript's coercion of other key types (`null` becoming `"null"`) is not modelled. `profileMap` is a plain object (js/admin.js:112), so a `user_id` such as `"constructor"` with no matching profile would read an inherited value there. Keys inherited from `Object.prototype` are not modelled: the model gives `null` for such an id. Exceptions other than the bookings-query error are not modelled either.
