# Cinemato frontend: the logic behind four screens

Cinemato is a movie-booking web application. Its React frontend is mostly presentation,
but four components carry logic of their own, and this project models that logic in Dafny
and proves properties of it:

- **Explore Movies** (admin). An infinitely scrolling feed fetched from the movie database
  twelve movies per page, which a language/genre filter change replaces and a search
  overwrites (module `AdminAddMovies`, class `FeedController`).
- **Screen schedule** (theater owner). It builds the strip of selectable dates from the
  schedule's first and last day and steps through it. It also produces the date text sent
  to the backend (year, two-digit day, then the month number, in that order). Finally it
  shapes the returned show times and prints them on a 12-hour clock (module `AllShows`,
  class `SchedulePicker`, on top of `Calendar`).
- **Rating modal** (user). The 0–10 slider picks one of three hashtag buckets. Changing the
  rating clears the hashtag selection, and clicking a hashtag toggles it. Fetched hashtags
  are grouped by bucket, the hashtag area follows a render priority, and submitting has
  three outcomes (module `AddRatingModal`, class `RatingModal`).
- **Movie details**. Cast and crew are split by `is_cast` and previewed four at a time.
  Only members with an image are drawn, and a "more" control appears above 18. The trailer
  is the first YouTube "Trailer". The admin's listed/unlisted switch chooses its backend
  call from the flag as it was before the flip (module `MovieDetails`, class `DetailsPage`).

The model has two layers.

1. **Pure transition functions and spec functions.** These are `BeginFetch`, `FinishFetch`,
   `Scroll`, `DateStrip`, `Group`, `Toggle` and the rest. Each is proved against the
   properties the code promises.
2. **Classes.** Their fields are the components' state variables, and each handler is a
   method whose postcondition ties the new state to the transition function of the old
   state.

Each handler is one atomic step. HTTP responses, the "near the bottom of the page" test
and the store's flags are inputs.

Modelling conventions:

- **Days** are integers (day 0 is 1970-01-01). The proleptic Gregorian calendar gives the
  date of each day by stepping one day at a time, as `setDate(getDate() + 1)` does.
- **Ratings** are integer tenths (0..100).
- **JavaScript values**:
  - `null`/`undefined` are `Option`, and truthiness is spelled out.
  - `parseInt` returns `None` for NaN.
  - `%` truncates toward zero (`JsRem`).
  - `padStart`, `slice`, `split`, `filter` and `find` are defined in `Common` with their
    own contracts.

The model follows the code where a cleaner design would differ:

- Paging appends pages without de-duplication.
- Nothing discards a stale response.
- `hasMore` is never set back to true.
- A discover request carries the page number from the start of the call, even when that
  call resets the page to 1.
- A search sends the text typed *before* the current keystroke.
- Stepping right on an empty date strip selects index -1.

## Model

| member | source | states |
|---|---|---|
| AdminAddMovies.BeginFetch | cinemato-ui/src/components/Admin/AdminAddMovies/AdminAddMovies.jsx:37-46 | while loading, fetching changes nothing and sends nothing; otherwise loading is set, page becomes 1 after a filter change, and the request asks for the page current at the start of the call with the filter flag of that moment |
| AdminAddMovies.FinishFetch | cinemato-ui/src/components/Admin/AdminAddMovies/AdminAddMovies.jsx:48-69 | loading ends; `hasMore` turns false exactly on a successful page of fewer than 12; success after a filter change sets the list to the page and clears the flag, otherwise the page is appended as is; a failure changes nothing else |
| AdminAddMovies.Scroll | cinemato-ui/src/components/Admin/AdminAddMovies/AdminAddMovies.jsx:80-85 | the page grows by exactly one iff the view is near the bottom and `hasMore` holds, loading or not; nothing else changes |
| AdminAddMovies.EffectFetches | cinemato-ui/src/components/Admin/AdminAddMovies/AdminAddMovies.jsx:73-96 | a filter change always makes a fetch; a page change makes one only for a page above 1; no fetch otherwise |
| AdminAddMovies.ScrollWhileLoadingSkipsPage | cinemato-ui/src/components/Admin/AdminAddMovies/AdminAddMovies.jsx:38-96 | a scroll during a load still advances the page, but the fetch its effect starts is dropped by the loading gate, so that page is never requested |
| AdminAddMovies.BeginSearch | cinemato-ui/src/components/Admin/AdminAddMovies/AdminAddMovies.jsx:99-104 | searching sets loading with no gate, stores the typed text, and queries the text stored before it |
| AdminAddMovies.FinishSearch | cinemato-ui/src/components/Admin/AdminAddMovies/AdminAddMovies.jsx:106-113 | a successful search replaces the list wholesale; page, `hasMore` and the filter flag are untouched; loading ends |
| AdminAddMovies.HasMoreNeverRecovers | cinemato-ui/src/components/Admin/AdminAddMovies/AdminAddMovies.jsx:52-54 | after any sequence of events, filter picks included, an ended feed is still ended |
| AdminAddMovies.PageStaysPositive | cinemato-ui/src/components/Admin/AdminAddMovies/AdminAddMovies.jsx:40-83 | the page number stays at least 1 through any sequence of events, filter picks included |
| AdminAddMovies.AppendOnlyPaging | cinemato-ui/src/components/Admin/AdminAddMovies/AdminAddMovies.jsx:56-63 | with no filter change pending or picked and with only discover completions, the earlier list stays a prefix of the list and the flag stays clear |
| AdminAddMovies.VisibleMovies | cinemato-ui/src/components/Admin/AdminAddMovies/AdminAddMovies.jsx:147-148 | the cards are exactly the movies with a truthy poster path, never more than the movies |
| AdminAddMovies.VisibleAfterAppend | cinemato-ui/src/components/Admin/AdminAddMovies/AdminAddMovies.jsx:147-148 | the cards after appending a page are the old cards followed by the page's movies with posters, in order |
| AdminAddMovies.TwoPageSession | cinemato-ui/src/components/Admin/AdminAddMovies/AdminAddMovies.jsx:37-96 | first render, full page, scroll, short page: requests for pages 1 and 2 and the final state with both pages in order, the feed ended, on page 2 |
| AdminAddMovies.FeedController.constructor | cinemato-ui/src/components/Admin/AdminAddMovies/AdminAddMovies.jsx:13-33 | the initial state: no movies, page 1, more to load, not loading, no filter change, empty search |
| AdminAddMovies.FeedController.FetchMovies | cinemato-ui/src/components/Admin/AdminAddMovies/AdminAddMovies.jsx:37-46 | the new state and request are those of `BeginFetch` on the old state |
| AdminAddMovies.FeedController.FetchFinished | cinemato-ui/src/components/Admin/AdminAddMovies/AdminAddMovies.jsx:48-69 | the new state is `FinishFetch` of the old state |
| AdminAddMovies.FeedController.HandleScroll | cinemato-ui/src/components/Admin/AdminAddMovies/AdminAddMovies.jsx:80-85 | the new state is `Scroll` of the old state |
| AdminAddMovies.FeedController.MarkFilterChanged | cinemato-ui/src/components/Admin/AdminAddMovies/AdminAddMovies.jsx:137 | the filter menu's `setChangeFilter(true)` sets the flag and nothing else |
| AdminAddMovies.FeedController.HandleSearch | cinemato-ui/src/components/Admin/AdminAddMovies/AdminAddMovies.jsx:99-104 | the new state and request are those of `BeginSearch` |
| AdminAddMovies.FeedController.SearchFinished | cinemato-ui/src/components/Admin/AdminAddMovies/AdminAddMovies.jsx:106-113 | the new state is `FinishSearch` of the old state |
| AllShows.FormatDateDigits | cinemato-ui/src/components/Theater/Screens/Shows/AllShows.jsx:27-29 | the day-of-month text is exactly two digits reading back as the day of month; the year is the calendar year |
| AllShows.FormatDateNames | cinemato-ui/src/components/Theater/Screens/Shows/AllShows.jsx:22-28 | the day name is entry 0..6 (Sunday first) of the day names at the weekday, the month name entry 0..11 at the month |
| AllShows.DateStripAt | cinemato-ui/src/components/Theater/Screens/Shows/AllShows.jsx:34-45 | the strip has one card per day from start to end inclusive, the k-th for day start + k, and is empty when start > end |
| AllShows.GenerateDateRange | cinemato-ui/src/components/Theater/Screens/Shows/AllShows.jsx:34-45 | the loop's result is the strip of the range |
| AllShows.DateRangeIsConsecutive | cinemato-ui/src/components/Theater/Screens/Shows/AllShows.jsx:39-41 | successive cards are successive calendar days, strictly later, with the weekday advancing by one |
| AllShows.MonthCode | cinemato-ui/src/components/Theater/Screens/Shows/AllShows.jsx:69-74 | a name that is not a month name gets the "01" fallback |
| AllShows.FormatDateForAPI | cinemato-ui/src/components/Theater/Screens/Shows/AllShows.jsx:68-75 | for an unknown month name the text is year, '-', padded day, '-', "01" |
| AllShows.MonthCodeOfName | cinemato-ui/src/components/Theater/Screens/Shows/AllShows.jsx:23-73 | each month name of the strip maps to its own two-digit number |
| AllShows.MonthNumberValue | cinemato-ui/src/components/Theater/Screens/Shows/AllShows.jsx:69-73 | each month number is two digits reading back as the month |
| AllShows.ApiDateOfFormattedDate | cinemato-ui/src/components/Theater/Screens/Shows/AllShows.jsx:68-75 | for every card of the strip the API date is year, '-', two-digit day, '-', the card's own month number: the fallback is never taken |
| AllShows.ScrollLeftIndex | cinemato-ui/src/components/Theater/Screens/Shows/AllShows.jsx:120-122 | the index after stepping left is `max(i - 1, 0)` and never negative |
| AllShows.ScrollRightIndex | cinemato-ui/src/components/Theater/Screens/Shows/AllShows.jsx:124-126 | the index after stepping right is `min(i + 1, len - 1)` and never above len - 1 |
| AllShows.ScrollStaysInStrip | cinemato-ui/src/components/Theater/Screens/Shows/AllShows.jsx:120-126 | from an index inside the strip both steps stay inside; on an empty strip stepping right selects -1 |
| AllShows.ToShowtimes | cinemato-ui/src/components/Theater/Screens/Shows/AllShows.jsx:89-96 | one show per entry in order, its time the first five characters of the start time, its movie null exactly when the entry's movie is null or the text "None", and the entry's movie otherwise |
| AllShows.ParseInt | cinemato-ui/src/components/Theater/Screens/Shows/AllShows.jsx:137 | `parseInt` is NaN exactly when no digit follows the leading blanks and sign |
| AllShows.ParseIntOfDigits | cinemato-ui/src/components/Theater/Screens/Shows/AllShows.jsx:137 | digit text parses to the number it denotes |
| AllShows.JsRem | cinemato-ui/src/components/Theater/Screens/Shows/AllShows.jsx:139 | JavaScript `%`: the remainder is below the divisor in magnitude, carries the sign of the dividend and completes a division `a == q * b + r` |
| AllShows.TwelveHour | cinemato-ui/src/components/Theater/Screens/Shows/AllShows.jsx:139 | an unparsable hour shows as 12; a non-negative hour shows in 1..12, congruent to it mod 12; a negative one is never 0 |
| AllShows.Meridiem | cinemato-ui/src/components/Theater/Screens/Shows/AllShows.jsx:138 | the suffix is "AM" or "PM", and "PM" exactly when the hour parses and is at least 12 |
| AllShows.ConvertTo12HourFormat | cinemato-ui/src/components/Theater/Screens/Shows/AllShows.jsx:133-141 | the text always ends in "AM" or "PM", "PM" exactly when the hour part parses to at least 12 |
| AllShows.TwelveHourInverse | cinemato-ui/src/components/Theater/Screens/Shows/AllShows.jsx:138-139 | within a day the displayed hour and suffix determine the 24-hour hour |
| AllShows.ConvertWellFormed | cinemato-ui/src/components/Theater/Screens/Shows/AllShows.jsx:133-141 | for "HH:rest" the output is the converted hour, ':', the minutes text passed through unchanged, ' ', AM/PM by the hour |
| AllShows.NotANumberHour | cinemato-ui/src/components/Theater/Screens/Shows/AllShows.jsx:137-140 | an hour text that is not a number shows as 12 and AM |
| AllShows.PlanShowsFetch | cinemato-ui/src/components/Theater/Screens/Shows/AllShows.jsx:78-87 | no fetch iff the strip is empty; a request for the API date of the selected card iff the index is inside the strip; otherwise formatting throws |
| AllShows.SchedulePicker.constructor | cinemato-ui/src/components/Theater/Screens/Shows/AllShows.jsx:10-14 | index 0, loading, no shows, no dates |
| AllShows.SchedulePicker.LoadSchedule | cinemato-ui/src/components/Theater/Screens/Shows/AllShows.jsx:50-66 | on status 200 the dates become the strip of the schedule's range; otherwise they stay as they were |
| AllShows.SchedulePicker.SelectDate | cinemato-ui/src/components/Theater/Screens/Shows/AllShows.jsx:116-118 | the index becomes the chosen one, nothing else changes |
| AllShows.SchedulePicker.ScrollLeft | cinemato-ui/src/components/Theater/Screens/Shows/AllShows.jsx:120-122 | the index becomes `ScrollLeftIndex` of the old index |
| AllShows.SchedulePicker.ScrollRight | cinemato-ui/src/components/Theater/Screens/Shows/AllShows.jsx:124-126 | the index becomes `ScrollRightIndex` of the old index and the strip length |
| AllShows.SchedulePicker.StartShowsFetch | cinemato-ui/src/components/Theater/Screens/Shows/AllShows.jsx:78-105 | the decision is `PlanShowsFetch` of the state; loading is set for a request and cleared when formatting throws |
| AllShows.SchedulePicker.ShowsLoaded | cinemato-ui/src/components/Theater/Screens/Shows/AllShows.jsx:88-105 | on status 200 the shows become the shaped entries; loading ends in every case |
| Calendar.DaysInMonth | cinemato-ui/src/components/Theater/Screens/Shows/AllShows.jsx:41 | month lengths are 28..31, and 29 exactly for February of a leap year |
| Calendar.NextDay | cinemato-ui/src/components/Theater/Screens/Shows/AllShows.jsx:41 | the following day of a valid date is valid |
| Calendar.PrevDay | cinemato-ui/src/components/Theater/Screens/Shows/AllShows.jsx:41 | the preceding day of a valid date is valid |
| Calendar.NextOfPrev | cinemato-ui/src/components/Theater/Screens/Shows/AllShows.jsx:41 | the day after the day before a date is that date |
| Calendar.NextDayIsSuccessor | cinemato-ui/src/components/Theater/Screens/Shows/AllShows.jsx:39-41 | the next day is later, and no valid date lies strictly between |
| Calendar.BeforeTransitive | cinemato-ui/src/components/Theater/Screens/Shows/AllShows.jsx:39 | date order is transitive |
| Calendar.DateOf | cinemato-ui/src/components/Theater/Screens/Shows/AllShows.jsx:35-36 | every day number denotes a valid date |
| Calendar.Weekday | cinemato-ui/src/components/Theater/Screens/Shows/AllShows.jsx:26 | the weekday is in 0..6 |
| Calendar.DateOfSucc | cinemato-ui/src/components/Theater/Screens/Shows/AllShows.jsx:41 | day n + 1 is the calendar day after day n, before and after the epoch |
| Calendar.WeekdaySucc | cinemato-ui/src/components/Theater/Screens/Shows/AllShows.jsx:26-41 | the weekday advances by one a day, Saturday to Sunday |
| Calendar.DateOfIncreasing | cinemato-ui/src/components/Theater/Screens/Shows/AllShows.jsx:39 | larger day numbers are later dates |
| Common.Filter | cinemato-ui/src/components/Admin/AdminAddMovies/AdminAddMovies.jsx:148 | the result holds exactly the elements passing the test, never more than the input |
| Common.FilterAppend | cinemato-ui/src/components/Admin/AdminAddMovies/AdminAddMovies.jsx:148 | filtering distributes over concatenation, so the kept elements keep their order |
| Common.FilterKeepsAll | cinemato-ui/src/components/User/Movie/AddRatingModal.jsx:25 | filtering a list all of whose elements pass returns it unchanged |
| Common.Take | cinemato-ui/src/components/Common/MovieDetails.jsx:188 | `slice(0, n)` is the prefix of length min(n, length) |
| Common.Find | cinemato-ui/src/components/Common/MovieDetails.jsx:102 | `find` gives nothing iff no element passes, otherwise the first element that passes |
| Common.NatToDecimal | cinemato-ui/src/components/Theater/Screens/Shows/AllShows.jsx:27 | `toString` of a number is non-empty digit text without leading zero, one digit exactly below 10 and two from 10 to 99 |
| Common.DecimalRoundTrip | cinemato-ui/src/components/Theater/Screens/Shows/AllShows.jsx:27 | the printed number reads back as itself |
| Common.IntToDecimal | cinemato-ui/src/components/Theater/Screens/Shows/AllShows.jsx:74 | an integer in a template literal prints as its digits, with '-' before a negative one |
| Common.PadStart2Shape | cinemato-ui/src/components/Theater/Screens/Shows/AllShows.jsx:27 | `padStart(2, '0')` leaves text of two or more characters alone and otherwise fills to two with leading zeros, keeping the text at the end |
| Common.LeadingZero | cinemato-ui/src/components/Theater/Screens/Shows/AllShows.jsx:27 | a leading zero does not change the value of digit text |
| Common.TwoDigitRoundTrip | cinemato-ui/src/components/Theater/Screens/Shows/AllShows.jsx:27 | a number below 100, printed and padded, is two digits reading back as itself |
| Common.Split | cinemato-ui/src/components/Theater/Screens/Shows/AllShows.jsx:136 | `split` gives at least one piece and no piece holds the separator |
| Common.SplitJoin | cinemato-ui/src/components/Theater/Screens/Shows/AllShows.jsx:136 | joining the pieces with the separator restores the string |
| Common.SplitNoSeparator | cinemato-ui/src/components/Theater/Screens/Shows/AllShows.jsx:136 | a string without the separator splits into itself |
| Common.SplitAtFirst | cinemato-ui/src/components/Theater/Screens/Shows/AllShows.jsx:136 | splitting at a first separator gives the text before it followed by the pieces of the rest |
| AddRatingModal.Bucket | cinemato-ui/src/components/User/Movie/AddRatingModal.jsx:57-64 | the bucket is 3, 6 or 10: 3 iff the rating is at most 3, 6 iff above 3 and at most 6 |
| AddRatingModal.BucketIsCeiling | cinemato-ui/src/components/User/Movie/AddRatingModal.jsx:57-64 | on the slider the bucket is the smallest of 3, 6, 10 not below the rating, and a higher rating never gets a lower bucket |
| AddRatingModal.Toggle | cinemato-ui/src/components/User/Movie/AddRatingModal.jsx:22-28 | a hashtag is selected afterwards iff it was not before; a selected one is removed with all copies, the others kept; an unselected one is appended at the end |
| AddRatingModal.ToggleTwice | cinemato-ui/src/components/User/Movie/AddRatingModal.jsx:22-28 | selecting an unselected hashtag and toggling it again restores the selection |
| AddRatingModal.ToggleTwiceSelected | cinemato-ui/src/components/User/Movie/AddRatingModal.jsx:22-28 | deselecting and reselecting moves the hashtag to the end, without its duplicates, the rest in order |
| AddRatingModal.GroupKeys | cinemato-ui/src/components/User/Movie/AddRatingModal.jsx:37-43 | the groups' keys are exactly the `rated_at` values of the data |
| AddRatingModal.Group | cinemato-ui/src/components/User/Movie/AddRatingModal.jsx:37-43 | there are no more buckets than items, and no bucket at all exactly when there are no items |
| AddRatingModal.GroupIsFilter | cinemato-ui/src/components/User/Movie/AddRatingModal.jsx:37-43 | each group holds the headings of its items in data order; a missing key has no items |
| AddRatingModal.GroupBucketsNonEmpty | cinemato-ui/src/components/User/Movie/AddRatingModal.jsx:38-41 | no group is empty |
| AddRatingModal.TotalRemove | cinemato-ui/src/components/User/Movie/AddRatingModal.jsx:37-43 | the heading count of the groups is one group's size plus that of the others |
| AddRatingModal.TotalUpdate | cinemato-ui/src/components/User/Movie/AddRatingModal.jsx:41 | replacing one group changes the heading count by the difference in its size |
| AddRatingModal.GroupTotal | cinemato-ui/src/components/User/Movie/AddRatingModal.jsx:37-43 | the groups hold as many headings as there are items |
| AddRatingModal.GroupByRating | cinemato-ui/src/components/User/Movie/AddRatingModal.jsx:37-43 | the accumulator loop computes the grouping |
| AddRatingModal.RenderHashtags | cinemato-ui/src/components/User/Movie/AddRatingModal.jsx:93-105 | loading shows first, then a set error with its text, then "no hashtags" for a missing or empty group, otherwise the group's non-empty list |
| AddRatingModal.RenderAfterFetch | cinemato-ui/src/components/User/Movie/AddRatingModal.jsx:37-105 | after a successful fetch "no hashtags" shows iff no item has the bucket, and otherwise the bucket's headings in fetch order |
| AddRatingModal.SubmitOutcomeOf | cinemato-ui/src/components/User/Movie/AddRatingModal.jsx:77-90 | only status 201 sets the reaction flag, closes the modal and gives a success toast with the server's message; a thrown 400 shows the server's message; anything else "Something went wrong" |
| AddRatingModal.RatingModal.constructor | cinemato-ui/src/components/User/Movie/AddRatingModal.jsx:8-66 | rating 0, no selection, bucket of rating 0, loading, no groups, no error |
| AddRatingModal.RatingModal.ChangeRating | cinemato-ui/src/components/User/Movie/AddRatingModal.jsx:18-66 | a different rating picks its bucket and clears the selection; the same rating changes nothing |
| AddRatingModal.RatingModal.ToggleHashtag | cinemato-ui/src/components/User/Movie/AddRatingModal.jsx:22-28 | the selection becomes `Toggle` of the old one |
| AddRatingModal.RatingModal.HashtagsLoaded | cinemato-ui/src/components/User/Movie/AddRatingModal.jsx:37-52 | success stores the grouping and clears the error; failure sets the error text; loading ends either way |
| AddRatingModal.RatingModal.Submit | cinemato-ui/src/components/User/Movie/AddRatingModal.jsx:68-91 | with rating 0 the button is disabled and nothing happens; otherwise the outcome of `SubmitOutcomeOf` is applied and its toast shown |
| MovieDetails.FullCast | cinemato-ui/src/components/Common/MovieDetails.jsx:189 | the full cast is exactly the roles whose `is_cast` is `true` |
| MovieDetails.FullCrew | cinemato-ui/src/components/Common/MovieDetails.jsx:193 | the full crew is exactly the roles whose `is_cast` is `false` |
| MovieDetails.Cast | cinemato-ui/src/components/Common/MovieDetails.jsx:186-188 | the cast preview is a prefix of the full cast of length min(4, size) |
| MovieDetails.Crew | cinemato-ui/src/components/Common/MovieDetails.jsx:190-192 | the crew preview is a prefix of the full crew of length min(4, size) |
| MovieDetails.CastCrewDisjoint | cinemato-ui/src/components/Common/MovieDetails.jsx:187-191 | no role is in both lists, and a role whose `is_cast` is not a boolean is in neither |
| MovieDetails.CastCrewPartition | cinemato-ui/src/components/Common/MovieDetails.jsx:186-193 | cast, crew and unclassified roles together are exactly as many as the roles |
| MovieDetails.CastCrewOrder | cinemato-ui/src/components/Common/MovieDetails.jsx:186-193 | the lists follow role order: the lists of two blocks are those of the first block followed by those of the second |
| MovieDetails.Drawn | cinemato-ui/src/components/Common/MovieDetails.jsx:327-383 | the members drawn are exactly those of the shown list with an image |
| MovieDetails.CollapsedCastIsSmall | cinemato-ui/src/components/Common/MovieDetails.jsx:327-328 | collapsed, at most four members are drawn, each a cast member with an image |
| MovieDetails.ShowMore | cinemato-ui/src/components/Common/MovieDetails.jsx:343-398 | the "more" control shows iff the full list has more than 18 members and is not expanded |
| MovieDetails.PickTrailer | cinemato-ui/src/components/Common/MovieDetails.jsx:102 | nothing iff no video is a YouTube trailer, otherwise the first one |
| MovieDetails.PickTrailerSkips | cinemato-ui/src/components/Common/MovieDetails.jsx:102 | videos that are not YouTube trailers before the rest do not change the pick |
| MovieDetails.InitialListed | cinemato-ui/src/components/Common/MovieDetails.jsx:62-63 | a truthy store flag makes the movie listed, otherwise the movie's own flag decides |
| MovieDetails.StoreFlagIsGlobal | cinemato-ui/src/components/Common/MovieDetails.jsx:62 | the store flag is shared by all movies: after a successful activation every movie opens as listed whatever its own flag; after a successful deactivation each falls back to its own flag |
| MovieDetails.ListingResult | cinemato-ui/src/components/Common/MovieDetails.jsx:144-184 | only status 200 records the new flag in the store (listed for activation, unlisted for deactivation) with a success toast; a thrown error shows "Something Went Wrong" |
| MovieDetails.DetailsPage.constructor | cinemato-ui/src/components/Common/MovieDetails.jsx:24-63 | the listed flag starts from `InitialListed`; no trailer is shown |
| MovieDetails.DetailsPage.ToggleListing | cinemato-ui/src/components/Common/MovieDetails.jsx:133-140 | the flag flips, and the call is deactivate iff the flag was set before the flip |
| MovieDetails.DetailsPage.PlayTrailer | cinemato-ui/src/components/Common/MovieDetails.jsx:96-125 | on status 200 the trailer modal opens with the first YouTube trailer, or none; otherwise nothing changes |
| MovieDetails.DetailsPage.CloseTrailer | cinemato-ui/src/components/Common/MovieDetails.jsx:128-131 | the modal closes and the selection is cleared |

## Left out

- HTTP and the movie-database API are not modelled. Responses are inputs, and the request
  is kept only as a value. The API key, URLs and headers are not modelled.
- Redux (`useSelector`, `dispatch`), routing (`navigate`), toasts and console logging are
  out. A store update or a toast appears only as a returned value.
- DOM and window geometry: the scroll listeners, the near-bottom pixel test and the sticky
  title. "Near the bottom" is a boolean input.
- React's asynchronous scheduling: each handler runs atomically. Two fetch calls issued by
  both effects of one render would each pass the loading gate with the flag that render
  saw; the model takes them one after the other.
- JavaScript `Date`: parsing of the schedule's date strings and time zones. Day numbers are
  inputs.
- The 0.1-step slider's floating point. Ratings are integer tenths, and `Number(...)` of
  the slider text is taken as exact.
- All JSX rendering and styling, apart from the decisions named in the table.
- PlacesAutoComplete.jsx, AdminProtectedRoute.js, ComingSoon.jsx, UserMovieDetailsPage.jsx,
  AdminTheater.jsx and MainLayout.jsx are outside this core.
- AllShows.ParseInt: only ASCII blanks are skipped before the number, not every Unicode
  white space `parseInt` accepts.
- AllShows.MonthCode: keys inherited by a JavaScript object (`monthMapping["toString"]`) are
  not modelled; every name that is not a month name takes the fallback.
- AllShows.FormatDateForAPI: its own contract covers only the fallback case. The full shape
  for cards of the strip is stated by `AllShows.ApiDateOfFormattedDate`.
- AllShows.ToShowtimes: the order of `Object.values` over the response object is taken as
  the order of the given entries.
- AddRatingModal.GroupByRating: `rated_at` keys are integers. A JavaScript object would turn
  them into property names, which does not change the grouping of integer buckets.
- AddRatingModal.RatingModal: the review text, the focus flag and the request body are not
  modelled. The parent's `ratingModal` and `isReaction` flags are fields of the class.
- MovieDetails.DetailsPage: the initial `[]` of `selectedTrailer` is modelled as "none".
  Nothing reads it while the modal is closed. The expand/collapse flags of the cast and crew
  lists are parameters of `Drawn` and `ShowMore`.
