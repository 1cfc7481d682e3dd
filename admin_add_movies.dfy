/** The admin's "Explore Movies" feed: an infinitely scrolling list of discovered movies,
    fetched a page of twelve at a time for the selected language and genre, which a filter
    change replaces and a search overwrites.  Each handler is one atomic step; the HTTP
    result and the "near the bottom of the page" test are inputs. */
module AdminAddMovies {
  import opened Common

  datatype Movie = Movie(id: int, title: string, posterPath: Option<string>)

  /** The language and genre held in the store's admin filter. */
  datatype FilterSel = FilterSel(language: string, genre: string)

  /** The component's state variables. */
  datatype Feed = Feed(movies: seq<Movie>, page: int, hasMore: bool, loading: bool,
                       changeFilter: bool, searchInput: string)

  /** A request sent to the movie database. */
  datatype Request =
    | Discover(page: int, replace: bool, filter: FilterSel) // `replace` is the `changeFilter` seen by the call
    | SearchQuery(query: string)

  /** What the request came back with: a status and the `results` list, or a thrown error. */
  datatype Response = Answer(status: int, results: seq<Movie>) | NetworkError

  predicate IsSuccess(r: Response)
  {
    r.Answer? && r.status == 200
  }

  /** A full page of discover results; fewer means the last page. */
  const PageSize := 12

  /** The state before the first render. */
  const Initial := Feed([], 1, true, false, false, "")

  /** A handler's synchronous part: the state it leaves and the request it sends, if any. */
  datatype Started = Started(feed: Feed, request: Option<Request>)

  /** The part of `fetchMovies` before the `await`: nothing at all while a fetch is loading;
      otherwise loading is set, the page goes back to 1 after a filter change, and the
      request asks for the page that was current when the call began. */
  function BeginFetch(s: Feed, filter: FilterSel): (r: Started)
    ensures s.loading ==> r.feed == s && r.request == None
    ensures !s.loading ==> r.request == Some(Discover(s.page, s.changeFilter, filter))
    ensures !s.loading ==> r.feed.loading && r.feed.page == (if s.changeFilter then 1 else s.page)
    ensures r.feed.movies == s.movies && r.feed.hasMore == s.hasMore
    ensures r.feed.changeFilter == s.changeFilter && r.feed.searchInput == s.searchInput
  {
    if s.loading then Started(s, None)
    else
      var page := if s.changeFilter then 1 else s.page;
      Started(s.(loading := true, page := page), Some(Discover(s.page, s.changeFilter, filter)))
  }

  /** The part of `fetchMovies` after the `await`.  On success a short page ends the feed, and
      the page either replaces the list (after a filter change, clearing the flag) or is
      appended to it as it is, duplicates included.  Loading ends whatever happened. */
  function FinishFetch(s: Feed, replace: bool, response: Response): (r: Feed)
    ensures !r.loading
    ensures r.page == s.page && r.searchInput == s.searchInput
    ensures r.hasMore <==> s.hasMore && !(IsSuccess(response) && |response.results| < PageSize)
    ensures IsSuccess(response) && replace ==> r.movies == response.results && !r.changeFilter
    ensures IsSuccess(response) && !replace ==>
      r.movies == s.movies + response.results && r.changeFilter == s.changeFilter
    ensures !IsSuccess(response) ==> r == s.(loading := false)
  {
    if IsSuccess(response) then
      var hasMore := if |response.results| < PageSize then false else s.hasMore;
      if replace then s.(hasMore := hasMore, movies := response.results, changeFilter := false, loading := false)
      else s.(hasMore := hasMore, movies := s.movies + response.results, loading := false)
    else s.(loading := false)
  }

  /** `handleScroll`: near the bottom and with more to load, the next page is requested;
      the loading flag is not consulted. */
  function Scroll(s: Feed, nearBottom: bool): (r: Feed)
    ensures r.page == s.page + 1 <==> nearBottom && s.hasMore
    ensures r.page != s.page ==> r.page == s.page + 1
    ensures r == s.(page := r.page)
  {
    if nearBottom && s.hasMore then s.(page := s.page + 1) else s
  }

  /** A scroll near the bottom while a fetch is loading still moves to the next page, but the
      fetch that the page change triggers is turned away by the loading gate, so that page
      is never requested by it. */
  lemma ScrollWhileLoadingSkipsPage(s: Feed, f: FilterSel)
    requires s.loading && s.hasMore
    ensures Scroll(s, true).page == s.page + 1
    ensures BeginFetch(Scroll(s, true), f).request == None
  {
  }

  /** The number of `fetchMovies` calls the two effects make after a render in which the
      page went from `before` to `after`: the filter effect always fetches when the language
      or genre changed, the page effect only for a changed page above 1. */
  function EffectFetches(before: int, after: int, filterChanged: bool): (n: nat)
    ensures n <= 2
    ensures filterChanged ==> n >= 1
    ensures n == 0 <==> !filterChanged && (after == before || after <= 1)
  {
    (if filterChanged then 1 else 0) + (if after != before && after > 1 then 1 else 0)
  }

  /** The part of `handleSearch` before the `await`: no loading gate; the typed text is stored
      but the query still carries the text stored before it. */
  function BeginSearch(s: Feed, text: string): (r: Started)
    ensures r.feed.loading && r.feed.searchInput == text
    ensures r.request == Some(SearchQuery(s.searchInput))
    ensures r.feed.movies == s.movies && r.feed.page == s.page && r.feed.hasMore == s.hasMore
    ensures r.feed.changeFilter == s.changeFilter
  {
    Started(s.(loading := true, searchInput := text), Some(SearchQuery(s.searchInput)))
  }

  /** The part of `handleSearch` after the `await`: on success the results replace the list
      wholesale; page and the end-of-feed flag stay as they are. */
  function FinishSearch(s: Feed, response: Response): (r: Feed)
    ensures !r.loading
    ensures r.page == s.page && r.hasMore == s.hasMore && r.changeFilter == s.changeFilter
    ensures r.searchInput == s.searchInput
    ensures r.movies == if IsSuccess(response) then response.results else s.movies
  {
    if IsSuccess(response) then s.(movies := response.results, loading := false)
    else s.(loading := false)
  }

  /** One thing that can happen to the feed. */
  datatype Event =
    | FetchCalled(filter: FilterSel)
    | Completed(request: Request, response: Response)
    | Scrolled(nearBottom: bool)
    | Typed(text: string)
    | FilterPicked              // the filter menu's `setChangeFilter(true)`

  function Step(s: Feed, e: Event): Feed
  {
    match e
    case FetchCalled(f) => BeginFetch(s, f).feed
    case Completed(req, resp) =>
      if req.Discover? then FinishFetch(s, req.replace, resp) else FinishSearch(s, resp)
    case Scrolled(near) => Scroll(s, near)
    case Typed(text) => BeginSearch(s, text).feed
    case FilterPicked => s.(changeFilter := true)
  }

  /** The state after a sequence of events. */
  function Run(s: Feed, events: seq<Event>): Feed
    decreases |events|
  {
    if events == [] then s else Run(Step(s, events[0]), events[1..])
  }

  /** Once the feed has ended it never restarts: no event sets `hasMore` back to true. */
  lemma {:induction false} HasMoreNeverRecovers(s: Feed, events: seq<Event>)
    requires !s.hasMore
    ensures !Run(s, events).hasMore
    decreases |events|
  {
    if events != [] {
      HasMoreNeverRecovers(Step(s, events[0]), events[1..]);
    }
  }

  /** The page number never drops below 1: it only grows by one or goes back to 1. */
  lemma {:induction false} PageStaysPositive(s: Feed, events: seq<Event>)
    requires s.page >= 1
    ensures Run(s, events).page >= 1
    decreases |events|
  {
    if events != [] {
      PageStaysPositive(Step(s, events[0]), events[1..]);
    }
  }

  /** Without a filter change, successful fetches only ever append to the list: what was
      shown before stays at the front. */
  lemma {:induction false} AppendOnlyPaging(s: Feed, events: seq<Event>)
    requires !s.changeFilter
    requires forall i :: 0 <= i < |events| ==>
      !events[i].FilterPicked? &&
      (events[i].Completed? ==> events[i].request.Discover? && !events[i].request.replace)
    ensures s.movies <= Run(s, events).movies
    ensures !Run(s, events).changeFilter
    decreases |events|
  {
    if events != [] {
      var t := Step(s, events[0]);
      assert s.movies <= t.movies;
      AppendOnlyPaging(t, events[1..]);
    }
  }

  /** The cards shown: the movies with a poster, in list order. */
  function VisibleMovies(movies: seq<Movie>): (r: seq<Movie>)
    ensures |r| <= |movies|
    ensures forall m :: m in r <==> m in movies && IsTruthy(m.posterPath)
  {
    Filter((m: Movie) => IsTruthy(m.posterPath), movies)
  }

  /** Appending a page appends exactly its movies with posters to the cards. */
  lemma VisibleAfterAppend(movies: seq<Movie>, page: seq<Movie>)
    ensures VisibleMovies(movies + page) == VisibleMovies(movies) + VisibleMovies(page)
  {
    FilterAppend((m: Movie) => IsTruthy(m.posterPath), movies, page);
  }

  /** The first render and one scroll: the filter effect fetches page 1, the page comes back
      full, a scroll near the bottom moves to page 2, whose effect fetches it, and a short
      second page comes back. */
  function TwoPageEvents(f: FilterSel, first: seq<Movie>, second: seq<Movie>): seq<Event>
  {
    [FetchCalled(f), Completed(Discover(1, false, f), Answer(200, first)),
     Scrolled(true), FetchCalled(f), Completed(Discover(2, false, f), Answer(200, second))]
  }

  /** In that session each completion answers the request its fetch sent, the scroll makes
      the page effect fetch once, and the feed ends with both pages in order on page 2. */
  lemma TwoPageSession(f: FilterSel, first: seq<Movie>, second: seq<Movie>)
    requires |first| == 12 && |second| == 5
    ensures BeginFetch(Initial, f).request == Some(TwoPageEvents(f, first, second)[1].request)
    ensures EffectFetches(Run(Initial, TwoPageEvents(f, first, second)[..2]).page,
                          Run(Initial, TwoPageEvents(f, first, second)[..3]).page, false) == 1
    ensures BeginFetch(Run(Initial, TwoPageEvents(f, first, second)[..3]), f).request ==
            Some(TwoPageEvents(f, first, second)[4].request)
    ensures Run(Initial, TwoPageEvents(f, first, second)) == Feed(first + second, 2, false, false, false, "")
  {
    var events := TwoPageEvents(f, first, second);
    var s1 := Step(Initial, events[0]);
    var s2 := Step(s1, events[1]);
    assert s2 == Feed(first, 1, true, false, false, "");
    var s3 := Step(s2, events[2]);
    var s4 := Step(s3, events[3]);
    var s5 := Step(s4, events[4]);
    assert s5 == Feed(first + second, 2, false, false, false, "");
    assert Run(Initial, events[..2]) == s2 by {
      assert events[..2][1..] == [events[1]];
      assert Run(s1, [events[1]]) == Run(s2, []);
    }
    assert Run(Initial, events[..3]) == s3 by {
      assert events[..3][1..] == events[1..3];
      assert events[1..3][1..] == [events[2]];
      assert Run(s2, [events[2]]) == Run(s3, []);
    }
    assert Run(Initial, events) == Run(s1, events[1..]);
    assert Run(s1, events[1..]) == Run(s2, events[2..]);
    assert Run(s2, events[2..]) == Run(s3, events[3..]);
    assert Run(s3, events[3..]) == Run(s4, events[4..]);
    assert Run(s4, events[4..]) == Run(s5, events[5..]);
  }

  /** The feed component, its state variables updated in place by the handlers. */
  class FeedController {
    var movies: seq<Movie>
    var page: int
    var hasMore: bool
    var loading: bool
    var changeFilter: bool
    var searchInput: string

    function State(): Feed
      reads this
    {
      Feed(movies, page, hasMore, loading, changeFilter, searchInput)
    }

    constructor ()
      ensures State() == Initial
    {
      movies, page, hasMore, loading, changeFilter, searchInput := [], 1, true, false, false, "";
    }

    /** `fetchMovies` up to the request. */
    method FetchMovies(filter: FilterSel) returns (request: Option<Request>)
      modifies this
      ensures State() == BeginFetch(old(State()), filter).feed
      ensures request == BeginFetch(old(State()), filter).request
    {
      if loading {
        return None;
      }
      request := Some(Discover(page, changeFilter, filter));
      loading := true;
      if changeFilter {
        page := 1;
      }
    }

    /** `fetchMovies` from the response on. */
    method FetchFinished(replace: bool, response: Response)
      modifies this
      ensures State() == FinishFetch(old(State()), replace, response)
    {
      if response.Answer? && response.status == 200 {
        if |response.results| < PageSize {
          hasMore := false;
        }
        if replace {
          movies := response.results;
          changeFilter := false;
        } else {
          movies := movies + response.results;
        }
      }
      loading := false;
    }

    /** `handleScroll`. */
    method HandleScroll(nearBottom: bool)
      modifies this
      ensures State() == Scroll(old(State()), nearBottom)
    {
      if nearBottom && hasMore {
        page := page + 1;
      }
    }

    /** `setChangeFilter(true)`, called by the filter menu when a language or genre is picked. */
    method MarkFilterChanged()
      modifies this
      ensures State() == old(State()).(changeFilter := true)
    {
      changeFilter := true;
    }

    /** `handleSearch` up to the request. */
    method HandleSearch(text: string) returns (request: Option<Request>)
      modifies this
      ensures State() == BeginSearch(old(State()), text).feed
      ensures request == BeginSearch(old(State()), text).request
    {
      request := Some(SearchQuery(searchInput));
      loading := true;
      searchInput := text;
    }

    /** `handleSearch` from the response on. */
    method SearchFinished(response: Response)
      modifies this
      ensures State() == FinishSearch(old(State()), response)
    {
      if response.Answer? && response.status == 200 {
        movies := response.results;
      }
      loading := false;
    }
  }
}
