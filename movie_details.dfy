/** The movie details page: the cast and crew lists derived from the movie's roles, which
    of their members are drawn, when the "more" control appears, the trailer picked from
    the movie database's videos, and the admin's listed/unlisted switch. */
module MovieDetails {
  import opened Common

  /** One role of the movie.  `isCast` is `Some(b)` when `is_cast` holds the boolean `b` and
      `None` for any other value (missing, null, a number, ...). */
  datatype Role = Role(name: string, isCast: Option<bool>, image: Option<string>)

  predicate IsCastRole(r: Role)
  {
    r.isCast == Some(true)
  }

  predicate IsCrewRole(r: Role)
  {
    r.isCast == Some(false)
  }

  /** Roles whose `is_cast` is neither `true` nor `false`. */
  predicate IsUnclassified(r: Role)
  {
    r.isCast.None?
  }

  /** `fullCast`: the roles with `is_cast === true`, in order. */
  function FullCast(roles: seq<Role>): (r: seq<Role>)
    ensures forall x :: x in r <==> x in roles && x.isCast == Some(true)
  {
    Filter(IsCastRole, roles)
  }

  /** `fullCrew`: the roles with `is_cast === false`, in order. */
  function FullCrew(roles: seq<Role>): (r: seq<Role>)
    ensures forall x :: x in r <==> x in roles && x.isCast == Some(false)
  {
    Filter(IsCrewRole, roles)
  }

  /** Maximum number of members shown before a list is expanded. */
  const Preview := 4

  /** `cast`: the first (at most) four entries of the full cast. */
  function Cast(roles: seq<Role>): (r: seq<Role>)
    ensures r <= FullCast(roles)
    ensures |r| == if |FullCast(roles)| < Preview then |FullCast(roles)| else Preview
  {
    Take(FullCast(roles), Preview)
  }

  /** `crew`: the first (at most) four entries of the full crew. */
  function Crew(roles: seq<Role>): (r: seq<Role>)
    ensures r <= FullCrew(roles)
    ensures |r| == if |FullCrew(roles)| < Preview then |FullCrew(roles)| else Preview
  {
    Take(FullCrew(roles), Preview)
  }

  /** No role is both cast and crew, and a role whose flag is not a boolean is in neither list. */
  lemma CastCrewDisjoint(roles: seq<Role>, x: Role)
    ensures !(x in FullCast(roles) && x in FullCrew(roles))
    ensures IsUnclassified(x) ==> x !in FullCast(roles) && x !in FullCrew(roles)
  {
  }

  /** The roles other than cast and crew. */
  function Unclassified(roles: seq<Role>): seq<Role>
  {
    Filter(IsUnclassified, roles)
  }

  /** Every role lands in exactly one of the full cast, the full crew and the unclassified
      roles, so the three lists together are as long as the roles. */
  lemma {:induction false} CastCrewPartition(roles: seq<Role>)
    ensures |FullCast(roles)| + |FullCrew(roles)| + |Unclassified(roles)| == |roles|
  {
    if roles != [] {
      var r := roles[0];
      assert FullCast(roles) == (if IsCastRole(r) then [r] else []) + FullCast(roles[1..]);
      assert FullCrew(roles) == (if IsCrewRole(r) then [r] else []) + FullCrew(roles[1..]);
      assert Unclassified(roles) == (if IsUnclassified(r) then [r] else []) + Unclassified(roles[1..]);
      CastCrewPartition(roles[1..]);
      match r.isCast
      case Some(b) => assert IsCastRole(r) == b && IsCrewRole(r) == !b && !IsUnclassified(r);
      case None => assert !IsCastRole(r) && !IsCrewRole(r) && IsUnclassified(r);
    }
  }

  /** The cast and crew lists follow the order of the roles: the lists of two blocks of roles
      are the lists of the first block followed by those of the second. */
  lemma CastCrewOrder(a: seq<Role>, b: seq<Role>)
    ensures FullCast(a + b) == FullCast(a) + FullCast(b)
    ensures FullCrew(a + b) == FullCrew(a) + FullCrew(b)
  {
    FilterAppend(IsCastRole, a, b);
    FilterAppend(IsCrewRole, a, b);
  }

  predicate HasImage(r: Role)
  {
    IsTruthy(r.image)
  }

  /** The members drawn: those of the shown list (full when expanded, otherwise the preview)
      that have a `person.image`, in order. */
  function Drawn(full: seq<Role>, preview: seq<Role>, expanded: bool): (r: seq<Role>)
    ensures forall x :: x in r <==> x in (if expanded then full else preview) && IsTruthy(x.image)
    ensures |r| <= |if expanded then full else preview|
  {
    Filter(HasImage, if expanded then full else preview)
  }

  /** Collapsed, at most four cast members are drawn, each a cast member with an image. */
  lemma CollapsedCastIsSmall(roles: seq<Role>)
    ensures |Drawn(FullCast(roles), Cast(roles), false)| <= Preview
    ensures forall x :: x in Drawn(FullCast(roles), Cast(roles), false) ==> IsCastRole(x) && HasImage(x)
  {
  }

  /** Lists above this length get a "more" control. */
  const MoreThreshold := 18

  /** `fullCast.length > 18 && !showAllCast` (likewise for the crew). */
  function ShowMore(full: seq<Role>, expanded: bool): (r: bool)
    ensures r ==> |full| >= MoreThreshold + 1
    ensures !r <==> expanded || |full| <= MoreThreshold
  {
    |full| > MoreThreshold && !expanded
  }

  /** One video of the movie as the movie database lists it. */
  datatype Video = Video(key: string, site: string, kind: string)

  predicate IsPlayable(v: Video)
  {
    v.site == "YouTube" && v.kind == "Trailer"
  }

  /** The `find` of `handlePlayClick`: the first YouTube trailer, or nothing. */
  function PickTrailer(videos: seq<Video>): (r: Option<Video>)
    ensures r.None? <==> forall i :: 0 <= i < |videos| ==> !IsPlayable(videos[i])
    ensures r.Some? ==> r.value in videos && IsPlayable(r.value)
    ensures r.Some? ==> exists i :: 0 <= i < |videos| && videos[i] == r.value &&
                          forall j :: 0 <= j < i ==> !IsPlayable(videos[j])
  {
    Find(IsPlayable, videos)
  }

  /** Entries that are not YouTube trailers before the first one do not affect the pick. */
  lemma {:induction false} PickTrailerSkips(skipped: seq<Video>, rest: seq<Video>)
    requires forall i :: 0 <= i < |skipped| ==> !IsPlayable(skipped[i])
    ensures PickTrailer(skipped + rest) == PickTrailer(rest)
  {
    if skipped == [] {
      assert skipped + rest == rest;
    } else {
      assert (skipped + rest)[1..] == skipped[1..] + rest;
      PickTrailerSkips(skipped[1..], rest);
    }
  }

  /** The initial `isMovieListed`: the store's `is_listed` when it is truthy, else the
      movie's own flag. */
  function InitialListed(store: Option<bool>, movieListed: bool): (r: bool)
    ensures store == Some(true) ==> r
    ensures store != Some(true) ==> r == movieListed
  {
    if store.Some? && store.value then true else movieListed
  }

  /** The backend call chosen by the listing switch. */
  datatype ListingCall = Deactivate | Activate

  /** What a call made by the listing switch reported: a response status, or a thrown error. */
  datatype CallResult = Status(code: int) | Thrown

  /** What the page does with the result of a listing call: the new store flag, if any, and
      the toast. */
  datatype ListingOutcome = ListingOutcome(storeListed: Option<bool>, toast: Toast)

  /** `handleToggleMovieUnList` / `handleToggleMovieList` after the request: only status 200
      records the new flag in the store, activation as listed and deactivation as unlisted. */
  function ListingResult(call: ListingCall, result: CallResult): (o: ListingOutcome)
    ensures o.storeListed.Some? <==> result == Status(200)
    ensures o.storeListed.Some? ==> o.storeListed.value == (call == Activate)
    ensures o.toast.SuccessToast? <==> result == Status(200)
    ensures result.Thrown? ==> o.toast == ErrorToast("Something Went Wrong")
  {
    match result
    case Status(code) =>
      if code == 200 then
        if call == Activate then ListingOutcome(Some(true), SuccessToast("movie activated successfully"))
        else ListingOutcome(Some(false), SuccessToast("movie deactivated successfully"))
      else ListingOutcome(None, ErrorToast("something went wrong"))
    case Thrown => ListingOutcome(None, ErrorToast("Something Went Wrong"))
  }

  /** The store's `is_listed` is one flag for all movies: once any movie has been activated
      successfully, every movie's page opens as listed, whatever its own flag; after a
      successful deactivation every movie falls back to its own flag. */
  lemma StoreFlagIsGlobal(ownListed: bool)
    ensures InitialListed(ListingResult(Activate, Status(200)).storeListed, ownListed)
    ensures InitialListed(ListingResult(Deactivate, Status(200)).storeListed, ownListed) == ownListed
  {
  }

  /** The response to the videos request. */
  datatype VideosResponse = Videos(status: int, results: seq<Video>) | VideosFailed

  /** The page's state variables that its handlers change. */
  class DetailsPage {
    var isMovieListed: bool
    var showTrailer: bool
    var selectedTrailer: Option<Video>

    constructor (store: Option<bool>, movieListed: bool)
      ensures isMovieListed == InitialListed(store, movieListed)
      ensures !showTrailer && selectedTrailer == None
    {
      isMovieListed := InitialListed(store, movieListed);
      showTrailer := false;
      selectedTrailer := None;
    }

    /** `toggleMovieListing`: the flag flips, and the call is decided by the flag as it was
        before the flip. */
    method ToggleListing() returns (call: ListingCall)
      modifies this
      ensures isMovieListed == !old(isMovieListed)
      ensures call == Deactivate <==> old(isMovieListed)
      ensures showTrailer == old(showTrailer) && selectedTrailer == old(selectedTrailer)
    {
      var was := isMovieListed;
      isMovieListed := !isMovieListed;
      call := if was then Deactivate else Activate;
    }

    /** `handlePlayClick` after the request: on status 200 the trailer modal opens, showing
        the first YouTube trailer, or nothing when there is none; otherwise nothing changes. */
    method PlayTrailer(response: VideosResponse)
      modifies this
      ensures response.Videos? && response.status == 200 ==>
        showTrailer && selectedTrailer == PickTrailer(response.results)
      ensures !(response.Videos? && response.status == 200) ==>
        showTrailer == old(showTrailer) && selectedTrailer == old(selectedTrailer)
      ensures isMovieListed == old(isMovieListed)
    {
      if response.Videos? && response.status == 200 {
        selectedTrailer := PickTrailer(response.results);
        showTrailer := true;
      }
    }

    /** `handleCloseModal`. */
    method CloseTrailer()
      modifies this
      ensures !showTrailer && selectedTrailer == None
      ensures isMovieListed == old(isMovieListed)
    {
      showTrailer := false;
      selectedTrailer := None;
    }
  }
}
