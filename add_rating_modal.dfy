/** The "How was the movie?" modal: a 0..10 slider in steps of 0.1, the hashtags offered
    for the rating's bucket (fetched once and grouped by the rating they belong to), the
    user's selection of hashtags, and the review submission.  Ratings are integer tenths,
    so 0..100 stands for 0.0..10.0. */
module AddRatingModal {
  import opened Common

  /** The rating effect: ratings up to 3 use the hashtags of bucket 3, up to 6 those of
      bucket 6, and higher ones those of bucket 10. */
  function Bucket(tenths: int): (b: int)
    ensures b == 3 || b == 6 || b == 10
    ensures b == 3 <==> tenths <= 30
    ensures b == 6 <==> 30 < tenths <= 60
  {
    if tenths <= 30 then 3 else if tenths <= 60 then 6 else 10
  }

  /** The bucket of a rating on the slider is the smallest of 3, 6 and 10 that is at least
      the rating, and a higher rating never gets a lower bucket. */
  lemma BucketIsCeiling(tenths: int, other: int)
    requires 0 <= tenths <= 100
    ensures tenths <= 10 * Bucket(tenths)
    ensures forall b :: b in [3, 6, 10] && tenths <= 10 * b ==> Bucket(tenths) <= b
    ensures tenths <= other ==> Bucket(tenths) <= Bucket(other)
  {
  }

  /** `x => x !== hashtag`. */
  function Differs(hashtag: string): string -> bool
  {
    (x: string) => x != hashtag
  }

  /** `toggleHashtagSelection`: a selected hashtag is removed (every copy of it), any other one
      is appended at the end. */
  function Toggle(selection: seq<string>, hashtag: string): (r: seq<string>)
    ensures hashtag in r <==> hashtag !in selection
    ensures hashtag in selection ==> forall x :: x in r <==> x in selection && x != hashtag
    ensures hashtag !in selection ==> r == selection + [hashtag]
  {
    if hashtag in selection then Filter(Differs(hashtag), selection) else selection + [hashtag]
  }

  /** Selecting a hashtag and deselecting it again restores the selection. */
  lemma ToggleTwice(selection: seq<string>, hashtag: string)
    requires hashtag !in selection
    ensures Toggle(Toggle(selection, hashtag), hashtag) == selection
  {
    FilterAppend(Differs(hashtag), selection, [hashtag]);
    FilterKeepsAll(Differs(hashtag), selection);
  }

  /** Deselecting a selected hashtag and selecting it again moves it to the end, dropping any
      duplicates of it, and keeps the other hashtags in their order. */
  lemma ToggleTwiceSelected(selection: seq<string>, hashtag: string)
    requires hashtag in selection
    ensures Toggle(Toggle(selection, hashtag), hashtag) == Filter(Differs(hashtag), selection) + [hashtag]
  {
  }

  /** One fetched hashtag: the rating bucket it belongs to and its text. */
  datatype HashtagItem = HashtagItem(ratedAt: int, heading: string)

  /** The headings of a list of items, in their order. */
  function Headings(items: seq<HashtagItem>): seq<string>
  {
    seq(|items|, i requires 0 <= i < |items| => items[i].heading)
  }

  /** `item => item.rated_at === k`. */
  function RatedAt(k: int): HashtagItem -> bool
  {
    (item: HashtagItem) => item.ratedAt == k
  }

  /** The grouping `reduce`, item by item from the left: each heading is pushed onto the list
      of its bucket, which is created empty on first use. */
  function Group(data: seq<HashtagItem>): (g: map<int, seq<string>>)
    ensures |g| <= |data|
    ensures g == map[] <==> data == []
    decreases |data|
  {
    if data == [] then map[]
    else
      var g := Group(data[..|data| - 1]);
      var item := data[|data| - 1];
      g[item.ratedAt := (if item.ratedAt in g then g[item.ratedAt] else []) + [item.heading]]
  }

  /** The buckets of the grouping are exactly the `rated_at` values of the data. */
  lemma {:induction false} GroupKeys(data: seq<HashtagItem>, k: int)
    ensures k in Group(data) <==> exists i :: 0 <= i < |data| && data[i].ratedAt == k
    decreases |data|
  {
    if data != [] {
      var front := data[..|data| - 1];
      GroupKeys(front, k);
      if exists i :: 0 <= i < |data| && data[i].ratedAt == k {
        var i :| 0 <= i < |data| && data[i].ratedAt == k;
        if i < |front| {
          assert front[i] == data[i];
        }
      }
      if exists i :: 0 <= i < |front| && front[i].ratedAt == k {
        var i :| 0 <= i < |front| && front[i].ratedAt == k;
        assert data[i] == front[i];
      }
    }
  }

  lemma HeadingsAppend(a: seq<HashtagItem>, b: seq<HashtagItem>)
    ensures Headings(a + b) == Headings(a) + Headings(b)
  {
  }

  /** Each bucket holds the headings of that bucket's items, in their order in the data. */
  lemma {:induction false} GroupIsFilter(data: seq<HashtagItem>, k: int)
    ensures k in Group(data) ==> Group(data)[k] == Headings(Filter(RatedAt(k), data))
    ensures k !in Group(data) ==> Filter(RatedAt(k), data) == []
    decreases |data|
  {
    if data != [] {
      var front := data[..|data| - 1];
      var item := data[|data| - 1];
      assert data == front + [item];
      GroupIsFilter(front, k);
      FilterAppend(RatedAt(k), front, [item]);
      assert Filter(RatedAt(k), [item]) == if item.ratedAt == k then [item] else [];
      HeadingsAppend(Filter(RatedAt(k), front), [item]);
    }
  }

  /** No bucket of the grouping is empty. */
  lemma GroupBucketsNonEmpty(data: seq<HashtagItem>, k: int)
    requires k in Group(data)
    ensures |Group(data)[k]| >= 1
  {
    GroupKeys(data, k);
    GroupIsFilter(data, k);
    var i :| 0 <= i < |data| && data[i].ratedAt == k;
    assert data[i] in Filter(RatedAt(k), data);
  }

  /** The number of headings in all buckets together. */
  ghost function Total(groups: map<int, seq<string>>): nat
    decreases |groups|
  {
    if groups == map[] then 0
    else
      assert exists k :: k in groups by {
        if forall k :: k !in groups {
          assert false;
        }
      }
      var k :| k in groups;
      |groups[k]| + Total(groups - {k})
  }

  lemma {:induction false} TotalRemove(groups: map<int, seq<string>>, k: int)
    requires k in groups
    ensures Total(groups) == |groups[k]| + Total(groups - {k})
    decreases |groups|
  {
    var j :| j in groups && Total(groups) == |groups[j]| + Total(groups - {j});
    if j != k {
      TotalRemove(groups - {j}, k);
      TotalRemove(groups - {k}, j);
      assert groups - {j} - {k} == groups - {k} - {j};
    }
  }

  lemma TotalUpdate(groups: map<int, seq<string>>, k: int, v: seq<string>)
    ensures Total(groups[k := v]) == Total(groups) - (if k in groups then |groups[k]| else 0) + |v|
  {
    var g := groups[k := v];
    TotalRemove(g, k);
    assert g - {k} == groups - {k};
    if k in groups {
      TotalRemove(groups, k);
    } else {
      assert groups - {k} == groups;
    }
  }

  /** Grouping loses and invents no heading: the buckets hold as many headings as there
      are items. */
  lemma {:induction false} GroupTotal(data: seq<HashtagItem>)
    ensures Total(Group(data)) == |data|
    decreases |data|
  {
    if data != [] {
      var front := data[..|data| - 1];
      var item := data[|data| - 1];
      var g := Group(front);
      GroupTotal(front);
      TotalUpdate(g, item.ratedAt, (if item.ratedAt in g then g[item.ratedAt] else []) + [item.heading]);
    }
  }

  /** The grouping `reduce` as a loop over the data with a mutable accumulator. */
  method GroupByRating(data: seq<HashtagItem>) returns (groups: map<int, seq<string>>)
    ensures groups == Group(data)
  {
    groups := map[];
    for i := 0 to |data|
      invariant groups == Group(data[..i])
    {
      assert data[..i + 1][..i] == data[..i];
      var item := data[i];
      if item.ratedAt !in groups {
        groups := groups[item.ratedAt := []];
      }
      groups := groups[item.ratedAt := groups[item.ratedAt] + [item.heading]];
    }
    assert data[..|data|] == data;
  }

  /** What the hashtag area shows. */
  datatype View = LoadingView | ErrorView(message: string) | NoHashtagsView | HashtagList(headings: seq<string>)

  /** `renderHashtags`: loading first, then a set error, then a missing or empty bucket,
      otherwise the bucket's hashtags. */
  function RenderHashtags(isLoading: bool, error: Option<string>, groups: map<int, seq<string>>,
                          index: int): (v: View)
    ensures v.LoadingView? <==> isLoading
    ensures v.ErrorView? <==> !isLoading && IsTruthy(error)
    ensures v.ErrorView? ==> v.message == error.value
    ensures v.NoHashtagsView? <==> !isLoading && !IsTruthy(error) && (index !in groups || groups[index] == [])
    ensures v.HashtagList? ==> index in groups && v.headings == groups[index] && v.headings != []
  {
    if isLoading then LoadingView
    else if error.Some? && error.value != "" then ErrorView(error.value)
    else if index !in groups || |groups[index]| == 0 then NoHashtagsView
    else HashtagList(groups[index])
  }

  /** After a successful fetch of `data`, the list shown for a bucket is that bucket's headings
      in fetch order, and "no hashtags" is shown exactly when no item has that bucket. */
  lemma RenderAfterFetch(data: seq<HashtagItem>, index: int)
    ensures RenderHashtags(false, None, Group(data), index).NoHashtagsView? <==>
      forall i :: 0 <= i < |data| ==> data[i].ratedAt != index
    ensures RenderHashtags(false, None, Group(data), index).HashtagList? ==>
      RenderHashtags(false, None, Group(data), index).headings == Headings(Filter(RatedAt(index), data))
  {
    GroupKeys(data, index);
    GroupIsFilter(data, index);
    if index in Group(data) {
      GroupBucketsNonEmpty(data, index);
    }
  }

  /** The error text set when the hashtags cannot be fetched. */
  const FetchError := "Failed to load hashtags. Please try again later."

  /** What the review request came to: a response, or a thrown error with the status of its
      response, if it had one, and the message the server sent. */
  datatype SubmitResult = Reply(status: int, message: string) | Failure(responseStatus: Option<int>, message: string)

  /** What the modal does after a submission: set the parent's reaction flag, close, and toast. */
  datatype SubmitOutcome = SubmitOutcome(reacted: bool, close: bool, toast: Toast)

  /** `handleReviewSubmit` after the request: only status 201 sets the reaction flag and
      closes the modal; a thrown 400 shows the server's message; every other result shows
      "Something went wrong". */
  function SubmitOutcomeOf(result: SubmitResult): (o: SubmitOutcome)
    ensures o.reacted <==> result.Reply? && result.status == 201
    ensures o.close == o.reacted
    ensures o.toast.SuccessToast? <==> o.reacted
    ensures o.reacted ==> o.toast.message == result.message
    ensures result.Failure? && result.responseStatus == Some(400) ==> o.toast == ErrorToast(result.message)
    ensures !o.reacted && !(result.Failure? && result.responseStatus == Some(400)) ==>
      o.toast == ErrorToast("Something went wrong")
  {
    match result
    case Reply(status, message) =>
      if status == 201 then SubmitOutcome(true, true, SuccessToast(message))
      else SubmitOutcome(false, false, ErrorToast("Something went wrong"))
    case Failure(status, message) =>
      if status == Some(400) then SubmitOutcome(false, false, ErrorToast(message))
      else SubmitOutcome(false, false, ErrorToast("Something went wrong"))
  }

  /** The modal's state variables, with the parent's `ratingModal` and `isReaction` flags. */
  class RatingModal {
    var rating: int
    var selected: seq<string>
    var hashtagIndex: int
    var isLoading: bool
    var grouped: map<int, seq<string>>
    var error: Option<string>
    var open: bool
    var reacted: bool

    /** The first render, including the rating effect's run for the initial rating 0. */
    constructor ()
      ensures rating == 0 && selected == [] && hashtagIndex == Bucket(0)
      ensures isLoading && grouped == map[] && error == None && open && !reacted
    {
      rating, selected, hashtagIndex := 0, [], 3;
      isLoading, grouped, error := true, map[], None;
      open, reacted := true, false;
    }

    function CurrentView(): View
      reads this
    {
      RenderHashtags(isLoading, error, grouped, hashtagIndex)
    }

    /** `handleRatingChange` and the rating effect it triggers: a different rating picks its
        bucket and clears the selection; the same rating changes nothing. */
    method ChangeRating(tenths: int)
      modifies this
      ensures rating == tenths
      ensures tenths != old(rating) ==> hashtagIndex == Bucket(tenths) && selected == []
      ensures tenths == old(rating) ==> hashtagIndex == old(hashtagIndex) && selected == old(selected)
      ensures isLoading == old(isLoading) && grouped == old(grouped) && error == old(error)
      ensures open == old(open) && reacted == old(reacted)
    {
      if tenths != rating {
        rating := tenths;
        hashtagIndex := Bucket(tenths);
        selected := [];
      }
    }

    /** A click on a hashtag. */
    method ToggleHashtag(hashtag: string)
      modifies this
      ensures selected == Toggle(old(selected), hashtag)
      ensures rating == old(rating) && hashtagIndex == old(hashtagIndex)
      ensures isLoading == old(isLoading) && grouped == old(grouped) && error == old(error)
      ensures open == old(open) && reacted == old(reacted)
    {
      if hashtag in selected {
        selected := Filter(Differs(hashtag), selected);
      } else {
        selected := selected + [hashtag];
      }
    }

    /** `fetchHashtags` after the request: the grouped data and no error on success, the
        error text on failure; loading ends either way. */
    method HashtagsLoaded(data: Option<seq<HashtagItem>>)
      modifies this
      ensures !isLoading
      ensures data.Some? ==> grouped == Group(data.value) && error == None
      ensures data.None? ==> grouped == old(grouped) && error == Some(FetchError)
      ensures rating == old(rating) && selected == old(selected) && hashtagIndex == old(hashtagIndex)
      ensures open == old(open) && reacted == old(reacted)
    {
      if data.Some? {
        grouped := GroupByRating(data.value);
        error := None;
      } else {
        error := Some(FetchError);
      }
      isLoading := false;
    }

    /** The submit button: disabled while the rating is 0; otherwise the outcome of the
        request is applied and its toast returned. */
    method Submit(result: SubmitResult) returns (toast: Option<Toast>)
      modifies this
      ensures old(rating) == 0 ==> toast == None && open == old(open) && reacted == old(reacted)
      ensures old(rating) != 0 ==> toast == Some(SubmitOutcomeOf(result).toast)
      ensures old(rating) != 0 ==>
        open == (old(open) && !SubmitOutcomeOf(result).close) &&
        reacted == (old(reacted) || SubmitOutcomeOf(result).reacted)
      ensures rating == old(rating) && selected == old(selected) && hashtagIndex == old(hashtagIndex)
      ensures isLoading == old(isLoading) && grouped == old(grouped) && error == old(error)
    {
      if rating == 0 {
        return None;
      }
      var o := SubmitOutcomeOf(result);
      toast := Some(o.toast);
      if o.reacted {
        reacted := true;
      }
      if o.close {
        open := false;
      }
    }
  }
}
