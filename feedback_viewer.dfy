/** The feedback dashboard: loading all feedback, the rating distribution it computes,
    the five-star display of one rating, the daily cards and the date text. */
module FeedbackViewer {
  import opened Wrappers
  import FeedbackForm

  datatype FeedbackItem = FeedbackItem(rating: int, comment: Option<string>, customerName: Option<string>,
                                       feedbackTimestamp: Option<string>, timestamp: Option<string>)

  datatype DailyStat = DailyStat(date: string, count: int)

  /** `response.data` of GET /api/feedback/all; a missing field is None. */
  datatype FeedbackData = FeedbackData(feedback: Option<seq<FeedbackItem>>, dailyStats: Option<seq<DailyStat>>,
                                       total: Option<int>)

  datatype FeedbackFetch = FetchFailed | Fetched(data: FeedbackData)

  /** The statistics card: the total as the server reported it and the count per star.
      (The average is a floating-point figure and is not part of this model.) */
  datatype Stats = Stats(total: Option<int>, distribution: seq<nat>)

  const LoadFailed: string := "Failed to load feedback"
  const NotAvailable: string := "N/A"
  const DailyCardLimit: nat := 7

  function Ratings(items: seq<FeedbackItem>): (r: seq<int>)
    ensures |r| == |items| && forall i :: 0 <= i < |items| ==> r[i] == items[i].rating
  {
    seq(|items|, i requires 0 <= i < |items| => items[i].rating)
  }

  /** How many ratings equal star (`ratings.filter(r => r === star).length`). */
  function Count(ratings: seq<int>, star: int): (n: nat)
    ensures n == multiset(ratings)[star]
    ensures n <= |ratings|
  {
    if |ratings| == 0 then 0
    else
      assert ratings == [ratings[0]] + ratings[1..];
      (if ratings[0] == star then 1 else 0) + Count(ratings[1..], star)
  }

  /** How many ratings lie in 1..5. */
  function InRange(ratings: seq<int>): (n: nat)
    ensures n <= |ratings|
  {
    if |ratings| == 0 then 0
    else (if 1 <= ratings[0] <= 5 then 1 else 0) + InRange(ratings[1..])
  }

  function Sum(s: seq<nat>): nat {
    if |s| == 0 then 0 else s[0] + Sum(s[1..])
  }

  lemma SumOfFive(s: seq<nat>)
    requires |s| == 5
    ensures Sum(s) == s[0] + s[1] + s[2] + s[3] + s[4]
  {
    var t := s[1..];
    assert Sum(t) == t[0] + Sum(t[1..]);
    var u := t[1..];
    assert Sum(u) == u[0] + Sum(u[1..]);
    var v := u[1..];
    assert Sum(v) == v[0] + Sum(v[1..]);
    var w := v[1..];
    assert Sum(w) == w[0] + Sum(w[1..]);
    assert w[1..] == [];
  }

  /** The rating distribution: entry i counts the ratings equal to i + 1. */
  function Distribution(ratings: seq<int>): (d: seq<nat>)
    ensures |d| == FeedbackForm.StarCount
    ensures forall i :: 0 <= i < FeedbackForm.StarCount ==> d[i] == Count(ratings, i + 1)
  {
    seq(FeedbackForm.StarCount, i requires 0 <= i < FeedbackForm.StarCount => Count(ratings, i + 1))
  }

  lemma {:induction false} CountsAddUp(ratings: seq<int>)
    ensures Count(ratings, 1) + Count(ratings, 2) + Count(ratings, 3) + Count(ratings, 4) + Count(ratings, 5)
            == InRange(ratings)
  {
    if |ratings| > 0 {
      CountsAddUp(ratings[1..]);
    }
  }

  /** The distribution accounts for every rating in 1..5 and for nothing else, so its
      total never exceeds the number of feedback entries. */
  lemma DistributionSum(ratings: seq<int>)
    ensures Sum(Distribution(ratings)) == InRange(ratings) <= |ratings|
  {
    var d := Distribution(ratings);
    SumOfFive(d);
    CountsAddUp(ratings);
  }

  /** When every rating lies in 1..5, the distribution adds up to the number of ratings. */
  lemma {:induction false} AllInRange(ratings: seq<int>)
    requires forall i :: 0 <= i < |ratings| ==> 1 <= ratings[i] <= 5
    ensures InRange(ratings) == |ratings|
  {
    if |ratings| > 0 {
      AllInRange(ratings[1..]);
    }
  }

  /** renderStars: five stars, star k filled exactly when k <= rating. */
  function RenderStars(rating: int): (filled: seq<bool>)
    ensures |filled| == FeedbackForm.StarCount
    ensures forall k :: 0 <= k < FeedbackForm.StarCount ==> filled[k] == (k + 1 <= rating)
  {
    seq(FeedbackForm.StarCount, i requires 0 <= i < FeedbackForm.StarCount => i + 1 <= rating)
  }

  /** The daily cards: the first seven daily figures, in order. */
  function DailyCards(dailyStats: seq<DailyStat>): (cards: seq<DailyStat>)
    ensures |cards| == if |dailyStats| < DailyCardLimit then |dailyStats| else DailyCardLimit
    ensures cards == dailyStats[..|cards|]
  {
    if |dailyStats| < DailyCardLimit then dailyStats else dailyStats[..DailyCardLimit]
  }

  /** The timestamp an entry shows: `feedback_timestamp || timestamp`. */
  function DateOf(item: FeedbackItem): (d: Option<string>)
    ensures Truthy(item.feedbackTimestamp) ==> d == item.feedbackTimestamp
    ensures !Truthy(item.feedbackTimestamp) ==> d == item.timestamp
    ensures Truthy(d) <==> Truthy(item.feedbackTimestamp) || Truthy(item.timestamp)
  {
    if Truthy(item.feedbackTimestamp) then item.feedbackTimestamp else item.timestamp
  }

  /** formatDate: "N/A" for a missing or empty date, else the browser's localized
      rendering, which is a parameter here. */
  function FormatDate(dateString: Option<string>, localize: string -> string): (text: string)
    ensures !Truthy(dateString) ==> text == NotAvailable
    ensures Truthy(dateString) ==> text == localize(dateString.value)
  {
    if !Truthy(dateString) then NotAvailable else localize(dateString.value)
  }

  /** The date line of one feedback entry: 'N/A' exactly when neither timestamp is set;
      the feedback timestamp wins over the record timestamp. */
  function EntryDate(item: FeedbackItem, localize: string -> string): (text: string)
    ensures !Truthy(item.feedbackTimestamp) && !Truthy(item.timestamp) ==> text == NotAvailable
    ensures Truthy(item.feedbackTimestamp) ==> text == localize(item.feedbackTimestamp.value)
    ensures !Truthy(item.feedbackTimestamp) && Truthy(item.timestamp) ==> text == localize(item.timestamp.value)
  {
    FormatDate(DateOf(item), localize)
  }

  /** The dashboard fills the same stars as the feedback form lights for the same rating
      when no star is hovered. */
  lemma SameStarRule(rating: int, k: int)
    requires 0 <= k < FeedbackForm.StarCount
    ensures RenderStars(rating)[k] == FeedbackForm.StarActive(k + 1, 0, rating)
  {
  }

  class FeedbackViewerState {
    /** None once the response lacked its `feedback` list. */
    var feedback: Option<seq<FeedbackItem>>
    var loading: bool
    var error: Option<string>
    var stats: Option<Stats>
    var dailyStats: seq<DailyStat>

    constructor ()
      ensures feedback == Some([]) && loading && error.None? && stats.None? && dailyStats == []
    {
      feedback := Some([]);
      loading := true;
      error := None;
      stats := None;
      dailyStats := [];
    }

    /** loadFeedback. A failed request only sets the error. A response sets the list
        and the daily figures first; when it has no `feedback` list, reading its length
        throws and the error is set; otherwise statistics are set only for a non-empty
        list, with the total copied from the response, and the error is cleared. Loading
        ends false in every case. */
    method LoadFeedback(fetch: FeedbackFetch)
      modifies this
      ensures !loading
      ensures fetch.FetchFailed? ==>
        && error == Some(LoadFailed)
        && feedback == old(feedback) && stats == old(stats) && dailyStats == old(dailyStats)
      ensures fetch.Fetched? ==>
        && feedback == fetch.data.feedback
        && dailyStats == (if fetch.data.dailyStats.Some? then fetch.data.dailyStats.value else [])
      ensures fetch.Fetched? && fetch.data.feedback.None? ==> error == Some(LoadFailed) && stats == old(stats)
      ensures fetch.Fetched? && fetch.data.feedback.Some? ==>
        && error.None?
        && (|fetch.data.feedback.value| > 0 ==>
              stats == Some(Stats(fetch.data.total, Distribution(Ratings(fetch.data.feedback.value)))))
        && (|fetch.data.feedback.value| == 0 ==> stats == old(stats))
    {
      loading := true;
      match fetch {
        case FetchFailed =>
          error := Some(LoadFailed);
        case Fetched(data) =>
          feedback := data.feedback;
          dailyStats := if data.dailyStats.Some? then data.dailyStats.value else [];
          if data.feedback.None? {
            error := Some(LoadFailed);
          } else {
            var items := data.feedback.value;
            if |items| > 0 {
              stats := Some(Stats(data.total, Distribution(Ratings(items))));
            }
            error := None;
          }
      }
      loading := false;
    }
  }
}
