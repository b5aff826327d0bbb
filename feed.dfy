/**
 The feed controller of the NewsNest `News` component, as values.

 The component's state hooks (articles, loading, page, totalResults, error,
 searchQuery) form one record, `FeedState`. Each handler of the component is a
 function from the old record to the new one. The network is abstracted away:
 a `Request` says which endpoint is asked with which parameters, and a
 `Response` is whatever that request produced once fetched and parsed.
 */
module Feed {

  datatype Option<T> = None | Some(value: T)

  /** The two endpoint shapes of the news API the feed asks. */
  datatype Request =
    | Everything(q: string, apiKey: string, page: int, pageSize: int)
    | TopHeadlines(country: string, category: string, apiKey: string, page: int, pageSize: int)

  /** The component's props; they never change while it is mounted. */
  datatype Props = Props(country: string, category: string, apiKey: string, pageSize: int)

  /** A parsed JSON body of the news API; `message` is present on API errors. */
  datatype Body<A> = Body(status: string, totalResults: int, articles: seq<A>, message: Option<string>)

  /**
   What one fetch produced: an exception (transport failure, or a body that is
   not JSON), or a response with its HTTP ok flag and its parsed body.
   */
  datatype Response<A> = Thrown(reason: string) | Replied(ok: bool, body: Body<A>)

  /** The state hooks of the component; `A` is an article, never looked into. */
  datatype FeedState<A> = FeedState(
    articles: seq<A>,
    loading: bool,
    page: int,
    totalResults: int,
    error: Option<string>,
    searchQuery: string)

  const NotOkMessage: string := "Network response was not ok"
  const ApiErrorDefault: string := "Error fetching news"
  const NoArticlesMessage: string := "No news articles found for this category."
  const FallbackTopic: string := "latest"

  /**
   What every reachable state satisfies: pages count from 1, and a set error
   (even an empty message, which the page does not display) comes with an
   empty list and a total of 0.
   */
  predicate Invariant<A>(s: FeedState<A>) {
    s.page >= 1 && (s.error.Some? ==> s.articles == [] && s.totalResults == 0)
  }

  /** The state on mount. */
  function Initial<A>(): (s: FeedState<A>)
    ensures Invariant(s)
    ensures s.page == 1 && s.searchQuery == "" && s.articles == [] && s.error.None?
    ensures s.loading && s.totalResults == 0 && !HasMore(s)
  {
    FeedState([], true, 1, 0, None, "")
  }

  /** `hasMore`: the infinite scroll asks for the next page only while this holds. */
  predicate HasMore<A>(s: FeedState<A>): (b: bool)
    ensures b ==> 0 < s.totalResults && |s.articles| < s.totalResults
    ensures !b ==> s.totalResults <= |s.articles|
    ensures Invariant(s) && s.error.Some? ==> !b
  {
    |s.articles| < s.totalResults
  }

  /** The request an update issues first: a search when there is search text, else the category's headlines. */
  function RequestFor(p: Props, page: int, searchQuery: string): (r: Request)
    ensures r.Everything? <==> searchQuery != ""
    ensures r.Everything? ==> r.q == searchQuery
    ensures r.TopHeadlines? ==> r.country == p.country && r.category == p.category
    ensures r.apiKey == p.apiKey && r.page == page && r.pageSize == p.pageSize
  {
    if searchQuery != "" then Everything(searchQuery, p.apiKey, page, p.pageSize)
    else TopHeadlines(p.country, p.category, p.apiKey, page, p.pageSize)
  }

  /** The fallback search for a category whose headlines came back empty. */
  function FallbackRequest(p: Props): (r: Request)
    ensures r.Everything? && r.page == 1 && r.pageSize == p.pageSize && r.apiKey == p.apiKey
    ensures r.q != ""
    ensures p.category != "" ==> r.q == p.category
    ensures p.category == "" ==> r.q == FallbackTopic
  {
    Everything(if p.category != "" then p.category else FallbackTopic, p.apiKey, 1, p.pageSize)
  }

  /** The error shown for a body whose status is not "ok": its message, unless that is missing or empty. */
  function ApiErrorMessage(message: Option<string>): (m: string)
    ensures m != ""
    ensures message.Some? && message.value != "" ==> m == message.value
    ensures message.None? || message.value == "" ==> m == ApiErrorDefault
  {
    if message.Some? && message.value != "" then message.value else ApiErrorDefault
  }

  /** A fetch that reached the normal path: no exception, HTTP ok, API status "ok". */
  predicate Succeeded<A>(r: Response<A>): (b: bool)
    ensures r.Thrown? ==> !b
    ensures r.Replied? && !r.ok ==> !b
    ensures r.Replied? && r.body.status != "ok" ==> !b
    ensures r.Replied? && r.ok && r.body.status == "ok" ==> b
  {
    r.Replied? && r.ok && r.body.status == "ok"
  }

  /** The message a failed primary fetch leaves in `error`. */
  function FailureMessage<A>(r: Response<A>): (m: string)
    requires !Succeeded(r)
    ensures r.Thrown? ==> m == r.reason
    ensures r.Replied? && !r.ok ==> m == NotOkMessage
    ensures r.Replied? && r.ok ==> m == ApiErrorMessage(r.body.message) && m != ""
  {
    match r
    case Thrown(reason) => reason
    case Replied(ok, body) => if !ok then NotOkMessage else ApiErrorMessage(body.message)
  }

  /** The fallback condition: an empty total for the first page of a category. */
  predicate FallbackFires(totalResults: int, page: int, searchQuery: string): (b: bool)
    ensures page != 1 ==> !b
    ensures searchQuery != "" ==> !b
    ensures totalResults != 0 ==> !b
    ensures totalResults == 0 && page == 1 && searchQuery == "" ==> b
  {
    totalResults == 0 && page == 1 && searchQuery == ""
  }

  /** Whether an update starting from `s` whose first fetch produced `primary` goes on to the fallback. */
  predicate TakesFallback<A>(s: FeedState<A>, primary: Response<A>) {
    Succeeded(primary) && FallbackFires(primary.body.totalResults, s.page, s.searchQuery)
  }

  /** Whether the fallback's answer is adopted as the feed; its HTTP ok flag plays no part. */
  predicate Adopts<A>(fallback: Response<A>): (b: bool)
    ensures fallback.Thrown? ==> !b
    ensures b ==> fallback.body.status == "ok" && fallback.body.totalResults > 0
    ensures fallback.Replied? && fallback.body.status == "ok" && fallback.body.totalResults > 0 ==> b
  {
    fallback.Replied? && fallback.body.status == "ok" && fallback.body.totalResults > 0
  }

  /** The end of an update that failed: nothing to show and the message. */
  function Failed<A>(s: FeedState<A>, message: string): FeedState<A> {
    s.(articles := [], totalResults := 0, error := Some(message), loading := false)
  }

  /** The end of an update that succeeded. */
  function Loaded<A>(s: FeedState<A>, articles: seq<A>, totalResults: int): FeedState<A> {
    s.(articles := articles, totalResults := totalResults, error := None, loading := false)
  }

  /**
   `updateNews`: the state after one update from `s`, given what the first
   request produced and what the fallback request would produce (consulted
   only when the fallback fires).
   */
  function Update<A>(s: FeedState<A>, p: Props, primary: Response<A>, fallback: Response<A>): (r: FeedState<A>)
    ensures !r.loading && r.page == s.page && r.searchQuery == s.searchQuery
    ensures r.error.Some? ==> r.articles == [] && r.totalResults == 0
    ensures r.error.None? <==> Succeeded(primary) && (!TakesFallback(s, primary) || Adopts(fallback))
    ensures Invariant(s) ==> Invariant(r)
  {
    if !Succeeded(primary) then Failed(s, FailureMessage(primary))
    else if TakesFallback(s, primary) then
      match fallback
      case Thrown(reason) => Failed(s, reason)
      case Replied(_, fb) =>
        if Adopts(fallback) then Loaded(s, fb.articles, fb.totalResults)
        else Failed(s, NoArticlesMessage)
    else if s.page == 1 then Loaded(s, primary.body.articles, primary.body.totalResults)
    else Loaded(s, s.articles + primary.body.articles, primary.body.totalResults)
  }

  /** The requests one update issues, in order, given what the first one produced. */
  function Requests<A>(s: FeedState<A>, p: Props, primary: Response<A>): (r: seq<Request>)
    ensures 1 <= |r| <= 2
    ensures r[0] == RequestFor(p, s.page, s.searchQuery)
    ensures |r| == 2 <==> TakesFallback(s, primary)
    ensures |r| == 2 ==> r[1] == FallbackRequest(p)
    ensures s.page != 1 || s.searchQuery != "" ==> |r| == 1
    ensures s.searchQuery != "" ==> forall i | 0 <= i < |r| :: r[i].Everything?
  {
    var first := RequestFor(p, s.page, s.searchQuery);
    if TakesFallback(s, primary) then [first, FallbackRequest(p)] else [first]
  }

  /** `fetchMoreData`: ask for the next page. */
  function FetchMore<A>(s: FeedState<A>): (r: FeedState<A>)
    ensures r.page == s.page + 1
    ensures r.(page := s.page) == s
  {
    s.(page := s.page + 1)
  }

  /** The search handlers, typed or spoken: take the text and start over from page 1. */
  function SetSearch<A>(s: FeedState<A>, query: string): (r: FeedState<A>)
    ensures r.searchQuery == query && r.page == 1
    ensures r.(searchQuery := s.searchQuery, page := s.page) == s
    ensures Invariant(s) ==> Invariant(r)
  {
    s.(searchQuery := query, page := 1)
  }

  // Properties of a single update, one rule of `updateNews` each.

  /** A thrown fetch, an HTTP error or an API error empties the feed and shows the matching message. */
  lemma FailureEmptiesFeed<A>(s: FeedState<A>, p: Props, primary: Response<A>, fallback: Response<A>)
    requires !Succeeded(primary)
    ensures var r := Update(s, p, primary, fallback);
      r.articles == [] && r.totalResults == 0 && r.error == Some(FailureMessage(primary)) &&
      |Requests(s, p, primary)| == 1
  {
  }

  /** On the first page a normal answer replaces the feed, whatever it held before. */
  lemma FirstPageReplaces<A>(s: FeedState<A>, p: Props, primary: Response<A>, fallback: Response<A>)
    requires Succeeded(primary) && s.page == 1
    requires !FallbackFires(primary.body.totalResults, s.page, s.searchQuery)
    ensures var r := Update(s, p, primary, fallback);
      r.articles == primary.body.articles && r.totalResults == primary.body.totalResults && r.error.None?
  {
  }

  /** On a later page a normal answer is appended: the old feed stays in front, in order. */
  lemma LaterPageAppends<A>(s: FeedState<A>, p: Props, primary: Response<A>, fallback: Response<A>)
    requires Succeeded(primary) && s.page != 1
    ensures var r := Update(s, p, primary, fallback);
      |r.articles| == |s.articles| + |primary.body.articles| &&
      r.articles[..|s.articles|] == s.articles &&
      r.articles[|s.articles|..] == primary.body.articles &&
      r.totalResults == primary.body.totalResults && r.error.None?
  {
  }

  /** When the fallback fires, its answer is adopted if it has results, else the feed is emptied. */
  lemma FallbackOutcome<A>(s: FeedState<A>, p: Props, primary: Response<A>, fallback: Response<A>)
    requires TakesFallback(s, primary)
    ensures var r := Update(s, p, primary, fallback);
      (Adopts(fallback) ==>
        r.articles == fallback.body.articles && r.totalResults == fallback.body.totalResults && r.error.None?) &&
      (fallback.Thrown? ==> r.articles == [] && r.totalResults == 0 && r.error == Some(fallback.reason)) &&
      (fallback.Replied? && !Adopts(fallback) ==>
        r.articles == [] && r.totalResults == 0 && r.error == Some(NoArticlesMessage))
  {
  }

  // Properties of several steps.

  /** Typing or speaking a search and then updating starts a fresh feed from the first page. */
  lemma SearchStartsFresh<A>(s: FeedState<A>, p: Props, query: string, primary: Response<A>, fallback: Response<A>)
    requires Succeeded(primary) && !FallbackFires(primary.body.totalResults, 1, query)
    ensures var t := SetSearch(s, query);
      Requests(t, p, primary) == [RequestFor(p, 1, query)] &&
      Update(t, p, primary, fallback).articles == primary.body.articles
  {
  }

  /** What one round of scrolling fetched: the first request's answer and the fallback's. */
  datatype Round<A> = Round(primary: Response<A>, fallback: Response<A>)

  /** Scrolling: `fetchMoreData` and the update it triggers, once per round. */
  function LoadPages<A>(s: FeedState<A>, p: Props, rounds: seq<Round<A>>): (r: FeedState<A>)
    ensures r.page == s.page + |rounds| && r.searchQuery == s.searchQuery
    ensures rounds != [] ==> !r.loading
    ensures Invariant(s) ==> Invariant(r)
    decreases |rounds|
  {
    if rounds == [] then s else LoadPages(Scroll(s, p, rounds[0]), p, rounds[1..])
  }

  /** One round of scrolling: the next page, then the update it triggers. */
  function Scroll<A>(s: FeedState<A>, p: Props, round: Round<A>): (r: FeedState<A>)
    ensures r.page == s.page + 1 && r.searchQuery == s.searchQuery && !r.loading
    ensures s.page >= 1 ==> (r.error.None? <==> Succeeded(round.primary))
    ensures Invariant(s) ==> Invariant(r)
  {
    Update(FetchMore(s), p, round.primary, round.fallback)
  }

  /** A round whose first request succeeds appends its page; the fallback never fires past page 1. */
  lemma ScrollAppends<A>(s: FeedState<A>, p: Props, round: Round<A>)
    requires s.page >= 1 && Succeeded(round.primary)
    ensures var t := Scroll(s, p, round);
      t.articles == s.articles + ArticlesOf(round.primary) &&
      t.page == s.page + 1 && t.searchQuery == s.searchQuery &&
      t.error.None? && t.totalResults == round.primary.body.totalResults
  {
  }

  /** The articles a response carries; an exception carries none. */
  function ArticlesOf<A>(r: Response<A>): seq<A> {
    if r.Replied? then r.body.articles else []
  }

  /** The articles the rounds' first requests answered, one page after another. */
  function Pages<A>(rounds: seq<Round<A>>): seq<A>
    decreases |rounds|
  {
    if rounds == [] then [] else ArticlesOf(rounds[0].primary) + Pages(rounds[1..])
  }

  /**
   Scrolling through pages that all succeed accumulates them in arrival order
   after what was already shown, and moves the page on by one per round.
   */
  lemma {:induction false} ScrollingAccumulates<A>(s: FeedState<A>, p: Props, rounds: seq<Round<A>>)
    requires s.page >= 1
    requires forall i | 0 <= i < |rounds| :: Succeeded(rounds[i].primary)
    ensures var r := LoadPages(s, p, rounds);
      r.articles == s.articles + Pages(rounds) &&
      r.page == s.page + |rounds| &&
      r.searchQuery == s.searchQuery &&
      (rounds != [] ==>
        var last := rounds[|rounds| - 1].primary;
        Succeeded(last) && r.error.None? && r.totalResults == last.body.totalResults)
    decreases |rounds|
  {
    if rounds != [] {
      var r0, rest := rounds[0], rounds[1..];
      var t := Scroll(s, p, r0);
      ScrollAppends(s, p, r0);
      assert forall i | 0 <= i < |rest| :: Succeeded(rest[i].primary) by {
        forall i | 0 <= i < |rest| ensures Succeeded(rest[i].primary) {
          assert rest[i] == rounds[i + 1];
        }
      }
      ScrollingAccumulates(t, p, rest);
      if rest != [] {
        assert rest[|rest| - 1] == rounds[|rounds| - 1];
      }
      calc {
        LoadPages(s, p, rounds).articles;
        LoadPages(t, p, rest).articles;
        (s.articles + ArticlesOf(r0.primary)) + Pages(rest);
        s.articles + (ArticlesOf(r0.primary) + Pages(rest));
        s.articles + Pages(rounds);
      }
    } else {
      assert s.articles + Pages(rounds) == s.articles;
    }
  }

  /** The infinite scroll stops asking once a failure has emptied the feed. */
  lemma FailureStopsScrolling<A>(s: FeedState<A>, p: Props, primary: Response<A>, fallback: Response<A>)
    requires !Succeeded(primary) || (TakesFallback(s, primary) && !Adopts(fallback))
    ensures !HasMore(Update(s, p, primary, fallback))
  {
  }

  // Two worked cases of the rules above.

  /** An empty technology page falls back to a search for "technology" and adopts its twelve results. */
  lemma TechnologyFallbackScenario()
    ensures var s, p := Initial<int>(), Props("in", "technology", "key", 6);
      var primary := Replied(true, Body("ok", 0, [], None));
      var fallback := Replied(true, Body("ok", 12, [1, 2, 3, 4, 5, 6], None));
      Requests(s, p, primary) == [TopHeadlines("in", "technology", "key", 1, 6), Everything("technology", "key", 1, 6)] &&
      Update(s, p, primary, fallback) == s.(articles := [1, 2, 3, 4, 5, 6], totalResults := 12, loading := false)
  {
  }

  /** An API error carrying a message shows that message over an empty feed. */
  lemma ApiKeyMissingScenario(s: FeedState<int>, p: Props, fallback: Response<int>)
    ensures var primary := Replied(true, Body("error", 0, [], Some("apiKey missing")));
      var r := Update(s, p, primary, fallback);
      r.error == Some("apiKey missing") && r.articles == [] && r.totalResults == 0
  {
  }
}
