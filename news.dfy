/**
 The `News` component itself: its state hooks are the fields of a `News`
 object, its props are constants, and each handler is a method that updates
 the fields the way the component's setters do. Every method is specified by
 the matching function of module `Feed` on the record `View()`.
 */
module NewsComponent {
  import opened Feed

  class News<A> {
    var articles: seq<A>
    var loading: bool
    var page: int
    var totalResults: int
    var error: Option<string>
    var searchQuery: string

    const country: string
    const category: string
    const apiKey: string
    const pageSize: int

    /** The state hooks as one record. */
    function View(): FeedState<A>
      reads this
    {
      FeedState(articles, loading, page, totalResults, error, searchQuery)
    }

    /** The props as one record. */
    function Settings(): Props {
      Props(country, category, apiKey, pageSize)
    }

    ghost predicate Valid()
      reads this
    {
      Invariant(View())
    }

    /** Mounting: every hook takes its initial value. */
    constructor (country: string, category: string, apiKey: string, pageSize: int)
      ensures Valid()
      ensures View() == Initial()
      ensures Settings() == Props(country, category, apiKey, pageSize)
    {
      this.country, this.category, this.apiKey, this.pageSize := country, category, apiKey, pageSize;
      articles, loading, page, totalResults, error, searchQuery := [], true, 1, 0, None, "";
    }

    /**
     `updateNews`: `fetch` stands for the network, fetching a request and
     parsing its body. Returns the requests issued, in order.
     */
    method UpdateNews(fetch: Request -> Response<A>) returns (issued: seq<Request>)
      requires Valid()
      modifies this
      ensures Valid()
      ensures var primary := fetch(RequestFor(Settings(), old(page), old(searchQuery)));
        View() == Update(old(View()), Settings(), primary, fetch(FallbackRequest(Settings()))) &&
        issued == Requests(old(View()), Settings(), primary)
    {
      loading := true;
      error := None;

      var url := RequestFor(Settings(), page, searchQuery);
      issued := [url];
      // The message of the exception that ends the try block, if one is thrown.
      var thrown: Option<string> := None;
      var response := fetch(url);
      if response.Thrown? {
        thrown := Some(response.reason);
      } else if !response.ok {
        thrown := Some(NotOkMessage);
      } else {
        var data := response.body;
        if data.status != "ok" {
          thrown := Some(ApiErrorMessage(data.message));
        } else if data.totalResults == 0 && page == 1 && searchQuery == "" {
          var fallbackUrl := FallbackRequest(Settings());
          issued := issued + [fallbackUrl];
          var fallbackResponse := fetch(fallbackUrl);
          if fallbackResponse.Thrown? {
            thrown := Some(fallbackResponse.reason);
          } else {
            var fallbackData := fallbackResponse.body;
            if fallbackData.status == "ok" && fallbackData.totalResults > 0 {
              articles := fallbackData.articles;
              totalResults := fallbackData.totalResults;
            } else {
              articles := [];
              totalResults := 0;
              error := Some(NoArticlesMessage);
            }
          }
        } else {
          if page == 1 {
            articles := data.articles;
          } else {
            articles := articles + data.articles;
          }
          totalResults := data.totalResults;
        }
      }

      if thrown.Some? {
        error := thrown;
        articles := [];
        totalResults := 0;
      }
      loading := false;
    }

    /** `fetchMoreData`: the infinite scroll's request for the next page. */
    method FetchMoreData()
      requires Valid()
      modifies this`page
      ensures Valid()
      ensures page == old(page) + 1
      ensures View() == FetchMore(old(View()))
    {
      page := page + 1;
    }

    /** The voice search's result handler. */
    method OnVoiceSearch(query: string)
      requires Valid()
      modifies this`searchQuery, this`page
      ensures Valid()
      ensures searchQuery == query && page == 1
      ensures View() == SetSearch(old(View()), query)
    {
      searchQuery := query;
      page := 1;
    }

    /** The search box's change handler. */
    method OnSearchInput(query: string)
      requires Valid()
      modifies this`searchQuery, this`page
      ensures Valid()
      ensures searchQuery == query && page == 1
      ensures View() == SetSearch(old(View()), query)
    {
      searchQuery := query;
      page := 1;
    }

    /** `hasMore`: whether the infinite scroll may call `FetchMoreData`. */
    method CanLoadMore() returns (more: bool)
      requires Valid()
      ensures more <==> HasMore(View())
      ensures more ==> error.None? && totalResults > 0
    {
      more := |articles| < totalResults;
    }
  }
}
