# NewsNest feed controller

A model of the feed controller inside the `News` component of NewsNest. The
component fetches headlines for one category from a news API, or search
results when the user has typed or spoken a search. It keeps the pages it has
fetched in one list and loads the next page as the user scrolls. When a
category's first page of headlines comes back empty, it falls back to a search
for the category's name.

- `feed.dfy`, module `Feed`: the state hooks (`articles`, `loading`, `page`,
  `totalResults`, `error`, `searchQuery`) as one record, `FeedState`. The
  props are a `Props` record. Each handler is a function from the old record
  to the new one:
  - `Update` models `updateNews`;
  - `FetchMore` models `fetchMoreData`;
  - `SetSearch` models both search handlers.

  Two functions say which endpoint is asked with which parameters:
  `RequestFor` for the first request and `FallbackRequest` for the fallback.
  `Requests` lists the requests one update issues. The lemmas state the
  rules of one update, and what several rounds of scrolling produce.
- `news.dfy`, module `NewsComponent`: the component as a class `News`.
  - The state hooks are its fields and the props are constants.
  - Each handler is a method that changes the fields step by step, as the
    setters do.
  - Each method's postcondition ties `View()`, the fields read as a
    `FeedState`, to the matching `Feed` function of the old `View()`.

The network is a parameter. `UpdateNews` takes `fetch: Request -> Response`,
which stands for fetching a request and parsing its JSON body. A `Response`
is either `Thrown(reason)` or `Replied(ok, body)`. `Thrown` covers a transport
failure and a body that is not JSON. In `Replied`, `ok` is the HTTP ok flag
and `body` is the parsed body. Articles are a type parameter and are never
looked into.

Some behaviour of the code that a reader might not expect:
- The empty-fallback message is "No news articles found for this category."
- Changing the search text does not clear the list by itself. It sets the page
  to 1, so the next update replaces the list (`SearchStartsFresh`).
- The fallback response's HTTP status is never checked. A fallback answer whose
  body parses is judged only by its `status` and `totalResults`.
- An API message that is present but empty counts as missing. In that case
  "Error fetching news" is shown (`ApiErrorMessage`).
- An exception whose message is empty ends in `error == Some("")`. The page
  treats an empty string as no error, so it shows no error text and renders
  the (empty) list instead. The state is still an empty list with a total of
  0, so no more pages are offered.

## Model

| member | source | states |
|---|---|---|
| `Feed.Initial` | src/components/News.js:64-69 | the state on mount: no articles, loading on, page 1, a total of 0, no error and no search text; it satisfies the feed invariant and offers no more pages |
| `Feed.HasMore` | src/components/News.js:181 | more is offered only while the total is positive and above the number of articles shown, and not offered otherwise; a state holding an error never offers more |
| `Feed.Succeeded` | src/components/News.js:84-93 | the first fetch reaches the normal path exactly when it neither threw nor came back HTTP not-ok nor carried an API status other than "ok" |
| `Feed.FallbackFires` | src/components/News.js:96 | the fallback condition never holds on a page other than 1, never while searching, never for a non-zero total, and always holds for a zero total on page 1 without search text |
| `Feed.Adopts` | src/components/News.js:101 | a fallback answer is adopted exactly when it did not throw and has status "ok" and a positive total, whatever its HTTP ok flag |
| `Feed.RequestFor` | src/components/News.js:79-81 | the everything endpoint is asked exactly when the search text is non-empty, with q equal to that text; otherwise top-headlines is asked with the country and category props; in both cases with the current page, the page size and the API key |
| `Feed.FallbackRequest` | src/components/News.js:97-98 | the fallback asks the everything endpoint for page 1 with the same page size; q is the category, or "latest" when the category is empty, so it is never empty |
| `Feed.ApiErrorMessage` | src/components/News.js:91-93 | an API error shows its own message when present and non-empty, else "Error fetching news"; the message shown is never empty |
| `Feed.FailureMessage` | src/components/News.js:86-92 | the error text for a failed first fetch: the exception's message, "Network response was not ok" for an HTTP error, the API message rule for a status other than "ok" |
| `Feed.Update` | src/components/News.js:75-126 | every update ends with loading off and never changes the page or the search text; an error always comes with an empty list and a total of 0; there is no error exactly when the first fetch succeeds and the fallback either does not fire or is adopted; the feed invariant is preserved |
| `Feed.Requests` | src/components/News.js:79-100 | an update issues one or two requests, the first chosen by `RequestFor`; a second one is issued exactly when the fallback condition holds, and it is the fallback request; never on a page other than 1 or while searching; while searching, every request goes to the everything endpoint |
| `Feed.FetchMore` | src/components/News.js:133-135 | the page grows by exactly one and nothing else changes |
| `Feed.SetSearch` | src/components/News.js:157-160 | the search text is replaced and the page reset to 1; nothing else changes; the feed invariant is preserved |
| `Feed.FailureEmptiesFeed` | src/components/News.js:118-122 | a thrown fetch, an HTTP error or an API error leaves an empty list, a total of 0 and the matching message, and no fallback is issued |
| `Feed.FirstPageReplaces` | src/components/News.js:111-112 | on page 1, a normal answer replaces the list by exactly its articles and sets its total, with no error |
| `Feed.LaterPageAppends` | src/components/News.js:113-116 | on a later page, even with a total of 0, the new list is the old list followed by the answer's articles: the lengths add up and the order is kept; the total is the answer's |
| `Feed.FallbackOutcome` | src/components/News.js:96-108 | when the fallback fires, a fallback answer with status "ok" and a positive total is adopted with no error; a thrown fallback shows its message; any other answer empties the feed with "No news articles found for this category." |
| `Feed.SearchStartsFresh` | src/components/News.js:168-171 | after new search text, the update asks for page 1 of that query only, and the list becomes exactly the answer's articles, whatever was shown before |
| `Feed.Scroll` | src/components/News.js:128-135 | one load-more step and the update it triggers: the page moves on by one, the search text is kept, loading ends off; past page 1 the round ends with no error exactly when its first fetch succeeded (the fallback never fires); the invariant is kept |
| `Feed.LoadPages` | src/components/News.js:128-135 | repeated load-more rounds: the page moves on by the number of rounds, the search text is kept, loading ends off after any round, and the invariant is kept |
| `Feed.ScrollAppends` | src/components/News.js:133-135 | one load-more step followed by a successful update appends that page and moves the page on by one |
| `Feed.ScrollingAccumulates` | src/components/News.js:128-135 | repeated load-more steps whose fetches succeed accumulate their pages in arrival order after what was shown; the page advances by the number of rounds; the total is the last answer's |
| `Feed.FailureStopsScrolling` | src/components/News.js:181 | after a failed update, or an empty fallback, the infinite scroll does not offer more |
| `Feed.TechnologyFallbackScenario` | src/components/News.js:96-103 | an empty "technology" first page asks top-headlines, then searches "technology", and adopts its 12-result answer with no error |
| `Feed.ApiKeyMissingScenario` | src/components/News.js:91-92 | an API error "apiKey missing" shows that text over an empty list with a total of 0 |
| `NewsComponent.News.constructor` | src/components/News.js:64-69 | a fresh component holds the initial state and the given props |
| `NewsComponent.News.UpdateNews` | src/components/News.js:75-126 | executing the handler step by step yields exactly `Feed.Update` of the old state, and issues exactly `Feed.Requests`; the invariant is kept |
| `NewsComponent.News.FetchMoreData` | src/components/News.js:133-135 | the page field grows by one and no other field changes |
| `NewsComponent.News.OnVoiceSearch` | src/components/News.js:157-160 | the spoken text becomes the search text, the page becomes 1, nothing else changes |
| `NewsComponent.News.OnSearchInput` | src/components/News.js:168-171 | the typed text becomes the search text, the page becomes 1, nothing else changes |
| `NewsComponent.News.CanLoadMore` | src/components/News.js:181 | more is offered exactly while fewer articles are shown than the total; it is never offered while `error` holds a message, even an empty one |

## Left out

- The network calls and JSON parsing are not modelled. Fetching a request and parsing its body are one abstract `fetch` function.
- URLs are not built as strings, and `encodeURIComponent` is not modelled. A request is a `Request` value holding its parameters.
- Overlapping updates are not modelled. The source runs an update as an effect whenever page, props or search text change, and two updates in flight may resolve out of order. The model runs each update atomically, once per triggering change.
- React's batching of setters is not modelled. The model applies them in program order. The append reads the current list, as the source's functional setter does.
- JavaScript values are modelled by their usual types. The API's `totalResults` is an unbounded integer and `articles` a sequence. A body missing either field is not modelled.
- The voice recognition component, `readArticle` and the speech synthesis bridge are not modelled. They only call browser speech APIs.
- `capitalizeFirstLetter` is not modelled. It is a title display helper that relies on Unicode case mapping.
- The rendering is not modelled: the JSX, the article cards in `src/components/NewsItem.js` with their display defaults, and the routes in `src/App.js`.
- `News.defaultProps` (country "in", page size 6, category "business" for a prop left undefined) is not modelled. The constructor takes every prop explicitly; the routes in `src/App.js` pass all four props.
- The `console.error` log in the catch block is not modelled. It writes to the browser console and changes no state.
