/**
 * The remote capabilities the components call: authentication, the entity store and the
 * language-model completion service. Each call may fail for reasons outside the program
 * (network, service errors); the bodies choose success or failure, and the service's answer,
 * nondeterministically, so every caller is verified against every possible outcome.
 */
module Base44 {
  import opened Wrappers
  import opened Json
  import opened Entities

  /** What a completion request asks about; the prompt text around it is not modelled. */
  datatype LlmRequest =
    | ChatRequest(query: string)
    | InsightRequest(interests: seq<string>)
    | QuoteRequest(symbol: string)

  class Services {
    /** The signed-in user's e-mail address, if anyone is signed in. */
    var currentUser: Option<string>
    var preferences: seq<UserPreference>
    var newsItems: seq<NewsItem>
    var watchlist: seq<Stock>
    /** Every completion request issued so far, in order. */
    var requests: seq<LlmRequest>

    constructor(user: Option<string>, preferences: seq<UserPreference>, watchlist: seq<Stock>)
      ensures currentUser == user && this.preferences == preferences && this.watchlist == watchlist
      ensures newsItems == [] && requests == []
    {
      currentUser := user;
      this.preferences := preferences;
      this.watchlist := watchlist;
      newsItems := [];
      requests := [];
    }

    /** `auth.me()`: the signed-in user's address, or a failure. */
    method Me() returns (r: Result<string>)
      ensures r.Success? ==> currentUser == Some(r.value)
    {
      var reachable: bool :| true;
      if reachable && currentUser.Some? {
        r := Success(currentUser.value);
      } else {
        r := Failure("auth.me failed");
      }
    }

    /** `UserPreference.filter({ created_by: email })`. */
    method FilterPreferences(email: string) returns (r: Result<seq<UserPreference>>)
      ensures r.Success? ==> r.value == OwnedBy(preferences, email)
    {
      var reachable: bool :| true;
      r := if reachable then Success(OwnedBy(preferences, email)) else Failure("filter failed");
    }

    /** `UserPreference.update(id, record)`. */
    method UpdatePreference(id: nat, record: UserPreference) returns (ok: bool)
      modifies this`preferences
      ensures preferences == if ok then ReplaceById(old(preferences), id, record) else old(preferences)
    {
      ok :| true;
      if ok {
        preferences := ReplaceById(preferences, id, record);
      }
    }

    /**
     * `UserPreference.create(record)`: the store files the record under the signed-in user and
     * gives it a new id (here, the number of records before it).
     */
    method CreatePreference(record: UserPreference) returns (ok: bool)
      modifies this`preferences
      ensures ok ==> currentUser.Some?
      ensures preferences == if ok then old(preferences) + [record.(id := |old(preferences)|, createdBy := currentUser.value)]
                             else old(preferences)
    {
      var reachable: bool :| true;
      ok := reachable && currentUser.Some?;
      if ok {
        preferences := preferences + [record.(id := |preferences|, createdBy := currentUser.value)];
      }
    }

    /** `NewsItem.create(item)`. */
    method CreateNewsItem(item: NewsItem) returns (ok: bool)
      modifies this`newsItems
      ensures newsItems == if ok then old(newsItems) + [item] else old(newsItems)
    {
      ok :| true;
      if ok {
        newsItems := newsItems + [item];
      }
    }

    /** `Stock.create(stock)`: adds the stock to the watchlist. */
    method CreateStock(stock: Stock) returns (ok: bool)
      modifies this`watchlist
      ensures watchlist == if ok then old(watchlist) + [stock] else old(watchlist)
    {
      ok :| true;
      if ok {
        watchlist := watchlist + [stock];
      }
    }

    /** `InvokeLLM` without a response schema: any value, usually a string. */
    method InvokeLLM(query: string) returns (r: Result<Json>)
      modifies this`requests
      ensures requests == old(requests) + [ChatRequest(query)]
    {
      requests := requests + [ChatRequest(query)];
      var answered: bool :| true;
      var reply: Json :| true;
      r := if answered then Success(reply) else Failure("InvokeLLM failed");
    }

    /** `InvokeLLM` with the `{ insights: string[] }` schema; the `insights` property may be missing. */
    method InvokeLLMInsights(interests: seq<string>) returns (r: Result<Option<seq<string>>>)
      modifies this`requests
      ensures requests == old(requests) + [InsightRequest(interests)]
    {
      requests := requests + [InsightRequest(interests)];
      var answered: bool :| true;
      var insights: Option<seq<string>> :| true;
      r := if answered then Success(insights) else Failure("InvokeLLM failed");
    }

    /** `InvokeLLM` with the stock-quote schema. */
    method InvokeLLMQuote(symbol: string) returns (r: Result<Stock>)
      modifies this`requests
      ensures requests == old(requests) + [QuoteRequest(symbol)]
    {
      requests := requests + [QuoteRequest(symbol)];
      var answered: bool :| true;
      var stock: Stock :| true;
      r := if answered then Success(stock) else Failure("InvokeLLM failed");
    }
  }
}
