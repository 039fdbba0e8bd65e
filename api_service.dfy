/** The backend that talks to version 2 of the X (Twitter) HTTP API. The
    network is a pair of function parameters from a request to a reply, and
    the decoded JSON bodies are datatypes that hold only the fields the
    adapter reads; a field of `Option` type is a key that may be absent. */
module ApiService {
  import opened Outcomes
  import opened PyStr
  import opened PyInt
  import opened Hashtags
  import opened Models

  const BaseUrl := "https://api.twitter.com/2"
  const TweetFields := "created_at,public_metrics,text"
  const UserFields := "id,name,username"
  /** The most results one request may ask for. */
  const MaxResultsCap := 100

  const MissingTokenMessage :=
    "Twitter API Bearer Token is required. "
    + "Set TWITTER_BEARER_TOKEN environment variable or pass bearer_token parameter. "
    + "Get your token at https://developer.x.com"
  const EmptyHashtagMessage := "Hashtag cannot be empty"
  const EmptyUsernameMessage := "Username cannot be empty"

  /** The messages of the search request's own status checks. */
  const SearchRateLimitMessage :=
    "Rate limit exceeded. Please wait before making more requests. "
    + "Consider upgrading your X API access tier."
  const SearchAuthMessage :=
    "Authentication failed. Please check your Bearer Token. "
    + "Get your token at https://developer.x.com"
  const SearchForbiddenMessage :=
    "Access forbidden. This endpoint may require a higher API access tier. "
    + "Free tier has limited access. Consider upgrading at https://developer.x.com"

  /** The messages of `_handle_api_errors`, used by both timeline requests. */
  const RateLimitMessage := "Rate limit exceeded. Please wait before making more requests."
  const AuthMessage := "Authentication failed. Please check your Bearer Token."
  const ForbiddenMessage := "Access forbidden. This may require a higher API access tier."

  /** The `KeyError` raised for an included user without an `id`. */
  const MissingIdMessage := "'id'"

  function UserNotFoundMessage(username: string): string {
    "User '" + username + "' not found"
  }

  /** The `ValueError` of `int(s)` on a string that is not an integer. */
  function NotAnIntegerMessage(s: string): string {
    "invalid literal for int() with base 10: '" + s + "'"
  }

  // ---------------------------------------------------------------------------
  // Requests and replies

  datatype Param = Text(s: string) | Number(n: int)

  /** One `requests.get` call: URL, headers and query parameters. */
  datatype Request = Request(url: string, headers: map<string, string>, params: map<string, Param>)

  /** What a `requests.get` call gives back: a response with its status and
      decoded body, or a transport failure (`RequestException`). */
  datatype Reply<P> = Received(status: int, payload: P) | TransportFailure(reason: string)

  /** `public_metrics` */
  datatype Metrics = Metrics(replyCount: Option<int>, retweetCount: Option<int>, likeCount: Option<int>)

  /** One item of a tweets payload's `data` list. */
  datatype TweetItem = TweetItem(
    authorId: Option<string>,
    text: Option<string>,
    createdAt: Option<string>,
    publicMetrics: Option<Metrics>)

  /** A user object, in `includes.users` or as a lookup's `data`. */
  datatype UserItem = UserItem(id: Option<string>, name: Option<string>, username: Option<string>)

  datatype Includes = Includes(users: Option<seq<UserItem>>)

  /** The decoded body of a search or timeline request. */
  datatype TweetsPayload = TweetsPayload(data: Option<seq<TweetItem>>, includes: Option<Includes>)

  /** The decoded body of a user lookup. */
  datatype UserPayload = UserPayload(data: Option<UserItem>)

  /** The headers every request carries. */
  function AuthHeaders(token: string): (h: map<string, string>)
    ensures h.Keys == {"Authorization", "Content-Type"}
    ensures h["Authorization"] == "Bearer " + token && h["Content-Type"] == "application/json"
  {
    map["Authorization" := "Bearer " + token, "Content-Type" := "application/json"]
  }

  /** `min(limit, 100)` */
  function MaxResults(limit: int): (n: int)
    ensures n <= MaxResultsCap && n <= limit
    ensures n == limit || n == MaxResultsCap
  {
    if limit < MaxResultsCap then limit else MaxResultsCap
  }

  /** The recent-search request for a tag already stripped of its markers. */
  function SearchRequest(headers: map<string, string>, tag: string, limit: int): (r: Request)
    ensures r.headers == headers
    ensures r.params.Keys == {"query", "max_results", "tweet.fields", "expansions", "user.fields"}
    ensures r.params["query"] == Text("#" + tag) && r.params["max_results"] == Number(MaxResults(limit))
    ensures r.params["expansions"] == Text("author_id")
  {
    Request(BaseUrl + "/tweets/search/recent", headers, map[
      "query" := Text("#" + tag),
      "max_results" := Number(MaxResults(limit)),
      "tweet.fields" := Text(TweetFields),
      "expansions" := Text("author_id"),
      "user.fields" := Text(UserFields)])
  }

  /** The lookup of a handle already stripped of its markers. */
  function UserLookupRequest(headers: map<string, string>, username: string): (r: Request)
    ensures r.headers == headers && r.url == BaseUrl + "/users/by/username/" + username
    ensures r.params == map["user.fields" := Text(UserFields)]
  {
    Request(BaseUrl + "/users/by/username/" + username, headers, map["user.fields" := Text(UserFields)])
  }

  /** The timeline request: it asks for no `expansions`, and `author_id` is
      not among its tweet fields. */
  function UserTweetsRequest(headers: map<string, string>, userId: string, limit: int): (r: Request)
    ensures r.headers == headers && r.url == BaseUrl + "/users/" + userId + "/tweets"
    ensures r.params.Keys == {"max_results", "tweet.fields", "user.fields"}
    ensures r.params["max_results"] == Number(MaxResults(limit))
  {
    Request(BaseUrl + "/users/" + userId + "/tweets", headers, map[
      "max_results" := Number(MaxResults(limit)),
      "tweet.fields" := Text(TweetFields),
      "user.fields" := Text(UserFields)])
  }

  // ---------------------------------------------------------------------------
  // Status handling

  /** `response.raise_for_status()`: an error exactly for a 4xx or 5xx status. */
  function RaiseForStatus(status: int): (e: Option<ServiceError>)
    ensures e.Some? <==> 400 <= status < 600
    ensures e.Some? ==> e.value == RequestFailed(HttpStatus(status))
  {
    if 400 <= status < 600 then Some(RequestFailed(HttpStatus(status))) else None
  }

  /** The status checks of the search request, then `raise_for_status`. */
  function SearchStatusError(status: int): (e: Option<ServiceError>)
    ensures e.None? <==> !(400 <= status < 600)
    ensures status == 429 ==> e == Some(RateLimited(SearchRateLimitMessage))
    ensures status == 401 ==> e == Some(AuthenticationFailed(SearchAuthMessage))
    ensures status == 403 ==> e == Some(Forbidden(SearchForbiddenMessage))
    ensures status != 429 && status != 401 && status != 403 ==> e == RaiseForStatus(status)
  {
    if status == 429 then Some(RateLimited(SearchRateLimitMessage))
    else if status == 401 then Some(AuthenticationFailed(SearchAuthMessage))
    else if status == 403 then Some(Forbidden(SearchForbiddenMessage))
    else RaiseForStatus(status)
  }

  /** `_handle_api_errors(response)` then `raise_for_status`. */
  function UserStatusError(status: int): (e: Option<ServiceError>)
    ensures e.None? <==> !(400 <= status < 600)
    ensures status == 429 ==> e == Some(RateLimited(RateLimitMessage))
    ensures status == 401 ==> e == Some(AuthenticationFailed(AuthMessage))
    ensures status == 403 ==> e == Some(Forbidden(ForbiddenMessage))
    ensures status != 429 && status != 401 && status != 403 ==> e == RaiseForStatus(status)
  {
    if status == 429 then Some(RateLimited(RateLimitMessage))
    else if status == 401 then Some(AuthenticationFailed(AuthMessage))
    else if status == 403 then Some(Forbidden(ForbiddenMessage))
    else RaiseForStatus(status)
  }

  /** Both status mappings classify a status the same way; they differ only
      in the wording of the three specific messages. */
  lemma StatusKindsAgree(status: int)
    ensures SearchStatusError(status).None? <==> UserStatusError(status).None?
    ensures SearchStatusError(status).Some? ==>
      (SearchStatusError(status).value.RateLimited? <==> UserStatusError(status).value.RateLimited?)
      && (SearchStatusError(status).value.AuthenticationFailed? <==> UserStatusError(status).value.AuthenticationFailed?)
      && (SearchStatusError(status).value.Forbidden? <==> UserStatusError(status).value.Forbidden?)
      && (SearchStatusError(status).value.RequestFailed? <==> UserStatusError(status).value.RequestFailed?)
  {
  }

  // ---------------------------------------------------------------------------
  // Dates

  /** `s.replace('Z', '+00:00')` */
  function ReplaceZ(s: string): (r: string)
    ensures forall i :: 0 <= i < |r| ==> r[i] != 'Z'
    ensures (forall i :: 0 <= i < |s| ==> s[i] != 'Z') ==> r == s
    ensures |s| == 1 ==> r == if s[0] == 'Z' then "+00:00" else s
  {
    if s == [] then []
    else (if s[0] == 'Z' then "+00:00" else [s[0]]) + ReplaceZ(s[1..])
  }

  /** The replacement works character by character: with the single-character
      case of `ReplaceZ`'s contract, this pins down every result. */
  lemma {:induction false} ReplaceZAppend(s: string, t: string)
    ensures ReplaceZ(s + t) == ReplaceZ(s) + ReplaceZ(t)
  {
    if s != [] {
      var head := if s[0] == 'Z' then "+00:00" else [s[0]];
      assert (s + t)[0] == s[0];
      assert (s + t)[1..] == s[1..] + t;
      assert ReplaceZ(s + t) == head + ReplaceZ(s[1..] + t);
      ReplaceZAppend(s[1..], t);
      assert ReplaceZ(s) == head + ReplaceZ(s[1..]);
    } else {
      assert s + t == t;
    }
  }

  /** `_format_date(iso)`. `render` stands for `datetime.fromisoformat`
      followed by `strftime`: `None` when the string is not ISO 8601. */
  function FormatDate(iso: string, render: string -> Option<string>): (r: string)
    ensures render(ReplaceZ(iso)).None? ==> r == iso
    ensures render(ReplaceZ(iso)).Some? ==> r == render(ReplaceZ(iso)).value
  {
    match render(ReplaceZ(iso))
    case None => iso
    case Some(formatted) => formatted
  }

  // ---------------------------------------------------------------------------
  // Parsing a tweets payload

  /** `users[user['id']] = user` for each included user in turn; a user
      without `id` raises `KeyError`. A later user overwrites an earlier one
      with the same id. */
  function UserIndex(users: seq<UserItem>): (r: Result<map<string, UserItem>, ServiceError>)
    ensures r.Ok? <==> forall k :: 0 <= k < |users| ==> users[k].id.Some?
    ensures r.Err? ==> r.error == MalformedPayload(MissingIdMessage)
    ensures r.Ok? ==> forall k :: 0 <= k < |users| ==> users[k].id.value in r.value
    ensures r.Ok? ==> forall id :: id in r.value ==> r.value[id] in users && r.value[id].id == Some(id)
  {
    if users == [] then Ok(map[])
    else
      var last := users[|users| - 1];
      match UserIndex(users[..|users| - 1])
      case Err(e) => Err(e)
      case Ok(index) =>
        if last.id.None? then Err(MalformedPayload(MissingIdMessage))
        else Ok(index[last.id.value := last])
  }

  /** The included user with a given id that the index keeps: the last one. */
  lemma {:induction false} UserIndexKeepsLast(users: seq<UserItem>, k: nat)
    requires UserIndex(users).Ok? && k < |users|
    requires forall j :: k < j < |users| ==> users[j].id != users[k].id
    ensures UserIndex(users).value[users[k].id.value] == users[k]
  {
    if k < |users| - 1 {
      var init := users[..|users| - 1];
      assert UserIndex(init).Ok?;
      UserIndexKeepsLast(init, k);
    }
  }

  /** `users.get(author_id, {})`, with `None` for the empty dict. */
  function AuthorInfo(index: map<string, UserItem>, authorId: Option<string>): (r: Option<UserItem>)
    ensures r.Some? <==> authorId.Some? && authorId.value in index
    ensures r.Some? ==> r.value == index[authorId.value]
  {
    if authorId.Some? && authorId.value in index then Some(index[authorId.value]) else None
  }

  /** `int(author_id) if author_id else 0` */
  function AuthorIdNumber(authorId: Option<string>): (r: Result<int, ServiceError>)
    ensures authorId.None? || authorId.value == "" ==> r == Ok(0)
    ensures authorId.Some? && authorId.value != "" ==>
      (r.Ok? <==> ParseInt(authorId.value).Some?)
      && (r.Ok? ==> ParseInt(authorId.value) == Some(r.value))
      && (r.Err? ==> r.error == MalformedPayload(NotAnIntegerMessage(authorId.value)))
  {
    if authorId.None? || authorId.value == "" then Ok(0)
    else match ParseInt(authorId.value)
      case None => Err(MalformedPayload(NotAnIntegerMessage(authorId.value)))
      case Some(n) => Ok(n)
  }

  /** The author of a tweet: the included user's `name` and `username`, with
      "Unknown" and "unknown" for what is missing. */
  function AuthorAccount(info: Option<UserItem>, id: int): (a: Account)
    ensures info.None? ==> a == Account("Unknown", "/unknown", id)
    ensures info.Some? ==>
      a == Account(info.value.name.GetOr("Unknown"), "/" + info.value.username.GetOr("unknown"), id)
  {
    var user := info.GetOr(UserItem(None, None, None));
    Account(user.name.GetOr("Unknown"), "/" + user.username.GetOr("unknown"), id)
  }

  /** One loop pass of `_parse_tweets_response`. */
  function ItemToTweet(item: TweetItem, index: map<string, UserItem>, render: string -> Option<string>)
    : (r: Result<Tweet, ServiceError>)
    ensures r.Ok? <==> AuthorIdNumber(item.authorId).Ok?
    ensures r.Err? ==> r == Err(AuthorIdNumber(item.authorId).error)
  {
    match AuthorIdNumber(item.authorId)
    case Err(e) => Err(e)
    case Ok(id) =>
      var account := AuthorAccount(AuthorInfo(index, item.authorId), id);
      var metrics := item.publicMetrics.GetOr(Metrics(None, None, None));
      var text := item.text.GetOr("");
      Ok(Tweet(account, FormatDate(item.createdAt.GetOr(""), render), text,
               metrics.replyCount.GetOr(0), metrics.retweetCount.GetOr(0), metrics.likeCount.GetOr(0),
               HashWords(text)))
  }

  /** The tweet loop of `_parse_tweets_response`: one tweet per item, in
      order, stopping at the first item whose `author_id` is not an integer. */
  function ParseItems(items: seq<TweetItem>, index: map<string, UserItem>, render: string -> Option<string>)
    : (r: Result<seq<Tweet>, ServiceError>)
    ensures r.Ok? ==> |r.value| == |items|
    ensures r.Ok? ==> forall k :: 0 <= k < |items| ==>
      ItemToTweet(items[k], index, render).Ok? && r.value[k] == ItemToTweet(items[k], index, render).value
  {
    if items == [] then Ok([])
    else
      var n := |items| - 1;
      assert forall k :: 0 <= k < n ==> items[..n][k] == items[k];
      match ParseItems(items[..n], index, render)
      case Err(e) => Err(e)
      case Ok(tweets) =>
        match ItemToTweet(items[n], index, render)
        case Err(e) => Err(e)
        case Ok(t) => Ok(tweets + [t])
  }

  /** The tweet loop completes exactly when every item converts. */
  lemma {:induction false} ParseItemsSucceeds(items: seq<TweetItem>, index: map<string, UserItem>,
                                              render: string -> Option<string>)
    ensures ParseItems(items, index, render).Ok? <==>
      forall k :: 0 <= k < |items| ==> ItemToTweet(items[k], index, render).Ok?
  {
    if items != [] {
      var n := |items| - 1;
      ParseItemsSucceeds(items[..n], index, render);
      assert forall k :: 0 <= k < n ==> items[..n][k] == items[k];
    }
  }

  /** Once a prefix of the items fails, every longer run fails with the same
      error: the error reported is that of the first failing item. */
  lemma {:induction false} ParseItemsFirstError(items: seq<TweetItem>, n: nat,
                                                index: map<string, UserItem>, render: string -> Option<string>)
    requires n <= |items| && ParseItems(items[..n], index, render).Err?
    ensures ParseItems(items, index, render) == ParseItems(items[..n], index, render)
  {
    if n < |items| {
      var m := |items| - 1;
      assert items[..m][..n] == items[..n];
      ParseItemsFirstError(items[..m], n, index, render);
      ParseItemsStopsAtError(items, index, render);
    } else {
      assert items[..n] == items;
    }
  }

  /** One step of `ParseItems`: a failing prefix makes the whole run fail alike. */
  lemma ParseItemsStopsAtError(items: seq<TweetItem>, index: map<string, UserItem>, render: string -> Option<string>)
    requires items != [] && ParseItems(items[..|items| - 1], index, render).Err?
    ensures ParseItems(items, index, render) == ParseItems(items[..|items| - 1], index, render)
  {
  }

  function IncludedUsers(data: TweetsPayload): seq<UserItem> {
    if data.includes.Some? && data.includes.value.users.Some? then data.includes.value.users.value else []
  }

  /** `_parse_tweets_response(data)` */
  function ParseTweets(data: TweetsPayload, render: string -> Option<string>): (r: Result<seq<Tweet>, ServiceError>)
    ensures data.data.None? ==> r == Ok([])
    ensures data.data.Some? && r.Ok? ==> |r.value| == |data.data.value|
  {
    if data.data.None? then Ok([])
    else
      match UserIndex(IncludedUsers(data))
      case Err(e) => Err(e)
      case Ok(index) => ParseItems(data.data.value, index, render)
  }

  /** A payload with a `data` list parses exactly when every included user has
      an `id` and every `author_id` is absent, empty or an integer. */
  lemma ParseTweetsSucceeds(data: TweetsPayload, render: string -> Option<string>)
    requires data.data.Some?
    ensures ParseTweets(data, render).Ok? <==>
      UserIndex(IncludedUsers(data)).Ok?
      && forall k :: 0 <= k < |data.data.value| ==> AuthorIdNumber(data.data.value[k].authorId).Ok?
  {
    if UserIndex(IncludedUsers(data)).Ok? {
      ParseItemsSucceeds(data.data.value, UserIndex(IncludedUsers(data)).value, render);
    }
  }

  /** Each parsed tweet keeps its item's text and counts (0 when missing),
      takes its hashtags from the text, and is written by the last included
      user whose id is its `author_id`, or by "Unknown" at "/unknown" when
      there is none. */
  lemma ParsedTweet(data: TweetsPayload, render: string -> Option<string>, k: nat)
    requires data.data.Some? && ParseTweets(data, render).Ok? && k < |data.data.value|
    ensures var item := data.data.value[k];
      var t := ParseTweets(data, render).value[k];
      var metrics := item.publicMetrics.GetOr(Metrics(None, None, None));
      var users := IncludedUsers(data);
      t.text == item.text.GetOr("")
      && t.hashtags == HashWords(t.text)
      && t.replies == metrics.replyCount.GetOr(0)
      && t.retweets == metrics.retweetCount.GetOr(0)
      && t.likes == metrics.likeCount.GetOr(0)
      && t.date == FormatDate(item.createdAt.GetOr(""), render)
      && (item.authorId.None? || item.authorId.value == "" ==> t.account.id == 0)
      && (item.authorId.Some? && item.authorId.value != "" ==> ParseInt(item.authorId.value) == Some(t.account.id))
      && ((forall j :: 0 <= j < |users| ==> users[j].id != item.authorId) ==>
            t.account.fullname == "Unknown" && t.account.href == "/unknown")
      && (forall j :: 0 <= j < |users| && users[j].id == item.authorId
                      && (forall i :: j < i < |users| ==> users[i].id != item.authorId) ==>
            t.account.fullname == users[j].name.GetOr("Unknown")
            && t.account.href == "/" + users[j].username.GetOr("unknown"))
  {
    var item := data.data.value[k];
    var users := IncludedUsers(data);
    var index := UserIndex(users).value;
    assert ParseTweets(data, render) == ParseItems(data.data.value, index, render);
    var t := ParseTweets(data, render).value[k];
    assert t == ItemToTweet(item, index, render).value;
    if item.authorId.Some? && item.authorId.value in index {
      assert index[item.authorId.value].id == item.authorId;
    }
    forall j | 0 <= j < |users| && users[j].id == item.authorId
               && (forall i :: j < i < |users| ==> users[i].id != item.authorId)
      ensures t.account.fullname == users[j].name.GetOr("Unknown")
              && t.account.href == "/" + users[j].username.GetOr("unknown")
    {
      UserIndexKeepsLast(users, j);
    }
  }

  /** The hashtags of the documented example text "This is a test tweet
      #python" include "#python". */
  lemma ExampleHashWords()
    ensures "#python" in HashWords("This is a test tweet #python")
  {
    assert "This is a test tweet #python" == "This is a test tweet" + ([' '] + "#python");
    SplitAppendWord("This is a test tweet", ' ', "#python");
    KeepHashWordsAppend(Split("This is a test tweet"), ["#python"]);
  }

  /** A payload of one tweet whose numeric `author_id` is the id of the one
      included user parses to one tweet credited to that user. */
  lemma SingleAuthorParse(item: TweetItem, user: UserItem, render: string -> Option<string>)
    requires item.authorId.Some? && 0 < |item.authorId.value| <= MaxStrDigits
    requires forall i :: 0 <= i < |item.authorId.value| ==> IsDigit(item.authorId.value[i])
    requires user.id == item.authorId
    ensures var r := ParseTweets(TweetsPayload(Some([item]), Some(Includes(Some([user])))), render);
      var metrics := item.publicMetrics.GetOr(Metrics(None, None, None));
      r.Ok? && |r.value| == 1
      && r.value[0].account == Account(user.name.GetOr("Unknown"), "/" + user.username.GetOr("unknown"),
                                       DigitsValue(item.authorId.value))
      && r.value[0].text == item.text.GetOr("")
      && r.value[0].hashtags == HashWords(item.text.GetOr(""))
      && r.value[0].replies == metrics.replyCount.GetOr(0)
      && r.value[0].retweets == metrics.retweetCount.GetOr(0)
      && r.value[0].likes == metrics.likeCount.GetOr(0)
  {
    var data := TweetsPayload(Some([item]), Some(Includes(Some([user]))));
    ParseIntOfDigits(item.authorId.value);
    assert UserIndex(IncludedUsers(data)).Ok?;
    ParseTweetsSucceeds(data, render);
    ParsedTweet(data, render, 0);
  }

  // ---------------------------------------------------------------------------
  // The two operations, as values

  /** `get_tweets_by_hashtag(hashtag, limit)`: one search request, its status
      checks, then the parsed payload. */
  function SearchTweets(headers: map<string, string>, hashtag: string, limit: int,
                        fetch: Request -> Reply<TweetsPayload>, render: string -> Option<string>)
    : (r: Result<seq<Tweet>, ServiceError>)
    ensures hashtag == "" ==> r == Err(InvalidInput(EmptyHashtagMessage))
    ensures r.Ok? ==> hashtag != ""
  {
    if hashtag == "" then Err(InvalidInput(EmptyHashtagMessage))
    else
      match fetch(SearchRequest(headers, LStrip(hashtag, '#'), limit))
      case TransportFailure(reason) => Err(RequestFailed(Transport(reason)))
      case Received(status, payload) =>
        match SearchStatusError(status)
        case Some(e) => Err(e)
        case None => ParseTweets(payload, render)
  }

  /** The timeline payload with `includes` replaced by the resolved user
      alone, when it has `data`. */
  function WithResolvedUser(payload: TweetsPayload, user: UserItem): (p: TweetsPayload)
    ensures p.data == payload.data
    ensures payload.data.Some? ==> IncludedUsers(p) == [user]
    ensures payload.data.None? ==> p == payload
  {
    if payload.data.Some? then payload.(includes := Some(Includes(Some([user])))) else payload
  }

  /** `get_user_tweets(username, limit)`: a lookup of the user's id, a
      timeline request for that id, and the timeline parsed with the looked-up
      user as the only included user. */
  function UserTweets(headers: map<string, string>, username: string, limit: int,
                      lookup: Request -> Reply<UserPayload>, timeline: Request -> Reply<TweetsPayload>,
                      render: string -> Option<string>)
    : (r: Result<seq<Tweet>, ServiceError>)
    ensures username == "" ==> r == Err(InvalidInput(EmptyUsernameMessage))
    ensures r.Ok? ==> username != ""
  {
    if username == "" then Err(InvalidInput(EmptyUsernameMessage))
    else
      var name := LStrip(username, '@');
      match lookup(UserLookupRequest(headers, name))
      case TransportFailure(reason) => Err(RequestFailed(Transport(reason)))
      case Received(status, found) =>
        if UserStatusError(status).Some? then Err(UserStatusError(status).value)
        else if found.data.None? then Err(NotFound(UserNotFoundMessage(name)))
        else if found.data.value.id.None? then Err(MalformedPayload(MissingIdMessage))
        else
          var user := found.data.value;
          match timeline(UserTweetsRequest(headers, user.id.value, limit))
          case TransportFailure(reason) => Err(RequestFailed(Transport(reason)))
          case Received(status2, payload) =>
            match UserStatusError(status2)
            case Some(e) => Err(e)
            case None => ParseTweets(WithResolvedUser(payload, user), render)
  }

  /** The search: an empty key fails before any request; otherwise the one
      request asks for "#" followed by the key without its leading markers and
      for at most 100 results; a 4xx or 5xx status is an error of the kind
      its status calls for, and any other status parses the payload. */
  lemma SearchPipeline(headers: map<string, string>, hashtag: string, limit: int,
                       fetch: Request -> Reply<TweetsPayload>, render: string -> Option<string>)
    ensures hashtag == "" ==> SearchTweets(headers, hashtag, limit, fetch, render) == Err(InvalidInput(EmptyHashtagMessage))
    ensures hashtag != "" ==>
      var req := SearchRequest(headers, LStrip(hashtag, '#'), limit);
      var r := SearchTweets(headers, hashtag, limit, fetch, render);
      req.params["query"] == Text("#" + LStrip(hashtag, '#'))
      && req.params["max_results"].n <= MaxResultsCap && req.params["max_results"].n <= limit
      && req.headers == headers
      && (fetch(req).TransportFailure? ==> r == Err(RequestFailed(Transport(fetch(req).reason))))
      && (fetch(req).Received? && 400 <= fetch(req).status < 600 ==>
            r.Err? && r == Err(SearchStatusError(fetch(req).status).value))
      && (fetch(req).Received? && !(400 <= fetch(req).status < 600) ==>
            r == ParseTweets(fetch(req).payload, render))
  {
  }

  /** The timeline's failures before the second request: an empty handle, a
      lookup that fails in transport or with a 4xx or 5xx status, a lookup
      without `data` ("User '<name>' not found", the name without its leading
      `@`) and a looked-up user without `id`. The second request never asks
      for `expansions`. */
  lemma UserLookupFailures(headers: map<string, string>, username: string, limit: int,
                           lookup: Request -> Reply<UserPayload>, timeline: Request -> Reply<TweetsPayload>,
                           render: string -> Option<string>)
    ensures username == "" ==>
      UserTweets(headers, username, limit, lookup, timeline, render) == Err(InvalidInput(EmptyUsernameMessage))
    ensures username != "" ==>
      var name := LStrip(username, '@');
      var found := lookup(UserLookupRequest(headers, name));
      var r := UserTweets(headers, username, limit, lookup, timeline, render);
      (found.TransportFailure? ==> r == Err(RequestFailed(Transport(found.reason))))
      && (found.Received? && 400 <= found.status < 600 ==> r == Err(UserStatusError(found.status).value))
      && (found.Received? && !(400 <= found.status < 600) && found.payload.data.None? ==>
            r == Err(NotFound(UserNotFoundMessage(name))))
      && (found.Received? && !(400 <= found.status < 600) && found.payload.data.Some? ==>
            (found.payload.data.value.id.None? ==> r == Err(MalformedPayload(MissingIdMessage))))
    ensures forall id :: "expansions" !in UserTweetsRequest(headers, id, limit).params
  {
  }

  /** The timeline: when it succeeds, the second request asked for the
      looked-up id and at most 100 results,
      and every tweet whose `author_id` is the looked-up id is credited to the
      looked-up user's name and "/" + username. */
  lemma UserTweetsCarryResolvedUser(headers: map<string, string>, username: string, limit: int,
                                    lookup: Request -> Reply<UserPayload>, timeline: Request -> Reply<TweetsPayload>,
                                    render: string -> Option<string>)
    requires UserTweets(headers, username, limit, lookup, timeline, render).Ok?
    ensures username != ""
    ensures var name := LStrip(username, '@');
      var found := lookup(UserLookupRequest(headers, name));
      found.Received? && !(400 <= found.status < 600)
      && found.payload.data.Some? && found.payload.data.value.id.Some?
      && var user := found.payload.data.value;
         var req := UserTweetsRequest(headers, user.id.value, limit);
         var reply := timeline(req);
         var ts := UserTweets(headers, username, limit, lookup, timeline, render).value;
         req.params["max_results"] == Number(MaxResults(limit))
         && reply.Received? && !(400 <= reply.status < 600)
         && (reply.payload.data.None? ==> ts == [])
         && (reply.payload.data.Some? ==>
               |ts| == |reply.payload.data.value|
               && forall k :: 0 <= k < |ts| && reply.payload.data.value[k].authorId == user.id ==>
                    ts[k].account.fullname == user.name.GetOr("Unknown")
                    && ts[k].account.href == "/" + user.username.GetOr("unknown"))
  {
    var name := LStrip(username, '@');
    var user := lookup(UserLookupRequest(headers, name)).payload.data.value;
    var reply := timeline(UserTweetsRequest(headers, user.id.value, limit));
    if reply.payload.data.Some? {
      var p := WithResolvedUser(reply.payload, user);
      assert IncludedUsers(p) == [user];
      forall k | 0 <= k < |reply.payload.data.value| && reply.payload.data.value[k].authorId == user.id
        ensures ParseTweets(p, render).value[k].account.fullname == user.name.GetOr("Unknown")
                && ParseTweets(p, render).value[k].account.href == "/" + user.username.GetOr("unknown")
      {
        ParsedTweet(p, render, k);
      }
    }
  }

  /** The timeline request does not ask for `author_id`, and an item that
      comes without one is credited to "Unknown" at "/unknown" with id 0,
      although the looked-up user is the payload's included user. */
  lemma TimelineItemsWithoutAuthorId(headers: map<string, string>, username: string, limit: int,
                                     lookup: Request -> Reply<UserPayload>, timeline: Request -> Reply<TweetsPayload>,
                                     render: string -> Option<string>)
    requires UserTweets(headers, username, limit, lookup, timeline, render).Ok?
    ensures var found := lookup(UserLookupRequest(headers, LStrip(username, '@')));
      found.Received? && found.payload.data.Some? && found.payload.data.value.id.Some?
      && var req := UserTweetsRequest(headers, found.payload.data.value.id.value, limit);
         var reply := timeline(req);
         var ts := UserTweets(headers, username, limit, lookup, timeline, render).value;
         "expansions" !in req.params && reply.Received?
         && (reply.payload.data.Some? ==>
               forall k :: 0 <= k < |reply.payload.data.value| && reply.payload.data.value[k].authorId.None? ==>
                 k < |ts| && ts[k].account == Account("Unknown", "/unknown", 0))
  {
    UserTweetsCarryResolvedUser(headers, username, limit, lookup, timeline, render);
    var user := lookup(UserLookupRequest(headers, LStrip(username, '@'))).payload.data.value;
    var reply := timeline(UserTweetsRequest(headers, user.id.value, limit));
    if reply.payload.data.Some? {
      var p := WithResolvedUser(reply.payload, user);
      assert IncludedUsers(p) == [user];
      forall k | 0 <= k < |reply.payload.data.value| && reply.payload.data.value[k].authorId.None?
        ensures ParseTweets(p, render).value[k].account == Account("Unknown", "/unknown", 0)
      {
        ParsedTweet(p, render, k);
      }
    }
  }

  // ---------------------------------------------------------------------------
  // Construction

  /** `bearer_token or os.getenv('TWITTER_BEARER_TOKEN')`, then the emptiness
      check; `environment` is the variable's value, if set. */
  function ResolveBearerToken(argument: Option<string>, environment: Option<string>): (r: Result<string, ServiceError>)
    ensures r.Ok? ==> r.value != ""
    ensures argument.Some? && argument.value != "" ==> r == Ok(argument.value)
    ensures (argument.None? || argument.value == "") && environment.Some? && environment.value != "" ==>
      r == Ok(environment.value)
    ensures r.Err? <==> (argument.None? || argument.value == "") && (environment.None? || environment.value == "")
    ensures r.Err? ==> r.error == ConfigurationError(MissingTokenMessage)
  {
    var token := if argument.Some? && argument.value != "" then argument else environment;
    if token.None? || token.value == "" then Err(ConfigurationError(MissingTokenMessage))
    else Ok(token.value)
  }

  class TwitterApi {
    const bearerToken: string
    const headers: map<string, string>

    /** The part of `__init__` after the token check. */
    constructor (token: string)
      requires token != ""
      ensures bearerToken == token && headers == AuthHeaders(token)
    {
      bearerToken := token;
      headers := AuthHeaders(token);
    }

    /** `_parse_tweets_response(data)`: the author index is filled in one
        loop, the tweets in a second. */
    method ParseTweetsResponse(data: TweetsPayload, render: string -> Option<string>)
      returns (r: Result<seq<Tweet>, ServiceError>)
      ensures r == ParseTweets(data, render)
    {
      if data.data.None? {
        return Ok([]);
      }
      var users := IndexUsers(IncludedUsers(data));
      if users.Err? {
        return Err(users.error);
      }
      r := ConvertItems(data.data.value, users.value, render);
    }

    /** The first loop of `_parse_tweets_response`: the included users by `id`. */
    method IndexUsers(included: seq<UserItem>) returns (r: Result<map<string, UserItem>, ServiceError>)
      ensures r == UserIndex(included)
    {
      var users: map<string, UserItem> := map[];
      var i := 0;
      while i < |included|
        invariant 0 <= i <= |included|
        invariant UserIndex(included[..i]) == Ok(users)
      {
        var user := included[i];
        if user.id.None? {
          assert !UserIndex(included).Ok?;
          return Err(MalformedPayload(MissingIdMessage));
        }
        assert included[..i + 1][..i] == included[..i];
        users := users[user.id.value := user];
        i := i + 1;
      }
      assert included[..i] == included;
      r := Ok(users);
    }

    /** The second loop of `_parse_tweets_response`: one tweet per item, until
        an `author_id` fails to convert. */
    method ConvertItems(items: seq<TweetItem>, users: map<string, UserItem>, render: string -> Option<string>)
      returns (r: Result<seq<Tweet>, ServiceError>)
      ensures r == ParseItems(items, users, render)
    {
      var tweets: seq<Tweet> := [];
      var j := 0;
      while j < |items|
        invariant 0 <= j <= |items|
        invariant ParseItems(items[..j], users, render) == Ok(tweets)
      {
        var tweet := ItemToTweet(items[j], users, render);
        assert items[..j + 1][..j] == items[..j];
        if tweet.Err? {
          assert ParseItems(items[..j + 1], users, render) == Err(tweet.error);
          ParseItemsFirstError(items, j + 1, users, render);
          return Err(tweet.error);
        }
        tweets := tweets + [tweet.value];
        j := j + 1;
      }
      assert items[..j] == items;
      r := Ok(tweets);
    }

    /** `get_tweets_by_hashtag(hashtag, limit)`; `fetch` stands for `requests.get`. */
    method GetTweetsByHashtag(hashtag: string, limit: int,
                              fetch: Request -> Reply<TweetsPayload>, render: string -> Option<string>)
      returns (r: Result<seq<Tweet>, ServiceError>)
      ensures r == SearchTweets(headers, hashtag, limit, fetch, render)
    {
      if hashtag == "" {
        return Err(InvalidInput(EmptyHashtagMessage));
      }
      var tag := LStrip(hashtag, '#');
      var reply := fetch(SearchRequest(headers, tag, limit));
      if reply.TransportFailure? {
        return Err(RequestFailed(Transport(reply.reason)));
      }
      var failure := SearchStatusError(reply.status);
      if failure.Some? {
        return Err(failure.value);
      }
      r := ParseTweetsResponse(reply.payload, render);
    }

    /** `get_user_tweets(username, limit)`; `lookup` and `timeline` stand for
        the two `requests.get` calls. */
    method GetUserTweets(username: string, limit: int,
                         lookup: Request -> Reply<UserPayload>, timeline: Request -> Reply<TweetsPayload>,
                         render: string -> Option<string>)
      returns (r: Result<seq<Tweet>, ServiceError>)
      ensures r == UserTweets(headers, username, limit, lookup, timeline, render)
    {
      if username == "" {
        return Err(InvalidInput(EmptyUsernameMessage));
      }
      var name := LStrip(username, '@');
      var found := lookup(UserLookupRequest(headers, name));
      if found.TransportFailure? {
        return Err(RequestFailed(Transport(found.reason)));
      }
      var failure := UserStatusError(found.status);
      if failure.Some? {
        return Err(failure.value);
      }
      if found.payload.data.None? {
        return Err(NotFound(UserNotFoundMessage(name)));
      }
      var user := found.payload.data.value;
      if user.id.None? {
        return Err(MalformedPayload(MissingIdMessage));
      }
      var reply := timeline(UserTweetsRequest(headers, user.id.value, limit));
      if reply.TransportFailure? {
        return Err(RequestFailed(Transport(reply.reason)));
      }
      failure := UserStatusError(reply.status);
      if failure.Some? {
        return Err(failure.value);
      }
      var payload := reply.payload;
      if payload.data.Some? {
        payload := payload.(includes := Some(Includes(Some([user]))));
      }
      r := ParseTweetsResponse(payload, render);
    }
  }

  /** `TwitterAPIService(bearer_token)`: fails when neither the argument nor
      the environment gives a non-empty token. */
  method Connect(argument: Option<string>, environment: Option<string>)
    returns (r: Result<TwitterApi, ServiceError>)
    ensures r.Err? <==> ResolveBearerToken(argument, environment).Err?
    ensures r.Err? ==> r.error == ConfigurationError(MissingTokenMessage)
    ensures r.Ok? ==> fresh(r.value) && r.value.bearerToken == ResolveBearerToken(argument, environment).value
                      && r.value.headers == AuthHeaders(r.value.bearerToken)
  {
    var token := ResolveBearerToken(argument, environment);
    if token.Err? {
      return Err(token.error);
    }
    var api := new TwitterApi(token.value);
    r := Ok(api);
  }
}
