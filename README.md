# simple-twitter-api, data-retrieval core, in Dafny

This project models the part of the `simple-twitter-api` service that turns
requests into canonical tweet records. It has four parts:

- **Record model.** `Account` and `Tweet`, with their `to_dict`
  serialisation into a nested string-keyed map. The map is modelled as the
  `Value` datatype.
- **Limit validator.** `validate_limit` turns an optional query string into
  a limit. A string it accepts must be an integer in [1, 100]; a bad string
  gives one of three distinct errors. An absent string gives the caller's
  default, unchecked, or 30 when there is none.
- **Synthetic backend** (`TwitterMockService`). It builds tweets from a fixed
  pool of 8 accounts and 10 texts, with pseudo-random choices and counts.
  - In hashtag mode, the requested tag is forced into each tweet's text and
    its hashtag list.
  - In timeline mode, the handle is resolved against the pool, ignoring
    case. An unknown handle gets a made-up account.
- **Upstream adapter** (`TwitterAPIService`). It talks to version 2 of the X
  (Twitter) HTTP API.
  - Construction checks for a bearer token.
  - A search makes one request. A timeline makes two: handle → id, then
    id → tweets, with the looked-up user injected as the payload's only
    included user.
  - Statuses map to errors: 401 (section 15.5.2 of RFC 9110), 403
    (section 15.5.4 of RFC 9110) and 429 (section 4 of RFC 6585). Any other
    4xx or 5xx status goes through `raise_for_status`.
  - `_parse_tweets_response` builds an author index, applies the "Unknown"
    fallbacks, extracts hashtags and maps the metrics.
  - `_format_date` falls back to the raw string.

Python exceptions become the `Result` datatype. Its error is a
`ServiceError`:

| `ServiceError` case | Python exception it models |
|---|---|
| `InvalidInput` | `ValueError` of a validator or backend |
| `ConfigurationError` | the missing-token `ValueError` |
| `RateLimited`, `AuthenticationFailed`, `Forbidden` | the `RuntimeError` of each status |
| `RequestFailed` | `RuntimeError("API request failed: ...")`, with the HTTP status or transport reason as cause |
| `NotFound` | the unknown-user `RuntimeError` |
| `MalformedPayload` | a `KeyError` or `ValueError` raised while parsing a payload |

Each message is the source's own text, with two exceptions:

- `RequestFailed` carries its cause, not the text of
  `"API request failed: ..."`;
- the `int()` error for a bad `author_id` is approximated (see
  "## Left out").

The parts of Python the core relies on are modelled as well:

- `str.lstrip`, `lower`, `title` and `split`;
- `int()` and `str()` in base 10, with the whitespace `int()` skips and
  its default limit of 4300 digits;
- `random.choice` and `random.randint`.

**Files:**

| file | contents |
|---|---|
| `outcomes.dfy` | `Option`, `Result`, `ServiceError` |
| `py_str.dfy`, `py_int.dfy` | the Python string and integer operations |
| `hashtags.dfy` | hashtag extraction |
| `models.dfy` | records |
| `validators.dfy` | the limit validator |
| `random.dfy` | the generator, a class with a ghost log of its draws |
| `mock_service.dfy` | the synthetic backend, a class with loops |
| `api_service.dfy` | the upstream adapter: payload datatypes, the pipelines as functions, and a class whose methods are proved equal to them |

**Parameters standing in for I/O and the clock:**

| what the source does | parameter |
|---|---|
| `requests.get` | a function from `Request` to `Reply` (a status and decoded body, or a transport failure) |
| `datetime.fromisoformat` + `strftime` | `render` |
| the mock's `_generate_date(i)` | `dateOf(i)` |
| `os.getenv('TWITTER_BEARER_TOKEN')` | the `environment` argument |

**The generator.** Each draw of the generator is recorded in its ghost
`draws` log. The synthetic backend's methods return the ghost "picks" they
drew, and their contracts state each tweet as a function of its pick and its
position.

**Behaviour worth noting:**

- Key stripping (`lstrip`) removes every leading `#` or `@`.
- The emptiness check runs on the key before stripping, so `"#"` is
  accepted and becomes the empty tag.
- Only a 4xx or 5xx status is an error (`raise_for_status`). A 1xx or 3xx
  status proceeds to parsing.
- `int()` skips whitespace at both ends, but not the separators U+001C to
  U+001F, which `str.isspace` counts as whitespace. So `"\x1c50"` is not a
  valid limit.
- `int()` refuses a run of more than 4300 digits, leading zeros included.
- The timeline request asks for neither `expansions` nor `author_id`. A
  timeline item that comes without `author_id` is credited to "Unknown" at
  "/unknown" with id 0, even though the looked-up user is injected as the
  payload's included user.

## Model

| member | source | states |
|---|---|---|
| Models.Account.ToDict | app/models/tweet.py:15-17 | exactly the keys `fullname`, `href`, `id`, each mapped to the field's value |
| Models.Tweet.ToDict | app/models/tweet.py:31-41 | exactly the seven keys; `account` maps to the account's own `to_dict`, and every other field is copied unchanged (hashtags as a list of strings) |
| Models.StrItemsOfStrValues | app/models/tweet.py:40 | the hashtag list written into the map reads back as the same list |
| Models.TweetRoundTrip | app/models/tweet.py:8-41 | every field of a tweet, its nested account included, is recovered from its `to_dict` map |
| Models.ToDictInjective | app/models/tweet.py:31-41 | two tweets have equal maps if and only if they are equal |
| Validators.ValidateLimit | app/utils/validators.py:7-41 | absent string gives the given default, or 30; otherwise success if and only if `int()` parses a value in [1, 100], which is returned; a non-integer, a value below 1 and a value above 100 each give their own message |
| Validators.ValidateDecimal | app/utils/validators.py:27-41 | the decimal spelling of any integer `n` is accepted exactly when 1 <= n <= 100, returning `n`; a spelling over the 4300-digit limit gets the not-an-integer message; otherwise the below-minimum or above-maximum message |
| Validators.ValidateDigits | app/utils/validators.py:27-41 | a run of digits is accepted exactly when it has at most 4300 digits and the number it spells is in [1, 100]; a longer run gets the not-an-integer message, an in-limit run out of range the below-minimum or above-maximum message |
| Validators.ValidateLimitAcceptsExamples | tests/test_validators.py:11-19 | "50" gives 50 and an absent value gives 30 |
| Validators.ValidateLimitAcceptsBounds | tests/test_validators.py:36-44 | the bounds "1" and "100" are accepted |
| Validators.ValidateLimitRejectsOutOfRange | tests/test_validators.py:21-29 | "0" fails with the below-minimum message and "200" with the above-maximum message |
| Validators.ValidateLimitRejectsWord | tests/test_validators.py:31-34 | "abc" fails with the not-an-integer message |
| Validators.ValidateLimitRejectsSeparator | app/utils/validators.py:27-30 | "\x1c50" fails with the not-an-integer message, because `int()` does not skip U+001C |
| PyInt.ParseInt | app/utils/validators.py:28 | none of its own; characterised by `ParseIntOfIntToString`, `ParseIntOfDigits` and `ParseIntRejectsForeign` |
| PyInt.ParseIntOfIntToString | app/utils/validators.py:28 | `int(str(n)) == n` for every integer of at most 4300 digits; the spelling of a longer one is refused |
| PyInt.ParseIntOfDigits | app/utils/validators.py:28 | a plain run of at most 4300 digits parses to the number it spells; a longer run is refused |
| PyInt.ParseIntRejectsForeign | app/utils/validators.py:27-30 | an ASCII character anywhere in the string that is not whitespace `int()` skips, a sign, a digit or an underscore makes `int()` fail |
| PyStr.Lower | app/services/twitter_mock_service.py:69 | same length, no upper-case letter, each character lower-cased |
| PyStr.LStrip | app/services/twitter_mock_service.py:69 | the result is a suffix of the input that does not start with the marker |
| PyStr.LStripSplit | app/services/twitter_mock_service.py:69 | the input is the removed markers, all copies of the marker, followed by the result |
| PyStr.LeadingCountRepeat | app/services/twitter_mock_service.py:69 | markers put in front of a string lengthen its leading run by their number |
| PyStr.LStripIgnoresMarkers | app/services/twitter_mock_service.py:116 | any number of leading markers strip to the same key, and stripping twice is stripping once |
| PyStr.Title | app/services/twitter_mock_service.py:129 | same length and letters up to case; a letter is upper case exactly when it does not follow a letter |
| PyStr.TitleKeepsLetters | app/services/twitter_mock_service.py:129 | title-casing a handle changes only the case of its letters |
| PyStr.Split | app/services/twitter_mock_service.py:139 | every word is non-empty and free of whitespace |
| PyStr.SplitAppendWord | app/services/twitter_mock_service.py:85 | appending whitespace and a word to a text appends that word to its split |
| PyStr.SplitJoin | app/services/twitter_mock_service.py:139 | splitting words joined by single spaces gives back the words |
| Hashtags.KeepHashWords | app/services/twitter_mock_service.py:139 | it keeps words that start with `#`, and it keeps every such word |
| Hashtags.KeepHashWordsAppend | app/services/twitter_mock_service.py:139 | the filter distributes over concatenation, so order is kept |
| Hashtags.HashWords | app/services/twitter_api_service.py:252 | every hashtag is a whitespace-free word starting with `#` |
| Hashtags.TagNames | app/services/twitter_mock_service.py:80 | every existing tag name is lower case |
| Hashtags.Hashed | app/services/twitter_mock_service.py:95 | one entry per name, each `#` followed by the name |
| Hashtags.TagNamesAppendLine | app/services/twitter_mock_service.py:85 | appending the line `#tag` appends `tag` to the text's tag names, for a one-word lower-case tag |
| Random.Rng.constructor | app/services/twitter_mock_service.py:50-52 | seeded with the given value and no draws yet |
| Random.Rng.RandInt | app/services/twitter_mock_service.py:92-94 | a value in [lo, hi], appended to the draw log |
| Random.Rng.Choice | app/services/twitter_mock_service.py:73-77 | an index in [0, n), appended to the draw log |
| MockService.NormalizeTag | app/services/twitter_mock_service.py:69 | the tag has no upper-case letter and does not start with `#`; the lower-cased input is leading `#`s followed by the tag |
| MockService.NormalizeHandle | app/services/twitter_mock_service.py:116 | the input is leading `@`s followed by the handle, which does not start with `@` |
| MockService.HandleMatches | app/services/twitter_mock_service.py:120 | none of its own (a predicate); characterised by `HandleMismatch`, `FindAccount` and `KnownHandleExample` |
| MockService.NormalizeTagIgnoresMarkers | app/services/twitter_mock_service.py:69 | "##python", "#python" and "python" normalise to the same tag: any run of leading `#` is ignored |
| MockService.NormalizeHandleIgnoresMarkers | app/services/twitter_mock_service.py:116 | any run of leading `@` is ignored, and normalising a handle twice is normalising it once |
| MockService.FirstMatch | app/services/twitter_mock_service.py:119-122 | the position of the first pool entry that passes the test (for `FindAccount`, the case-insensitive handle comparison), and no earlier entry passes it |
| MockService.FindAccount | app/services/twitter_mock_service.py:119-122 | a result is a pool entry that matches; no result means no entry matches |
| MockService.FindAccountFirstMatch | app/services/twitter_mock_service.py:119-122 | when entry `k` is the first that matches, it is the one found |
| MockService.HandleMismatch | app/services/twitter_mock_service.py:120 | a handle differing in first letter (ignoring case) or in length does not match |
| MockService.UnknownAccount | app/services/twitter_mock_service.py:127-132 | link "/" + handle, the drawn id, and the full name `handle.title()`, which equals the handle up to case |
| MockService.ForceTag | app/services/twitter_mock_service.py:80-95 | none of its own; characterised by `ForceTagCases`, `ForceTagHoldsTag` and `ForceTagLowerCase` |
| MockService.TagTweet | app/services/twitter_mock_service.py:73-96 | none of its own; characterised by `TagTweetCarriesTag` |
| MockService.UserTweet | app/services/twitter_mock_service.py:136-150 | none of its own; characterised by `TimelineTweets` |
| MockService.HashtagFeed | app/services/twitter_mock_service.py:71-97 | one tweet per pick; characterised by `HashtagFeedAt` and `HashtagFeedCarriesTag` |
| MockService.UserTimeline | app/services/twitter_mock_service.py:134-151 | one tweet per pick; characterised by `UserTimelineAt` and `TimelineTweets` |
| MockService.ForceTagCases | app/services/twitter_mock_service.py:80-85 | a tag already present leaves the text alone and lists its tags in order; any other tag goes first in the list and is appended to the text as "\n#tag" |
| MockService.ForceTagHoldsTag | app/services/twitter_mock_service.py:80-95 | `#tag` is always in the list; for a one-word tag the list equals, up to order, the tags read back from the new text |
| MockService.ForceTagLowerCase | app/services/twitter_mock_service.py:80-95 | every listed hashtag is `#` followed by a lower-case name |
| MockService.HashtagFeedAt | app/services/twitter_mock_service.py:72-97 | the `j`-th tweet of a search is the one built from the `j`-th pick with date `dateOf(j)` |
| MockService.UserTimelineAt | app/services/twitter_mock_service.py:135-151 | the `j`-th tweet of a timeline is the one built from the `j`-th pick with date `dateOf(j)` |
| MockService.TagTweetCarriesTag | app/services/twitter_mock_service.py:73-96 | a tag-mode tweet carries "#" + the normalised tag; every hashtag is `#` + lower case; the account is a pool account; counts are in range |
| MockService.HashtagFeedCarriesTag | app/services/twitter_mock_service.py:65-99 | every tweet of a search carries "#" + the normalised tag, has lower-case hashtags, a pool account, its position's date and counts in range |
| MockService.TimelineTweets | app/services/twitter_mock_service.py:134-153 | every timeline tweet has the one resolved account, a pool text, its position's date and counts in range; a word is among its hashtags if and only if it is a word of the text starting with `#`, case kept |
| MockService.KnownHandleExample | tests/test_services.py:62-77 | "twitter" and "@twitter" both find the pool's sixth account, whose link is "/Twitter" |
| MockService.UnknownHandleExample | tests/test_services.py:79-85 | "unknownuser123" matches no pool account |
| MockService.TwitterMock.constructor | app/services/twitter_mock_service.py:26-52 | the pools are the 8 sample accounts and 10 sample texts; a fresh generator with no draws |
| MockService.TwitterMock.NextTagTweet | app/services/twitter_mock_service.py:73-96 | the tweet is the tag-mode tweet of the drawn pick; the draws are account, text, replies, retweets and likes, in order |
| MockService.TwitterMock.NextUserTweet | app/services/twitter_mock_service.py:136-150 | the tweet is the timeline tweet of the drawn pick; the draws are text, replies, retweets and likes |
| MockService.TwitterMock.ResolveAccount | app/services/twitter_mock_service.py:119-132 | the matching pool account with no draw; or, when none matches, the made-up account with an id in [1000000, 99999999], drawn once |
| MockService.TwitterMock.TagFeed | app/services/twitter_mock_service.py:71-99 | `n` picks, in range, whose draws extend the log in order; the tweets are the search built from them |
| MockService.TwitterMock.GetTweetsByHashtag | app/services/twitter_mock_service.py:54-99 | an empty key fails with "Hashtag cannot be empty" and draws nothing; otherwise exactly max(limit, 0) tweets, built from the picks, for the tag with leading `#` removed and lower-cased |
| MockService.TwitterMock.Timeline | app/services/twitter_mock_service.py:134-153 | `n` picks, in range, whose draws extend the log; the tweets are the timeline built from them |
| MockService.TwitterMock.GetUserTweets | app/services/twitter_mock_service.py:101-153 | an empty handle fails with "Username cannot be empty"; otherwise exactly max(limit, 0) tweets of one account: the first pool match of the handle without leading `@`, or a made-up account whose id is the first draw |
| ApiService.AuthHeaders | app/services/twitter_api_service.py:51-54 | exactly `Authorization: Bearer <token>` and `Content-Type: application/json` |
| ApiService.SearchRequest | app/services/twitter_api_service.py:80-99 | the caller's headers; exactly the parameters `query` ("#" + tag), `max_results` (`min(limit, 100)`), `tweet.fields`, `expansions` (`author_id`) and `user.fields` |
| ApiService.UserLookupRequest | app/services/twitter_api_service.py:157-162 | the caller's headers, the lookup URL for the handle, and `user.fields` as the only parameter |
| ApiService.UserTweetsRequest | app/services/twitter_api_service.py:173-185 | the caller's headers, the URL for the id, and exactly `max_results` (`min(limit, 100)`), `tweet.fields` and `user.fields`, so no `expansions` |
| ApiService.MaxResults | app/services/twitter_api_service.py:86 | at most 100 and at most the limit, and equal to one of them |
| ApiService.RaiseForStatus | app/services/twitter_api_service.py:121 | an error exactly for a status in [400, 600), carrying the status |
| ApiService.SearchStatusError | app/services/twitter_api_service.py:100-121 | 429, 401 and 403 give rate-limit, authentication and forbidden errors with the search's messages; other statuses as `raise_for_status`; no error exactly outside [400, 600) |
| ApiService.UserStatusError | app/services/twitter_api_service.py:200-213 | the same with `_handle_api_errors`' shorter messages |
| ApiService.StatusKindsAgree | app/services/twitter_api_service.py:100-213 | both status mappings classify every status alike |
| ApiService.ReplaceZ | app/services/twitter_api_service.py:283 | no `Z` remains; a string without `Z` is unchanged; a single `Z` becomes "+00:00" |
| ApiService.ReplaceZAppend | app/services/twitter_api_service.py:283 | the replacement distributes over concatenation, so with the single-character case every `Z` becomes "+00:00" and every other character stays |
| ApiService.FormatDate | app/services/twitter_api_service.py:272-286 | the rendered date when the string (with `Z` replaced) parses, and the raw input otherwise |
| ApiService.UserIndex | app/services/twitter_api_service.py:231-234 | success if and only if every included user has an `id`, else the `KeyError`; every id is a key, and each key maps to an included user with that id |
| ApiService.UserIndexKeepsLast | app/services/twitter_api_service.py:233-234 | among included users sharing an id, the last one is kept |
| ApiService.AuthorInfo | app/services/twitter_api_service.py:238-239 | the indexed user exactly when `author_id` is present and a key of the index, and then that key's user |
| ApiService.AuthorIdNumber | app/services/twitter_api_service.py:244 | 0 for an absent or empty `author_id`; otherwise the value `int()` gives, or its `ValueError` |
| ApiService.AuthorAccount | app/services/twitter_api_service.py:239-245 | the included user's name and "/" + username, with "Unknown" and "/unknown" for what is missing |
| ApiService.ItemToTweet | app/services/twitter_api_service.py:236-268 | an item converts exactly when its `author_id` does, and otherwise fails with that error |
| ApiService.ParseItems | app/services/twitter_api_service.py:236-270 | on success, one tweet per item in order, each the item's conversion |
| ApiService.ParseItemsSucceeds | app/services/twitter_api_service.py:236-270 | the loop succeeds if and only if every item converts |
| ApiService.ParseItemsFirstError | app/services/twitter_api_service.py:236-270 | once a prefix fails, the whole loop fails with that prefix's error, which is the first failing item's |
| ApiService.ParseTweets | app/services/twitter_api_service.py:225-228 | a payload without `data` gives no tweets; on success, one tweet per item |
| ApiService.ParseTweetsSucceeds | app/services/twitter_api_service.py:225-270 | with `data`, parsing succeeds if and only if every included user has an id and every `author_id` is absent, empty or an integer |
| ApiService.ParsedTweet | app/services/twitter_api_service.py:236-268 | each tweet keeps its item's text, takes its hashtags from it, counts default to 0, date via `_format_date`, id from `author_id` (0 when absent or empty), and its author is the last included user with that id or "Unknown" at "/unknown" |
| ApiService.ExampleHashWords | tests/test_twitter_api_service.py:134-163 | "#python" is among the hashtags of "This is a test tweet #python" |
| ApiService.SingleAuthorParse | tests/test_twitter_api_service.py:125-163 | one item whose `author_id` (a run of at most 4300 digits) is the one included user's id parses to one tweet credited to that user, with the item's text, hashtags and counts |
| ApiService.WithResolvedUser | app/services/twitter_api_service.py:191-193 | with `data`, the included users become exactly the resolved user; without, the payload is unchanged |
| ApiService.SearchTweets | app/services/twitter_api_service.py:74-127 | an empty key fails with "Hashtag cannot be empty", and success implies a non-empty key; characterised further by `SearchPipeline` |
| ApiService.UserTweets | app/services/twitter_api_service.py:149-198 | an empty handle fails with "Username cannot be empty", and success implies a non-empty handle; characterised further by `UserLookupFailures`, `UserTweetsCarryResolvedUser` and `TimelineItemsWithoutAuthorId` |
| ApiService.SearchPipeline | app/services/twitter_api_service.py:74-127 | empty key fails before any request; the query is "#" + the key without leading `#`; `max_results` is at most 100 and the limit; transport failure, 4xx/5xx and any other status lead to the failure, the status error and the parsed payload respectively |
| ApiService.UserLookupFailures | app/services/twitter_api_service.py:149-171 | empty handle, lookup transport failure, lookup 4xx/5xx, lookup without `data` ("User '<name>' not found") and a user without `id` each give their own error; the timeline request has no `expansions` |
| ApiService.UserTweetsCarryResolvedUser | app/services/twitter_api_service.py:171-195 | on success both requests passed their checks, the second asked for the looked-up id, no `data` gives no tweets, and every tweet whose `author_id` is the looked-up id carries that user's name and "/" + username |
| ApiService.TimelineItemsWithoutAuthorId | app/services/twitter_api_service.py:173-195 | on success the timeline request has no `expansions`, and every item without `author_id` is credited to "Unknown" at "/unknown" with id 0 |
| ApiService.ResolveBearerToken | app/services/twitter_api_service.py:42-49 | the argument when non-empty, else the environment value when non-empty, else the missing-token error |
| ApiService.Connect | app/services/twitter_api_service.py:31-54 | fails exactly when no non-empty token is found; otherwise a new service holding the token and its headers |
| ApiService.TwitterApi.constructor | app/services/twitter_api_service.py:51-54 | the token and its two headers are stored |
| ApiService.TwitterApi.IndexUsers | app/services/twitter_api_service.py:231-234 | the loop builds exactly the author index |
| ApiService.TwitterApi.ConvertItems | app/services/twitter_api_service.py:236-270 | the loop produces exactly the tweets of `ParseItems`, stopping at the first failing item |
| ApiService.TwitterApi.ParseTweetsResponse | app/services/twitter_api_service.py:215-270 | the two loops compute exactly `ParseTweets` |
| ApiService.TwitterApi.GetTweetsByHashtag | app/services/twitter_api_service.py:74-127 | computes exactly the search pipeline |
| ApiService.TwitterApi.GetUserTweets | app/services/twitter_api_service.py:149-198 | computes exactly the two-request timeline pipeline, with the payload's `includes` replaced in place |

## Left out

- **Network.** The real network, timeouts and `requests` internals are left
  out. A reply is a parameter, given as a status and decoded body or as a
  transport failure.
- **Decoding.** A body that fails to decode as JSON (`requests`'
  `JSONDecodeError`) is not modelled. Neither are JSON `null` or
  wrongly-typed fields: a payload holds only the fields the code reads, each
  present or absent.
- **Dates.** The clock and `strftime` are left out.
  - `ApiService.FormatDate`: the ISO 8601 parsing and formatting are the
    `render` parameter. Only the fallback to the raw string is modelled.
  - The mock's `_generate_date(i)` is the `dateOf` parameter.
- `Random.Rng.RandInt`: does not reproduce Python's Mersenne Twister
  stream. Its body is a linear congruential generator, and only the range
  of each draw is specified.
- `Random.Rng.constructor`: Python's `random.seed(42)` resets one global
  generator. The model gives each synthetic backend its own generator,
  seeded with 42.
- **Character classes.** Case mapping (`lower`, `title`) covers the ASCII
  letters only. Whitespace for `split` is Python's `str.isspace` set. The
  whitespace `int()` skips is that set without U+001C to U+001F.
- `PyInt.ParseInt`: rejects the non-ASCII decimal digits (Arabic-Indic and
  the like), which Python's `int()` accepts. Its digits are the ASCII digits.
- `PyInt.MaxStrDigits`: fixed at Python's default of 4300. Python lets a
  program change it with `sys.set_int_max_str_digits`.
- `PyInt.IntToString`: is total. Python's `str()` raises `ValueError` on an
  integer of more than 4300 digits.
- `ApiService.NotAnIntegerMessage`: approximates Python's message for a bad
  `author_id`. It quotes the string rather than printing Python's `repr`, and
  the error is classed as a malformed payload.
- `ApiService.ItemToTweet`: its own contract states only when an item fails
  to convert. The fields of a converted tweet are stated by
  `ApiService.ParsedTweet`.
- `ApiService.ParseTweets`: its own contract gives only the no-`data` case
  and the length. When it succeeds is stated by `ParseTweetsSucceeds`, and
  the fields by `ParsedTweet`.
- `MockService.UnknownHandleExample`: states that "unknownuser123" matches
  no pool account. The link "/unknownuser123" follows from
  `MockService.UnknownAccount`'s contract ("/" + handle) rather than being
  computed for that literal.
- **`to_dict` aliasing.** `Tweet.to_dict` returns the tweet's own hashtag
  list object. Dafny values have no identity, so this sharing is not
  modelled. Records are immutable values, so `to_dict` cannot change its
  record.
- **Outside this model:**
  - the backend selector `get_twitter_service`
    (`app/services/__init__.py`);
  - the abstract `TwitterService` base;
  - the routes, the application factory, `run.py`, and the rest of
    `config.py`.

  Of `config.py`, only the three limit constants at lines 14-16 are used:
  `Validators.DefaultTweetLimit`, `MaxTweetLimit` and `MinTweetLimit`.
- **Integration tests.** The integration tests that need a real token or an HTTP
  client are not modelled.
