/** The synthetic backend: tweets generated from fixed pools of accounts and
    texts with pseudo-random choices and counts. */
module MockService {
  import opened Outcomes
  import opened PyStr
  import opened Hashtags
  import opened Models
  import opened Random

  const SampleAccounts: seq<Account> := [
    Account("Raymond Hettinger", "/raymondh", 14159138),
    Account("Guido van Rossum", "/gvanrossum", 10945672),
    Account("Python Software", "/ThePSF", 63873759),
    Account("Real Python", "/realpython", 752486881),
    Account("Python Weekly", "/PythonWeekly", 315766685),
    Account("Twitter", "/Twitter", 783214),
    Account("Tech News", "/technews", 123456789),
    Account("Code Academy", "/codeacademy", 987654321)
  ]

  const SampleTexts: seq<string> := [
    "Just released a new #Python library for data processing! Check it out: github.com/example",
    "Historically, bash filename pattern matching was known as \"globbing\". Hence, the #python module called \"glob\".",
    "Excited to announce our new feature! #technology #innovation",
    "Working on some amazing #Python projects today. The productivity is real!",
    "Powerful voices. Inspiring women. #InternationalWomensDay",
    "New blog post about #programming best practices. Link in bio!",
    "Just deployed our latest microservice using #Python 3.12. Performance improvements are incredible!",
    "Anyone else loving the new features in Python 3.13? #python #coding",
    "Great conference talk today about #softwaredevelopment and #agile methodologies",
    "Remember: premature optimization is the root of all evil. #programming #python"
  ]

  const EmptyHashtagMessage := "Hashtag cannot be empty"
  const EmptyUsernameMessage := "Username cannot be empty"

  /** The tag key: every leading `#` removed, then lower-cased. */
  function NormalizeTag(hashtag: string): (tag: string)
    ensures IsLowerCase(tag) && |tag| <= |hashtag|
    ensures Lower(hashtag) == Repeat('#', |hashtag| - |tag|) + tag
    ensures tag == [] || tag[0] != '#'
  {
    var rest := LStrip(hashtag, '#');
    LStripSplit(hashtag, '#');
    LowerAfterMarkers('#', |hashtag| - |rest|, rest);
    Lower(rest)
  }

  /** The handle key: every leading `@` removed, case kept. */
  function NormalizeHandle(username: string): (handle: string)
    ensures |handle| <= |username| && username == Repeat('@', |username| - |handle|) + handle
    ensures handle == [] || handle[0] != '@'
  {
    LStripSplit(username, '@');
    LStrip(username, '@')
  }

  /** The values drawn for one tag-mode tweet, in drawing order. */
  datatype TagPick = TagPick(account: int, text: int, replies: int, retweets: int, likes: int)

  /** The values drawn for one timeline tweet, in drawing order. */
  datatype UserPick = UserPick(text: int, replies: int, retweets: int, likes: int)

  predicate CountsInRange(replies: int, retweets: int, likes: int) {
    0 <= replies <= 500 && 0 <= retweets <= 1000 && 0 <= likes <= 5000
  }

  /** The draws of a tag-mode tweet are a position in each pool and three counts in range. */
  predicate TagPickInRange(p: TagPick, accounts: seq<Account>, texts: seq<string>) {
    0 <= p.account < |accounts| && 0 <= p.text < |texts|
    && CountsInRange(p.replies, p.retweets, p.likes)
  }

  predicate UserPickInRange(p: UserPick, texts: seq<string>) {
    0 <= p.text < |texts| && CountsInRange(p.replies, p.retweets, p.likes)
  }

  /** The picks flattened into the generator's stream. */
  function TagPickDraws(ps: seq<TagPick>): seq<int> {
    if ps == [] then []
    else
      var p := ps[|ps| - 1];
      TagPickDraws(ps[..|ps| - 1]) + [p.account, p.text, p.replies, p.retweets, p.likes]
  }

  function UserPickDraws(ps: seq<UserPick>): seq<int> {
    if ps == [] then []
    else
      var p := ps[|ps| - 1];
      UserPickDraws(ps[..|ps| - 1]) + [p.text, p.replies, p.retweets, p.likes]
  }

  /** The text and hashtags of a tag-mode tweet made from `text`: when `tag`
      is not among the text's own tag names it is put first in the list and
      appended to the text on a line of its own. */
  function ForceTag(text: string, tag: string): (string, seq<string>) {
    var names := TagNames(text);
    if tag in names then (text, Hashed(names))
    else (text + "\n#" + tag, Hashed([tag] + names))
  }

  /** One tweet of `get_tweets_by_hashtag`, from its draws and its date string. */
  function TagTweet(accounts: seq<Account>, texts: seq<string>, tag: string, p: TagPick, date: string): Tweet
    requires TagPickInRange(p, accounts, texts)
  {
    var (text, tags) := ForceTag(texts[p.text], tag);
    Tweet(accounts[p.account], date, text, p.replies, p.retweets, p.likes, tags)
  }

  /** One tweet of `get_user_tweets`, from its draws and its date string. */
  function UserTweet(texts: seq<string>, account: Account, p: UserPick, date: string): Tweet
    requires UserPickInRange(p, texts)
  {
    var text := texts[p.text];
    Tweet(account, date, text, p.replies, p.retweets, p.likes, HashWords(text))
  }

  predicate TagPicksInRange(picks: seq<TagPick>, accounts: seq<Account>, texts: seq<string>) {
    forall j :: 0 <= j < |picks| ==> TagPickInRange(picks[j], accounts, texts)
  }

  predicate UserPicksInRange(picks: seq<UserPick>, texts: seq<string>) {
    forall j :: 0 <= j < |picks| ==> UserPickInRange(picks[j], texts)
  }

  /** The tweets of a hashtag search, one per pick, the `j`-th dated `dateOf(j)`. */
  function HashtagFeed(accounts: seq<Account>, texts: seq<string>, tag: string,
                       picks: seq<TagPick>, dateOf: nat -> string): (ts: seq<Tweet>)
    requires TagPicksInRange(picks, accounts, texts)
    ensures |ts| == |picks|
  {
    if picks == [] then []
    else
      var n := |picks| - 1;
      HashtagFeed(accounts, texts, tag, picks[..n], dateOf) + [TagTweet(accounts, texts, tag, picks[n], dateOf(n))]
  }

  /** The tweets of a user timeline, one per pick, the `j`-th dated `dateOf(j)`. */
  function UserTimeline(texts: seq<string>, account: Account,
                        picks: seq<UserPick>, dateOf: nat -> string): (ts: seq<Tweet>)
    requires UserPicksInRange(picks, texts)
    ensures |ts| == |picks|
  {
    if picks == [] then []
    else
      var n := |picks| - 1;
      UserTimeline(texts, account, picks[..n], dateOf) + [UserTweet(texts, account, picks[n], dateOf(n))]
  }

  /** The `j`-th tweet of a hashtag search is the one built from the `j`-th pick. */
  lemma {:induction false} HashtagFeedAt(accounts: seq<Account>, texts: seq<string>, tag: string,
                                         picks: seq<TagPick>, dateOf: nat -> string, j: nat)
    requires TagPicksInRange(picks, accounts, texts) && j < |picks|
    ensures HashtagFeed(accounts, texts, tag, picks, dateOf)[j] == TagTweet(accounts, texts, tag, picks[j], dateOf(j))
  {
    var n := |picks| - 1;
    if j < n {
      assert picks[..n][j] == picks[j];
      HashtagFeedAt(accounts, texts, tag, picks[..n], dateOf, j);
    }
  }

  /** The `j`-th tweet of a timeline is the one built from the `j`-th pick. */
  lemma {:induction false} UserTimelineAt(texts: seq<string>, account: Account,
                                          picks: seq<UserPick>, dateOf: nat -> string, j: nat)
    requires UserPicksInRange(picks, texts) && j < |picks|
    ensures UserTimeline(texts, account, picks, dateOf)[j] == UserTweet(texts, account, picks[j], dateOf(j))
  {
    var n := |picks| - 1;
    if j < n {
      assert picks[..n][j] == picks[j];
      UserTimelineAt(texts, account, picks[..n], dateOf, j);
    }
  }

  /** `acc['href'].lstrip('/').lower() == username.lower()` */
  predicate HandleMatches(a: Account, username: string) {
    Lower(LStrip(a.href, '/')) == Lower(username)
  }

  /** The test the pool search applies to each entry. */
  function MatchesHandle(username: string): Account -> bool {
    a => HandleMatches(a, username)
  }

  /** The position of the first pool entry that `matches`, or the pool's
      length when none does. */
  function FirstMatch(pool: seq<Account>, matches: Account -> bool): (k: nat)
    ensures k <= |pool|
    ensures k < |pool| ==> matches(pool[k])
    ensures forall j :: 0 <= j < k ==> !matches(pool[j])
  {
    if pool == [] then 0
    else if matches(pool[0]) then 0
    else
      var k := FirstMatch(pool[1..], matches);
      assert forall j :: 0 < j <= k ==> pool[j] == pool[1..][j - 1];
      1 + k
  }

  /** Entry `k` is the first match exactly when it matches and no earlier entry does. */
  lemma FirstMatchIs(pool: seq<Account>, matches: Account -> bool, k: nat)
    requires k < |pool| && matches(pool[k])
    requires forall j :: 0 <= j < k ==> !matches(pool[j])
    ensures FirstMatch(pool, matches) == k
  {
  }

  /** `next((acc for acc in pool if ...), None)`: the first pool entry whose
      handle matches, ignoring case. */
  function FindAccount(pool: seq<Account>, username: string): (r: Option<Account>)
    ensures r.Some? ==> r.value in pool && HandleMatches(r.value, username)
    ensures r.None? ==> forall a :: a in pool ==> !HandleMatches(a, username)
  {
    var k := FirstMatch(pool, MatchesHandle(username));
    if k < |pool| then Some(pool[k]) else None
  }

  /** The account made up for a handle outside the pool. */
  function UnknownAccount(username: string, id: int): (a: Account)
    ensures a.href == "/" + username && a.id == id
    ensures a.fullname == Title(username) && Lower(a.fullname) == Lower(username)
  {
    TitleKeepsLetters(username);
    Account(Title(username), "/" + username, id)
  }

  class TwitterMock {
    const rng: Rng
    /** `SAMPLE_ACCOUNTS` */
    const accounts: seq<Account>
    /** `SAMPLE_TEXTS` */
    const texts: seq<string>

    /** Both pools have an entry to choose. */
    predicate Valid() {
      |accounts| > 0 && |texts| > 0
    }

    /** The constructor seeds the generator with 42. */
    constructor ()
      ensures accounts == SampleAccounts && texts == SampleTexts && Valid()
      ensures fresh(rng) && rng.draws == []
    {
      rng := new Rng(42);
      accounts := SampleAccounts;
      texts := SampleTexts;
    }

    /** One pass of the tag-mode loop: draw an account and a text, force the
        tag in, draw the three counts. */
    method NextTagTweet(tag: string, date: string) returns (tweet: Tweet, ghost p: TagPick)
      requires Valid()
      modifies rng
      ensures TagPickInRange(p, accounts, texts) && tweet == TagTweet(accounts, texts, tag, p, date)
      ensures rng.draws == old(rng.draws) + [p.account, p.text, p.replies, p.retweets, p.likes]
    {
      var a := rng.Choice(|accounts|);
      var account := accounts[a];
      var k := rng.Choice(|texts|);
      var baseText := texts[k];
      var existing := TagNames(baseText);
      if tag !in existing {
        existing := [tag] + existing;
        baseText := baseText + "\n#" + tag;
      }
      assert ForceTag(texts[k], tag) == (baseText, Hashed(existing));
      var replies := rng.RandInt(0, 500);
      var retweets := rng.RandInt(0, 1000);
      var likes := rng.RandInt(0, 5000);
      tweet := Tweet(account, date, baseText, replies, retweets, likes, Hashed(existing));
      p := TagPick(a, k, replies, retweets, likes);
    }

    /** One pass of the timeline loop: draw a text and the three counts. */
    method NextUserTweet(account: Account, date: string) returns (tweet: Tweet, ghost p: UserPick)
      requires Valid()
      modifies rng
      ensures UserPickInRange(p, texts) && tweet == UserTweet(texts, account, p, date)
      ensures rng.draws == old(rng.draws) + [p.text, p.replies, p.retweets, p.likes]
    {
      var k := rng.Choice(|texts|);
      var baseText := texts[k];
      var hashtags := HashWords(baseText);
      var replies := rng.RandInt(0, 500);
      var retweets := rng.RandInt(0, 1000);
      var likes := rng.RandInt(0, 5000);
      tweet := Tweet(account, date, baseText, replies, retweets, likes, hashtags);
      p := UserPick(k, replies, retweets, likes);
    }

    /** The pool account whose handle matches, or a new one whose id is drawn. */
    method ResolveAccount(name: string) returns (owner: Account)
      modifies rng
      ensures FindAccount(accounts, name).Some? ==>
        owner == FindAccount(accounts, name).value && rng.draws == old(rng.draws)
      ensures FindAccount(accounts, name).None? ==>
        owner == UnknownAccount(name, owner.id) && 1000000 <= owner.id <= 99999999
        && rng.draws == old(rng.draws) + [owner.id]
    {
      var matching := FindAccount(accounts, name);
      if matching.Some? {
        owner := matching.value;
      } else {
        var id := rng.RandInt(1000000, 99999999);
        owner := Account(Title(name), "/" + name, id);
      }
    }

    /** The loop of `get_tweets_by_hashtag`: `n` tweets forced to carry `tag`. */
    method TagFeed(tag: string, n: nat, dateOf: nat -> string)
      returns (tweets: seq<Tweet>, ghost picks: seq<TagPick>)
      requires Valid()
      modifies rng
      ensures |picks| == n && TagPicksInRange(picks, accounts, texts)
      ensures rng.draws == old(rng.draws) + TagPickDraws(picks)
      ensures tweets == HashtagFeed(accounts, texts, tag, picks, dateOf)
    {
      tweets, picks := [], [];
      var i := 0;
      while i < n
        invariant 0 <= i <= n
        invariant |picks| == i && TagPicksInRange(picks, accounts, texts)
        invariant rng.draws == old(rng.draws) + TagPickDraws(picks)
        invariant tweets == HashtagFeed(accounts, texts, tag, picks, dateOf)
      {
        var tweet;
        ghost var p;
        tweet, p := NextTagTweet(tag, dateOf(i));
        assert (picks + [p])[..i] == picks;
        assert TagPickDraws(picks + [p]) == TagPickDraws(picks) + [p.account, p.text, p.replies, p.retweets, p.likes];
        tweets := tweets + [tweet];
        picks := picks + [p];
        i := i + 1;
      }
    }

    /** `get_tweets_by_hashtag(hashtag, limit)`. The ghost `picks` are the
        values drawn per tweet; `dateOf(i)` stands for `_generate_date(i)`. */
    method GetTweetsByHashtag(hashtag: string, limit: int, dateOf: nat -> string)
      returns (r: Result<seq<Tweet>, ServiceError>, ghost picks: seq<TagPick>)
      requires Valid()
      modifies rng
      ensures hashtag == "" ==>
        r == Err(InvalidInput(EmptyHashtagMessage)) && rng.draws == old(rng.draws)
      ensures hashtag != "" ==>
        r.Ok? && |r.value| == |picks| == (if limit < 0 then 0 else limit)
        && rng.draws == old(rng.draws) + TagPickDraws(picks)
        && TagPicksInRange(picks, accounts, texts)
        && r.value == HashtagFeed(accounts, texts, NormalizeTag(hashtag), picks, dateOf)
    {
      picks := [];
      if hashtag == "" {
        return Err(InvalidInput(EmptyHashtagMessage)), picks;
      }
      var tag := Lower(LStrip(hashtag, '#'));
      var tweets;
      tweets, picks := TagFeed(tag, if limit < 0 then 0 else limit, dateOf);
      r := Ok(tweets);
    }

    /** The timeline loop of `get_user_tweets`: `n` tweets of `owner`. */
    method Timeline(owner: Account, n: nat, dateOf: nat -> string)
      returns (tweets: seq<Tweet>, ghost picks: seq<UserPick>)
      requires Valid()
      modifies rng
      ensures |picks| == n && UserPicksInRange(picks, texts)
      ensures rng.draws == old(rng.draws) + UserPickDraws(picks)
      ensures tweets == UserTimeline(texts, owner, picks, dateOf)
    {
      tweets, picks := [], [];
      var i := 0;
      while i < n
        invariant 0 <= i <= n
        invariant |picks| == i && UserPicksInRange(picks, texts)
        invariant rng.draws == old(rng.draws) + UserPickDraws(picks)
        invariant tweets == UserTimeline(texts, owner, picks, dateOf)
      {
        var tweet;
        ghost var p;
        tweet, p := NextUserTweet(owner, dateOf(i));
        assert (picks + [p])[..i] == picks;
        assert UserPickDraws(picks + [p]) == UserPickDraws(picks) + [p.text, p.replies, p.retweets, p.likes];
        tweets := tweets + [tweet];
        picks := picks + [p];
        i := i + 1;
      }
    }

    /** `get_user_tweets(username, limit)`. The ghost `account` is the one
        account every tweet carries; `picks` are the values drawn per tweet. */
    method GetUserTweets(username: string, limit: int, dateOf: nat -> string)
      returns (r: Result<seq<Tweet>, ServiceError>, ghost account: Account, ghost picks: seq<UserPick>)
      requires Valid()
      modifies rng
      ensures username == "" ==>
        r == Err(InvalidInput(EmptyUsernameMessage)) && rng.draws == old(rng.draws)
      ensures username != "" ==>
        r.Ok? && |r.value| == |picks| == (if limit < 0 then 0 else limit)
      ensures username != "" && FindAccount(accounts, NormalizeHandle(username)).Some? ==>
        account == FindAccount(accounts, NormalizeHandle(username)).value
        && rng.draws == old(rng.draws) + UserPickDraws(picks)
      ensures username != "" && FindAccount(accounts, NormalizeHandle(username)).None? ==>
        account == UnknownAccount(NormalizeHandle(username), account.id)
        && 1000000 <= account.id <= 99999999
        && rng.draws == old(rng.draws) + [account.id] + UserPickDraws(picks)
      ensures username != "" ==>
        UserPicksInRange(picks, texts) && r.value == UserTimeline(texts, account, picks, dateOf)
    {
      picks := [];
      if username == "" {
        return Err(InvalidInput(EmptyUsernameMessage)), Account("", "", 0), picks;
      }
      var name := LStrip(username, '@');
      var owner := ResolveAccount(name);
      account := owner;
      var tweets;
      tweets, picks := Timeline(owner, if limit < 0 then 0 else limit, dateOf);
      r := Ok(tweets);
    }
  }

  /** `Hashed` distributes over concatenation. */
  lemma HashedAppend(a: seq<string>, b: seq<string>)
    ensures Hashed(a + b) == Hashed(a) + Hashed(b)
  {
    assert |Hashed(a + b)| == |Hashed(a) + Hashed(b)|;
    forall k | 0 <= k < |a + b|
      ensures Hashed(a + b)[k] == (Hashed(a) + Hashed(b))[k]
    {
      if k < |a| {
        assert (a + b)[k] == a[k];
      } else {
        assert (a + b)[k] == b[k - |a|];
      }
    }
  }

  /** Forcing a tag in: the reported list always holds `#tag`, and for a tag
      that is one lower-case word the list holds, up to order, exactly the
      tags that can be read back from the new text. */
  lemma ForceTagHoldsTag(text: string, tag: string)
    ensures "#" + tag in ForceTag(text, tag).1
    ensures IsWord(tag) && IsLowerCase(tag) ==>
      tag in TagNames(ForceTag(text, tag).0)
      && multiset(ForceTag(text, tag).1) == multiset(Hashed(TagNames(ForceTag(text, tag).0)))
  {
    var names := TagNames(text);
    if tag in names {
      var k :| 0 <= k < |names| && names[k] == tag;
      assert Hashed(names)[k] == "#" + tag;
    } else {
      assert Hashed([tag] + names)[0] == "#" + tag;
      if IsWord(tag) && IsLowerCase(tag) {
        TagNamesAppendLine(text, tag);
        assert TagNames(text + "\n#" + tag) == names + [tag];
        HashedAppend([tag], names);
        HashedAppend(names, [tag]);
      }
    }
  }

  /** The two cases of forcing a tag in: a tag already among the text's tag
      names leaves the text alone and reports its tags in order of
      appearance; any other tag is put first in the list and appended to the
      text as a line "#tag". */
  lemma ForceTagCases(text: string, tag: string)
    ensures tag in TagNames(text) ==> ForceTag(text, tag) == (text, Hashed(TagNames(text)))
    ensures tag !in TagNames(text) ==>
      ForceTag(text, tag).0 == text + "\n#" + tag
      && ForceTag(text, tag).1 == ["#" + tag] + Hashed(TagNames(text))
  {
    HashedAppend([tag], TagNames(text));
  }

  /** The forced list holds only `#` followed by a lower-case name when the
      tag is lower-case. */
  lemma ForceTagLowerCase(text: string, tag: string)
    requires IsLowerCase(tag)
    ensures forall k :: 0 <= k < |ForceTag(text, tag).1| ==>
      var h := ForceTag(text, tag).1[k];
      |h| > 0 && h[0] == '#' && IsLowerCase(h[1..])
  {
    var names := TagNames(text);
    var all := if tag in names then names else [tag] + names;
    assert ForceTag(text, tag).1 == Hashed(all);
    forall k | 0 <= k < |all|
      ensures IsLowerCase(all[k]) && Hashed(all)[k][1..] == all[k]
    {
      assert Hashed(all)[k] == "#" + all[k];
    }
  }

  /** What every tweet of `get_tweets_by_hashtag` promises: it carries the
      requested tag among its hashtags, all of its hashtags are `#` followed by
      a lower-case name, its account is a pool account and its counts lie in
      the drawn ranges. */
  lemma TagTweetCarriesTag(accounts: seq<Account>, texts: seq<string>, hashtag: string, p: TagPick, date: string)
    requires TagPickInRange(p, accounts, texts)
    ensures var t := TagTweet(accounts, texts, NormalizeTag(hashtag), p, date);
      "#" + NormalizeTag(hashtag) in t.hashtags
      && (forall k :: 0 <= k < |t.hashtags| ==>
            |t.hashtags[k]| > 0 && t.hashtags[k][0] == '#' && IsLowerCase(t.hashtags[k][1..]))
      && t.account in accounts && t.date == date
      && CountsInRange(t.replies, t.retweets, t.likes)
  {
    TagTweetCarriesLowerTag(accounts, texts, NormalizeTag(hashtag), p, date);
  }

  /** The same for any lower-case tag. */
  lemma TagTweetCarriesLowerTag(accounts: seq<Account>, texts: seq<string>, tag: string, p: TagPick, date: string)
    requires TagPickInRange(p, accounts, texts) && IsLowerCase(tag)
    ensures var t := TagTweet(accounts, texts, tag, p, date);
      "#" + tag in t.hashtags
      && (forall k :: 0 <= k < |t.hashtags| ==>
            |t.hashtags[k]| > 0 && t.hashtags[k][0] == '#' && IsLowerCase(t.hashtags[k][1..]))
      && t.account in accounts && t.date == date
      && CountsInRange(t.replies, t.retweets, t.likes)
  {
    var text := texts[p.text];
    ForceTagHoldsTag(text, tag);
    ForceTagLowerCase(text, tag);
  }

  /** Every tweet of a hashtag search carries the requested tag, written
      `#` and lower case, among hashtags that are all `#` followed by a
      lower-case name; its account is a pool account, its date is that of its
      position and its counts lie in the drawn ranges. */
  lemma HashtagFeedCarriesTag(accounts: seq<Account>, texts: seq<string>, hashtag: string,
                              picks: seq<TagPick>, dateOf: nat -> string, j: nat)
    requires TagPicksInRange(picks, accounts, texts) && j < |picks|
    ensures var t := HashtagFeed(accounts, texts, NormalizeTag(hashtag), picks, dateOf)[j];
      "#" + NormalizeTag(hashtag) in t.hashtags
      && (forall k :: 0 <= k < |t.hashtags| ==>
            |t.hashtags[k]| > 0 && t.hashtags[k][0] == '#' && IsLowerCase(t.hashtags[k][1..]))
      && t.account in accounts && t.date == dateOf(j)
      && CountsInRange(t.replies, t.retweets, t.likes)
  {
    HashtagFeedAt(accounts, texts, NormalizeTag(hashtag), picks, dateOf, j);
    TagTweetCarriesTag(accounts, texts, hashtag, picks[j], dateOf(j));
  }

  /** Every tweet of a timeline belongs to the one resolved account, has a pool
      text, the date of its position and counts in the drawn ranges, and
      reports the words of its text that start with `#`, case kept, and no
      other word. */
  lemma TimelineTweets(texts: seq<string>, account: Account, picks: seq<UserPick>, dateOf: nat -> string, j: nat)
    requires UserPicksInRange(picks, texts) && j < |picks|
    ensures var t := UserTimeline(texts, account, picks, dateOf)[j];
      t.account == account && t.text in texts && t.date == dateOf(j)
      && CountsInRange(t.replies, t.retweets, t.likes)
      && (forall w :: w in t.hashtags <==> w in Split(t.text) && IsHashWord(w))
  {
    UserTimelineAt(texts, account, picks, dateOf, j);
  }

  /** Any run of leading `#` is ignored: "##python", "#python" and "python"
      give the same tag. */
  lemma NormalizeTagIgnoresMarkers(k: nat, s: string)
    ensures NormalizeTag(Repeat('#', k) + s) == NormalizeTag(s)
  {
    LStripIgnoresMarkers('#', k, s);
  }

  /** Any run of leading `@` is ignored, and normalising a handle is idempotent. */
  lemma NormalizeHandleIgnoresMarkers(k: nat, s: string)
    ensures NormalizeHandle(Repeat('@', k) + s) == NormalizeHandle(s)
    ensures NormalizeHandle(NormalizeHandle(s)) == NormalizeHandle(s)
  {
    LStripIgnoresMarkers('@', k, s);
  }

  /** A link made of one "/" and a handle strips to the handle. */
  lemma StripSlash(href: string)
    requires |href| > 1 && href[0] == '/' && href[1] != '/'
    ensures LStrip(href, '/') == href[1..]
  {
  }

  /** The search returns the first matching entry and no later one. */
  lemma FindAccountFirstMatch(pool: seq<Account>, username: string, k: nat)
    requires k < |pool| && HandleMatches(pool[k], username)
    requires forall j :: 0 <= j < k ==> !HandleMatches(pool[j], username)
    ensures FindAccount(pool, username) == Some(pool[k])
  {
    FirstMatchIs(pool, MatchesHandle(username), k);
  }

  /** An entry whose handle starts with a different letter, ignoring case,
      or has a different length does not match. */
  lemma HandleMismatch(a: Account, username: string)
    requires |a.href| > 1 && a.href[0] == '/' && a.href[1] != '/' && username != []
    requires ToLower(a.href[1]) != ToLower(username[0]) || |a.href| - 1 != |username|
    ensures !HandleMatches(a, username)
  {
    StripSlash(a.href);
    assert Lower(a.href[1..])[0] == ToLower(a.href[1]);
  }

  /** The handle "twitter" matches none of the first five pool entries. */
  lemma TwitterSkipsFirstFive()
    ensures forall j :: 0 <= j < 5 ==> !HandleMatches(SampleAccounts[j], "twitter")
  {
    forall j | 0 <= j < 5
      ensures !HandleMatches(SampleAccounts[j], "twitter")
    {
      HandleMismatch(SampleAccounts[j], "twitter");
    }
  }

  /** The handle "twitter" matches the sixth pool entry, "/Twitter". */
  lemma TwitterMatchesSixth()
    ensures HandleMatches(SampleAccounts[5], "twitter")
  {
    StripSlash(SampleAccounts[5].href);
    assert SampleAccounts[5].href[1..] == "Twitter";
    assert Lower("Twitter") == Lower("twitter");
  }

  lemma NormalizeTwitterHandle()
    ensures NormalizeHandle("@twitter") == "twitter"
    ensures NormalizeHandle("twitter") == "twitter"
  {
    assert "@twitter"[1..] == "twitter";
  }

  /** The handle "twitter", with or without `@`, finds the pool's "Twitter"
      account, whose link is "/Twitter". */
  lemma KnownHandleExample()
    ensures FindAccount(SampleAccounts, NormalizeHandle("twitter")) == Some(SampleAccounts[5])
    ensures FindAccount(SampleAccounts, NormalizeHandle("@twitter")) == Some(SampleAccounts[5])
    ensures SampleAccounts[5].href == "/Twitter"
  {
    NormalizeTwitterHandle();
    TwitterSkipsFirstFive();
    TwitterMatchesSixth();
    FindAccountFirstMatch(SampleAccounts, "twitter", 5);
  }

  /** No pool entry matches the handle "unknownuser123". */
  lemma UnknownHandleAgainstPool()
    ensures forall j :: 0 <= j < |SampleAccounts| ==> !HandleMatches(SampleAccounts[j], "unknownuser123")
  {
    forall j | 0 <= j < |SampleAccounts|
      ensures !HandleMatches(SampleAccounts[j], "unknownuser123")
    {
      HandleMismatch(SampleAccounts[j], "unknownuser123");
    }
  }

  /** A handle outside the pool, "unknownuser123", matches no entry, so its
      tweets carry a made-up account (linked to "/" followed by the handle). */
  lemma UnknownHandleExample()
    ensures NormalizeHandle("unknownuser123") == "unknownuser123"
    ensures FindAccount(SampleAccounts, NormalizeHandle("unknownuser123")).None?
  {
    assert NormalizeHandle("unknownuser123") == "unknownuser123";
    UnknownHandleAgainstPool();
  }
}
