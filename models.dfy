/** The canonical records both backends produce, and their conversion to the
    nested string-keyed mapping that is serialised as JSON. */
module Models {
  import opened Outcomes

  /** A JSON-representable value of the mapping `to_dict` builds. */
  datatype Value =
    | Str(s: string)
    | Int(n: int)
    | List(items: seq<Value>)
    | Dict(fields: map<string, Value>)

  /** An author. The constructor stores its fields as given and checks nothing. */
  datatype Account = Account(fullname: string, href: string, id: int) {
    /** `to_dict` (`dataclasses.asdict`): exactly the three field names, each
        mapped to the field's value. */
    function ToDict(): (d: map<string, Value>)
      ensures d.Keys == {"fullname", "href", "id"}
      ensures d["fullname"] == Str(fullname) && d["href"] == Str(href) && d["id"] == Int(id)
    {
      map["fullname" := Str(fullname), "href" := Str(href), "id" := Int(id)]
    }
  }

  /** A post. Counts are plain integers: the constructor accepts negative ones. */
  datatype Tweet = Tweet(
    account: Account,
    date: string,
    text: string,
    replies: int,
    retweets: int,
    likes: int,
    hashtags: seq<string>)
  {
    /** `to_dict`: the account nested as its own mapping, every other field copied. */
    function ToDict(): (d: map<string, Value>)
      ensures d.Keys == {"account", "date", "text", "replies", "retweets", "likes", "hashtags"}
      ensures d["account"] == Dict(account.ToDict())
      ensures d["date"] == Str(date) && d["text"] == Str(text)
      ensures d["replies"] == Int(replies) && d["retweets"] == Int(retweets) && d["likes"] == Int(likes)
      ensures d["hashtags"] == List(StrValues(hashtags))
    {
      map[
        "account" := Dict(account.ToDict()),
        "date" := Str(date),
        "text" := Str(text),
        "replies" := Int(replies),
        "retweets" := Int(retweets),
        "likes" := Int(likes),
        "hashtags" := List(StrValues(hashtags))
      ]
    }
  }

  /** A list of strings as a list value. */
  function StrValues(ss: seq<string>): (vs: seq<Value>)
    ensures |vs| == |ss| && forall k :: 0 <= k < |ss| ==> vs[k] == Str(ss[k])
  {
    seq(|ss|, k requires 0 <= k < |ss| => Str(ss[k]))
  }

  /** The strings of a list value, if every item is a string. */
  function StrItems(vs: seq<Value>): Option<seq<string>> {
    if vs == [] then Some([])
    else if !vs[0].Str? then None
    else match StrItems(vs[1..])
      case None => None
      case Some(rest) => Some([vs[0].s] + rest)
  }

  lemma {:induction false} StrItemsOfStrValues(ss: seq<string>)
    ensures StrItems(StrValues(ss)) == Some(ss)
  {
    if ss != [] {
      var vs := StrValues(ss);
      assert vs[0] == Str(ss[0]);
      assert vs[1..] == StrValues(ss[1..]);
      StrItemsOfStrValues(ss[1..]);
      assert [ss[0]] + ss[1..] == ss;
    }
  }

  /** Reads an account back from a mapping of the shape `Account.ToDict` produces. */
  function AccountFromDict(d: map<string, Value>): Option<Account> {
    if "fullname" in d && "href" in d && "id" in d
       && d["fullname"].Str? && d["href"].Str? && d["id"].Int?
    then Some(Account(d["fullname"].s, d["href"].s, d["id"].n))
    else None
  }

  /** Reads a tweet back from a mapping of the shape `Tweet.ToDict` produces. */
  function TweetFromDict(d: map<string, Value>): Option<Tweet> {
    if "account" in d && "date" in d && "text" in d && "replies" in d
       && "retweets" in d && "likes" in d && "hashtags" in d
       && d["account"].Dict? && d["date"].Str? && d["text"].Str?
       && d["replies"].Int? && d["retweets"].Int? && d["likes"].Int? && d["hashtags"].List?
    then
      match (AccountFromDict(d["account"].fields), StrItems(d["hashtags"].items))
      case (Some(a), Some(tags)) =>
        Some(Tweet(a, d["date"].s, d["text"].s, d["replies"].n, d["retweets"].n, d["likes"].n, tags))
      case _ => None
    else None
  }

  /** Every field of a tweet, its account included, can be recovered from its mapping. */
  lemma TweetRoundTrip(t: Tweet)
    ensures AccountFromDict(t.account.ToDict()) == Some(t.account)
    ensures TweetFromDict(t.ToDict()) == Some(t)
  {
    StrItemsOfStrValues(t.hashtags);
  }

  /** Equal tweets give equal mappings and distinct tweets give distinct mappings. */
  lemma ToDictInjective(t1: Tweet, t2: Tweet)
    ensures t1.ToDict() == t2.ToDict() <==> t1 == t2
  {
    TweetRoundTrip(t1);
    TweetRoundTrip(t2);
  }
}
