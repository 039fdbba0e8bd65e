/** Validation of the `limit` request parameter. */
module Validators {
  import opened Outcomes
  import opened PyInt

  /** The limit bounds of the application configuration. */
  const DefaultTweetLimit := 30
  const MaxTweetLimit := 100
  const MinTweetLimit := 1

  function NotAnIntegerMessage(limitStr: string): string {
    "Invalid limit value: " + limitStr + ". Must be an integer."
  }

  function BelowMinimumMessage(): string {
    "Limit must be at least " + IntToString(MinTweetLimit)
  }

  function AboveMaximumMessage(): string {
    "Limit cannot exceed " + IntToString(MaxTweetLimit)
  }

  /** `validate_limit(limit_str, default)`: `None` for an argument Python leaves
      as `None`; a ValueError becomes `InvalidInput`. */
  function ValidateLimit(limitStr: Option<string>, default: Option<int>): (r: Result<int, ServiceError>)
    ensures limitStr.None? ==> r == Ok(default.GetOr(DefaultTweetLimit))
    ensures limitStr.Some? ==>
      (r.Ok? <==> ParseInt(limitStr.value).Some?
                  && MinTweetLimit <= ParseInt(limitStr.value).value <= MaxTweetLimit)
    ensures limitStr.Some? && r.Ok? ==>
      ParseInt(limitStr.value) == Some(r.value) && MinTweetLimit <= r.value <= MaxTweetLimit
    ensures limitStr.Some? && ParseInt(limitStr.value).None? ==>
      r == Err(InvalidInput(NotAnIntegerMessage(limitStr.value)))
    ensures limitStr.Some? && ParseInt(limitStr.value).Some? && ParseInt(limitStr.value).value < MinTweetLimit ==>
      r == Err(InvalidInput(BelowMinimumMessage()))
    ensures limitStr.Some? && ParseInt(limitStr.value).Some? && ParseInt(limitStr.value).value > MaxTweetLimit ==>
      r == Err(InvalidInput(AboveMaximumMessage()))
  {
    var dflt := default.GetOr(DefaultTweetLimit);
    match limitStr
    case None => Ok(dflt)
    case Some(s) =>
      match ParseInt(s)
      case None => Err(InvalidInput(NotAnIntegerMessage(s)))
      case Some(limit) =>
        if limit < MinTweetLimit then Err(InvalidInput(BelowMinimumMessage()))
        else if limit > MaxTweetLimit then Err(InvalidInput(AboveMaximumMessage()))
        else Ok(limit)
  }

  /** The decimal spelling of any integer is accepted exactly when it lies in
      [1, 100], and then it is returned unchanged; a spelling longer than the
      digit limit is not an integer to Python. The default plays no part. */
  lemma ValidateDecimal(n: int, default: Option<int>)
    ensures ValidateLimit(Some(IntToString(n)), default) ==
      if !WithinStrDigits(n) then Err(InvalidInput(NotAnIntegerMessage(IntToString(n))))
      else if n < MinTweetLimit then Err(InvalidInput(BelowMinimumMessage()))
      else if n > MaxTweetLimit then Err(InvalidInput(AboveMaximumMessage()))
      else Ok(n)
  {
    ParseIntOfIntToString(n);
  }

  /** A plain run of decimal digits is accepted exactly when it is within the
      digit limit and the number it spells lies in [1, 100]. */
  lemma ValidateDigits(s: string, default: Option<int>)
    requires |s| > 0 && forall i :: 0 <= i < |s| ==> IsDigit(s[i])
    ensures ValidateLimit(Some(s), default) ==
      if |s| > MaxStrDigits then Err(InvalidInput(NotAnIntegerMessage(s)))
      else if DigitsValue(s) < MinTweetLimit then Err(InvalidInput(BelowMinimumMessage()))
      else if DigitsValue(s) > MaxTweetLimit then Err(InvalidInput(AboveMaximumMessage()))
      else Ok(DigitsValue(s))
  {
    ParseIntOfDigits(s);
  }

  /** The accepted documented cases: "50" gives 50 and an absent value gives 30. */
  lemma ValidateLimitAcceptsExamples()
    ensures ValidateLimit(Some("50"), None) == Ok(50)
    ensures ValidateLimit(None, None) == Ok(30)
  {
    var s := "50";
    assert s[..1] == "5";
    assert DigitsValue(s) == 50;
    ValidateDigits(s, None);
  }

  /** Both bounds are accepted: "1" gives 1 and "100" gives 100. */
  lemma ValidateLimitAcceptsBounds()
    ensures ValidateLimit(Some("1"), None) == Ok(1)
    ensures ValidateLimit(Some("100"), None) == Ok(100)
  {
    ValidateOne();
    ValidateHundred();
  }

  lemma ValidateOne()
    ensures ValidateLimit(Some("1"), None) == Ok(1)
  {
    var one := "1";
    assert one[..0] == [];
    assert DigitsValue(one) == 1;
    ValidateDigits(one, None);
  }

  lemma ValidateHundred()
    ensures ValidateLimit(Some("100"), None) == Ok(100)
  {
    var hundred := "100";
    assert hundred[..2] == "10" && hundred[..2][..1] == "1" && hundred[..2][..1][..0] == [];
    assert DigitsValue(hundred[..2][..1]) == 1;
    assert DigitsValue(hundred[..2]) == 10;
    assert DigitsValue(hundred) == 100;
    ValidateDigits(hundred, None);
  }

  /** The rejected documented bounds: "0" is below the minimum and "200"
      above the maximum. */
  lemma ValidateLimitRejectsOutOfRange()
    ensures ValidateLimit(Some("0"), None) == Err(InvalidInput(BelowMinimumMessage()))
    ensures ValidateLimit(Some("200"), None) == Err(InvalidInput(AboveMaximumMessage()))
  {
    ValidateZero();
    ValidateTwoHundred();
  }

  lemma ValidateZero()
    ensures ValidateLimit(Some("0"), None) == Err(InvalidInput(BelowMinimumMessage()))
  {
    var zero := "0";
    assert zero[..0] == [];
    assert DigitsValue(zero) == 0;
    ValidateDigits(zero, None);
  }

  lemma ValidateTwoHundred()
    ensures ValidateLimit(Some("200"), None) == Err(InvalidInput(AboveMaximumMessage()))
  {
    var twoHundred := "200";
    assert twoHundred[..2] == "20" && twoHundred[..2][..1] == "2" && twoHundred[..2][..1][..0] == [];
    assert DigitsValue(twoHundred[..2][..1]) == 2;
    assert DigitsValue(twoHundred[..2]) == 20;
    assert DigitsValue(twoHundred) == 200;
    ValidateDigits(twoHundred, None);
  }

  /** The rejected documented non-number: "abc" is not an integer. */
  lemma ValidateLimitRejectsWord()
    ensures ValidateLimit(Some("abc"), None) == Err(InvalidInput(NotAnIntegerMessage("abc")))
  {
    ParseIntRejectsForeign("abc", 0);
  }

  /** A leading information separator (U+001C) is whitespace to `str.isspace`
      but not to `int()`, so "\x1c50" is not an integer. */
  lemma ValidateLimitRejectsSeparator()
    ensures ValidateLimit(Some("\U{1C}50"), None) == Err(InvalidInput(NotAnIntegerMessage("\U{1C}50")))
  {
    ParseIntRejectsForeign("\U{1C}50", 0);
  }
}
