/**
 * The subscription token value type: a string that was checked, when parsed,
 * to hold only alphanumeric characters. No length is checked on this path.
 *
 * Which characters count as alphanumeric is Unicode's business; the model takes
 * that character class as a parameter `isAlphanumeric`.
 */
module SubscriptionTokens {
  import opened Wrappers

  datatype SubscriptionToken = SubscriptionToken(value: string)

  const NotAlphanumericError: string := "Subscription token is alphanumeric."

  /** The ASCII letters and digits. */
  predicate AsciiAlphanumeric(c: char) {
    'a' <= c <= 'z' || 'A' <= c <= 'Z' || '0' <= c <= '9'
  }

  /** A character class that, like Unicode's alphanumeric class, contains every ASCII letter and digit. */
  ghost predicate ExtendsAscii(isAlphanumeric: char -> bool) {
    forall c :: AsciiAlphanumeric(c) ==> isAlphanumeric(c)
  }

  /** `s.chars().any(|c| !c.is_alphanumeric())`, scanning from the front. */
  function AnyNonAlphanumeric(s: string, isAlphanumeric: char -> bool): (r: bool)
    ensures r <==> exists i :: 0 <= i < |s| && !isAlphanumeric(s[i])
  {
    if s == [] then false
    else if !isAlphanumeric(s[0]) then true
    else
      var r := AnyNonAlphanumeric(s[1..], isAlphanumeric);
      assert forall i :: 1 <= i < |s| ==> s[i] == s[1..][i - 1];
      r
  }

  /** `SubscriptionToken::parse`. */
  function Parse(s: string, isAlphanumeric: char -> bool): (r: Result<SubscriptionToken, string>)
    ensures r.Success? <==> forall i :: 0 <= i < |s| ==> isAlphanumeric(s[i])
    ensures r.Success? ==> AsRef(r.value) == s
    ensures r.Failure? ==> r.error == NotAlphanumericError
  {
    if AnyNonAlphanumeric(s, isAlphanumeric) then Failure(NotAlphanumericError)
    else Success(SubscriptionToken(s))
  }

  /** `AsRef<str> for SubscriptionToken`. */
  function AsRef(t: SubscriptionToken): string {
    t.value
  }

  /** Parsing then reading the token back gives the input unchanged. */
  lemma ParseThenAsRef(s: string, isAlphanumeric: char -> bool)
    requires forall i :: 0 <= i < |s| ==> isAlphanumeric(s[i])
    ensures Parse(s, isAlphanumeric).Success? && AsRef(Parse(s, isAlphanumeric).value) == s
  {
  }

  /** A token holding one character outside the class is refused with the fixed message. */
  lemma ParseRejectsNonAlphanumeric(s: string, isAlphanumeric: char -> bool, k: nat)
    requires k < |s| && !isAlphanumeric(s[k])
    ensures Parse(s, isAlphanumeric) == Failure(NotAlphanumericError)
  {
  }

  /** The empty string is a valid token, since parsing checks no length. */
  lemma EmptyTokenParses(isAlphanumeric: char -> bool)
    ensures Parse("", isAlphanumeric) == Success(SubscriptionToken(""))
  {
  }

  /** Every string of ASCII letters and digits parses, whatever the exact Unicode class. */
  lemma AsciiTokenParses(s: string, isAlphanumeric: char -> bool)
    requires ExtendsAscii(isAlphanumeric)
    requires forall i :: 0 <= i < |s| ==> AsciiAlphanumeric(s[i])
    ensures Parse(s, isAlphanumeric) == Success(SubscriptionToken(s))
  {
  }
}
