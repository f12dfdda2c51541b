/**
 * The subscription lifecycle across requests: a subscriber confirmed through
 * the link they were sent, a second subscription for the same email, and a
 * subscription after confirmation.
 */
module Lifecycle {
  import opened Wrappers
  import opened Repository
  import opened SubscriptionTokens
  import Strings
  import S = Subscriptions
  import C = SubscriptionsConfirm

  /**
   * The token read back from the link in the confirmation email confirms the
   * subscriber the email was for: 200, and that email's only row is confirmed.
   */
  lemma SubscribeThenConfirm(
    t: Tables, form: S.FormData, parsers: S.Parsers, baseUrl: string,
    candidate: SubscriberId, now: Timestamp, sample: nat -> S.AlphabetIndex, faults: S.SubscribeFaults,
    isAlphanumeric: char -> bool)
    returns (id: SubscriberId)
    requires Consistent(t) && ExtendsAscii(isAlphanumeric)
    requires S.SubscribeSpec(t, form, parsers, baseUrl, candidate, now, sample, faults).sent.Some?
    ensures S.TryFromForm(form, parsers).Success?
    ensures var run := S.SubscribeSpec(t, form, parsers, baseUrl, candidate, now, sample, faults);
      var email := S.TryFromForm(form, parsers).value.email;
      var (t', r) := C.ConfirmSpec(run.tables, Strings.AfterLast(run.sent.value.link, '='), isAlphanumeric, C.NoFaults);
      && r == Success(C.Ok)
      && t' == MarkConfirmed(run.tables, id)
      && IdsWithEmail(t'.subscriptions, email) == {id}
      && t'.subscriptions[id].status == Confirmed
  {
    var run := S.SubscribeSpec(t, form, parsers, baseUrl, candidate, now, sample, faults);
    var token := S.GenerateSubscriptionToken(sample);
    id := S.SubscribeCommitted(t, form, parsers, baseUrl, candidate, now, sample, faults);
    S.SubscribeConsistent(t, form, parsers, baseUrl, candidate, now, sample, faults);
    assert run.sent.value.link == S.ConfirmationLink(baseUrl, token);
    S.GeneratedTokenInLink(baseUrl, sample);
    assert Strings.AfterLast(run.sent.value.link, '=') == token;
    ConfirmWithToken(run.tables, token, isAlphanumeric, id, S.TryFromForm(form, parsers).value.email);
  }

  /** The token held by the only row of an email confirms that row. */
  lemma ConfirmWithToken(t: Tables, token: string, isAlphanumeric: char -> bool, id: SubscriberId, email: string)
    requires Consistent(t) && ExtendsAscii(isAlphanumeric)
    requires forall i :: 0 <= i < |token| ==> AsciiAlphanumeric(token[i])
    requires IdsWithEmail(t.subscriptions, email) == {id} && LookupToken(t.tokens, token) == Some(id)
    ensures var (t', r) := C.ConfirmSpec(t, token, isAlphanumeric, C.NoFaults);
      && r == Success(C.Ok)
      && t' == MarkConfirmed(t, id)
      && IdsWithEmail(t'.subscriptions, email) == {id}
      && t'.subscriptions[id].status == Confirmed
  {
    AsciiTokenParses(token, isAlphanumeric);
    LookupTokenResolves(t.tokens, token, id);
    C.ConfirmKnownToken(t, token, isAlphanumeric, id);
    MarkConfirmedOnlyStatus(t, id);
    assert id in t.subscriptions by {
      assert id in IdsWithEmail(t.subscriptions, email);
    }
    assert IdsWithEmail(MarkConfirmed(t, id).subscriptions, email) == IdsWithEmail(t.subscriptions, email);
  }

  /**
   * Subscribing twice with the same email keeps one row, and only the second
   * token resolves: confirming with the first answers 401 and changes nothing.
   */
  lemma ResubscribeReplacesToken(
    t: Tables, form: S.FormData, parsers: S.Parsers, baseUrl: string,
    candidate1: SubscriberId, now1: Timestamp, sample1: nat -> S.AlphabetIndex, faults1: S.SubscribeFaults,
    candidate2: SubscriberId, now2: Timestamp, sample2: nat -> S.AlphabetIndex, faults2: S.SubscribeFaults,
    isAlphanumeric: char -> bool)
    returns (id: SubscriberId)
    requires Consistent(t) && ExtendsAscii(isAlphanumeric)
    requires S.SubscribeSpec(t, form, parsers, baseUrl, candidate1, now1, sample1, faults1).sent.Some?
    requires var first := S.SubscribeSpec(t, form, parsers, baseUrl, candidate1, now1, sample1, faults1);
      S.SubscribeSpec(first.tables, form, parsers, baseUrl, candidate2, now2, sample2, faults2).sent.Some?
    requires S.GenerateSubscriptionToken(sample1) != S.GenerateSubscriptionToken(sample2)
    ensures S.TryFromForm(form, parsers).Success?
    ensures var first := S.SubscribeSpec(t, form, parsers, baseUrl, candidate1, now1, sample1, faults1);
      var second := S.SubscribeSpec(first.tables, form, parsers, baseUrl, candidate2, now2, sample2, faults2);
      var email := S.TryFromForm(form, parsers).value.email;
      var token1 := S.GenerateSubscriptionToken(sample1);
      var token2 := S.GenerateSubscriptionToken(sample2);
      && IdsWithEmail(first.tables.subscriptions, email) == {id}
      && IdsWithEmail(second.tables.subscriptions, email) == {id}
      && second.tables.subscriptions == first.tables.subscriptions
      && LookupToken(second.tables.tokens, token2) == Some(id)
      && LookupToken(second.tables.tokens, token1) == None
      && C.ConfirmSpec(second.tables, token1, isAlphanumeric, C.NoFaults) == (second.tables, Success(C.Unauthorized))
  {
    var first := S.SubscribeSpec(t, form, parsers, baseUrl, candidate1, now1, sample1, faults1);
    var token1 := S.GenerateSubscriptionToken(sample1);
    id := S.SubscribeCommitted(t, form, parsers, baseUrl, candidate1, now1, sample1, faults1);
    S.SubscribeConsistent(t, form, parsers, baseUrl, candidate1, now1, sample1, faults1);
    var email := S.TryFromForm(form, parsers).value.email;
    assert HasEmail(first.tables.subscriptions, email) by {
      assert id in IdsWithEmail(first.tables.subscriptions, email);
    }
    var id2 := S.SubscribeCommitted(first.tables, form, parsers, baseUrl, candidate2, now2, sample2, faults2);
    S.SubscribeConsistent(first.tables, form, parsers, baseUrl, candidate2, now2, sample2, faults2);
    var second := S.SubscribeSpec(first.tables, form, parsers, baseUrl, candidate2, now2, sample2, faults2);
    assert id2 == id;
    // The first token was held by `id` alone, and `id` now holds the second one.
    LookupTokenResolves(first.tables.tokens, token1, id);
    LookupTokenSound(second.tables.tokens, token1);
    if token1 in second.tables.tokens.Values {
      var holder :| holder in second.tables.tokens && second.tables.tokens[holder] == token1;
      LookupTokenResolves(second.tables.tokens, S.GenerateSubscriptionToken(sample2), id);
      TokensUntouched(first, second, form, parsers, baseUrl, candidate2, now2, sample2, faults2, id, holder);
      assert false;
    }
    S.GeneratedTokenParses(sample1, isAlphanumeric);
  }

  /** The run that stored a token for `id` changed no other subscriber's token. */
  lemma TokensUntouched(
    first: S.SubscribeRun, second: S.SubscribeRun, form: S.FormData, parsers: S.Parsers, baseUrl: string,
    candidate: SubscriberId, now: Timestamp, sample: nat -> S.AlphabetIndex, faults: S.SubscribeFaults,
    id: SubscriberId, other: SubscriberId)
    requires Consistent(first.tables)
    requires second == S.SubscribeSpec(first.tables, form, parsers, baseUrl, candidate, now, sample, faults)
    requires second.sent.Some? && S.TryFromForm(form, parsers).Success?
    requires HasEmail(first.tables.subscriptions, S.TryFromForm(form, parsers).value.email)
    requires id in IdsWithEmail(first.tables.subscriptions, S.TryFromForm(form, parsers).value.email)
    requires other != id && other in second.tables.tokens
    ensures other in first.tables.tokens && second.tables.tokens[other] == first.tables.tokens[other]
  {
    var ns := S.TryFromForm(form, parsers).value;
    UpsertExistingEmail(first.tables, candidate, ns.email, ns.name, now, id);
    StoreTokenReplaces(first.tables, id, S.GenerateSubscriptionToken(sample));
  }

  /** Subscribing again after confirming leaves the subscriber confirmed. */
  lemma ConfirmedStaysConfirmed(
    t: Tables, form: S.FormData, parsers: S.Parsers, baseUrl: string,
    candidate: SubscriberId, now: Timestamp, sample: nat -> S.AlphabetIndex, faults: S.SubscribeFaults,
    id: SubscriberId)
    requires id in t.subscriptions && t.subscriptions[id].status == Confirmed
    ensures var t' := S.SubscribeSpec(t, form, parsers, baseUrl, candidate, now, sample, faults).tables;
      id in t'.subscriptions && t'.subscriptions[id].status == Confirmed
  {
    S.SubscribeKeepsRows(t, form, parsers, baseUrl, candidate, now, sample, faults);
  }
}
