/**
 * The confirm workflow: check the token's shape, look the token up, answer 401
 * when nobody holds it, and otherwise mark the holder confirmed. The two
 * statements run on the pool, outside any transaction.
 */
module SubscriptionsConfirm {
  import opened Wrappers
  import opened Repository
  import opened SubscriptionTokens

  /** A malformed token, or an unexpected failure with the context it was wrapped in. */
  datatype ConfirmError = ValidationError(message: string) | UnexpectedError(context: string)

  /** The successful answers of `confirm`: 200, or 401 for a token nobody holds. */
  datatype Response = Ok | Unauthorized

  const BadRequest: nat := 400
  const InternalServerError: nat := 500

  /** `ResponseError::status_code` for `ConfirmError`. */
  function StatusCode(e: ConfirmError): (code: nat)
    ensures code == BadRequest <==> e.ValidationError?
    ensures code == InternalServerError <==> e.UnexpectedError?
  {
    match e
    case ValidationError(_) => BadRequest
    case UnexpectedError(_) => InternalServerError
  }

  /** The HTTP status of a finished request. */
  function ResponseStatus(r: Result<Response, ConfirmError>): (code: nat)
    ensures code == 200 <==> r == Success(Ok)
    ensures code == 401 <==> r == Success(Unauthorized)
  {
    match r
    case Success(Ok) => 200
    case Success(Unauthorized) => 401
    case Failure(e) => StatusCode(e)
  }

  const LookupContext: string := "Failed getting subscriber from id token."
  const ConfirmContext: string := "Failed to confirm subscriber"

  /** Whether the lookup and the update fail in one run. */
  datatype ConfirmFaults = ConfirmFaults(lookup: bool, update: bool)

  const NoFaults: ConfirmFaults := ConfirmFaults(false, false)

  /** What one call of `confirm` does to the tables `t`, and its answer. */
  ghost function ConfirmSpec(t: Tables, raw: string, isAlphanumeric: char -> bool, faults: ConfirmFaults)
    : (Tables, Result<Response, ConfirmError>)
  {
    match Parse(raw, isAlphanumeric)
    case Failure(message) => (t, Failure(ValidationError(message)))
    case Success(token) =>
      if faults.lookup then (t, Failure(UnexpectedError(LookupContext)))
      else
        match LookupToken(t.tokens, AsRef(token))
        case None => (t, Success(Unauthorized))
        case Some(id) =>
          if faults.update then (t, Failure(UnexpectedError(ConfirmContext)))
          else (MarkConfirmed(t, id), Success(Ok))
  }

  // ---------------------------------------------------------------------
  // The steps, on the database

  /** `confirm_subscriber`: the status update. */
  method ConfirmSubscriber(db: Database, subscriberId: SubscriberId, fail: bool) returns (r: Result<(), SqlError>)
    requires db.Valid()
    modifies db
    ensures db.Valid()
    ensures r.Success? <==> !fail
    ensures db.State() == if fail then old(db.State()) else MarkConfirmed(old(db.State()), subscriberId)
  {
    if fail {
      return Failure(QueryFailed);
    }
    MarkConfirmedConsistent(db.State(), subscriberId);
    if subscriberId in db.subscriptions {
      db.subscriptions := db.subscriptions[subscriberId := db.subscriptions[subscriberId].(status := Confirmed)];
    }
    r := Success(());
  }

  /** `get_subscriber_id_from_token`: no row is an answer, `None`, not an error. */
  method GetSubscriberIdFromToken(db: Database, token: SubscriptionToken, fail: bool)
    returns (r: Result<Option<SubscriberId>, SqlError>)
    requires db.Valid()
    ensures fail ==> r == Failure(QueryFailed)
    ensures !fail ==> r == Success(LookupToken(db.tokens, AsRef(token)))
    ensures !fail ==> (r.value.None? <==> AsRef(token) !in db.tokens.Values)
    ensures !fail && r.value.Some? ==> r.value.value in db.tokens && db.tokens[r.value.value] == AsRef(token)
  {
    if fail {
      return Failure(QueryFailed);
    }
    if AsRef(token) in db.tokens.Values {
      var id :| id in db.tokens && db.tokens[id] == AsRef(token);
      LookupTokenResolves(db.tokens, AsRef(token), id);
      return Success(Some(id));
    }
    r := Success(None);
  }

  /** `confirm`: the whole request. */
  method Confirm(db: Database, raw: string, isAlphanumeric: char -> bool, faults: ConfirmFaults)
    returns (r: Result<Response, ConfirmError>)
    requires db.Valid()
    modifies db
    ensures db.Valid()
    ensures (db.State(), r) == ConfirmSpec(old(db.State()), raw, isAlphanumeric, faults)
  {
    var parsed := Parse(raw, isAlphanumeric);
    if parsed.Failure? {
      return Failure(ValidationError(parsed.error));
    }
    var token := parsed.value;

    var id := GetSubscriberIdFromToken(db, token, faults.lookup);
    if id.Failure? {
      return Failure(UnexpectedError(LookupContext));
    }
    match id.value
    case None =>
      r := Success(Unauthorized);
    case Some(subscriberId) =>
      var confirmed := ConfirmSubscriber(db, subscriberId, faults.update);
      if confirmed.Failure? {
        return Failure(UnexpectedError(ConfirmContext));
      }
      r := Success(Ok);
  }

  // ---------------------------------------------------------------------
  // What a run promises

  /** A token with a character outside the class answers 400, looks nothing up and changes nothing. */
  lemma ConfirmRejectsMalformed(t: Tables, raw: string, isAlphanumeric: char -> bool, faults: ConfirmFaults, k: nat)
    requires k < |raw| && !isAlphanumeric(raw[k])
    ensures ConfirmSpec(t, raw, isAlphanumeric, faults) == (t, Failure(ValidationError(NotAlphanumericError)))
    ensures ResponseStatus(ConfirmSpec(t, raw, isAlphanumeric, faults).1) == BadRequest
  {
  }

  /** A well-formed token that nobody holds answers 401 and changes nothing. */
  lemma ConfirmUnknownToken(t: Tables, raw: string, isAlphanumeric: char -> bool, faults: ConfirmFaults)
    requires forall i :: 0 <= i < |raw| ==> isAlphanumeric(raw[i])
    requires raw !in t.tokens.Values && !faults.lookup
    ensures ConfirmSpec(t, raw, isAlphanumeric, faults) == (t, Success(Unauthorized))
    ensures ResponseStatus(ConfirmSpec(t, raw, isAlphanumeric, faults).1) == 401
  {
  }

  /** A token held by `id` confirms `id`: its status becomes `confirmed`, nothing else changes, and the answer is 200. */
  lemma ConfirmKnownToken(t: Tables, raw: string, isAlphanumeric: char -> bool, id: SubscriberId)
    requires Consistent(t)
    requires forall i :: 0 <= i < |raw| ==> isAlphanumeric(raw[i])
    requires id in t.tokens && t.tokens[id] == raw
    ensures var (t', r) := ConfirmSpec(t, raw, isAlphanumeric, NoFaults);
      && r == Success(Ok)
      && t' == MarkConfirmed(t, id)
      && id in t'.subscriptions && t'.subscriptions[id].status == Confirmed
      && t'.subscriptions[id] == t.subscriptions[id].(status := Confirmed)
      && (forall other :: other in t.subscriptions && other != id ==> t'.subscriptions[other] == t.subscriptions[other])
      && t'.subscriptions.Keys == t.subscriptions.Keys
      && t'.tokens == t.tokens
  {
    LookupTokenResolves(t.tokens, raw, id);
    MarkConfirmedOnlyStatus(t, id);
  }

  /** A failing lookup or update answers 500 and changes nothing. */
  lemma ConfirmStorageFailure(t: Tables, raw: string, isAlphanumeric: char -> bool, faults: ConfirmFaults)
    requires forall i :: 0 <= i < |raw| ==> isAlphanumeric(raw[i])
    requires faults.lookup || (faults.update && raw in t.tokens.Values)
    ensures var (t', r) := ConfirmSpec(t, raw, isAlphanumeric, faults);
      && t' == t
      && r.Failure? && r.error.UnexpectedError?
      && ResponseStatus(r) == InternalServerError
  {
    LookupTokenSound(t.tokens, raw);
  }

  /** Confirming again with the same token gives the same answer and changes nothing more. */
  lemma ConfirmIdempotent(t: Tables, raw: string, isAlphanumeric: char -> bool)
    ensures var (t1, r1) := ConfirmSpec(t, raw, isAlphanumeric, NoFaults);
      ConfirmSpec(t1, raw, isAlphanumeric, NoFaults) == (t1, r1)
  {
    var parsed := Parse(raw, isAlphanumeric);
    if parsed.Success? {
      var found := LookupToken(t.tokens, raw);
      if found.Some? {
        MarkConfirmedOnlyStatus(t, found.value);
        MarkConfirmedIdempotent(t, found.value);
      }
    }
  }

  /** Every run keeps the schema's constraints. */
  lemma ConfirmConsistent(t: Tables, raw: string, isAlphanumeric: char -> bool, faults: ConfirmFaults)
    requires Consistent(t)
    ensures Consistent(ConfirmSpec(t, raw, isAlphanumeric, faults).0)
  {
    var found := LookupToken(t.tokens, raw);
    if found.Some? {
      MarkConfirmedConsistent(t, found.value);
    }
  }
}
