/**
 * The two Postgres tables the workflows use, as finite maps, with the meaning
 * of each SQL statement the workflows run.
 *
 *   subscriptions:        id -> (email, name, subscribed_at, status), email unique
 *   subscription_tokens:  subscriber_id -> subscription_token, the token unique too
 *
 * The constraints assumed of the schema: `id` is the primary key of
 * subscriptions and `email` is unique; `subscription_token` is the primary key
 * of subscription_tokens, `subscriber_id` is unique (the conflict target of
 * the token upsert) and references subscriptions. A statement that would break
 * one of them fails and changes nothing.
 */
module Repository {
  import opened Wrappers

  /** A `Uuid`. */
  type SubscriberId = nat

  /** A `chrono::DateTime<Utc>`; only its identity matters here. */
  type Timestamp = nat

  datatype Status = PendingConfirmation | Confirmed

  /** The text stored in the `status` column. */
  function StatusColumn(s: Status): (r: string)
    ensures r == "confirmed" <==> s == Confirmed
  {
    match s
    case PendingConfirmation => "pending_confirmation"
    case Confirmed => "confirmed"
  }

  datatype Subscriber = Subscriber(email: string, name: string, subscribedAt: Timestamp, status: Status)

  datatype Tables = Tables(subscriptions: map<SubscriberId, Subscriber>, tokens: map<SubscriberId, string>)

  datatype SqlError = QueryFailed | UniqueViolation | ForeignKeyViolation

  ghost predicate EmailsUnique(subscriptions: map<SubscriberId, Subscriber>) {
    forall a, b :: a in subscriptions && b in subscriptions && subscriptions[a].email == subscriptions[b].email ==> a == b
  }

  ghost predicate TokensUnique(tokens: map<SubscriberId, string>) {
    forall a, b :: a in tokens && b in tokens && tokens[a] == tokens[b] ==> a == b
  }

  /** What the schema's constraints guarantee of every committed state. */
  ghost predicate Consistent(t: Tables) {
    && EmailsUnique(t.subscriptions)
    && TokensUnique(t.tokens)
    && t.tokens.Keys <= t.subscriptions.Keys
  }

  predicate HasEmail(subscriptions: map<SubscriberId, Subscriber>, email: string) {
    exists id :: id in subscriptions && subscriptions[id].email == email
  }

  /** The ids whose row holds `email`. */
  function IdsWithEmail(subscriptions: map<SubscriberId, Subscriber>, email: string): set<SubscriberId> {
    set id | id in subscriptions && subscriptions[id].email == email
  }

  /** Some subscriber other than `id` holds `token`. */
  predicate TokenHeldByOther(tokens: map<SubscriberId, string>, id: SubscriberId, token: string) {
    exists other :: other in tokens && other != id && tokens[other] == token
  }

  /**
   * INSERT INTO subscriptions (id, email, name, subscribed_at, status)
   * VALUES (candidate, email, name, now, 'pending_confirmation')
   * ON CONFLICT (email) DO UPDATE SET email = email RETURNING id
   */
  ghost function Upsert(t: Tables, candidate: SubscriberId, email: string, name: string, now: Timestamp)
    : (Tables, Result<SubscriberId, SqlError>)
  {
    if HasEmail(t.subscriptions, email) then
      var id :| id in t.subscriptions && t.subscriptions[id].email == email;
      (t.(subscriptions := t.subscriptions[id := t.subscriptions[id].(email := email)]), Success(id))
    else if candidate in t.subscriptions then
      (t, Failure(UniqueViolation))
    else
      (t.(subscriptions := t.subscriptions[candidate := Subscriber(email, name, now, PendingConfirmation)]), Success(candidate))
  }

  /**
   * INSERT INTO subscription_tokens (subscription_token, subscriber_id) VALUES (token, id)
   * ON CONFLICT (subscriber_id) DO UPDATE SET subscription_token = EXCLUDED.subscription_token
   */
  function StoreTokenRow(t: Tables, id: SubscriberId, token: string): (Tables, Result<(), SqlError>) {
    if id !in t.subscriptions then (t, Failure(ForeignKeyViolation))
    else if TokenHeldByOther(t.tokens, id, token) then (t, Failure(UniqueViolation))
    else (t.(tokens := t.tokens[id := token]), Success(()))
  }

  /** SELECT subscriber_id FROM subscription_tokens WHERE subscription_token = token */
  ghost function LookupToken(tokens: map<SubscriberId, string>, token: string): Option<SubscriberId> {
    if token in tokens.Values then
      var id :| id in tokens && tokens[id] == token;
      Some(id)
    else None
  }

  /** UPDATE subscriptions SET status = 'confirmed' WHERE id = id */
  function MarkConfirmed(t: Tables, id: SubscriberId): Tables {
    if id in t.subscriptions then
      t.(subscriptions := t.subscriptions[id := t.subscriptions[id].(status := Confirmed)])
    else t
  }

  // ---------------------------------------------------------------------
  // The subscriber upsert

  /** On an email already stored, the upsert leaves every row as it was and returns the stored row's id. */
  lemma UpsertExistingEmail(t: Tables, candidate: SubscriberId, email: string, name: string, now: Timestamp, id: SubscriberId)
    requires EmailsUnique(t.subscriptions)
    requires id in t.subscriptions && t.subscriptions[id].email == email
    ensures Upsert(t, candidate, email, name, now) == (t, Success(id))
  {
    assert t.subscriptions[id := t.subscriptions[id].(email := email)] == t.subscriptions;
  }

  /** On a new email and a fresh id, the upsert adds exactly one pending row and returns the fresh id. */
  lemma UpsertNewEmail(t: Tables, candidate: SubscriberId, email: string, name: string, now: Timestamp)
    requires !HasEmail(t.subscriptions, email) && candidate !in t.subscriptions
    ensures var (t', r) := Upsert(t, candidate, email, name, now);
      && r == Success(candidate)
      && t'.subscriptions.Keys == t.subscriptions.Keys + {candidate}
      && |t'.subscriptions| == |t.subscriptions| + 1
      && t'.subscriptions[candidate] == Subscriber(email, name, now, PendingConfirmation)
      && (forall id :: id in t.subscriptions ==> t'.subscriptions[id] == t.subscriptions[id])
      && t'.tokens == t.tokens
  {
  }

  /** On a new email whose candidate id is taken, the upsert fails and changes nothing. */
  lemma UpsertIdCollision(t: Tables, candidate: SubscriberId, email: string, name: string, now: Timestamp)
    requires !HasEmail(t.subscriptions, email) && candidate in t.subscriptions
    ensures Upsert(t, candidate, email, name, now) == (t, Failure(UniqueViolation))
  {
  }

  /**
   * The upsert never rewrites a stored row: name, timestamp and status of every
   * existing subscriber are kept, so a confirmed subscriber stays confirmed.
   * On success the returned id holds the email.
   */
  lemma UpsertKeepsRows(t: Tables, candidate: SubscriberId, email: string, name: string, now: Timestamp)
    ensures var (t', r) := Upsert(t, candidate, email, name, now);
      && t'.tokens == t.tokens
      && t.subscriptions.Keys <= t'.subscriptions.Keys
      && (forall id :: id in t.subscriptions ==> t'.subscriptions[id] == t.subscriptions[id])
      && (r.Success? ==> r.value in t'.subscriptions && t'.subscriptions[r.value].email == email)
      && (r.Failure? ==> t' == t)
  {
    if HasEmail(t.subscriptions, email) {
      var id :| id in t.subscriptions && t.subscriptions[id].email == email;
      assert t.subscriptions[id := t.subscriptions[id].(email := email)] == t.subscriptions;
    }
  }

  /** The upsert keeps the constraints, and afterwards exactly one row holds the email. */
  lemma UpsertConsistent(t: Tables, candidate: SubscriberId, email: string, name: string, now: Timestamp)
    requires Consistent(t)
    ensures var (t', r) := Upsert(t, candidate, email, name, now);
      && Consistent(t')
      && (r.Success? ==> IdsWithEmail(t'.subscriptions, email) == {r.value})
  {
    UpsertKeepsRows(t, candidate, email, name, now);
  }

  // ---------------------------------------------------------------------
  // The token upsert

  /**
   * After storing `token` for `id`, the token resolves to `id`, no other string
   * resolves to `id` (so the previous token is dead), every other subscriber's
   * token is untouched and no subscriber row changes.
   */
  lemma StoreTokenReplaces(t: Tables, id: SubscriberId, token: string)
    requires Consistent(t)
    requires id in t.subscriptions && !TokenHeldByOther(t.tokens, id, token)
    ensures var (t', r) := StoreTokenRow(t, id, token);
      && r == Success(())
      && t'.subscriptions == t.subscriptions
      && LookupToken(t'.tokens, token) == Some(id)
      && (forall previous :: previous != token ==> LookupToken(t'.tokens, previous) != Some(id))
      && (forall other :: other != id ==> (other in t'.tokens <==> other in t.tokens))
      && (forall other :: other != id && other in t.tokens ==> t'.tokens[other] == t.tokens[other])
      && Consistent(t')
  {
    var t' := StoreTokenRow(t, id, token).0;
    assert TokensUnique(t'.tokens);
    LookupTokenResolves(t'.tokens, token, id);
    forall previous | previous != token
      ensures LookupToken(t'.tokens, previous) != Some(id)
    {
      LookupTokenSound(t'.tokens, previous);
    }
  }

  /** The token upsert fails exactly when the subscriber is unknown or another subscriber holds the token, and then changes nothing. */
  lemma StoreTokenFails(t: Tables, id: SubscriberId, token: string)
    ensures var (t', r) := StoreTokenRow(t, id, token);
      && (r.Failure? <==> id !in t.subscriptions || TokenHeldByOther(t.tokens, id, token))
      && (r.Failure? ==> t' == t)
  {
  }

  /** Whatever its outcome, the token upsert keeps the constraints. */
  lemma StoreTokenConsistent(t: Tables, id: SubscriberId, token: string)
    requires Consistent(t)
    ensures Consistent(StoreTokenRow(t, id, token).0)
  {
  }

  // ---------------------------------------------------------------------
  // The token lookup

  /** A lookup that finds something finds a subscriber holding the token. */
  lemma LookupTokenSound(tokens: map<SubscriberId, string>, token: string)
    ensures LookupToken(tokens, token).Some? ==>
      LookupToken(tokens, token).value in tokens && tokens[LookupToken(tokens, token).value] == token
    ensures LookupToken(tokens, token).None? <==> token !in tokens.Values
  {
  }

  /** With tokens unique, the lookup returns exactly the subscriber that holds the token. */
  lemma LookupTokenResolves(tokens: map<SubscriberId, string>, token: string, id: SubscriberId)
    requires TokensUnique(tokens)
    ensures LookupToken(tokens, token) == Some(id) <==> id in tokens && tokens[id] == token
  {
  }

  // ---------------------------------------------------------------------
  // The status update

  /** The update sets the status of row `id` and changes nothing else; it does nothing when no row has that id. */
  lemma MarkConfirmedOnlyStatus(t: Tables, id: SubscriberId)
    ensures var t' := MarkConfirmed(t, id);
      && t'.tokens == t.tokens
      && t'.subscriptions.Keys == t.subscriptions.Keys
      && (id in t.subscriptions ==> t'.subscriptions[id] == t.subscriptions[id].(status := Confirmed))
      && (forall other :: other in t.subscriptions && other != id ==> t'.subscriptions[other] == t.subscriptions[other])
      && (id !in t.subscriptions ==> t' == t)
  {
  }

  /** Confirming twice is confirming once. */
  lemma MarkConfirmedIdempotent(t: Tables, id: SubscriberId)
    ensures MarkConfirmed(MarkConfirmed(t, id), id) == MarkConfirmed(t, id)
  {
    if id in t.subscriptions {
      var t' := MarkConfirmed(t, id);
      assert t'.subscriptions[id := t'.subscriptions[id].(status := Confirmed)] == t'.subscriptions;
    }
  }

  /** The status update keeps the constraints. */
  lemma MarkConfirmedConsistent(t: Tables, id: SubscriberId)
    requires Consistent(t)
    ensures Consistent(MarkConfirmed(t, id))
  {
  }

  /** A Postgres transaction, for this model the committed state it started from. */
  datatype Transaction = Transaction(snapshot: Tables)

  /** The connection pool: the two tables behind it, updated in place by each statement. */
  class Database {
    var subscriptions: map<SubscriberId, Subscriber>
    var tokens: map<SubscriberId, string>

    function State(): Tables
      reads this
    {
      Tables(subscriptions, tokens)
    }

    ghost predicate Valid()
      reads this
    {
      Consistent(State())
    }

    /** An empty database. */
    constructor ()
      ensures Valid() && subscriptions == map[] && tokens == map[]
    {
      subscriptions := map[];
      tokens := map[];
    }

    /** `pool.begin()`: acquire a connection and open a transaction, or fail to. */
    method Begin(fail: bool) returns (r: Result<Transaction, SqlError>)
      requires Valid()
      ensures r.Success? <==> !fail
      ensures r.Success? ==> r.value.snapshot == State() && Consistent(r.value.snapshot)
    {
      if fail {
        return Failure(QueryFailed);
      }
      r := Success(Transaction(State()));
    }

    /** Dropping an uncommitted transaction: every write made in it is undone. */
    method Rollback(tx: Transaction)
      requires Consistent(tx.snapshot)
      modifies this
      ensures Valid() && State() == tx.snapshot
    {
      subscriptions, tokens := tx.snapshot.subscriptions, tx.snapshot.tokens;
    }

    /** `transaction.commit()`: the writes become durable, or, when the commit fails, are undone. */
    method Commit(tx: Transaction, fail: bool) returns (r: Result<(), SqlError>)
      requires Valid() && Consistent(tx.snapshot)
      modifies this
      ensures Valid()
      ensures r.Success? <==> !fail
      ensures State() == if fail then tx.snapshot else old(State())
    {
      if fail {
        Rollback(tx);
        return Failure(QueryFailed);
      }
      r := Success(());
    }
  }
}
