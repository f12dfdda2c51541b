/**
 * The subscribe workflow: validate the form, upsert the subscriber and store a
 * fresh token inside one transaction, commit, and only then send the email
 * carrying the confirmation link.
 *
 * What the outside world decides is passed in: the name and email validators,
 * the random draws behind the token and the id, the clock, and whether each
 * database call and the email send fails.
 */
module Subscriptions {
  import opened Wrappers
  import opened Repository
  import opened SubscriptionTokens
  import Strings

  datatype FormData = FormData(email: string, name: string)

  /** A validated request: the values `SubscriberEmail::parse` and `SubscriberName::parse` produced. */
  datatype NewSubscriber = NewSubscriber(email: string, name: string)

  /** `SubscriberName::parse` and `SubscriberEmail::parse`, whose rules are not part of this model. */
  datatype Parsers = Parsers(name: string -> Result<string, string>, email: string -> Result<string, string>)

  /** `TryFrom<FormData> for NewSubscriber`: the name is checked first, then the email. */
  function TryFromForm(form: FormData, parsers: Parsers): (r: Result<NewSubscriber, string>)
    ensures r.Success? <==> parsers.name(form.name).Success? && parsers.email(form.email).Success?
    ensures r.Success? ==> r.value == NewSubscriber(parsers.email(form.email).value, parsers.name(form.name).value)
    ensures parsers.name(form.name).Failure? ==> r == Failure(parsers.name(form.name).error)
    ensures parsers.name(form.name).Success? && parsers.email(form.email).Failure? ==>
      r == Failure(parsers.email(form.email).error)
  {
    match parsers.name(form.name)
    case Failure(e) => Failure(e)
    case Success(name) =>
      match parsers.email(form.email)
      case Failure(e) => Failure(e)
      case Success(email) => Success(NewSubscriber(email, name))
  }

  /** A refused form, or an unexpected failure with the context it was wrapped in. */
  datatype SubscribeError = ValidationError(message: string) | UnexpectedError(context: string)

  const StatusOk: nat := 200
  const BadRequest: nat := 400
  const InternalServerError: nat := 500

  /** `ResponseError::status_code` for `SubscribeError`. */
  function StatusCode(e: SubscribeError): (code: nat)
    ensures code == BadRequest <==> e.ValidationError?
    ensures code == InternalServerError <==> e.UnexpectedError?
  {
    match e
    case ValidationError(_) => BadRequest
    case UnexpectedError(_) => InternalServerError
  }

  /** The HTTP status of a finished request: 200 on success, else the error's. */
  function ResponseStatus(r: Result<(), SubscribeError>): (code: nat)
    ensures code == StatusOk <==> r.Success?
  {
    if r.Success? then StatusOk else StatusCode(r.error)
  }

  const BeginContext: string := "Failed to acquire a Postgres connection from the pool."
  const InsertContext: string := "Failed to insert a new subscriber in the database."
  const StoreContext: string := "Failed to store the confirmation token for a new subscriber."
  const CommitContext: string := "Failed to comit SQL transaction to store a new subscriber."
  const SendContext: string := "Failed to send a confirmation email."

  // ---------------------------------------------------------------------
  // The token and the link

  /** What one draw of `rng.sample(Alphanumeric)` selects: a position in its 62-character alphabet. */
  type AlphabetIndex = i: nat | i < 62

  /** Character `i` of the alphabet of `rand::distributions::Alphanumeric`: "A".."Z", then "a".."z", then "0".."9". */
  function AlphabetChar(i: AlphabetIndex): (c: char)
    ensures AsciiAlphanumeric(c)
  {
    if i < 26 then ('A' as int + i) as char
    else if i < 52 then ('a' as int + i - 26) as char
    else ('0' as int + i - 52) as char
  }

  /** Every ASCII letter and digit is in the alphabet, so the alphabet is exactly the ASCII alphanumerics. */
  lemma AlphabetCoversAscii(c: char) returns (i: AlphabetIndex)
    requires AsciiAlphanumeric(c)
    ensures AlphabetChar(i) == c
  {
    i := if 'A' <= c <= 'Z' then c as int - 'A' as int
      else if 'a' <= c <= 'z' then 26 + c as int - 'a' as int
      else 52 + c as int - '0' as int;
  }

  /** The alphabet has no repeated character, so each draw selects a distinct character. */
  lemma AlphabetInjective(i: AlphabetIndex, j: AlphabetIndex)
    requires AlphabetChar(i) == AlphabetChar(j)
    ensures i == j
  {
  }

  const TokenLength: nat := 25

  /** `repeat_with(|| rng.sample(Alphanumeric)).map(char::from).take(n).collect()`, draw `i` giving character `i`. */
  function TakeSamples(sample: nat -> AlphabetIndex, n: nat): (r: string)
    ensures |r| == n
    ensures forall i :: 0 <= i < n ==> r[i] == AlphabetChar(sample(i))
  {
    if n == 0 then [] else TakeSamples(sample, n - 1) + [AlphabetChar(sample(n - 1))]
  }

  /** `generate_subscription_token`: 25 characters, each an ASCII letter or digit. */
  function GenerateSubscriptionToken(sample: nat -> AlphabetIndex): (r: string)
    ensures |r| == TokenLength
    ensures forall i :: 0 <= i < |r| ==> AsciiAlphanumeric(r[i])
  {
    TakeSamples(sample, TokenLength)
  }

  /** A generated token passes `SubscriptionToken::parse` and reads back unchanged. */
  lemma GeneratedTokenParses(sample: nat -> AlphabetIndex, isAlphanumeric: char -> bool)
    requires ExtendsAscii(isAlphanumeric)
    ensures var token := GenerateSubscriptionToken(sample);
      Parse(token, isAlphanumeric) == Success(SubscriptionToken(token))
  {
    AsciiTokenParses(GenerateSubscriptionToken(sample), isAlphanumeric);
  }

  const ConfirmPath: string := "/subscriptions/confirm?subscription_token="

  /** The link built in `send_confirmation_email`. */
  function ConfirmationLink(baseUrl: string, token: string): string {
    baseUrl + ConfirmPath + token
  }

  /**
   * The link starts with the base URL, and the token is the value of its
   * `subscription_token` parameter: everything after the last '=', whenever the
   * token holds no '=' (a generated token never does).
   */
  lemma {:induction false} ConfirmationLinkCarriesToken(baseUrl: string, token: string)
    requires '=' !in token
    ensures var link := ConfirmationLink(baseUrl, token);
      && link[..|baseUrl|] == baseUrl
      && link[|baseUrl|..|baseUrl| + |ConfirmPath|] == ConfirmPath
      && Strings.AfterLast(link, '=') == token
  {
    var prefix := baseUrl + ConfirmPath[..|ConfirmPath| - 1];
    assert ConfirmPath == ConfirmPath[..|ConfirmPath| - 1] + ['='];
    assert ConfirmationLink(baseUrl, token) == prefix + ['='] + token;
    Strings.AfterLastOfJoin(prefix, '=', token);
  }

  /** A generated token is recovered from the link it is sent in. */
  lemma GeneratedTokenInLink(baseUrl: string, sample: nat -> AlphabetIndex)
    ensures var token := GenerateSubscriptionToken(sample);
      Strings.AfterLast(ConfirmationLink(baseUrl, token), '=') == token
  {
    var token := GenerateSubscriptionToken(sample);
    assert '=' !in token by {
      assert forall i :: 0 <= i < |token| ==> token[i] != '=';
    }
    ConfirmationLinkCarriesToken(baseUrl, token);
  }

  // ---------------------------------------------------------------------
  // The workflow as a function of the committed state

  /** The email `send_confirmation_email` hands to the email client; the rendered bodies are not modelled. */
  datatype ConfirmationEmail = ConfirmationEmail(recipient: string, subject: string, link: string)

  const WelcomeSubject: string := "Welcome!"

  /** Which of the database steps fail in one run. */
  datatype TransactionFaults = TransactionFaults(begin: bool, insert: bool, storeToken: bool, commit: bool)

  /** Which of the fallible steps fail in one run: the database steps, and the email send. */
  datatype SubscribeFaults = SubscribeFaults(db: TransactionFaults, send: bool)

  const NoFaults: SubscribeFaults := SubscribeFaults(TransactionFaults(false, false, false, false), false)

  /** The durable state after a run, the handler's result, and the email it tried to send, if any. */
  datatype SubscribeRun = SubscribeRun(tables: Tables, result: Result<(), SubscribeError>, sent: Option<ConfirmationEmail>)

  /**
   * The transaction of `subscribe`: open it, upsert the subscriber, store the
   * token, commit. The committed tables, or the context of the step that failed
   * (the transaction is then rolled back).
   */
  ghost function Transact(
    t: Tables, ns: NewSubscriber, candidate: SubscriberId, now: Timestamp, token: string, faults: TransactionFaults)
    : Result<Tables, string>
  {
    if faults.begin then Failure(BeginContext)
    else
      var (t1, inserted) := if faults.insert then (t, Failure(QueryFailed)) else Upsert(t, candidate, ns.email, ns.name, now);
      if inserted.Failure? then Failure(InsertContext)
      else
        var (t2, stored) := if faults.storeToken then (t1, Failure(QueryFailed)) else StoreTokenRow(t1, inserted.value, token);
        if stored.Failure? then Failure(StoreContext)
        else if faults.commit then Failure(CommitContext)
        else Success(t2)
  }

  /** What one call of `subscribe` does, starting from the committed tables `t`. */
  ghost function SubscribeSpec(
    t: Tables, form: FormData, parsers: Parsers, baseUrl: string,
    candidate: SubscriberId, now: Timestamp, sample: nat -> AlphabetIndex, faults: SubscribeFaults): SubscribeRun
  {
    match TryFromForm(form, parsers)
    case Failure(message) => SubscribeRun(t, Failure(ValidationError(message)), None)
    case Success(ns) =>
      var token := GenerateSubscriptionToken(sample);
      match Transact(t, ns, candidate, now, token, faults.db)
      case Failure(context) => SubscribeRun(t, Failure(UnexpectedError(context)), None)
      case Success(committed) =>
        var email := ConfirmationEmail(ns.email, WelcomeSubject, ConfirmationLink(baseUrl, token));
        SubscribeRun(committed, if faults.send then Failure(UnexpectedError(SendContext)) else Success(()), Some(email))
  }

  // ---------------------------------------------------------------------
  // What a run promises

  /** A refused form answers 400 with the validator's message; no transaction is opened and nothing is sent. */
  lemma SubscribeRejectsInvalidForm(
    t: Tables, form: FormData, parsers: Parsers, baseUrl: string,
    candidate: SubscriberId, now: Timestamp, sample: nat -> AlphabetIndex, faults: SubscribeFaults)
    requires TryFromForm(form, parsers).Failure?
    ensures var run := SubscribeSpec(t, form, parsers, baseUrl, candidate, now, sample, faults);
      && run.tables == t
      && run.result == Failure(ValidationError(TryFromForm(form, parsers).error))
      && ResponseStatus(run.result) == BadRequest
      && run.sent == None
  {
  }

  /**
   * All or nothing before the commit: a run that sends no email leaves both
   * tables as they were and fails, and a failure of the transaction, the upsert,
   * the token store or the commit answers 500 unsent.
   */
  lemma SubscribeAllOrNothing(
    t: Tables, form: FormData, parsers: Parsers, baseUrl: string,
    candidate: SubscriberId, now: Timestamp, sample: nat -> AlphabetIndex, faults: SubscribeFaults)
    ensures var run := SubscribeSpec(t, form, parsers, baseUrl, candidate, now, sample, faults);
      && (run.sent == None ==> run.tables == t && run.result.Failure?)
      && (TryFromForm(form, parsers).Success? && (faults.db.begin || faults.db.insert || faults.db.storeToken || faults.db.commit) ==>
            && run.tables == t
            && run.sent == None
            && run.result.Failure? && run.result.error.UnexpectedError?
            && ResponseStatus(run.result) == InternalServerError)
  {
    var parsed := TryFromForm(form, parsers);
    if parsed.Success? && (faults.db.begin || faults.db.insert || faults.db.storeToken || faults.db.commit) {
      TransactFailsOnFault(t, parsed.value, candidate, now, GenerateSubscriptionToken(sample), faults.db);
    }
  }

  /** A fault in any database step aborts the transaction. */
  lemma TransactFailsOnFault(
    t: Tables, ns: NewSubscriber, candidate: SubscriberId, now: Timestamp, token: string, faults: TransactionFaults)
    requires faults.begin || faults.insert || faults.storeToken || faults.commit
    ensures Transact(t, ns, candidate, now, token, faults).Failure?
  {
    if !faults.begin && !faults.insert {
      var upserted := Upsert(t, candidate, ns.email, ns.name, now);
      assert upserted.1.Success? ==> faults.storeToken || faults.commit;
    }
  }

  /**
   * A failed email send does not undo the commit: the tables are those of a
   * run with the same database outcome and a working email client, the email
   * was attempted, and the answer is 500.
   */
  lemma SubscribeEmailFailureKeepsCommit(
    t: Tables, form: FormData, parsers: Parsers, baseUrl: string,
    candidate: SubscriberId, now: Timestamp, sample: nat -> AlphabetIndex, failed: SubscribeFaults, delivered: SubscribeFaults)
    requires failed.db == delivered.db && failed.send && !delivered.send
    ensures var failedRun := SubscribeSpec(t, form, parsers, baseUrl, candidate, now, sample, failed);
      var deliveredRun := SubscribeSpec(t, form, parsers, baseUrl, candidate, now, sample, delivered);
      && failedRun.tables == deliveredRun.tables
      && failedRun.sent == deliveredRun.sent
      && (deliveredRun.sent.Some? ==>
            && deliveredRun.result == Success(())
            && failedRun.result == Failure(UnexpectedError(SendContext))
            && ResponseStatus(failedRun.result) == InternalServerError)
  {
  }

  /** A committed transaction keeps the schema's constraints. */
  lemma TransactConsistent(
    t: Tables, ns: NewSubscriber, candidate: SubscriberId, now: Timestamp, token: string, faults: TransactionFaults)
    requires Consistent(t)
    ensures var c := Transact(t, ns, candidate, now, token, faults); c.Success? ==> Consistent(c.value)
  {
    if !faults.begin && !faults.insert {
      UpsertConsistent(t, candidate, ns.email, ns.name, now);
      var upserted := Upsert(t, candidate, ns.email, ns.name, now);
      if upserted.1.Success? {
        StoreTokenConsistent(upserted.0, upserted.1.value, token);
      }
    }
  }

  /** A committed transaction keeps every stored subscriber row as it was. */
  lemma TransactKeepsRows(
    t: Tables, ns: NewSubscriber, candidate: SubscriberId, now: Timestamp, token: string, faults: TransactionFaults)
    ensures var c := Transact(t, ns, candidate, now, token, faults);
      c.Success? ==>
        && t.subscriptions.Keys <= c.value.subscriptions.Keys
        && (forall id :: id in t.subscriptions ==> c.value.subscriptions[id] == t.subscriptions[id])
  {
    if !faults.begin && !faults.insert {
      UpsertKeepsRows(t, candidate, ns.email, ns.name, now);
    }
  }

  /**
   * A committed transaction leaves one row for the email, the token resolving
   * to it, and, for a new email, exactly the new pending row added.
   */
  lemma TransactCommitted(
    t: Tables, ns: NewSubscriber, candidate: SubscriberId, now: Timestamp, token: string, faults: TransactionFaults)
    returns (id: SubscriberId)
    requires Consistent(t)
    requires Transact(t, ns, candidate, now, token, faults).Success?
    ensures var committed := Transact(t, ns, candidate, now, token, faults).value;
      && IdsWithEmail(committed.subscriptions, ns.email) == {id}
      && LookupToken(committed.tokens, token) == Some(id)
      && (HasEmail(t.subscriptions, ns.email) ==> committed.subscriptions == t.subscriptions)
      && (!HasEmail(t.subscriptions, ns.email) ==>
            id == candidate && committed.subscriptions == t.subscriptions[candidate := Subscriber(ns.email, ns.name, now, PendingConfirmation)])
  {
    UpsertConsistent(t, candidate, ns.email, ns.name, now);
    var upserted := Upsert(t, candidate, ns.email, ns.name, now);
    id := upserted.1.value;
    if HasEmail(t.subscriptions, ns.email) {
      var existing :| existing in t.subscriptions && t.subscriptions[existing].email == ns.email;
      UpsertExistingEmail(t, candidate, ns.email, ns.name, now, existing);
    } else {
      UpsertNewEmail(t, candidate, ns.email, ns.name, now);
    }
    StoreTokenReplaces(upserted.0, id, token);
  }

  /** With no fault, a fresh token and either a stored email or a fresh id, the transaction commits. */
  lemma TransactSucceeds(
    t: Tables, ns: NewSubscriber, candidate: SubscriberId, now: Timestamp, token: string)
    requires Consistent(t)
    requires HasEmail(t.subscriptions, ns.email) || candidate !in t.subscriptions
    requires token !in t.tokens.Values
    ensures Transact(t, ns, candidate, now, token, NoFaults.db).Success?
  {
    UpsertKeepsRows(t, candidate, ns.email, ns.name, now);
    var upserted := Upsert(t, candidate, ns.email, ns.name, now);
    assert !TokenHeldByOther(upserted.0.tokens, upserted.1.value, token);
  }

  /** Every run, whatever fails, keeps the schema's constraints. */
  lemma SubscribeConsistent(
    t: Tables, form: FormData, parsers: Parsers, baseUrl: string,
    candidate: SubscriberId, now: Timestamp, sample: nat -> AlphabetIndex, faults: SubscribeFaults)
    requires Consistent(t)
    ensures Consistent(SubscribeSpec(t, form, parsers, baseUrl, candidate, now, sample, faults).tables)
  {
    var parsed := TryFromForm(form, parsers);
    if parsed.Success? {
      TransactConsistent(t, parsed.value, candidate, now, GenerateSubscriptionToken(sample), faults.db);
    }
  }

  /**
   * A run never rewrites a stored subscriber row; in particular it never puts a
   * confirmed subscriber back to pending.
   */
  lemma SubscribeKeepsRows(
    t: Tables, form: FormData, parsers: Parsers, baseUrl: string,
    candidate: SubscriberId, now: Timestamp, sample: nat -> AlphabetIndex, faults: SubscribeFaults)
    ensures var t' := SubscribeSpec(t, form, parsers, baseUrl, candidate, now, sample, faults).tables;
      && t.subscriptions.Keys <= t'.subscriptions.Keys
      && (forall id :: id in t.subscriptions ==> t'.subscriptions[id] == t.subscriptions[id])
  {
    var parsed := TryFromForm(form, parsers);
    if parsed.Success? {
      TransactKeepsRows(t, parsed.value, candidate, now, GenerateSubscriptionToken(sample), faults.db);
    }
  }

  /**
   * A run that got as far as the commit has a single row for the email, whose
   * id the new token resolves to, and sent the link with that token to the email.
   */
  lemma SubscribeCommitted(
    t: Tables, form: FormData, parsers: Parsers, baseUrl: string,
    candidate: SubscriberId, now: Timestamp, sample: nat -> AlphabetIndex, faults: SubscribeFaults)
    returns (id: SubscriberId)
    requires Consistent(t)
    requires SubscribeSpec(t, form, parsers, baseUrl, candidate, now, sample, faults).sent.Some?
    ensures TryFromForm(form, parsers).Success?
    ensures var run := SubscribeSpec(t, form, parsers, baseUrl, candidate, now, sample, faults);
      var ns := TryFromForm(form, parsers).value;
      var token := GenerateSubscriptionToken(sample);
      && IdsWithEmail(run.tables.subscriptions, ns.email) == {id}
      && LookupToken(run.tables.tokens, token) == Some(id)
      && run.sent == Some(ConfirmationEmail(ns.email, WelcomeSubject, ConfirmationLink(baseUrl, token)))
      && (HasEmail(t.subscriptions, ns.email) ==> run.tables.subscriptions == t.subscriptions)
      && (!HasEmail(t.subscriptions, ns.email) ==>
            id == candidate && run.tables.subscriptions == t.subscriptions[candidate := Subscriber(ns.email, ns.name, now, PendingConfirmation)])
  {
    var ns := TryFromForm(form, parsers).value;
    id := TransactCommitted(t, ns, candidate, now, GenerateSubscriptionToken(sample), faults.db);
  }

  /**
   * With no fault, a fresh token and either a stored email or a fresh id, the
   * request succeeds with 200 and sends the confirmation email.
   */
  lemma SubscribeSucceeds(
    t: Tables, form: FormData, parsers: Parsers, baseUrl: string,
    candidate: SubscriberId, now: Timestamp, sample: nat -> AlphabetIndex)
    requires Consistent(t)
    requires TryFromForm(form, parsers).Success?
    requires HasEmail(t.subscriptions, TryFromForm(form, parsers).value.email) || candidate !in t.subscriptions
    requires GenerateSubscriptionToken(sample) !in t.tokens.Values
    ensures var run := SubscribeSpec(t, form, parsers, baseUrl, candidate, now, sample, NoFaults);
      && run.result == Success(())
      && ResponseStatus(run.result) == StatusOk
      && run.sent.Some?
  {
    TransactSucceeds(t, TryFromForm(form, parsers).value, candidate, now, GenerateSubscriptionToken(sample));
  }

  // ---------------------------------------------------------------------
  // The workflow, step by step on the database

  /** `insert_subscriber`: the subscriber upsert, run on the open transaction. */
  method InsertSubscriber(db: Database, newSubscriber: NewSubscriber, candidate: SubscriberId, now: Timestamp, fail: bool)
    returns (r: Result<SubscriberId, SqlError>)
    requires db.Valid()
    modifies db
    ensures db.Valid()
    ensures fail ==> r == Failure(QueryFailed) && db.State() == old(db.State())
    ensures !fail ==> (db.State(), r) == Upsert(old(db.State()), candidate, newSubscriber.email, newSubscriber.name, now)
  {
    var subscriberId := candidate;
    if fail {
      return Failure(QueryFailed);
    }
    if HasEmail(db.subscriptions, newSubscriber.email) {
      var existing :| existing in db.subscriptions && db.subscriptions[existing].email == newSubscriber.email;
      UpsertExistingEmail(db.State(), candidate, newSubscriber.email, newSubscriber.name, now, existing);
      db.subscriptions := db.subscriptions[existing := db.subscriptions[existing].(email := newSubscriber.email)];
      subscriberId := existing;
    } else if candidate in db.subscriptions {
      return Failure(UniqueViolation);
    } else {
      db.subscriptions := db.subscriptions[candidate := Subscriber(newSubscriber.email, newSubscriber.name, now, PendingConfirmation)];
    }
    r := Success(subscriberId);
  }

  /** `store_token`: the token upsert, run on the open transaction. */
  method StoreToken(db: Database, subscriberId: SubscriberId, token: string, fail: bool)
    returns (r: Result<(), SqlError>)
    requires db.Valid()
    modifies db
    ensures db.Valid()
    ensures fail ==> r == Failure(QueryFailed) && db.State() == old(db.State())
    ensures !fail ==> (db.State(), r) == StoreTokenRow(old(db.State()), subscriberId, token)
  {
    if fail {
      return Failure(QueryFailed);
    }
    if subscriberId !in db.subscriptions {
      return Failure(ForeignKeyViolation);
    }
    if TokenHeldByOther(db.tokens, subscriberId, token) {
      return Failure(UniqueViolation);
    }
    db.tokens := db.tokens[subscriberId := token];
    r := Success(());
  }

  /** `subscribe`: the whole request, with the transaction rolled back on every early return before the commit. */
  method Subscribe(
    db: Database, form: FormData, parsers: Parsers, baseUrl: string,
    candidate: SubscriberId, now: Timestamp, sample: nat -> AlphabetIndex, faults: SubscribeFaults)
    returns (r: Result<(), SubscribeError>, sent: Option<ConfirmationEmail>)
    requires db.Valid()
    modifies db
    ensures db.Valid()
    ensures SubscribeRun(db.State(), r, sent) == SubscribeSpec(old(db.State()), form, parsers, baseUrl, candidate, now, sample, faults)
  {
    sent := None;
    var parsed := TryFromForm(form, parsers);
    if parsed.Failure? {
      return Failure(ValidationError(parsed.error)), None;
    }
    var newSubscriber := parsed.value;

    var transaction := db.Begin(faults.db.begin);
    if transaction.Failure? {
      return Failure(UnexpectedError(BeginContext)), None;
    }
    var tx := transaction.value;

    var subscriberId := InsertSubscriber(db, newSubscriber, candidate, now, faults.db.insert);
    if subscriberId.Failure? {
      db.Rollback(tx);
      return Failure(UnexpectedError(InsertContext)), None;
    }
    var token := GenerateSubscriptionToken(sample);

    var stored := StoreToken(db, subscriberId.value, token, faults.db.storeToken);
    if stored.Failure? {
      db.Rollback(tx);
      return Failure(UnexpectedError(StoreContext)), None;
    }

    var committed := db.Commit(tx, faults.db.commit);
    if committed.Failure? {
      return Failure(UnexpectedError(CommitContext)), None;
    }

    var email := ConfirmationEmail(newSubscriber.email, WelcomeSubject, ConfirmationLink(baseUrl, token));
    sent := Some(email);
    if faults.send {
      return Failure(UnexpectedError(SendContext)), sent;
    }
    r := Success(());
  }
}
