# Newsletter subscription lifecycle, modelled in Dafny

This project models the subscriber-management core of a newsletter service
(a Rust web application built on actix-web and Postgres) and proves properties
of the model.

- **Subscribe** (`subscriptions.dfy`). The service validates the form (name, then
  email) and opens a transaction. It upserts the subscriber by email, then
  generates a 25-character alphanumeric token and upserts it by subscriber id.
  It commits, and only then sends an email with the confirmation link
  `<base_url>/subscriptions/confirm?subscription_token=<token>`.
- **Confirm** (`subscriptions_confirm.dfy`). The service checks that the token
  is alphanumeric and looks it up. It answers 401 when nobody holds the token;
  otherwise it sets the holder's status to `confirmed`.
- **Subscription token** (`subscription_token.dfy`). Parsing succeeds exactly
  when every character is alphanumeric; no length is checked.
- **Configuration** (`configuration.dfy`). The environment names `local` and
  `production`, parsed case-insensitively, and the two Postgres connection strings.

The database is two finite maps (`repository.dfy`):

- `subscriptions`: id -> (email, name, subscribed_at, status), with email unique.
- `subscription_tokens`: subscriber_id -> token.

Each SQL statement is a function over these maps (`Upsert`, `StoreTokenRow`,
`LookupToken`, `MarkConfirmed`). The `Database` class holds the two maps as
fields. The workflow methods update those fields step by step. A transaction
is a snapshot of the committed state, restored on every early return before
the commit. Each workflow method is proved equal to a specification function
(`SubscribeSpec`, `ConfirmSpec`). The lemmas state the properties of these
functions, and `lifecycle.dfy` relates several requests.

Things the outside world decides are parameters:

- the name and email validators (`Parsers`);
- Unicode's alphanumeric class (`isAlphanumeric`);
- the random draws behind the token (`sample`);
- the random candidate id (`candidate`);
- the clock (`now`);
- whether each database call and the email send fails (`SubscribeFaults`, `ConfirmFaults`).

The schema's migrations are not part of this model. It assumes the constraints
that the statements and the described invariants need:

- `subscriptions.id` is the primary key, and `subscriptions.email` is unique.
- `subscription_tokens.subscription_token` is the primary key.
- `subscription_tokens.subscriber_id` is unique, since it is the conflict target of the token upsert.
- `subscription_tokens.subscriber_id` references `subscriptions.id`.

A statement that would break a constraint fails and changes nothing. `Consistent` states these constraints, and every operation preserves it.

Where the design description and the code differ, the model follows the code:

- An email-send failure after the commit is reported as the same
  `UnexpectedError` (500) as a storage failure, not as a separate error class.
  Only the context message differs.
- Confirming sets the status to `confirmed` on every call, not just once. A
  second confirmation is a no-op because the value is already `confirmed`.
- An unknown token is a successful response with status 401, not an error value.

## Model

| member | source | states |
|---|---|---|
| `SubscriptionTokens.AnyNonAlphanumeric` | src/domain/subscription_token.rs:5 | the `any` scan is true exactly when some character is outside the class |
| `SubscriptionTokens.Parse` | src/domain/subscription_token.rs:4-9 | succeeds iff every character is alphanumeric; on success the token reads back as the input; on failure the error is "Subscription token is alphanumeric." |
| `SubscriptionTokens.ParseThenAsRef` | src/domain/subscription_token.rs:8-14 | after a successful parse, `as_ref` returns exactly the input |
| `SubscriptionTokens.ParseRejectsNonAlphanumeric` | src/domain/subscription_token.rs:5-6 | one character outside the class gives the fixed error |
| `SubscriptionTokens.EmptyTokenParses` | src/domain/subscription_token.rs:5-8 | the empty string is a valid token, since no length is checked |
| `SubscriptionTokens.AsciiTokenParses` | src/domain/subscription_token.rs:5 | every ASCII letters-and-digits string parses under any class containing ASCII alphanumerics |
| `Configuration.AsStr` | src/configuration.rs:51-56 | returns only "local" or "production", and "local" exactly for `Local` |
| `Configuration.LowerChar` | src/configuration.rs:63 | the lower-cased character is never an upper-case ASCII letter |
| `Configuration.Lowercase` | src/configuration.rs:63 | keeps the length and lower-cases each character in place |
| `Configuration.LowercaseOfLower` | src/configuration.rs:63 | lower-casing a lower-case string returns it unchanged |
| `Configuration.LowercaseIs` | src/configuration.rs:63 | the lower-case form equals a lower-case name iff the input equals it ignoring case |
| `Configuration.AsStrRoundTrip` | src/configuration.rs:51-65 | `try_from(as_str(e)) == Ok(e)` for both environments |
| `Configuration.TryFromLocal` | src/configuration.rs:63-64 | parsing gives `Local` iff the input is "local" in some casing |
| `Configuration.TryFromProduction` | src/configuration.rs:63-65 | parsing gives `Production` iff the input is "production" in some casing |
| `Configuration.TryFromUnsupported` | src/configuration.rs:66-69 | any other input gives the error `lower(input) + " is not a supported environment. Use either `local` or `production`."` |
| `Configuration.TryFromIgnoresCase` | src/configuration.rs:62-71 | two inputs that differ only in case give the same result, error text included |
| `Configuration.DigitChar` | src/configuration.rs:77 | a digit below ten becomes a decimal digit character |
| `Configuration.Decimal` | src/configuration.rs:77-78 | the port's decimal text is non-empty, all digits, has no leading zero and denotes the port |
| `Configuration.ConnectionStringExtendsWithoutDb` | src/configuration.rs:75-87 | `connection_string == connection_string_without_db + "/" + database_name`, starting with "postgres://" |
| `Configuration.PortOfConnectionString` | src/configuration.rs:82-87 | the text after the last ':' of the server string is the port's numeral and denotes the port |
| `Configuration.DatabaseNameOfConnectionString` | src/configuration.rs:75-80 | the text after the last '/' of the connection string is the database name, when the name has no '/' |
| `Repository.StatusColumn` | src/routes/subscriptions.rs:156 | the status column reads "confirmed" exactly for `Confirmed` |
| `Repository.UpsertExistingEmail` | src/routes/subscriptions.rs:155-159 | for a stored email, the upsert returns the stored row's id and leaves both tables unchanged |
| `Repository.UpsertNewEmail` | src/routes/subscriptions.rs:155-156 | for a new email and a fresh id, the upsert adds exactly one row (given email and name, status pending_confirmation) and returns the fresh id |
| `Repository.UpsertIdCollision` | src/routes/subscriptions.rs:152-161 | a new email with an id already taken fails the primary key and changes nothing |
| `Repository.UpsertKeepsRows` | src/routes/subscriptions.rs:157-159 | no stored row's name, timestamp or status is rewritten; the returned id holds the email |
| `Repository.UpsertConsistent` | src/routes/subscriptions.rs:155-159 | the constraints are kept, and afterwards exactly one row holds the email |
| `Repository.StoreTokenReplaces` | src/routes/subscriptions.rs:183-187 | after storing, the new token resolves to the subscriber and its previous token no longer does; other subscribers' tokens and all rows are untouched |
| `Repository.StoreTokenFails` | src/routes/subscriptions.rs:181-193 | storing fails exactly on an unknown subscriber or on a token another subscriber holds, and then changes nothing |
| `Repository.StoreTokenConsistent` | src/routes/subscriptions.rs:183-187 | the token upsert keeps the constraints |
| `Repository.LookupTokenSound` | src/routes/subscriptions_confirm.rs:81-91 | a found id holds the token, and the answer is `None` exactly when no row holds it |
| `Repository.LookupTokenResolves` | src/routes/subscriptions_confirm.rs:81-91 | with tokens unique, the lookup returns exactly the token's holder |
| `Repository.MarkConfirmedOnlyStatus` | src/routes/subscriptions_confirm.rs:64 | the update changes only the status of row `id`; other rows, other fields and the token table are unchanged |
| `Repository.MarkConfirmedIdempotent` | src/routes/subscriptions_confirm.rs:64 | applying the update twice equals applying it once |
| `Repository.MarkConfirmedConsistent` | src/routes/subscriptions_confirm.rs:64 | the update keeps the constraints |
| `Repository.Database.Begin` | src/routes/subscriptions.rs:75-78 | opening a transaction fails only on a fault; the snapshot is the committed state |
| `Repository.Database.Rollback` | src/routes/subscriptions.rs:75-92 | an uncommitted transaction restores the snapshot |
| `Repository.Database.Commit` | src/routes/subscriptions.rs:89-92 | a commit keeps the writes, and a failed commit restores the snapshot |
| `Subscriptions.TryFromForm` | src/routes/subscriptions.rs:53-57 | succeeds iff both validators accept; the name's error wins over the email's |
| `Subscriptions.StatusCode` | src/routes/subscriptions.rs:41-47 | 400 exactly for `ValidationError`, 500 exactly for `UnexpectedError` |
| `Subscriptions.ResponseStatus` | src/routes/subscriptions.rs:73-103 | 200 exactly when the request succeeds |
| `Subscriptions.AlphabetChar` | src/routes/subscriptions.rs:138 | every character a draw can select is an ASCII letter or digit |
| `Subscriptions.AlphabetCoversAscii` | src/routes/subscriptions.rs:138 | every ASCII letter and digit can be drawn |
| `Subscriptions.AlphabetInjective` | src/routes/subscriptions.rs:138 | distinct draws select distinct characters |
| `Subscriptions.TakeSamples` | src/routes/subscriptions.rs:138-141 | collecting `n` draws gives `n` characters, character `i` from draw `i` |
| `Subscriptions.GenerateSubscriptionToken` | src/routes/subscriptions.rs:136-142 | the token has exactly 25 characters, each ASCII alphanumeric |
| `Subscriptions.GeneratedTokenParses` | src/routes/subscriptions.rs:138 | every generated token passes `SubscriptionToken::parse` and reads back unchanged |
| `Subscriptions.ConfirmationLinkCarriesToken` | src/routes/subscriptions.rs:116-119 | the link is the base URL, then "/subscriptions/confirm?subscription_token=", then the token, which is recovered after the last '=' |
| `Subscriptions.GeneratedTokenInLink` | src/routes/subscriptions.rs:116-119 | a generated token is recovered from its link |
| `Subscriptions.InsertSubscriber` | src/routes/subscriptions.rs:148-170 | the method's new state and result are those of the upsert, or unchanged with an error when the statement fails |
| `Subscriptions.StoreToken` | src/routes/subscriptions.rs:176-195 | the method's new state and result are those of the token upsert, or unchanged with an error when the statement fails |
| `Subscriptions.Subscribe` | src/routes/subscriptions.rs:68-104 | the request's final tables, result and attempted email are those of `SubscribeSpec`, and the constraints are kept |
| `Subscriptions.SubscribeRejectsInvalidForm` | src/routes/subscriptions.rs:74 | a refused form gives `ValidationError` (400); the tables are unchanged and nothing is sent |
| `Subscriptions.SubscribeAllOrNothing` | src/routes/subscriptions.rs:75-92 | a run that sends nothing leaves both tables unchanged; a failing begin, insert, token store or commit gives `UnexpectedError` (500) |
| `Subscriptions.TransactFailsOnFault` | src/routes/subscriptions.rs:75-92 | a fault in any database step aborts the transaction |
| `Subscriptions.SubscribeEmailFailureKeepsCommit` | src/routes/subscriptions.rs:89-101 | after the commit, a failed send keeps the committed row and token and gives `UnexpectedError` (500) |
| `Subscriptions.TransactConsistent` | src/routes/subscriptions.rs:75-92 | a committed transaction keeps the constraints |
| `Subscriptions.SubscribeConsistent` | src/routes/subscriptions.rs:68-104 | every request keeps the constraints, whatever fails |
| `Subscriptions.TransactKeepsRows` | src/routes/subscriptions.rs:80-92 | a committed transaction rewrites no stored subscriber row |
| `Subscriptions.SubscribeKeepsRows` | src/routes/subscriptions.rs:80-92 | a request never rewrites a stored row, so status is never downgraded |
| `Subscriptions.TransactCommitted` | src/routes/subscriptions.rs:80-92 | after the commit, one row holds the email and the new token resolves to it; a new email adds exactly its pending row |
| `Subscriptions.SubscribeCommitted` | src/routes/subscriptions.rs:80-99 | a request that reached the send has one row for the email, the token resolving to it, and the link with that token sent to that email |
| `Subscriptions.TransactSucceeds` | src/routes/subscriptions.rs:75-92 | with no fault, a fresh id or stored email, and an unused token, the transaction commits |
| `Subscriptions.SubscribeSucceeds` | src/routes/subscriptions.rs:68-103 | under the same conditions the request answers 200 and sends the email |
| `SubscriptionsConfirm.StatusCode` | src/routes/subscriptions_confirm.rs:29-36 | 400 exactly for `ValidationError`, 500 exactly for `UnexpectedError` |
| `SubscriptionsConfirm.ResponseStatus` | src/routes/subscriptions_confirm.rs:50-57 | 200 exactly for a confirmation and 401 exactly for an unknown token |
| `SubscriptionsConfirm.ConfirmSubscriber` | src/routes/subscriptions_confirm.rs:61-74 | the new state is that of the status update, or unchanged with an error when the statement fails |
| `SubscriptionsConfirm.GetSubscriberIdFromToken` | src/routes/subscriptions_confirm.rs:76-92 | returns the token's holder, and `None` (not an error) when no row matches |
| `SubscriptionsConfirm.Confirm` | src/routes/subscriptions_confirm.rs:38-59 | the request's final tables and result are those of `ConfirmSpec`, and the constraints are kept |
| `SubscriptionsConfirm.ConfirmRejectsMalformed` | src/routes/subscriptions_confirm.rs:43-44 | a non-alphanumeric token gives `ValidationError` (400), with no lookup and the store unchanged |
| `SubscriptionsConfirm.ConfirmUnknownToken` | src/routes/subscriptions_confirm.rs:50-51 | a well-formed token nobody holds gives 401 and leaves the store unchanged |
| `SubscriptionsConfirm.ConfirmKnownToken` | src/routes/subscriptions_confirm.rs:52-56 | a held token sets only its holder's status to confirmed and answers 200 |
| `SubscriptionsConfirm.ConfirmStorageFailure` | src/routes/subscriptions_confirm.rs:46-55 | a failing lookup or update gives `UnexpectedError` (500) and changes nothing |
| `SubscriptionsConfirm.ConfirmIdempotent` | src/routes/subscriptions_confirm.rs:52-56 | a second confirmation with the same token gives the same answer and the same state |
| `SubscriptionsConfirm.ConfirmConsistent` | src/routes/subscriptions_confirm.rs:50-56 | every confirmation keeps the constraints |
| `Lifecycle.SubscribeThenConfirm` | src/routes/subscriptions.rs:94-99 | the token read back from the emailed link confirms that email's only row, answering 200 |
| `Lifecycle.ConfirmWithToken` | src/routes/subscriptions_confirm.rs:43-56 | the token held by an email's only row confirms that row |
| `Lifecycle.ResubscribeReplacesToken` | src/routes/subscriptions.rs:183-187 | subscribing twice with one email keeps one row; only the second token resolves, and the first gets 401 |
| `Lifecycle.TokensUntouched` | src/routes/subscriptions.rs:183-187 | re-subscription changes no other subscriber's token |
| `Lifecycle.ConfirmedStaysConfirmed` | src/routes/subscriptions.rs:157-158 | subscribing again after confirming leaves the subscriber confirmed |

## Left out

- HTTP routing, `web::Form` and `web::Query` extraction, and response bodies are framework plumbing. Only status codes are modelled. A missing query parameter is rejected by the extractor before `confirm` runs.
- Postgres, sqlx and the connection pool are replaced by two maps and one fault flag per call. SQL parsing, the driver's error details and the migrations are not modelled; the assumed constraints are listed above.
- Concurrent requests and transaction isolation are not modelled. Requests run one at a time.
- The email client and the Tera templates are foreign I/O. The email keeps only its recipient, subject and link; sending succeeds or fails by a flag. The template-rendering `expect` panics are not modelled.
- Randomness and time enter as parameters. `Uuid::new_v4` is a candidate id; a collision fails the primary key. `thread_rng` is a stream of alphabet positions, and the rejection sampling inside `rand` is not modelled. `Utc::now` is an opaque number.
- `get_configuration` is not modelled: it reads files, the working directory and environment variables. `Settings` and `ApplicationSettings` are plain records with no logic.
- `error_chain_fmt` and the tracing spans produce diagnostics only. `UnexpectedError` keeps the context message and drops the cause chain.
- `SubscriberName::parse` and `SubscriberEmail::parse` are not part of this model. They enter as the two `Parsers` functions.
- Unicode `char::is_alphanumeric` is the parameter `isAlphanumeric`. Lemmas that need generated tokens to parse assume only that the class contains the ASCII letters and digits.
- Configuration.Lowercase: lower-cases only ASCII letters, because Unicode case mapping (Rust's `to_lowercase`) is not modelled.
- Subscriber ids and timestamps are natural numbers, not 128-bit UUIDs and dates. Only their identity matters.
