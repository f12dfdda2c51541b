/**
 * The pure part of the configuration: the runtime environment and its names,
 * and the Postgres connection strings built from the database settings.
 * Reading configuration files and environment variables is not modelled.
 */
module Configuration {
  import opened Wrappers
  import Strings

  datatype Environment = Local | Production

  /** `Environment::as_str`: the name of the configuration file for the environment. */
  function AsStr(e: Environment): (r: string)
    ensures r == "local" || r == "production"
    ensures (r == "local") <==> e == Local
  {
    match e
    case Local => "local"
    case Production => "production"
  }

  /** ASCII lower-casing of one character; every other character is left as it is. */
  function LowerChar(c: char): (r: char)
    ensures !('A' <= r <= 'Z')
  {
    if 'A' <= c <= 'Z' then (c as int + 32) as char else c
  }

  /** `str::to_lowercase`, restricted to ASCII. */
  function Lowercase(s: string): (r: string)
    ensures |r| == |s|
    ensures forall i :: 0 <= i < |s| ==> r[i] == LowerChar(s[i])
  {
    if s == [] then [] else [LowerChar(s[0])] + Lowercase(s[1..])
  }

  /** Two strings that differ at most in the case of their letters. */
  predicate EqualsIgnoringCase(s: string, t: string) {
    |s| == |t| && forall i :: 0 <= i < |s| ==> LowerChar(s[i]) == LowerChar(t[i])
  }

  const UnsupportedSuffix: string := " is not a supported environment. Use either `local` or `production`."

  /** `TryFrom<String> for Environment`. */
  function TryFrom(value: string): Result<Environment, string> {
    var lower := Lowercase(value);
    if lower == "local" then Success(Local)
    else if lower == "production" then Success(Production)
    else Failure(lower + UnsupportedSuffix)
  }

  /** A string of lower-case characters is its own lower-case form. */
  lemma LowercaseOfLower(s: string)
    requires forall i :: 0 <= i < |s| ==> LowerChar(s[i]) == s[i]
    ensures Lowercase(s) == s
  {
  }

  /** The lower-case form of `s` is `name` exactly when `s` is `name` in some casing, for a lower-case `name`. */
  lemma LowercaseIs(s: string, name: string)
    requires forall i :: 0 <= i < |name| ==> LowerChar(name[i]) == name[i]
    ensures Lowercase(s) == name <==> EqualsIgnoringCase(s, name)
  {
    if EqualsIgnoringCase(s, name) {
      assert forall i :: 0 <= i < |s| ==> Lowercase(s)[i] == name[i];
    }
  }

  /** Naming an environment and parsing the name gives the environment back. */
  lemma {:induction false} AsStrRoundTrip(e: Environment)
    ensures TryFrom(AsStr(e)) == Success(e)
  {
    LowercaseOfLower(AsStr(e));
  }

  /** `local` is accepted in any casing, and nothing else parses as `Local`. */
  lemma {:induction false} TryFromLocal(s: string)
    ensures TryFrom(s) == Success(Local) <==> EqualsIgnoringCase(s, "local")
  {
    LowercaseIs(s, "local");
  }

  /** `production` is accepted in any casing, and nothing else parses as `Production`. */
  lemma {:induction false} TryFromProduction(s: string)
    ensures TryFrom(s) == Success(Production) <==> EqualsIgnoringCase(s, "production")
  {
    LowercaseIs(s, "production");
    LowercaseIs(s, "local");
  }

  /** Any other string is refused with a message that quotes it in lower case. */
  lemma {:induction false} TryFromUnsupported(s: string)
    requires !EqualsIgnoringCase(s, "local") && !EqualsIgnoringCase(s, "production")
    ensures TryFrom(s) == Failure(Lowercase(s) + UnsupportedSuffix)
  {
    LowercaseIs(s, "local");
    LowercaseIs(s, "production");
  }

  /** The outcome, error message included, does not depend on the case of the input. */
  lemma {:induction false} TryFromIgnoresCase(s: string, t: string)
    requires EqualsIgnoringCase(s, t)
    ensures TryFrom(s) == TryFrom(t)
  {
    assert Lowercase(s) == Lowercase(t);
  }

  /** `u16`, the type of the port. */
  type Port = p: nat | p < 0x1_0000

  datatype DatabaseSettings = DatabaseSettings(
    username: string,
    password: string,
    port: Port,
    host: string,
    databaseName: string)

  predicate IsDigit(c: char) {
    '0' <= c <= '9'
  }

  function DigitChar(d: nat): (c: char)
    requires d < 10
    ensures IsDigit(c)
  {
    ('0' as int + d) as char
  }

  /** The number a string of digits stands for, read most significant digit first. */
  function DecimalValue(s: string): nat
    requires forall i :: 0 <= i < |s| ==> IsDigit(s[i])
  {
    if s == [] then 0
    else
      var high: nat := DecimalValue(s[..|s| - 1]);
      assert IsDigit(s[|s| - 1]);
      10 * high + (s[|s| - 1] as int - '0' as int)
  }

  /** `format!("{}", n)`: the decimal numeral of `n`, without leading zeros. */
  function Decimal(n: nat): (r: string)
    ensures |r| >= 1 && (r[0] == '0' ==> r == "0")
    ensures forall i :: 0 <= i < |r| ==> IsDigit(r[i])
    ensures DecimalValue(r) == n
  {
    if n < 10 then [DigitChar(n)]
    else
      var r := Decimal(n / 10) + [DigitChar(n % 10)];
      assert r[..|r| - 1] == Decimal(n / 10);
      r
  }

  const Scheme: string := "postgres://"

  /** `DatabaseSettings::connection_string`. */
  function ConnectionString(d: DatabaseSettings): string {
    Scheme + d.username + ":" + d.password + "@" + d.host + ":" + Decimal(d.port) + "/" + d.databaseName
  }

  /** `DatabaseSettings::connection_string_without_db`. */
  function ConnectionStringWithoutDb(d: DatabaseSettings): string {
    Scheme + d.username + ":" + d.password + "@" + d.host + ":" + Decimal(d.port)
  }

  /** The full connection string is the server's connection string followed by the database name. */
  lemma ConnectionStringExtendsWithoutDb(d: DatabaseSettings)
    ensures ConnectionString(d) == ConnectionStringWithoutDb(d) + "/" + d.databaseName
    ensures ConnectionString(d)[..|Scheme|] == Scheme
  {
  }

  /** The port can be read back from the server's connection string: it is the number after the last ':'. */
  lemma {:induction false} PortOfConnectionString(d: DatabaseSettings)
    ensures var tail := Strings.AfterLast(ConnectionStringWithoutDb(d), ':');
      (forall i :: 0 <= i < |tail| ==> IsDigit(tail[i])) && DecimalValue(tail) == d.port
  {
    var prefix := Scheme + d.username + ":" + d.password + "@" + d.host;
    assert ConnectionStringWithoutDb(d) == prefix + [':'] + Decimal(d.port);
    Strings.AfterLastOfJoin(prefix, ':', Decimal(d.port));
  }

  /** The database name can be read back from the connection string when it holds no '/'. */
  lemma {:induction false} DatabaseNameOfConnectionString(d: DatabaseSettings)
    requires '/' !in d.databaseName
    ensures Strings.AfterLast(ConnectionString(d), '/') == d.databaseName
  {
    assert ConnectionString(d) == ConnectionStringWithoutDb(d) + ['/'] + d.databaseName;
    Strings.AfterLastOfJoin(ConnectionStringWithoutDb(d), '/', d.databaseName);
  }
}
