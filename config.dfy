/**
 * Start-up configuration of the exporter: environment lookup with defaults,
 * the two process names to probe and the MySQL data source name (DSN).
 * The process environment is an explicit map from variable to value.
 */
module Config {
  import opened GoStrings

  type Env = map<string, string>

  const ProcessNameKey := "MANGOS_PROCESS_NAME"
  const RealmNameKey := "REALM_PROCESS_NAME"
  const UserKey := "MYSQL_USER"
  const PasswordKey := "MYSQL_PASSWORD"
  const HostKey := "MYSQL_HOST"
  const PortKey := "MYSQL_PORT"
  const DatabaseKey := "MYSQL_CHAR_DB"

  const DefaultProcessName := "mangosd"
  const DefaultRealmName := "realmd"
  const DefaultUser := "mangos_monitor"
  const DefaultPassword := ""
  const DefaultHost := "localhost"
  const DefaultPort := "3306"
  const DefaultDatabase := "character0"

  /** Go's `os.Getenv`: the value of `key`, or the empty string when it is unset. */
  function Lookup(env: Env, key: string): (v: string)
    ensures key !in env ==> v == ""
    ensures key in env ==> v == env[key]
  {
    if key in env then env[key] else ""
  }

  /**
   * `getEnv`: the variable's value, or `default` when the variable is unset
   * or set to the empty string.
   */
  function GetEnv(env: Env, key: string, default: string): (v: string)
    ensures Lookup(env, key) == "" ==> v == default
    ensures Lookup(env, key) != "" ==> v == Lookup(env, key)
    ensures v == "" <==> Lookup(env, key) == "" && default == ""
  {
    var value := Lookup(env, key);
    if value == "" then default else value
  }

  /** An unset variable and a variable set to "" are indistinguishable to `getEnv`. */
  lemma GetEnvUnsetIsEmpty(env: Env, key: string, default: string)
    ensures GetEnv(env - {key}, key, default) == GetEnv(env[key := ""], key, default) == default
  {
  }

  /** The values read once at start-up and kept for the life of the process. */
  datatype Settings = Settings(processName: string, realmName: string, mysqlDSN: string)

  /** The user, password, host, port and database read from the environment. */
  function User(env: Env): string { GetEnv(env, UserKey, DefaultUser) }
  function Password(env: Env): string { GetEnv(env, PasswordKey, DefaultPassword) }
  function Host(env: Env): string { GetEnv(env, HostKey, DefaultHost) }
  function Port(env: Env): string { GetEnv(env, PortKey, DefaultPort) }
  function Database(env: Env): string { GetEnv(env, DatabaseKey, DefaultDatabase) }

  /**
   * The DSN text the MySQL driver is given: `user:password@tcp(host:port)/database`.
   * Each field sits at its own place in the text: the user name, a ':', the
   * password, then the address part.
   */
  function DSN(user: string, password: string, host: string, port: string, db: string): (d: string)
    ensures |d| == |user| + 1 + |password| + |Address(host, port, db)|
    ensures d[..|user|] == user && d[|user|] == ':'
    ensures d[|user| + 1..|user| + 1 + |password|] == password
    ensures d[|user| + 1 + |password|..] == Address(host, port, db)
  {
    user + ":" + password + Address(host, port, db)
  }

  /** The part of the DSN after the password: `@tcp(host:port)/database`. */
  function Address(host: string, port: string, db: string): string {
    "@tcp(" + host + ":" + port + ")/" + db
  }

  /** In the address part the host, the port and the database name sit between fixed separators. */
  lemma AddressFields(host: string, port: string, db: string)
    ensures var a := Address(host, port, db);
            && |a| == |host| + |port| + |db| + 8
            && a[..5] == "@tcp(" && a[5..5 + |host|] == host && a[5 + |host|] == ':'
            && a[6 + |host|..6 + |host| + |port|] == port && a[6 + |host| + |port|..8 + |host| + |port|] == ")/"
            && a[|a| - |db|..] == db
  {
  }

  /**
   * The package-level initialisers: both process names fall back to
   * non-empty defaults, so neither can be empty, and the DSN is assembled
   * from the five MySQL variables.
   */
  function Load(env: Env): (c: Settings)
    ensures c.processName != "" && c.realmName != ""
    ensures Lookup(env, ProcessNameKey) == "" ==> c.processName == DefaultProcessName
    ensures Lookup(env, ProcessNameKey) != "" ==> c.processName == Lookup(env, ProcessNameKey)
    ensures Lookup(env, RealmNameKey) == "" ==> c.realmName == DefaultRealmName
    ensures Lookup(env, RealmNameKey) != "" ==> c.realmName == Lookup(env, RealmNameKey)
    ensures c.mysqlDSN == DSN(User(env), Password(env), Host(env), Port(env), Database(env))
  {
    Settings(
      GetEnv(env, ProcessNameKey, DefaultProcessName),
      GetEnv(env, RealmNameKey, DefaultRealmName),
      DSN(User(env), Password(env), Host(env), Port(env), Database(env)))
  }

  /**
   * None of the seven variables the exporter reads is set to a non-empty
   * value, so every setting takes its default; other variables do not matter.
   */
  predicate NoOverrides(env: Env) {
    && Lookup(env, ProcessNameKey) == ""
    && Lookup(env, RealmNameKey) == ""
    && Lookup(env, UserKey) == ""
    && Lookup(env, PasswordKey) == ""
    && Lookup(env, HostKey) == ""
    && Lookup(env, PortKey) == ""
    && Lookup(env, DatabaseKey) == ""
  }

  /** With none of the seven variables set, the probes look for `mangosd` and `realmd` and the DSN is the default one. */
  lemma DefaultSettings(env: Env)
    requires NoOverrides(env)
    ensures Load(env) == Settings("mangosd", "realmd", "mangos_monitor:@tcp(localhost:3306)/character0")
  {
    DefaultDSN();
  }

  /** The DSN built from the default values. */
  lemma DefaultDSN()
    ensures DSN(DefaultUser, DefaultPassword, DefaultHost, DefaultPort, DefaultDatabase)
         == "mangos_monitor:@tcp(localhost:3306)/character0"
  {
    DefaultCredentials();
    DefaultAddress();
    DefaultDSNJoin();
  }

  // Helper lemmas for DefaultDSN only: each compares one short literal, which
  // keeps the solver's work on the default DSN small. They state nothing of
  // their own about the exporter.
  lemma DefaultCredentials()
    ensures DefaultUser + ":" + DefaultPassword == "mangos_monitor:"
  {
  }

  lemma DefaultAddress()
    ensures Address(DefaultHost, DefaultPort, DefaultDatabase) == "@tcp(localhost:3306)/character0"
  {
  }

  lemma DefaultDSNJoin()
    ensures "mangos_monitor:" + "@tcp(localhost:3306)/character0" == "mangos_monitor:@tcp(localhost:3306)/character0"
  {
  }

  /** Setting `MANGOS_PROCESS_NAME` makes the world-server probe look for that name instead. */
  lemma ProcessNameOverride(env: Env, name: string)
    requires name != ""
    ensures Load(env[ProcessNameKey := name]).processName == name
    ensures Load(env[ProcessNameKey := name]).realmName == Load(env).realmName
    ensures Load(env[ProcessNameKey := name]).mysqlDSN == Load(env).mysqlDSN
  {
  }

  /**
   * The DSN can be read back: when the user name holds no ':' the first ':'
   * of the DSN ends the user field and the password follows it.
   */
  lemma {:induction false} DSNUserField(user: string, password: string, host: string, port: string, db: string)
    requires !Contains(user, ":")
    ensures Index(DSN(user, password, host, port, db), ":") == |user|
    ensures DSN(user, password, host, port, db)[..|user|] == user
    ensures DSN(user, password, host, port, db)[|user| + 1..][..|password|] == password
  {
    var d := DSN(user, password, host, port, db);
    var rest := password + Address(host, port, db);
    assert d == (user + ":") + rest;
    assert OccursAt(user + ":", ":", |user|);
    forall j: nat | j < |user| ensures !OccursAt(user + ":", ":", j) {
      assert !OccursAt(user, ":", j);
      assert (user + ":")[j..j + 1] == user[j..j + 1];
    }
    FirstOccurrenceInPrefix(user + ":", rest, ":", |user|);
    var k := Index(d, ":");
    FirstOccurrenceUnique(d, ":", k, |user|);
    assert d[|user| + 1..] == rest;
  }
}
