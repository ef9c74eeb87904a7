# WoW server exporter — Dafny model

This project models the decision and string logic of a small Prometheus
exporter for a MaNGOS world server and its realm server. On every scrape the
exporter checks whether the two server processes appear in the output of
`ps aux`. It also counts the online characters in the MySQL character
database. It writes the results into three gauges: `wow_server_up`,
`wow_realm_up` and `wow_players_online`. At start-up it reads its settings from
the environment. It then logs the MySQL DSN with the password masked by
`strings.Replace(dsn, password, "***", 1)`.

The I/O is replaced by inputs:

- the environment is a `map<string, string>`;
- the output of `ps aux` is an `Option<string>`, where `None` means the command failed;
- the database round trip is a `Reply`: `OpenError`, `QueryError` or `Counted(n)`.

Modules:

- `GoStrings` (strings.dfy): Go's `strings.Index`, `strings.Contains` and
  `strings.Replace` with a count of 1. Each is specified by occurrence
  positions (`OccursAt`, `FirstOccurrence`).
- `Config` (config.dfy): `getEnv`, the process names and the DSN built by the
  package-level initialisers.
- `Probe` (probe.dfy): the decision part of `checkProcess`.
- `Store` (store.dfy): the error-to-sentinel mapping of `getPlayersOnline`.
- `Metrics` (metrics.dfy): the gauges as a class (`Gauges`) whose
  `UpdateMetrics` method is proved against the function `Refreshed`. It also
  holds lemmas about single refreshes and about any sequence of scrapes
  (`Replay`).
- `Redaction` (redaction.dfy): the masked DSN in the start-up log.

One might expect the logged DSN never to show a non-empty password. The
code at main.go:116 does not guarantee this. Only the first occurrence of the
password text is masked. If that text also occurs in the user name, the user name is masked and
the password field is logged in clear (`Redaction.RedactMasksUserFirst`, `Redaction.RedactShowsPassword`,
`Redaction.RedactLeakExample`). With an empty password, `***` is put in front
of the DSN (`Redaction.RedactEmptyPassword`).

## Model

| member | source | states |
|---|---|---|
| `GoStrings.Index` | main.go:64 | the search behind both `strings.Contains` (line 64) and `strings.Replace` (line 116): returns -1 exactly when the pattern does not occur; otherwise returns the left-most position where it occurs (the empty pattern occurs at 0) |
| `GoStrings.Contains` | main.go:64 | true exactly when the pattern occurs somewhere in the text as a contiguous substring |
| `GoStrings.ReplaceFirst` | main.go:116 | with count 1, `strings.Replace` returns the text unchanged when the pattern does not occur; otherwise it swaps the left-most occurrence for the replacement. This also covers Go's shortcut when pattern and replacement are equal, and the empty-pattern case |
| `GoStrings.ReplaceEmptyPattern` | main.go:116 | an empty pattern inserts the replacement once, in front of the text |
| `GoStrings.ReplaceFirstInPrefix` | main.go:116 | when the pattern first occurs inside a prefix of the text, the replacement happens in that prefix and the rest of the text is untouched |
| `GoStrings.ReplaceFirstNoLaterThan` | main.go:116 | when the pattern occurs at some position, the replacement happens at the first occurrence, which is at that position or before it |
| `GoStrings.ReplaceKeepsLaterOccurrences` | main.go:116 | any occurrence that starts at or after the end of the first one is still in the result, shifted by the length difference; an occurrence that overlaps the first one is not guaranteed to survive |
| `Config.Lookup` | main.go:50 | `os.Getenv`: the variable's value when it is set, and "" when it is unset |
| `Config.GetEnv` | main.go:49-55 | returns the default when the variable is unset or empty, and the variable's value otherwise; the result is empty only when both the value and the default are empty |
| `Config.GetEnvUnsetIsEmpty` | main.go:49-55 | an unset variable and a variable set to "" give the same result, the default |
| `Config.DSN` | main.go:36-40 | the DSN text holds the user name, then ':', then the password, then the address part; each field sits at a position fixed by the lengths of the fields before it. The text alone gives back the user and password fields only when the user name has no ':' (`Config.DSNUserField`) |
| `Config.AddressFields` | main.go:37-40 | the address part is `@tcp(`, the host, ':', the port, `)/` and the database name, in that order |
| `Config.Load` | main.go:32-40 | neither process name is ever empty; an unset or empty `MANGOS_PROCESS_NAME` or `REALM_PROCESS_NAME` gives `mangosd` or `realmd`, and a non-empty one replaces the default; the DSN is `user:password@tcp(host:port)/database` built from the five MySQL settings |
| `Config.DefaultSettings` | main.go:32-40 | when none of the seven variables the exporter reads is set to a non-empty value (other variables may be set), the names are `mangosd` and `realmd` and the DSN is `mangos_monitor:@tcp(localhost:3306)/character0` |
| `Config.ProcessNameOverride` | main.go:32 | setting `MANGOS_PROCESS_NAME` to a non-empty name makes it the world-server name; the realm name and the DSN stay the same |
| `Config.DSNUserField` | main.go:36-40 | when the user name has no ':', the first ':' of the DSN is right after the user name, and the password follows it |
| `Probe.CheckProcess` | main.go:57-65 | a failed `ps` run reports not running; otherwise the result is true exactly when the name occurs in the listing |
| `Probe.MatchInsideOtherCommandLine` | main.go:64 | a name that appears anywhere in the listing, even inside another process's command line, counts as running |
| `Probe.EmptyNameAlwaysRunning` | main.go:64 | an empty name would count as running for every successful listing |
| `Probe.ConfiguredNamesNeedAMatch` | main.go:32-33 | the configured names are non-empty, so an empty listing reports neither server as running |
| `Store.PlayersOnline` | main.go:67-83 | an open failure or a query/scan failure gives the sentinel -1; success gives the scanned count; a non-negative result always comes from a successful query |
| `Metrics.Refreshed` | main.go:85-104 | each up-gauge is 1 exactly when its own probe reported running and 0 otherwise; a non-negative count overwrites the player gauge; a negative count leaves it unchanged |
| `Metrics.RefreshPreservesWellFormed` | main.go:85-104 | after a refresh the up-gauges are in {0,1} and the player gauge is non-negative, if they were before |
| `Metrics.RefreshOverwrites` | main.go:99-103 | when the count is known, the new gauges do not depend on the old ones: an overwrite, not an accumulation |
| `Metrics.RefreshIdempotent` | main.go:85-104 | two refreshes that see the same probe and count results leave the same gauges as one |
| `Metrics.Replay` | main.go:85-104 | the gauges after a sequence of scrapes stay well formed if they started so; an empty sequence of scrapes leaves them as they were |
| `Metrics.LastKnownCount` | main.go:99-103 | the latest count that reached the database: either the starting value or a non-negative count some scrape reported, and the starting value when no scrape reached the database |
| `Metrics.ReplayShowsLatest` | main.go:85-104 | after any sequence of scrapes, the player gauge holds the count of the latest scrape that reached the database (the starting value if none did), and the up-gauges reflect the latest probes |
| `Metrics.Gauges.constructor` | main.go:16-30 | new gauges read 0, 0, 0 |
| `Metrics.Gauges.UpdateMetrics` | main.go:85-104 | runs all three steps and leaves the gauges equal to `Refreshed` of their old values, the two probe results and the player count; the gauges stay well formed |
| `Metrics.ScrapeWithStoreDown` | main.go:85-104 | first scrape with none of the exporter's variables set, `mangosd` in the world listing, `realmd` missing from the realm listing, database unreachable: the gauges read 1, 0, 0 |
| `Metrics.ScrapeWithBothUp` | main.go:85-104 | none of the exporter's variables set, a listing containing both `mangosd` and `realmd`, and 42 characters online, after an earlier scrape in which both `ps` runs failed: the gauges read 1, 1, 42 |
| `Redaction.RedactedDSN` | main.go:116 | the logged DSN: the password field always holds the password text, so exactly one occurrence is replaced by `***`, the first one, which is the password field or lies before it |
| `Redaction.RedactEmptyPassword` | main.go:116 | with an empty password the logged line is `***` followed by the unmasked DSN |
| `Redaction.RedactDefault` | main.go:116 | when none of the exporter's variables is set to a non-empty value, the logged line is `***mangos_monitor:@tcp(localhost:3306)/character0` |
| `Redaction.MaskPasswordField` | main.go:116 | if the password text first occurs in the password field, only that field is replaced by `***` |
| `Redaction.RedactPasswordField` | main.go:116 | the same for the configured DSN: the log shows `user:***@tcp(host:port)/database` |
| `Redaction.MaskUserFirst` | main.go:116 | if the password text occurs in the user name, it is masked there; the password field is left as it is |
| `Redaction.PasswordFieldShown` | main.go:116 | a line of the form `before:password...` contains the password, whatever `before` is; so the password shows whenever the masking happened before the field |
| `Redaction.RedactMasksUserFirst` | main.go:116 | for the configured DSN: when the user name contains the password, the log masks that part of the user name and leaves the password field as it is |
| `Redaction.RedactShowsPassword` | main.go:116 | for the configured DSN: when the user name contains the password, the logged line still contains the password |
| `Redaction.RedactLeakExample` | main.go:116 | user `monitor` with password `mon` is logged as `***itor:mon` followed by the unchanged address part |

## Left out

- The HTTP server, the `/metrics` handler and the exposition-format serialisation (main.go:106-117) are not modelled. They are network I/O and the Prometheus library's wire format.
- Gauge registration with `prometheus.MustRegister` and its panic on duplicate names (main.go:43-47) are not modelled. That behaviour belongs to the library.
- Running `ps aux` and opening the MySQL connection (main.go:58-59, 68-76), including `defer db.Close()`, are not modelled. Their outcomes are inputs.
- The log calls are not modelled, apart from the text of the redacted DSN line. They are side effects with no contract.
- Metrics.Gauges.UpdateMetrics: gauge values are integers, not `float64`. The values (0, 1 and row counts) are exact in both.
- Store.PlayersOnline: the scanned count is an unbounded integer rather than Go's 64-bit `int`. A `COUNT(*)` result fits in either.
- Concurrent scrapes calling `updateMetrics` at the same time are not modelled. The source relies on the gauge type being safe under concurrency.
- Strings are sequences of characters, while Go's `strings` functions work on bytes. For valid UTF-8 text the two agree: UTF-8 is self-synchronising, so a byte-wise match of a valid pattern always starts and ends on character boundaries. Environment values and `ps` output that are not valid UTF-8 are not modelled. The one other difference is `strings.Replace` with an empty pattern, which advances by UTF-8 runes; with a count of 1 it only inserts at position 0.
- Config.Load: `MYSQL_PASSWORD` is read twice, once for the DSN and again at main.go:116. The model reads it from one environment map, because the environment does not change between the two reads.
- An exact-match process lookup (a `pgrep`-style alternative to the listing search) is not part of this code and is not modelled.
