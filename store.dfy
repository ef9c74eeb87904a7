/**
 * `getPlayersOnline`: open a connection with the configured DSN, run
 * `SELECT COUNT(*) FROM characters WHERE online = 1` and scan the count.
 * The database round trip is outside the model; its outcome is a parameter.
 */
module Store {

  /** What opening the connection and running the query produced. */
  datatype Reply =
    | OpenError          // sql.Open returned an error
    | QueryError         // the query or the scan of its row failed
    | Counted(count: int)

  /** The value that stands for "player count unknown". */
  const Sentinel := -1

  /**
   * Every failure maps to the sentinel, and a success returns the scanned
   * count unchanged; a non-negative result therefore always comes from a
   * successful query.
   */
  function PlayersOnline(reply: Reply): (n: int)
    ensures reply.Counted? ==> n == reply.count
    ensures reply.OpenError? || reply.QueryError? ==> n == Sentinel
    ensures n >= 0 ==> reply.Counted? && reply.count == n
  {
    match reply
    case OpenError => Sentinel
    case QueryError => Sentinel
    case Counted(count) => count
  }
}
