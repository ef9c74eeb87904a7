/**
 * The three gauges `wow_server_up`, `wow_realm_up` and `wow_players_online`
 * and `updateMetrics`, which refreshes them on every scrape. Gauge values
 * are integers: the two up-gauges hold 0 or 1 and the player gauge a count.
 */
module Metrics {
  import opened GoStrings
  import opened Config
  import opened Probe
  import opened Store

  /** The values of the three gauges at one moment. */
  datatype Snapshot = Snapshot(serverUp: int, realmUp: int, playersOnline: int)

  /** Freshly created gauges read 0. */
  const Initial := Snapshot(0, 0, 0)

  /** The up-gauges hold 0 or 1 and the player gauge is never negative. */
  predicate WellFormed(s: Snapshot) {
    s.serverUp in {0, 1} && s.realmUp in {0, 1} && s.playersOnline >= 0
  }

  /** 1 for a running process, 0 otherwise. */
  function UpValue(running: bool): (v: int)
    ensures v in {0, 1} && (v == 1 <==> running)
  {
    if running then 1 else 0
  }

  /**
   * The gauges after one refresh: both up-gauges are overwritten from their
   * own probe; the player gauge is overwritten by a non-negative count and
   * left as it was when the count is the sentinel (or any negative value).
   */
  function Refreshed(before: Snapshot, serverRunning: bool, realmRunning: bool, playerCount: int): (after: Snapshot)
    ensures after.serverUp in {0, 1} && (after.serverUp == 1 <==> serverRunning)
    ensures after.realmUp in {0, 1} && (after.realmUp == 1 <==> realmRunning)
    ensures playerCount >= 0 ==> after.playersOnline == playerCount
    ensures playerCount < 0 ==> after.playersOnline == before.playersOnline
  {
    Snapshot(
      UpValue(serverRunning),
      UpValue(realmRunning),
      if playerCount >= 0 then playerCount else before.playersOnline)
  }

  /** A refresh keeps the gauges well formed. */
  lemma RefreshPreservesWellFormed(before: Snapshot, serverRunning: bool, realmRunning: bool, playerCount: int)
    requires WellFormed(before)
    ensures WellFormed(Refreshed(before, serverRunning, realmRunning, playerCount))
  {
  }

  /**
   * A refresh overwrites and never accumulates: once the count is known, the
   * result does not depend on the gauges' previous values at all.
   */
  lemma RefreshOverwrites(s: Snapshot, t: Snapshot, serverRunning: bool, realmRunning: bool, playerCount: int)
    requires playerCount >= 0
    ensures Refreshed(s, serverRunning, realmRunning, playerCount) == Refreshed(t, serverRunning, realmRunning, playerCount)
  {
  }

  /** Two scrapes that observe the same world leave the gauges as one does. */
  lemma RefreshIdempotent(s: Snapshot, serverRunning: bool, realmRunning: bool, playerCount: int)
    ensures var once := Refreshed(s, serverRunning, realmRunning, playerCount);
            Refreshed(once, serverRunning, realmRunning, playerCount) == once
  {
  }

  /** What one scrape observed: the two probe results and the player count. */
  datatype Observation = Observation(serverRunning: bool, realmRunning: bool, playerCount: int)

  /** The gauges after a sequence of scrapes, applied in order; they stay well formed. */
  function Replay(s: Snapshot, history: seq<Observation>): (r: Snapshot)
    ensures WellFormed(s) ==> WellFormed(r)
    ensures history == [] ==> r == s
    decreases |history|
  {
    if history == [] then s
    else
      var o := history[0];
      Replay(Refreshed(s, o.serverRunning, o.realmRunning, o.playerCount), history[1..])
  }

  /**
   * The count of the latest scrape that reached the database, or `init` if
   * none did. Any other result is a non-negative count some scrape reported.
   */
  function LastKnownCount(init: int, history: seq<Observation>): (r: int)
    ensures r == init || exists k :: 0 <= k < |history| && history[k].playerCount == r >= 0
    ensures (forall k :: 0 <= k < |history| ==> history[k].playerCount < 0) ==> r == init
    decreases |history|
  {
    if history == [] then init
    else
      var last := history[|history| - 1];
      if last.playerCount >= 0 then last.playerCount
      else LastKnownCount(init, history[..|history| - 1])
  }

  /** Looking at the first scrape separately: its count, if known, becomes the new starting value. */
  lemma {:induction false} LastKnownCountFront(init: int, history: seq<Observation>)
    requires history != []
    ensures LastKnownCount(init, history)
         == LastKnownCount(if history[0].playerCount >= 0 then history[0].playerCount else init, history[1..])
    decreases |history|
  {
    if |history| > 1 {
      var butLast := history[..|history| - 1];
      assert butLast[0] == history[0];
      assert butLast[1..] == history[1..][..|history[1..]| - 1];
      LastKnownCountFront(init, butLast);
    }
  }

  /**
   * Over any sequence of scrapes, the player gauge shows the count of the
   * latest scrape that reached the database (the starting value if none
   * did), and the up-gauges show the latest probes.
   */
  lemma {:induction false} ReplayShowsLatest(s: Snapshot, history: seq<Observation>)
    ensures Replay(s, history).playersOnline == LastKnownCount(s.playersOnline, history)
    ensures history != [] ==>
      Replay(s, history).serverUp == UpValue(history[|history| - 1].serverRunning) &&
      Replay(s, history).realmUp == UpValue(history[|history| - 1].realmRunning)
    decreases |history|
  {
    if history != [] {
      var o := history[0];
      var next := Refreshed(s, o.serverRunning, o.realmRunning, o.playerCount);
      ReplayShowsLatest(next, history[1..]);
      LastKnownCountFront(s.playersOnline, history);
      if |history| == 1 {
        assert history[1..] == [];
      } else {
        assert history[1..][|history[1..]| - 1] == history[|history| - 1];
      }
    }
  }

  /**
   * The gauges of the exporter process. Each field is one gauge; `Set` on a
   * gauge is an assignment to its field.
   */
  class Gauges {
    var serverUp: int
    var realmUp: int
    var playersOnline: int

    /** The current gauge values as one value. */
    function Values(): Snapshot
      reads this
    {
      Snapshot(serverUp, realmUp, playersOnline)
    }

    /** New gauges read 0. */
    constructor ()
      ensures Values() == Initial && WellFormed(Values())
    {
      serverUp, realmUp, playersOnline := 0, 0, 0;
    }

    /**
     * `updateMetrics`: probe the world server, then the realm server, then
     * ask the store for the player count; all three steps always run. The
     * two `ps aux` listings and the store reply are the outcomes of the I/O
     * that this refresh performs.
     */
    method UpdateMetrics(settings: Settings, worldListing: Option<string>, realmListing: Option<string>, reply: Reply)
      modifies this
      ensures Values() == Refreshed(old(Values()),
                                    CheckProcess(worldListing, settings.processName),
                                    CheckProcess(realmListing, settings.realmName),
                                    PlayersOnline(reply))
      ensures old(WellFormed(Values())) ==> WellFormed(Values())
    {
      if CheckProcess(worldListing, settings.processName) {
        serverUp := 1;
      } else {
        serverUp := 0;
      }

      if CheckProcess(realmListing, settings.realmName) {
        realmUp := 1;
      } else {
        realmUp := 0;
      }

      var playerCount := PlayersOnline(reply);
      if playerCount >= 0 {
        playersOnline := playerCount;
      }
    }
  }

  /**
   * First scrape with the world server listed, the realm server missing from
   * its listing and the database unreachable: server up, realm down, player
   * gauge still 0.
   */
  method ScrapeWithStoreDown(env: Env, worldListing: string, realmListing: string) returns (values: Snapshot)
    requires NoOverrides(env)
    requires Contains(worldListing, DefaultProcessName) && !Contains(realmListing, DefaultRealmName)
    ensures values == Snapshot(1, 0, 0)
  {
    DefaultSettings(env);
    var gauges := new Gauges();
    gauges.UpdateMetrics(Load(env), Some(worldListing), Some(realmListing), OpenError);
    values := gauges.Values();
  }

  /**
   * Both servers listed and 42 characters online, after an earlier scrape in
   * which both `ps` runs failed: the gauges read 1, 1 and 42.
   */
  method ScrapeWithBothUp(env: Env, listing: string, earlier: nat) returns (values: Snapshot)
    requires NoOverrides(env)
    requires Contains(listing, DefaultProcessName) && Contains(listing, DefaultRealmName)
    ensures values == Snapshot(1, 1, 42)
  {
    DefaultSettings(env);
    var gauges := new Gauges();
    gauges.UpdateMetrics(Load(env), None, None, Counted(earlier));
    gauges.UpdateMetrics(Load(env), Some(listing), Some(listing), Counted(42));
    values := gauges.Values();
  }
}
