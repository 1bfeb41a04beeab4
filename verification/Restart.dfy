/** The two sweeps of the ticker's loop after a crash, as commands on the two stores. */
module Restart {
  import opened Jobs
  import opened Queue
  import opened Retry
  import opened Sweeps
  import opened Backend
  import opened Ticker
  import opened Recovery

  /** After the reaper no row is one that the reconciler would skip. */
  lemma ReapedRowsKeepShape(cfg: Config, st: Store, now: Time)
    requires cfg.schedule != [] && Base(st)
    ensures forall j | j in ReapAll(cfg, st, now).rows :: !Skipped(ReapAll(cfg, st, now).rows[j])
  {
    ReapEachKeepsRows(cfg, st, now, StaleMsgs(st, now, cfg.visibility));
    forall j | j in ReapAll(cfg, st, now).rows
      ensures !Skipped(ReapAll(cfg, st, now).rows[j])
    {
      ReapAllSought(cfg, st, now, j);
    }
  }

  /**
   * One `reap_stale`, then one `reconcile_orphans`, long enough after everybody stopped: the loops
   * over the stores recover everything exactly when no job had been lost.
   */
  method RecoverAfterCrash(db: Database, redis: Redis, cfg: Config, reapAt: Time, reconcileAt: Time)
    requires cfg.schedule != [] && cfg.reaperBatch >= 1 && cfg.reconcileBatch >= 1
    requires Base(Snapshot(db, redis)) && LongAfter(cfg, Snapshot(db, redis), reapAt, reconcileAt)
    modifies db, redis
    ensures Snapshot(db, redis) == ReapThenReconcile(cfg, old(Snapshot(db, redis)), reapAt, reconcileAt)
    ensures Recovered(Snapshot(db, redis)) <==> forall j | j in old(db.rows) :: Sought(old(Snapshot(db, redis)), j)
  {
    ghost var st := Snapshot(db, redis);
    var _ := ReapStale(db, redis, cfg, reapAt);
    ReapedRowsKeepShape(cfg, st, reapAt);
    assert Snapshot(db, redis) == ReapAll(cfg, st, reapAt);
    assert db.rows == ReapAll(cfg, st, reapAt).rows;
    var _ := ReconcileOrphans(db, redis, cfg, reconcileAt);
    RecoveryExactly(cfg, st, reapAt, reconcileAt);
  }
}
