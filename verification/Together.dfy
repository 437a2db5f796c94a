/** Convergence of several wallets at once: the runs that bring each of them up to date compose. */
module Together {
  import opened Common
  import opened Ledger
  import opened MsgQueue
  import opened Pipeline
  import opened WalletInvariant
  import opened Safety
  import opened Theorems
  import opened Convergence
  import opened Recovery
  import opened Limits
  import opened Lives
  import opened LivesRecovery
  import opened Rounds

  // ---- what a run keeps ----

  /** Signature rows and the contents of transactions stay for good. */
  lemma {:induction false} RunKeeps(s: State, es: seq<Event>)
    requires Inv(s) && Legal(s, es)
    ensures Keeps(s.t, Run(s, es).t) && Run(s, es).ledger == s.ledger
    decreases |es|
  {
    hide Inv, Enabled, Apply;
    if es != [] {
      TablesKept(s, es[0]);
      LedgerKept(s, es[0]);
      StepInv(s, es[0]);
      RunKeeps(Apply(s, es[0]), es[1..]);
    }
  }

  lemma LedgerKept(s: State, e: Event)
    requires Enabled(s, e)
    ensures Apply(s, e).ledger == s.ledger
  {
  }

  /** A wallet that has converged stays so while its history stays the same. */
  lemma ConvergedStays(s: State, es: seq<Event>, w: nat)
    requires Reachable(s) && Legal(s, es) && w in s.chain && Converged(s, w)
    requires w in Run(s, es).chain && Run(s, es).chain[w] == s.chain[w]
    ensures Converged(Run(s, es), w)
  {
    hide Reachable, Inv, Legal, Run, Linked, Watermark, Rank;
    ReachableInv(s);
    WatermarkMonotone(s, es, w);
    ReachableRun(s, es);
    FullyReached(s, w);
    UpToDateConverged(Run(s, es), w);
  }

  lemma FullyReached(s: State, w: nat)
    requires Inv(s) && w in s.chain && Converged(s, w)
    ensures Reached(s.t, w, s.chain[w]) == |s.chain[w]|
  {
    hide WalletsInv, ConsumerInv, SyncInv, Watermark, Linked, Rank;
    if s.chain[w] != [] {
      RankAt(s.chain[w], |s.chain[w]| - 1);
    }
  }

  lemma SyncableStays(s: State, es: seq<Event>, w: nat)
    requires Reachable(s) && Legal(s, es) && Syncable(s, w)
    requires w in Run(s, es).chain && Run(s, es).chain[w] == s.chain[w]
    ensures Syncable(Run(s, es), w)
  {
    hide Reachable, Inv, Legal, Run, Linked, Watermark, Rank, Storable;
    ReachableInv(s);
    WatermarkMonotone(s, es, w);
    RunKeeps(s, es);
  }

  // ---- a set of wallets ----

  ghost predicate AllConverged(s: State, ws: set<nat>) {
    forall w :: w in ws ==> w in s.chain && Converged(s, w)
  }

  lemma {:induction false} AllConverge(s: State, ws: set<nat>) returns (es: seq<Event>)
    requires Reachable(s) && Restarted(s) && forall w :: w in ws ==> Syncable(s, w)
    ensures Legal(s, es) && Restart !in es
    ensures Run(s, es).chain == s.chain && AllConverged(Run(s, es), ws)
    decreases ws
  {
    hide Reachable, Restarted, Legal, Run, Converged, Syncable;
    if w :| w in ws {
      SyncableWallet(s, w);
      var front := RecoveryConverges(s, w);
      var s1 := Run(s, front);
      ConvergedFrom(s, s1, w);
      ReachableRun(s, front);
      forall v | v in ws - {w}
        ensures Syncable(s1, v)
      {
        SyncableWallet(s, v);
        SyncableStays(s, front, v);
      }
      var tail := AllConverge(s1, ws - {w});
      ConvergedStays(s1, tail, w);
      RunConcat(s, front, tail);
      es := front + tail;
    } else {
      es := [];
      RunNone(s);
    }
  }

  /**
   * From a restarted process some run without a stop leaves every wallet of a set converged together if
   * and only if each of them is `Syncable`: the wallets do not get in each other's way.
   */
  lemma ConvergeTogetherIff(s: State, ws: set<nat>)
    requires Reachable(s) && Restarted(s) && forall w :: w in ws ==> w in s.chain
    ensures (exists es :: Legal(s, es) && Restart !in es && AllConverged(Run(s, es), ws)) <==> forall w :: w in ws ==> Syncable(s, w)
  {
    hide Reachable, Restarted, Legal, Run, Converged, Syncable;
    if forall w :: w in ws ==> Syncable(s, w) {
      var es := AllConverge(s, ws);
      assert Legal(s, es) && Restart !in es && AllConverged(Run(s, es), ws);
    }
    forall es, w | Legal(s, es) && AllConverged(Run(s, es), ws) && w in ws
      ensures Syncable(s, w)
    {
      OnlySyncableConverges(s, es, w);
    }
  }
}
