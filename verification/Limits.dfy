/**
 * Which wallets can converge at all. `Recovery` shows that fewer than 100 new signatures, all of
 * them storable, are enough; here they are shown to be necessary, whatever the run does.
 */
module Limits {
  import opened Common
  import opened Ledger
  import opened MsgQueue
  import opened Pipeline
  import opened WalletInvariant
  import opened ProducerInvariant
  import opened Safety
  import opened Theorems
  import opened Convergence
  import opened Recovery
  import opened Masking

  /** The whole history of `w` is linked and nothing else, the counter is its size, the watermark its newest. */
  ghost predicate Converged(s: State, w: nat)
    requires w in s.chain
  {
    var h := s.chain[w];
    && w in s.t.wallet && w in s.t.links
    && (forall x :: Linked(s.t, w, x) <==> x in h)
    && s.t.wallet[w].signatures == |h|
    && Watermark(s.t, w) == if h == [] then "" else h[|h| - 1]
  }

  /** What a step does to a watermark. */
  lemma WatermarkStep(s: State, e: Event, w: nat)
    requires Inv(s) && Enabled(s, e) && w in s.chain
    ensures var s' := Apply(s, e);
            && w in s.t.wallet && w in s'.t.wallet && w in s'.chain
            && Watermark(s'.t, w) == (
               if e.Mark? && s.consumer.taken[0].wallet == w && LastMark(s.consumer.taken) != "" then LastMark(s.consumer.taken)
               else Watermark(s.t, w))
            && (s'.chain[w] == s.chain[w] || (e.Grow? && e.wallet == w && s'.chain[w] == s.chain[w] + [e.signature]))
  {
    hide WalletInv, ProducerInv, IdsReady, AllLinked, Of, Flow, Watermark, Rank, RowOk, Taken, Rest, LastMark;
    var s' := Apply(s, e);
    match e
    case Save(ids) => SaveInv(s, s', ids);
    case Link => LinkInv(s, s');
    case Mark => MarkWallet(s, s', w);
    case _ =>
  }

  // ---- a full page ----

  /** `LIMIT` or more new signatures, nothing pending that would move the watermark, and no sync that could end. */
  ghost predicate Stuck(s: State, w: nat) {
    && w in s.chain && w in s.t.wallet
    && |s.chain[w]| - Reached(s.t, w, s.chain[w]) >= LIMIT
    && !HasMark(Flow(s, w))
    && (s.producer.Idle? || s.producer.wallet != w || Looping(s, w))
  }

  lemma GapStep(s: State, e: Event, w: nat)
    requires Inv(s) && Enabled(s, e) && w in s.chain && w in s.t.wallet && !HasMark(Flow(s, w))
    ensures var s' := Apply(s, e);
            && w in s'.chain && w in s'.t.wallet && Watermark(s'.t, w) == Watermark(s.t, w)
            && Reached(s'.t, w, s'.chain[w]) == Reached(s.t, w, s.chain[w]) && |s.chain[w]| <= |s'.chain[w]|
  {
    hide WalletInv, Of, Rank, Watermark, Enabled, Apply;
    WatermarkStep(s, e, w);
    InvParts(s);
    WalletAt(s, w);
    if e.Mark? {
      NoMarkTaken(s, w);
    }
    if e.Grow? && e.wallet == w {
      GrowFresh(s, e.wallet, e.signature);
      GrowKeeps(s.t, w, s.chain[w], Flow(s, w), e.signature);
    }
  }

  lemma GrowFresh(s: State, w: nat, x: string)
    requires Enabled(s, Grow(w, x))
    ensures x != "" && x !in s.chain[w]
  {
  }

  lemma NoMarkTaken(s: State, w: nat)
    requires !HasMark(Flow(s, w)) && Enabled(s, Mark)
    ensures s.consumer.taken[0].wallet == w ==> LastMark(s.consumer.taken) == ""
  {
    var taken := s.consumer.taken;
    if taken[0].wallet == w {
      HasMarkConcat(taken, Of(s.queue, w));
      LastMarkAt(taken);
    }
  }

  lemma StuckStep(s: State, e: Event, w: nat)
    requires Inv(s) && Stuck(s, w) && Enabled(s, e)
    ensures Stuck(Apply(s, e), w)
  {
    GapStep(s, e, w);
    NoMask(Flow(s, w));
    MaskStep(s, e, w);
    StuckProducer(s, e, w);
  }

  lemma NoMask(ms: seq<Msg>)
    requires !HasMark(ms)
    ensures !MaskedIn(ms)
  {
  }

  lemma StuckProducer(s: State, e: Event, w: nat)
    requires Inv(s) && Stuck(s, w) && Enabled(s, e)
    ensures var p := Apply(s, e).producer; p.Idle? || p.wallet != w || Looping(Apply(s, e), w)
    ensures e.SendMarker? ==> s.producer.wallet != w
  {
    hide Inv, Flow, HasMark, Watermark, Rank, Taken, Rest;
    if !s.producer.Idle? && s.producer.wallet == w && !e.Restart? {
      LoopingStep(s, e, w);
    }
  }

  lemma {:induction false} StuckRun(s: State, es: seq<Event>, w: nat)
    requires Inv(s) && Stuck(s, w) && Legal(s, es)
    ensures Stuck(Run(s, es), w) && Inv(Run(s, es))
    decreases |es|
  {
    hide Inv, Stuck, Enabled, Apply;
    if es != [] {
      StepInv(s, es[0]);
      StuckStep(s, es[0], w);
      StuckRun(Apply(s, es[0]), es[1..], w);
    }
  }

  lemma StuckDiverges(s: State, w: nat)
    requires Inv(s) && Stuck(s, w)
    ensures !Converged(s, w)
  {
    hide WalletsInv, ConsumerInv, SyncInv, Watermark, Rank, HasMark, Flow, Looping;
    RankAt(s.chain[w], |s.chain[w]| - 1);
  }

  // ---- an unstorable transaction ----

  /** On-chain messages carry what the ledger says. */
  ghost predicate FromLedger(s: State, ms: seq<Msg>) {
    forall m :: m in ms && m.Onchain? ==> m.tx.signature in s.ledger && m.tx == s.ledger[m.tx.signature]
  }

  /** A signature of the history that is not saved, and never will be. */
  ghost predicate Unsavable(s: State, w: nat, x: string) {
    && w in s.chain && x in s.chain[w] && x in s.ledger && !Storable(s.ledger[x]) && x !in s.t.signature
    && FromLedger(s, s.queue) && (s.consumer.Free? || FromLedger(s, s.consumer.taken))
  }

  lemma UnsavableStep(s: State, e: Event, w: nat, x: string)
    requires Inv(s) && Unsavable(s, w, x) && Enabled(s, e)
    ensures Unsavable(Apply(s, e), w, x)
  {
    hide Storable, Inv, Of, Taken, Rest, Transactions, CanSave, FreshIds, Zip, Watermark, LastSignature, SaveTables;
    if e.PublishSaved? || e.ScanNext? {
      UnsavableSent(s, e, w, x);
    } else if e.Take? {
      TakenFromLedger(s);
    } else if e.Save? {
      SavedStorable(s, e.newIds, x);
    }
  }

  lemma UnsavableSent(s: State, e: Event, w: nat, x: string)
    requires Inv(s) && Unsavable(s, w, x) && Enabled(s, e) && (e.PublishSaved? || e.ScanNext?)
    ensures Unsavable(Apply(s, e), w, x)
  {
    hide WalletsInv, ConsumerInv, SyncInv, Storable, RowFor;
    assert Base(s);
    assert FromLedger(s, Apply(s, e).queue);
  }

  lemma TakenFromLedger(s: State)
    requires FromLedger(s, s.queue)
    ensures FromLedger(s, Taken(s.queue)) && FromLedger(s, Rest(s.queue))
  {
    hide Taken, Rest;
    ProcessConserves(s.queue);
    forall m | m in Taken(s.queue) || m in Rest(s.queue)
      ensures m in s.queue
    {
      assert m in multiset(Taken(s.queue)) + multiset(Rest(s.queue));
      assert m in multiset(s.queue);
    }
  }

  lemma SavedStorable(s: State, ids: seq<int>, x: string)
    requires Enabled(s, Save(ids)) && FromLedger(s, s.consumer.taken)
    requires x in s.ledger && !Storable(s.ledger[x]) && x !in s.t.signature
    ensures x !in Apply(s, Save(ids)).t.signature
  {
    hide Storable, Transactions, Zip;
    var txs := Transactions(s.consumer.taken);
    forall i | 0 <= i < |txs|
      ensures txs[i].signature != x
    {
      assert txs[i] in txs;
      TransactionsAt(s.consumer.taken, txs[i]);
    }
  }

  lemma {:induction false} UnsavableRun(s: State, es: seq<Event>, w: nat, x: string)
    requires Inv(s) && Unsavable(s, w, x) && Legal(s, es)
    ensures Unsavable(Run(s, es), w, x)
    decreases |es|
  {
    hide Inv, Unsavable, Enabled, Apply;
    if es != [] {
      StepInv(s, es[0]);
      UnsavableStep(s, es[0], w, x);
      UnsavableRun(Apply(s, es[0]), es[1..], w, x);
    }
  }

  // ---- the exact condition ----

  /** From a restarted process no run, with stops or without, converges unless `Syncable` holds. */
  lemma OnlySyncableConverges(s: State, es: seq<Event>, w: nat)
    requires Reachable(s) && Restarted(s) && w in s.chain && Legal(s, es)
    requires w in Run(s, es).chain && Converged(Run(s, es), w)
    ensures Syncable(s, w)
  {
    hide Reachable, Inv, Converged, Storable, Watermark, Rank, Looping, Legal, Run, Linked;
    ReachableInv(s);
    WalletKnown(s, w);
    if |s.chain[w]| - Reached(s.t, w, s.chain[w]) >= LIMIT {
      StuckRun(s, es, w);
      StuckDiverges(Run(s, es), w);
    }
    forall x | x in s.chain[w] && x !in s.t.signature
      ensures x in s.ledger && Storable(s.ledger[x])
    {
      if !Storable(s.ledger[x]) {
        UnsavableRun(s, es, w, x);
        UnsavableDiverges(Run(s, es), w, x);
      }
    }
  }

  lemma WalletKnown(s: State, w: nat)
    requires Inv(s) && w in s.chain
    ensures w in s.t.wallet && forall x :: x in s.chain[w] ==> x in s.ledger
  {
  }

  lemma UnsavableDiverges(s: State, w: nat, x: string)
    requires Unsavable(s, w, x)
    ensures !Converged(s, w)
  {
    hide Watermark;
  }

  /**
   * From a restarted process some run without a stop ends with the wallet converged if and only if fewer
   * than 100 signatures are newer than the watermark and those not saved yet are storable; and
   * allowing stops does not help.
   */
  lemma ConvergesIff(s: State, w: nat)
    requires Reachable(s) && Restarted(s) && w in s.chain
    ensures (exists es :: Legal(s, es) && Restart !in es && w in Run(s, es).chain && Converged(Run(s, es), w)) <==> Syncable(s, w)
    ensures (exists es :: Legal(s, es) && w in Run(s, es).chain && Converged(Run(s, es), w)) <==> Syncable(s, w)
  {
    hide Reachable, Restarted, Syncable, Converged, Legal, Run;
    if Syncable(s, w) {
      var es := RecoveryConverges(s, w);
      ConvergedFrom(s, Run(s, es), w);
      assert Legal(s, es) && Restart !in es && w in Run(s, es).chain && Converged(Run(s, es), w);
    }
    forall es | Legal(s, es) && w in Run(s, es).chain && Converged(Run(s, es), w)
      ensures Syncable(s, w)
    {
      OnlySyncableConverges(s, es, w);
    }
  }

  lemma ConvergedFrom(s: State, s': State, w: nat)
    requires w in s.chain && s'.chain == s.chain && w in s'.t.wallet && w in s'.t.links
    requires forall x :: Linked(s'.t, w, x) <==> x in s.chain[w]
    requires s'.t.wallet[w].signatures == |s.chain[w]|
    requires Watermark(s'.t, w) == if s.chain[w] == [] then "" else s.chain[w][|s.chain[w]| - 1]
    ensures Converged(s', w)
  {
  }

  // ---- wallets that never converge ----

  const OWNER: nat := 1

  /** A fresh database with one wallet and this history. */
  function Fresh(h: seq<string>, ledger: map<string, OnchainTx>): State {
    State(ledger, map[OWNER := h], Tables(map[], map[OWNER := WalletRow(None, 0)], map[OWNER := {}]), [], Idle, Free, map[])
  }

  lemma FreshDiverges(h: seq<string>, ledger: map<string, OnchainTx>)
    requires Distinct(h) && "" !in h && (forall x :: x in h ==> x in ledger) && (forall x :: x in ledger ==> ledger[x].signature == x)
    requires |h| >= 100 || exists x :: x in h && !Storable(ledger[x])
    ensures var s := Fresh(h, ledger); Init(s) && Reachable(s) && Restarted(s) && !Syncable(s, OWNER)
    ensures forall es :: Legal(Fresh(h, ledger), es) ==>
              OWNER in Run(Fresh(h, ledger), es).chain && !Converged(Run(Fresh(h, ledger), es), OWNER)
  {
    hide Storable, Converged, Rank;
    var s := Fresh(h, ledger);
    InitReachable(s);
    assert Watermark(s.t, OWNER) == "";
    assert !Syncable(s, OWNER);
    forall es | Legal(s, es)
      ensures OWNER in Run(s, es).chain && !Converged(Run(s, es), OWNER)
    {
      ChainKept(s, es, OWNER);
      if Converged(Run(s, es), OWNER) {
        OnlySyncableConverges(s, es, OWNER);
      }
    }
  }

  lemma InitReachable(s: State)
    requires Init(s)
    ensures Reachable(s)
  {
    assert Legal(s, []) && Run(s, []) == s;
  }

  lemma {:induction false} ChainKept(s: State, es: seq<Event>, w: nat)
    requires Legal(s, es) && w in s.chain
    ensures w in Run(s, es).chain
    decreases |es|
  {
    hide Enabled;
    if es != [] {
      ChainStep(s, es[0], w);
      ChainKept(Apply(s, es[0]), es[1..], w);
    }
  }

  lemma ChainStep(s: State, e: Event, w: nat)
    requires Enabled(s, e) && w in s.chain
    ensures w in Apply(s, e).chain
  {
  }

  function Transaction(x: string, ixs: seq<Ix>): OnchainTx {
    OnchainTx(x, ["p"], ixs, [], 0, false, 0, 0, 0)
  }

  /** Some distinct signatures. */
  function Numbered(n: nat): (h: seq<string>)
    ensures |h| == n && Distinct(h) && "" !in h
    ensures forall x :: x in h ==> |x| <= n
  {
    if n == 0 then []
    else
      var x := seq(n, _ => 'a');
      assert |x| == n;
      Numbered(n - 1) + [x]
  }

  lemma PlainStorable(x: string)
    ensures Storable(Transaction(x, []))
  {
  }

  /** 100 plain transactions are too many for one sync, hence for any number of them. */
  lemma LongHistoryDiverges() returns (s: State)
    ensures Init(s) && s.chain.Keys == {OWNER} && |s.chain[OWNER]| == 100 && forall x :: x in s.ledger ==> Storable(s.ledger[x])
    ensures forall es :: Legal(s, es) ==> OWNER in Run(s, es).chain && !Converged(Run(s, es), OWNER)
  {
    hide Legal, Run, Converged, Storable, Distinct, Reachable, Syncable;
    var h := Numbered(100);
    var ledger := map x | x in h :: Transaction(x, []);
    forall x | x in h
      ensures Storable(ledger[x])
    {
      PlainStorable(x);
    }
    FreshDiverges(h, ledger);
    s := Fresh(h, ledger);
  }

  lemma FreshSyncable(h: seq<string>, ledger: map<string, OnchainTx>)
    requires Distinct(h) && "" !in h && (forall x :: x in h ==> x in ledger) && (forall x :: x in ledger ==> ledger[x].signature == x)
    requires |h| < 100 && forall x :: x in h ==> Storable(ledger[x])
    ensures var s := Fresh(h, ledger); Init(s) && Reachable(s) && Restarted(s) && Syncable(s, OWNER)
  {
    hide Storable, Rank;
    var s := Fresh(h, ledger);
    InitReachable(s);
    assert Watermark(s.t, OWNER) == "";
  }

  /** With 99 of them some run converges. */
  lemma ShortHistoryConverges() returns (s: State, es: seq<Event>)
    ensures Init(s) && s.chain.Keys == {OWNER} && |s.chain[OWNER]| == 99 && forall x :: x in s.ledger ==> Storable(s.ledger[x])
    ensures Legal(s, es) && Restart !in es && OWNER in Run(s, es).chain && Converged(Run(s, es), OWNER)
  {
    hide Legal, Run, Converged, Storable, Distinct, Reachable, Syncable, Restarted, Init, Linked, Watermark;
    var h := Numbered(99);
    var ledger := map x | x in h :: Transaction(x, []);
    forall x | x in h
      ensures Storable(ledger[x])
    {
      PlainStorable(x);
    }
    FreshSyncable(h, ledger);
    s := Fresh(h, ledger);
    es := RecoveryConverges(s, OWNER);
    ConvergedFrom(s, Run(s, es), OWNER);
  }

  /** So is a single transaction with an inner instruction, or with an instruction without accounts. */
  lemma UnstorableDiverges(ix: Ix) returns (s: State)
    requires ix.inner != [] || ix.base.accounts == []
    ensures Init(s) && s.chain == map[OWNER := ["a"]] && s.ledger == map["a" := Transaction("a", [ix])]
    ensures forall es :: Legal(s, es) ==> OWNER in Run(s, es).chain && !Converged(Run(s, es), OWNER)
  {
    var ledger := map["a" := Transaction("a", [ix])];
    assert !Storable(ledger["a"]) by {
      assert ledger["a"].ixs[0] == ix;
    }
    assert "a" in ["a"];
    FreshDiverges(["a"], ledger);
    s := Fresh(["a"], ledger);
  }
}
