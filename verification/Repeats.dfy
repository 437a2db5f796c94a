/**
 * When a batch comes to repeat a signature, so that its insert violates the unique key and stops the
 * process: exactly when a page is read while an unsaved signature of it is still to be saved, be it
 * queued by an earlier sync of the same wallet or by a sync of another.
 */
module Repeats {
  import opened Common
  import opened Ledger
  import opened MsgQueue
  import opened Pipeline
  import opened WalletInvariant
  import opened ProducerInvariant
  import opened Safety
  import opened Theorems
  import opened Convergence
  import opened Recovery
  import opened Storage
  import opened Limits
  import opened Rounds
  import opened LivesRecovery

  /** How many of the messages would save `x`. */
  function Count(ms: seq<Msg>, x: string): nat {
    if ms == [] then 0
    else
      var m := ms[|ms| - 1];
      Count(ms[..|ms| - 1], x) + if m.Onchain? && m.tx.signature == x then 1 else 0
  }

  /** The messages still to be saved: the batch about to be, and the queue. */
  function Pending(s: State): seq<Msg> {
    (if s.consumer.Saving? then s.consumer.taken else []) + s.queue
  }

  /** Nothing that is saved is still to be saved, and nothing is to be saved twice. */
  ghost predicate NoRepeat(s: State) {
    forall x :: Count(Pending(s), x) <= if x in s.t.signature then 0 else 1
  }

  /** The loop over the page queues a transaction that is stored or still to be saved. */
  ghost predicate Requeues(s: State, e: Event)
    requires Enabled(s, e)
  {
    e.ScanNext? &&
    var p := s.producer;
    var x := p.page[p.next];
    !RowFor(p.saved, x) && (x in s.t.signature || Count(Pending(s), x) > 0)
  }

  // ---- counting ----

  lemma {:induction false} CountConcat(a: seq<Msg>, b: seq<Msg>, x: string)
    ensures Count(a + b, x) == Count(a, x) + Count(b, x)
  {
    if b == [] {
      assert a + b == a;
    } else {
      CountConcat(a, b[..|b| - 1], x);
      assert (a + b)[..|a + b| - 1] == a + b[..|b| - 1];
    }
  }

  lemma {:induction false} CountSplit(a: seq<Msg>, w: nat, x: string)
    ensures Count(a, x) == Count(Of(a, w), x) + Count(Others(a, w), x)
  {
    if a != [] {
      var p, m := a[..|a| - 1], a[|a| - 1];
      CountSplit(p, w, x);
      CountConcat(Of(p, w), if m.wallet == w then [m] else [], x);
      CountConcat(Others(p, w), if m.wallet == w then [] else [m], x);
      CountOne(m, x);
    }
  }

  lemma CountOne(m: Msg, x: string)
    ensures Count([m], x) == if m.Onchain? && m.tx.signature == x then 1 else 0
    ensures Count([], x) == 0
  {
    assert [m][..0] == [];
  }

  lemma CountTaken(items: seq<Msg>, x: string)
    ensures Count(items, x) == Count(Taken(items), x) + Count(Rest(items), x)
  {
    hide Of, Others, Taken, Scanned, BatchOf, Count;
    if items == [] {
      ProcessNothing(0);
      CountOne(Last(0, ""), x);
    } else {
      var n, v := Scanned(items), items[0].wallet;
      TakenFirst(items);
      CountSplit(items[..n], v, x);
      CountConcat(items[..n], items[n..], x);
      CountConcat(Others(items[..n], v), items[n..], x);
      assert items == items[..n] + items[n..];
    }
  }

  lemma {:induction false} CountNone(ms: seq<Msg>, x: string)
    requires forall m :: m in ms ==> !m.Onchain?
    ensures Count(ms, x) == 0
  {
    if ms != [] {
      CountNone(ms[..|ms| - 1], x);
    }
  }

  lemma {:induction false} CountIn(ms: seq<Msg>, x: string)
    ensures Count(ms, x) > 0 <==> x in Signatures(Transactions(ms))
  {
    hide Signatures;
    if ms == [] {
      NoSignatures();
    } else {
      var p, m := ms[..|ms| - 1], ms[|ms| - 1];
      TransactionsFront(ms);
      CountIn(p, x);
      if m.Onchain? {
        MoreSignatures(Transactions(p), m.tx);
      }
    }
  }

  lemma {:induction false} CountDistinct(ms: seq<Msg>, x: string)
    requires Distinct(Signatures(Transactions(ms)))
    ensures Count(ms, x) <= 1
  {
    hide Signatures, Distinct;
    if ms != [] {
      var p, m := ms[..|ms| - 1], ms[|ms| - 1];
      TransactionsFront(ms);
      if m.Onchain? {
        MoreSignatures(Transactions(p), m.tx);
        CountIn(p, m.tx.signature);
      }
      CountDistinct(p, x);
    }
  }

  lemma {:induction false} CountRepeated(ms: seq<Msg>) returns (x: string)
    requires !Distinct(Signatures(Transactions(ms)))
    ensures Count(ms, x) > 1
  {
    hide Signatures, Distinct;
    x := "";
    if ms == [] {
      NoSignatures();
    } else {
      var p, m := ms[..|ms| - 1], ms[|ms| - 1];
      TransactionsFront(ms);
      if m.Onchain? {
        MoreSignatures(Transactions(p), m.tx);
        CountIn(p, m.tx.signature);
        x := m.tx.signature;
      }
      if !Distinct(Signatures(Transactions(p))) {
        x := CountRepeated(p);
      }
    }
  }

  lemma TransactionsFront(ms: seq<Msg>)
    requires ms != []
    ensures var p, m := ms[..|ms| - 1], ms[|ms| - 1];
            Transactions(ms) == if m.Onchain? then Transactions(p) + [m.tx] else Transactions(p)
  {
  }

  lemma NoSignatures()
    ensures Signatures([]) == [] && Distinct<string>([])
  {
  }

  lemma MoreSignatures(txs: seq<OnchainTx>, tx: OnchainTx)
    ensures forall x :: x in Signatures(txs + [tx]) <==> x in Signatures(txs) || x == tx.signature
    ensures Distinct(Signatures(txs + [tx])) <==> Distinct(Signatures(txs)) && tx.signature !in Signatures(txs)
  {
    var front, all := Signatures(txs), Signatures(txs + [tx]);
    assert all == front + [tx.signature];
    DistinctConcat(front, [tx.signature]);
    ApartOne(front, tx.signature);
  }

  // ---- one step ----

  lemma RepeatBySame(s: State, s': State)
    requires s'.t.signature == s.t.signature && forall x :: Count(Pending(s'), x) == Count(Pending(s), x)
    ensures NoRepeat(s') <==> NoRepeat(s)
  {
    hide Count, Pending;
    if NoRepeat(s) {
      forall x
        ensures Count(Pending(s'), x) <= if x in s'.t.signature then 0 else 1
      {
        assert Count(Pending(s), x) <= if x in s.t.signature then 0 else 1;
      }
    }
    if NoRepeat(s') {
      forall x
        ensures Count(Pending(s), x) <= if x in s.t.signature then 0 else 1
      {
        assert Count(Pending(s'), x) <= if x in s'.t.signature then 0 else 1;
      }
    }
  }

  lemma CountAppend(s: State, s': State, sent: seq<Msg>, x: string)
    requires s'.consumer == s.consumer && s'.queue == s.queue + sent
    ensures Count(Pending(s'), x) == Count(Pending(s), x) + Count(sent, x)
  {
    CountConcat(Pending(s), sent, x);
    assert Pending(s') == Pending(s) + sent;
  }

  /** Taking a batch changes nothing. */
  lemma CountTake(s: State, x: string)
    requires Enabled(s, Take)
    ensures Count(Pending(Apply(s, Take)), x) == Count(Pending(s), x)
  {
    hide Taken, Rest;
    CountTaken(s.queue, x);
    CountConcat(Taken(s.queue), Rest(s.queue), x);
    assert [] + s.queue == s.queue;
  }

  /** A saved batch moves its signatures from the messages to the table. */
  lemma CountSave(s: State, ids: seq<int>, x: string)
    requires Enabled(s, Save(ids))
    ensures var s', sigs := Apply(s, Save(ids)), Signatures(Transactions(s.consumer.taken));
            && (x in s'.t.signature <==> x in s.t.signature || x in sigs)
            && !(x in s.t.signature && x in sigs)
            && Count(Pending(s), x) == Count(Pending(s'), x) + if x in sigs then 1 else 0
  {
    hide Transactions, Signatures;
    var taken := s.consumer.taken;
    CountConcat(taken, s.queue, x);
    CountIn(taken, x);
    CountDistinct(taken, x);
    if x in Signatures(Transactions(taken)) {
      NotStored(s.t, Transactions(taken), x);
    }
    SavedKeys(s, ids);
    assert Pending(Apply(s, Save(ids))) == s.queue;
  }

  lemma NotStored(t: Tables, txs: seq<OnchainTx>, x: string)
    requires CanSave(t, txs) && x in Signatures(txs)
    ensures x !in t.signature
  {
    var i :| 0 <= i < |txs| && Signatures(txs)[i] == x;
    assert txs[i] in txs;
  }

  lemma SaveRepeat(s: State, ids: seq<int>)
    requires Enabled(s, Save(ids))
    ensures NoRepeat(Apply(s, Save(ids))) <==> NoRepeat(s)
  {
    hide Enabled, Apply, Transactions, Signatures, Pending, Count;
    var s' := Apply(s, Save(ids));
    if NoRepeat(s) {
      forall x
        ensures Count(Pending(s'), x) <= if x in s'.t.signature then 0 else 1
      {
        CountSave(s, ids, x);
        assert Count(Pending(s), x) <= if x in s.t.signature then 0 else 1;
      }
    }
    if NoRepeat(s') {
      forall x
        ensures Count(Pending(s), x) <= if x in s.t.signature then 0 else 1
      {
        CountSave(s, ids, x);
        assert Count(Pending(s'), x) <= if x in s'.t.signature then 0 else 1;
      }
    }
  }

  lemma ScanRepeat(s: State, acc: seq<AssociatedAccount>)
    requires Inv(s) && Enabled(s, ScanNext(acc))
    ensures NoRepeat(Apply(s, ScanNext(acc))) <==> NoRepeat(s) && !Requeues(s, ScanNext(acc))
  {
    hide Count, Pending, WalletsInv, ConsumerInv, SyncInv, RowFor;
    var p, s' := s.producer, Apply(s, ScanNext(acc));
    var y := p.page[p.next];
    var m := Onchain(p.wallet, s.ledger[y], acc);
    var sent := if RowFor(p.saved, y) then [] else [m];
    forall x
      ensures Count(Pending(s'), x) == Count(Pending(s), x) + if sent != [] && x == y then 1 else 0
    {
      assert s.queue + [] == s.queue;
      CountAppend(s, s', sent, x);
      CountOne(m, x);
    }
    if sent == [] {
      RepeatBySame(s, s');
    } else {
      OneMoreRepeat(s, s', y);
    }
  }

  lemma OneMoreRepeat(s: State, s': State, y: string)
    requires s'.t.signature == s.t.signature
    requires forall x :: Count(Pending(s'), x) == Count(Pending(s), x) + if x == y then 1 else 0
    ensures NoRepeat(s') <==> NoRepeat(s) && y !in s.t.signature && Count(Pending(s), y) == 0
  {
    hide Pending;
    if NoRepeat(s') {
      assert Count(Pending(s'), y) <= if y in s.t.signature then 0 else 1;
      forall x
        ensures Count(Pending(s), x) <= if x in s.t.signature then 0 else 1
      {
        assert Count(Pending(s'), x) <= if x in s.t.signature then 0 else 1;
      }
    }
    if NoRepeat(s) && y !in s.t.signature && Count(Pending(s), y) == 0 {
      forall x
        ensures Count(Pending(s'), x) <= if x in s.t.signature then 0 else 1
      {
        assert Count(Pending(s), x) <= if x in s.t.signature then 0 else 1;
      }
    }
  }

  /** Steps of neither the loop over the page nor the save nor a stop count for nothing. */
  lemma CountQuiet(s: State, e: Event, x: string)
    requires Enabled(s, e) && !e.ScanNext? && !e.Save? && !e.Restart?
    ensures Count(Pending(Apply(s, e)), x) == Count(Pending(s), x) && Apply(s, e).t.signature == s.t.signature
  {
    hide Count, Taken, Rest, Watermark;
    match e
    case Take => CountTake(s, x);
    case PublishSaved(accs) =>
      CountAppend(s, Apply(s, e), SavedMsgs(s.producer.wallet, s.producer.saved, accs), x);
      CountNone(SavedMsgs(s.producer.wallet, s.producer.saved, accs), x);
    case SendMarker =>
      CountAppend(s, Apply(s, e), [Last(s.producer.wallet, s.producer.newLast)], x);
      CountOne(Last(s.producer.wallet, s.producer.newLast), x);
    case _ =>
  }

  /**
   * A step other than a stop makes a repeat exactly when the loop over a page requeues a transaction, and
   * no step but a stop undoes one.
   */
  lemma RepeatStep(s: State, e: Event)
    requires Inv(s) && Enabled(s, e) && !e.Restart?
    ensures NoRepeat(Apply(s, e)) <==> NoRepeat(s) && !Requeues(s, e)
  {
    hide Inv, Enabled, Apply, NoRepeat, Count, Pending, RowFor;
    if e.ScanNext? {
      ScanRepeat(s, e.acc);
    } else if e.Save? {
      SaveRepeat(s, e.newIds);
    } else {
      CountQuiet(s, e, "");
      forall x
        ensures Count(Pending(Apply(s, e)), x) == Count(Pending(s), x)
      {
        CountQuiet(s, e, x);
      }
      RepeatBySame(s, Apply(s, e));
    }
  }

  // ---- over runs ----

  ghost predicate Requeued(s: State, es: seq<Event>)
    requires Legal(s, es)
    decreases |es|
  {
    es != [] && (Requeues(s, es[0]) || Requeued(Apply(s, es[0]), es[1..]))
  }

  /** Over a run without a stop, a repeat is there at the end exactly when the loop has requeued something. */
  lemma {:induction false} RunRepeatsIff(s: State, es: seq<Event>)
    requires Inv(s) && Legal(s, es) && Restart !in es && NoRepeat(s)
    ensures NoRepeat(Run(s, es)) <==> !Requeued(s, es)
    decreases |es|
  {
    hide Inv, Apply, Enabled, NoRepeat, Requeues;
    if es != [] {
      assert es[0] in es;
      StepInv(s, es[0]);
      RepeatStep(s, es[0]);
      if NoRepeat(Apply(s, es[0])) {
        RunRepeatsIff(Apply(s, es[0]), es[1..]);
      } else {
        RepeatStays(Apply(s, es[0]), es[1..]);
      }
    }
  }

  lemma {:induction false} RepeatStays(s: State, es: seq<Event>)
    requires Inv(s) && Legal(s, es) && Restart !in es && !NoRepeat(s)
    ensures !NoRepeat(Run(s, es))
    decreases |es|
  {
    hide Inv, Apply, Enabled, NoRepeat, Requeues;
    if es != [] {
      assert es[0] in es;
      StepInv(s, es[0]);
      RepeatStep(s, es[0]);
      RepeatStays(Apply(s, es[0]), es[1..]);
    }
  }

  // ---- the guard ----

  /** The pages of a reachable state have no repeats. */
  ghost predicate PageSet(s: State) {
    HasPage(s.producer) ==> Distinct(s.producer.page)
  }

  lemma PageSetStep(s: State, e: Event)
    requires Inv(s) && PageSet(s) && Enabled(s, e)
    ensures PageSet(Apply(s, e))
  {
    hide Distinct, WalletsInv, ConsumerInv, SyncInv, Page, Rank, Watermark, Taken, Rest;
    if e.Fetch? {
      HistoryDistinct(s, s.producer.wallet);
      PageDistinct(s.chain[s.producer.wallet], s.producer.until);
    }
  }

  lemma {:induction false} PageSetRun(s: State, es: seq<Event>)
    requires Inv(s) && PageSet(s) && Legal(s, es)
    ensures PageSet(Run(s, es)) && Inv(Run(s, es))
    decreases |es|
  {
    hide Inv, PageSet, Enabled, Apply;
    if es != [] {
      StepInv(s, es[0]);
      PageSetStep(s, es[0]);
      PageSetRun(Apply(s, es[0]), es[1..]);
    }
  }

  lemma ReachablePageSet(s: State)
    requires Reachable(s)
    ensures Inv(s) && PageSet(s)
  {
    hide Legal, Run, Inv, Init;
    var init, es :| Init(init) && Legal(init, es) && Run(init, es) == s;
    InitInv(init);
    InitPageSet(init);
    PageSetRun(init, es);
  }

  lemma InitPageSet(init: State)
    requires Init(init)
    ensures PageSet(init) && NoRepeat(init) && PageClean(init)
  {
    assert forall x :: Count([], x) == 0;
  }

  /** No unsaved signature of the page is still to be saved. */
  ghost predicate ReadsClean(s: State)
    requires s.producer.Reading?
  {
    forall x :: x in s.producer.page && x !in s.t.signature ==> Count(Pending(s), x) == 0
  }

  /** What the loop over the page will still queue is neither stored nor still to be saved. */
  ghost predicate PageClean(s: State) {
    var p := s.producer;
    && (p.Publishing? || p.Scanning? ==>
          forall i :: (if p.Scanning? then p.next else 0) <= i < |p.page| && !RowFor(p.saved, p.page[i]) ==>
            p.page[i] !in s.t.signature && Count(Pending(s), p.page[i]) == 0)
  }

  lemma ReadCleans(s: State, order: seq<string>)
    requires Enabled(s, ReadSaved(order)) && ReadsClean(s)
    ensures PageClean(Apply(s, ReadSaved(order)))
  {
    hide Count, Pending, RowFor;
    RowsAreSaved(s.t, s.producer.page, order);
    var s', page := Apply(s, ReadSaved(order)), s.producer.page;
    assert Pending(s') == Pending(s) by { SamePending(s, s'); }
    assert forall i :: 0 <= i < |page| ==> page[i] in page;
  }

  lemma SamePending(s: State, s': State)
    requires s'.consumer == s.consumer && s'.queue == s.queue
    ensures Pending(s') == Pending(s)
  {
  }

  lemma ScanCleans(s: State, acc: seq<AssociatedAccount>)
    requires Inv(s) && Enabled(s, ScanNext(acc)) && PageClean(s) && PageSet(s)
    ensures !Requeues(s, ScanNext(acc)) && PageClean(Apply(s, ScanNext(acc)))
  {
    hide Count, Pending, RowFor, WalletsInv, ConsumerInv, SyncInv;
    var p, s' := s.producer, Apply(s, ScanNext(acc));
    var y := p.page[p.next];
    var m := Onchain(p.wallet, s.ledger[y], acc);
    forall i | p.next < i < |p.page| && !RowFor(p.saved, p.page[i])
      ensures Count(Pending(s'), p.page[i]) == 0
    {
      var sent := if RowFor(p.saved, y) then [] else [m];
      assert s.queue + [] == s.queue;
      CountAppend(s, s', sent, p.page[i]);
      CountOne(m, p.page[i]);
      assert p.page[i] != y;
    }
  }

  lemma SaveCleans(s: State, ids: seq<int>)
    requires Enabled(s, Save(ids)) && PageClean(s)
    ensures PageClean(Apply(s, Save(ids)))
  {
    hide Count, Pending, RowFor, Signatures, Transactions, CanSave, FreshIds, SaveTables;
    var p, s' := s.producer, Apply(s, Save(ids));
    if p.Publishing? || p.Scanning? {
      forall i | (if p.Scanning? then p.next else 0) <= i < |p.page| && !RowFor(p.saved, p.page[i])
        ensures p.page[i] !in s'.t.signature && Count(Pending(s'), p.page[i]) == 0
      {
        CountSave(s, ids, p.page[i]);
      }
    }
  }

  lemma QuietCleans(s: State, e: Event)
    requires Enabled(s, e) && PageClean(s) && !e.ScanNext? && !e.Save? && !e.Restart? && !e.ReadSaved?
    ensures PageClean(Apply(s, e))
  {
    hide Count, Pending, RowFor, Enabled, Apply;
    var p, p' := s.producer, Apply(s, e).producer;
    QuietPage(s, e);
    if p'.Publishing? || p'.Scanning? {
      forall i | (if p'.Scanning? then p'.next else 0) <= i < |p'.page| && !RowFor(p'.saved, p'.page[i])
        ensures p'.page[i] !in Apply(s, e).t.signature && Count(Pending(Apply(s, e)), p'.page[i]) == 0
      {
        CountQuiet(s, e, p'.page[i]);
      }
    }
  }

  lemma QuietPage(s: State, e: Event)
    requires Enabled(s, e) && !e.ScanNext? && !e.ReadSaved? && !e.Restart?
    ensures var p, p' := s.producer, Apply(s, e).producer;
            p'.Publishing? || p'.Scanning? ==>
              && (p.Publishing? || p.Scanning?) && p'.page == p.page && p'.saved == p.saved
              && (p'.Scanning? ==> p'.next == if p.Scanning? then p.next else 0)
              && (p'.Publishing? ==> p.Publishing?)
  {
    hide Taken, Rest, Watermark;
  }

  /** A step from a clean page, a read being clean itself, repeats nothing. */
  lemma CleanStepKeeps(s: State, e: Event)
    requires Inv(s) && PageSet(s) && NoRepeat(s) && PageClean(s) && Enabled(s, e)
    requires e.ReadSaved? ==> ReadsClean(s)
    ensures NoRepeat(Apply(s, e)) && PageClean(Apply(s, e))
  {
    hide Inv, PageSet, NoRepeat, PageClean, Requeues, Apply, Enabled;
    if e.Restart? {
      RestartClean(s);
    } else {
      RepeatStep(s, e);
      if e.ScanNext? {
        ScanCleans(s, e.acc);
      } else {
        NoRequeue(s, e);
        if e.Save? {
          SaveCleans(s, e.newIds);
        } else if e.ReadSaved? {
          ReadCleans(s, e.order);
        } else {
          QuietCleans(s, e);
        }
      }
    }
  }

  lemma RestartClean(s: State)
    ensures NoRepeat(Apply(s, Restart)) && PageClean(Apply(s, Restart))
  {
  }

  lemma NoRequeue(s: State, e: Event)
    requires Enabled(s, e) && !e.ScanNext?
    ensures !Requeues(s, e)
  {
  }

  /** Every page of the run is read when no unsaved signature of it is still to be saved. */
  ghost predicate Guarded(s: State, es: seq<Event>)
    requires Legal(s, es)
    decreases |es|
  {
    es != [] ==> (es[0].ReadSaved? ==> ReadsClean(s)) && Guarded(Apply(s, es[0]), es[1..])
  }

  lemma {:induction false} GuardedRun(s: State, es: seq<Event>)
    requires Inv(s) && PageSet(s) && NoRepeat(s) && PageClean(s) && Legal(s, es) && Guarded(s, es)
    ensures NoRepeat(Run(s, es)) && Inv(Run(s, es))
    decreases |es|
  {
    hide Inv, PageSet, NoRepeat, PageClean, Apply, ReadsClean;
    if es != [] {
      StepInv(s, es[0]);
      PageSetStep(s, es[0]);
      CleanStepKeeps(s, es[0]);
      GuardedRun(Apply(s, es[0]), es[1..]);
    }
  }

  /**
   * In a program run that reads every page when no unsaved signature of it is still to be saved, nothing
   * is ever to be saved twice, and a batch is saved exactly when its transactions are storable.
   */
  lemma GuardedBatches(init: State, es: seq<Event>)
    requires Init(init) && Legal(init, es) && Guarded(init, es)
    ensures var s := Run(init, es);
            && NoRepeat(s)
            && (s.consumer.Saving? ==>
                  (CanSave(s.t, Transactions(s.consumer.taken)) <==> forall tx :: tx in Transactions(s.consumer.taken) ==> Storable(tx)))
  {
    hide Init, Inv, Legal, Run, PageSet, PageClean, NoRepeat, Guarded;
    InitInv(init);
    InitPageSet(init);
    GuardedRun(init, es);
    if Run(init, es).consumer.Saving? {
      BatchSaves(Run(init, es));
    }
  }

  lemma BatchSaves(s: State)
    requires NoRepeat(s) && s.consumer.Saving?
    ensures CanSave(s.t, Transactions(s.consumer.taken)) <==> forall tx :: tx in Transactions(s.consumer.taken) ==> Storable(tx)
  {
    hide Transactions, Storable, Count, Signatures;
    var taken := s.consumer.taken;
    forall x
      ensures Count(taken, x) <= if x in s.t.signature then 0 else 1
    {
      CountConcat(taken, s.queue, x);
      assert Count(Pending(s), x) <= if x in s.t.signature then 0 else 1;
    }
    if !Distinct(Signatures(Transactions(taken))) {
      var x := CountRepeated(taken);
    }
    forall tx | tx in Transactions(taken)
      ensures tx.signature !in s.t.signature
    {
      InSignatures(Transactions(taken), tx);
      CountIn(taken, tx.signature);
    }
  }

  lemma InSignatures(txs: seq<OnchainTx>, tx: OnchainTx)
    requires tx in txs
    ensures tx.signature in Signatures(txs)
  {
    var i :| 0 <= i < |txs| && txs[i] == tx;
    assert Signatures(txs)[i] == tx.signature;
  }

  // ---- the guard is exact ----

  /** The page being read, or the rest of the one read, is clean. */
  ghost predicate StillClean(s: State) {
    PageClean(s) && (s.producer.Reading? ==> ReadsClean(s))
  }

  lemma StillCleanStep(s: State, e: Event)
    requires Inv(s) && PageSet(s) && NoRepeat(s) && StillClean(s) && Enabled(s, e) && !e.Fetch?
    ensures NoRepeat(Apply(s, e)) && StillClean(Apply(s, e))
  {
    hide Inv, PageSet, NoRepeat, PageClean;
    CleanStepKeeps(s, e);
    if Apply(s, e).producer.Reading? {
      ReadingStep(s, e);
    }
  }

  lemma ReadingStep(s: State, e: Event)
    requires Enabled(s, e) && !e.Fetch? && Apply(s, e).producer.Reading?
    requires s.producer.Reading? ==> ReadsClean(s)
    ensures ReadsClean(Apply(s, e))
  {
    hide Count, Pending, RowFor, Signatures, Transactions, CanSave, FreshIds, SaveTables, Taken, Rest, Watermark;
    var s' := Apply(s, e);
    assert s.producer == s'.producer;
    forall x | x in s'.producer.page && x !in s'.t.signature
      ensures Count(Pending(s'), x) == 0
    {
      if e.Save? {
        CountSave(s, e.newIds, x);
      } else {
        CountQuiet(s, e, x);
      }
    }
  }

  lemma {:induction false} StillCleanRun(s: State, es: seq<Event>)
    requires Inv(s) && PageSet(s) && NoRepeat(s) && StillClean(s) && Legal(s, es) && Fetch !in es
    ensures NoRepeat(Run(s, es))
    decreases |es|
  {
    hide Inv, PageSet, NoRepeat, StillClean, Apply, Enabled;
    if es != [] {
      assert es[0] in es;
      StepInv(s, es[0]);
      PageSetStep(s, es[0]);
      StillCleanStep(s, es[0]);
      StillCleanRun(Apply(s, es[0]), es[1..]);
    }
  }

  /**
   * The guard is exact: from a state in which a page is about to be looked up, the process can come to a
   * repeat before its next request if and only if an unsaved signature of the page is still to be saved.
   */
  lemma ReadRepeatsIff(s: State)
    requires Reachable(s) && s.producer.Reading? && NoRepeat(s)
    ensures (exists es :: Legal(s, es) && Fetch !in es && !NoRepeat(Run(s, es)))
            <==> exists x :: x in s.producer.page && x !in s.t.signature && Count(Pending(s), x) > 0
  {
    hide Reachable, NoRepeat, Legal, Run, Count, Pending, Inv, PageSet;
    ReachablePageSet(s);
    if x :| x in s.producer.page && x !in s.t.signature && Count(Pending(s), x) > 0 {
      var es := RepeatingRun(s, x);
      assert Legal(s, es) && Fetch !in es && !NoRepeat(Run(s, es));
    } else {
      ReadingClean(s);
      forall es | Legal(s, es) && Fetch !in es
        ensures NoRepeat(Run(s, es))
      {
        StillCleanRun(s, es);
      }
    }
  }

  lemma ReadingClean(s: State)
    requires s.producer.Reading? && forall x :: x in s.producer.page && x !in s.t.signature ==> Count(Pending(s), x) == 0
    ensures StillClean(s)
  {
  }

  /** Reading and scanning the page queues the pending signature again. */
  lemma RepeatingRun(s: State, x: string) returns (es: seq<Event>)
    requires Inv(s) && PageSet(s) && s.producer.Reading?
    requires x in s.producer.page && x !in s.t.signature && Count(Pending(s), x) > 0
    ensures Legal(s, es) && Fetch !in es && !NoRepeat(Run(s, es))
  {
    hide Legal, Run, Count, Pending, SavedMsgs, OnchainMsgs, RowFor, Distinct, Signatures, Transactions, SavedIn;
    var p := s.producer;
    PageKnown(s);
    var order := SavedIn(s.t, p.page);
    PageRuns(s, order, NoAccounts);
    es := PageEvents(p.page, order, NoAccounts);
    var sent, s' := PageMsgs(s.t, p.wallet, p.page, order, s.ledger, NoAccounts), Run(s, es);
    CountAppend(s, s', sent, x);
    PageCounts(s, order, x);
    assert Count(Pending(s'), x) > 1;
    assert Fetch !in Scans(p.page, |p.page|, NoAccounts);
  }

  lemma PageKnown(s: State)
    requires Inv(s) && s.producer.Reading?
    ensures (forall x :: x in s.producer.page ==> x in s.ledger) && forall x :: x in s.ledger ==> s.ledger[x].signature == x
  {
    hide WalletsInv, ConsumerInv, MarkedWithin, Rank, Watermark, Of;
    var h, page := s.chain[s.producer.wallet], s.producer.page;
    assert PageOk(h, s.producer);
    forall x | x in page
      ensures x in s.ledger
    {
      var i :| 0 <= i < |page| && page[i] == x;
    }
  }

  lemma PageCounts(s: State, order: seq<string>, x: string)
    requires s.producer.Reading? && IsSavedQuery(s.t, s.producer.page, order) && Distinct(s.producer.page)
    requires forall y :: y in s.producer.page ==> y in s.ledger
    requires forall y :: y in s.ledger ==> s.ledger[y].signature == y
    requires x in s.producer.page && x !in s.t.signature
    ensures Count(PageMsgs(s.t, s.producer.wallet, s.producer.page, order, s.ledger, NoAccounts), x) > 0
  {
    hide SavedMsgs, OnchainMsgs, Count, Transactions, RowFor, Unsaved, Signatures;
    var p, rows := s.producer, ReadRows(s.t, order);
    assert PageMsgs(s.t, p.wallet, p.page, order, s.ledger, NoAccounts) == Sending(s.t, p.wallet, p.page, order, |p.page|, s.ledger);
    SendingFacts(s.t, p.wallet, p.page, order, |p.page|, s.ledger);
    UnsavedFacts(p.page, |p.page|, rows);
    RowsAreSaved(s.t, p.page, order);
    assert p.page[..|p.page|] == p.page;
    CountIn(Sending(s.t, p.wallet, p.page, order, |p.page|, s.ledger), x);
  }
}
