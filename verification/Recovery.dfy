/**
 * When a sync gets through. With fewer than 100 new signatures, all storable, a restarted process
 * has a run without a stop that links the whole history; with 100 or more, no run ever sends the
 * marker, because the page request never moves on.
 */
module Recovery {
  import opened Common
  import opened Ledger
  import opened MsgQueue
  import opened Pipeline
  import opened WalletInvariant
  import opened ProducerInvariant
  import opened Safety
  import opened Theorems
  import opened Convergence

  // ---- composing runs ----

  lemma {:induction false} RunConcat(s: State, a: seq<Event>, b: seq<Event>)
    requires Legal(s, a) && Legal(Run(s, a), b)
    ensures Legal(s, a + b) && Run(s, a + b) == Run(Run(s, a), b)
    decreases |a|
  {
    hide Enabled, Apply;
    if a == [] {
      assert a + b == b;
    } else {
      assert (a + b)[1..] == a[1..] + b;
      RunConcat(Apply(s, a[0]), a[1..], b);
    }
  }

  lemma RunOne(s: State, e: Event)
    requires Enabled(s, e)
    ensures Legal(s, [e]) && Run(s, [e]) == Apply(s, e)
  {
    hide Enabled, Apply;
    assert [e][1..] == [];
  }

  lemma ThenOne(s: State, a: seq<Event>, e: Event)
    requires Legal(s, a) && Enabled(Run(s, a), e)
    ensures Legal(s, a + [e]) && Run(s, a + [e]) == Apply(Run(s, a), e)
  {
    hide Enabled, Apply;
    RunOne(Run(s, a), e);
    RunConcat(s, a, [e]);
  }

  // ---- a full page ----

  ghost predicate Looping(s: State, w: nat) {
    var p := s.producer;
    && !p.Idle? && !p.Finishing? && p.wallet == w && w in s.chain
    && |s.chain[w]| - Rank(s.chain[w], p.until) >= LIMIT
    && (HasPage(p) ==> |p.page| >= LIMIT)
  }

  lemma LoopingStep(s: State, e: Event, w: nat)
    requires Inv(s) && Looping(s, w) && Enabled(s, e) && !e.Restart?
    ensures Looping(Apply(s, e), w) && !e.SendMarker?
  {
    hide ProducerInv, WalletsInv, ConsumerInv, Of, Rank, Taken, Rest;
    if e.Grow? && e.wallet == w {
      ProducerStrings(s.t, s.chain[w], Flow(s, w), s.producer);
      RankExtend(s.chain[w], e.signature, s.producer.until);
    }
  }

  lemma {:induction false} FullPageNeverMarks(s: State, es: seq<Event>, w: nat)
    requires Inv(s) && Looping(s, w) && Legal(s, es) && Restart !in es
    ensures Looping(Run(s, es), w) && SendMarker !in es
    decreases |es|
  {
    hide Inv, Looping, Enabled, Apply;
    if es != [] {
      StepInv(s, es[0]);
      LoopingStep(s, es[0], w);
      FullPageNeverMarks(Apply(s, es[0]), es[1..], w);
    }
  }

  /**
   * A sync that starts with 100 or more new signatures never sends its marker: its request has no
   * cursor, so every page is full and the loop never ends. Only a stop gets the producer out of it.
   */
  lemma FullSyncNeverMarks(s: State, es: seq<Event>, w: nat)
    requires Reachable(s) && w in s.chain && w in s.t.wallet
    requires |s.chain[w]| - Reached(s.t, w, s.chain[w]) >= 100
    requires Legal(s, es) && es != [] && es[0] == Start(w) && Restart !in es
    ensures SendMarker !in es
  {
    hide Reachable, Rank, Watermark;
    ReachableInv(s);
    StepInv(s, es[0]);
    hide Inv;
    FullPageNeverMarks(Apply(s, es[0]), es[1..], w);
  }

  // ---- a short page: the producer's run ----

  /** The signatures of a page that are saved already, in page order. */
  function SavedIn(t: Tables, page: seq<string>): (order: seq<string>)
    ensures forall x :: x in order <==> x in page && x in t.signature
    ensures Distinct(page) ==> Distinct(order)
  {
    if page == [] then []
    else
      var front := SavedIn(t, page[..|page| - 1]);
      var x := page[|page| - 1];
      assert page == page[..|page| - 1] + [x];
      if x in t.signature then front + [x] else front
  }

  /** The queued transactions can all be saved, whatever the cuts between batches. */
  ghost predicate Drainable(t: Tables, ms: seq<Msg>) {
    && (forall i :: 0 <= i < |ms| && ms[i].Onchain? ==> ms[i].tx.signature !in t.signature && Storable(ms[i].tx))
    && (forall i, j :: 0 <= i < j < |ms| && ms[i].Onchain? && ms[j].Onchain? ==>
          ms[i].tx.signature != ms[j].tx.signature)
  }

  /** The producer is at round `p.next` of a short page, and the queue holds only what it put there. */
  ghost predicate Midway(s: State, w: nat) {
    var p := s.producer;
    && p.Scanning? && p.wallet == w && p.next <= |p.page| < LIMIT && Distinct(p.page)
    && (forall m :: m in s.queue ==> m.wallet == w)
    && Drainable(s.t, s.queue)
    && (forall i :: 0 <= i < |s.queue| && s.queue[i].Onchain? ==> s.queue[i].tx.signature in p.page[..p.next])
    && (forall i :: 0 <= i < |p.page| ==>
          p.page[i] in s.ledger && s.ledger[p.page[i]].signature == p.page[i]
          && (RowFor(p.saved, p.page[i]) || (p.page[i] !in s.t.signature && Storable(s.ledger[p.page[i]]))))
  }

  lemma DrainableAppend(t: Tables, ms: seq<Msg>, m: Msg, seen: seq<string>)
    requires Drainable(t, ms) && m.Onchain? && m.tx.signature !in t.signature && Storable(m.tx)
    requires forall i :: 0 <= i < |ms| && ms[i].Onchain? ==> ms[i].tx.signature in seen
    requires m.tx.signature !in seen
    ensures Drainable(t, ms + [m])
  {
    hide Storable;
  }

  lemma MidwayStep(s: State, w: nat)
    requires Midway(s, w) && s.producer.next < |s.producer.page|
    ensures Enabled(s, ScanNext([]))
    ensures Midway(Apply(s, ScanNext([])), w)
  {
    hide Storable, Drainable;
    var p, x := s.producer, s.producer.page[s.producer.next];
    assert forall y :: y in p.page[..p.next] ==> y in p.page[..p.next + 1];
    assert x in p.page[..p.next + 1] by { assert p.page[..p.next + 1][p.next] == x; }
    if !RowFor(p.saved, x) {
      assert x !in p.page[..p.next];
      DrainableAppend(s.t, s.queue, Onchain(w, s.ledger[x], []), p.page[..p.next]);
    }
  }

  /** What a run of the producer alone leaves as it was. */
  ghost predicate OnlyProducer(s: State, s': State) {
    s'.ledger == s.ledger && s'.chain == s.chain && s'.t == s.t && s'.consumer == s.consumer
  }

  lemma {:induction false} ScanRun(s: State, w: nat) returns (es: seq<Event>)
    requires Inv(s) && Midway(s, w)
    ensures Legal(s, es) && Restart !in es
    ensures var s' := Run(s, es);
            && OnlyProducer(s, s') && s'.synced == s.synced
            && s'.producer == Finishing(w, s.producer.until, s.producer.newLast)
            && (forall m :: m in s'.queue ==> m.wallet == w) && Drainable(s.t, s'.queue)
    decreases |s.producer.page| - s.producer.next
  {
    hide Inv, Drainable;
    var p := s.producer;
    if p.next == |p.page| {
      es := [EndPage];
      RunOne(s, EndPage);
    } else {
      var e, s1 := ScanNext([]), Apply(s, ScanNext([]));
      MidwayStep(s, w);
      StepInv(s, e);
      var tail := ScanRun(s1, w);
      RunOne(s, e);
      RunConcat(s, [e], tail);
      es := [e] + tail;
    }
  }

  /** Right after a stop: nothing queued, nobody working. */
  ghost predicate Restarted(s: State) {
    s.queue == [] && s.producer.Idle? && s.consumer.Free?
  }

  /** The sync of `w` would find fewer than 100 new signatures, all saved or storable. */
  ghost predicate Syncable(s: State, w: nat) {
    && w in s.chain && w in s.t.wallet
    && |s.chain[w]| - Reached(s.t, w, s.chain[w]) < 100
    && forall x :: x in s.chain[w] && x !in s.t.signature ==> x in s.ledger && Storable(s.ledger[x])
  }

  lemma PageDistinct(h: seq<string>, until: string)
    requires Distinct(h)
    ensures Distinct(Page(h, until)) && forall x :: x in Page(h, until) ==> x in h
  {
    var page := Page(h, until);
    forall i, j | 0 <= i < j < |page|
      ensures page[i] != page[j]
    {
      assert page[j] == h[|h| - 1 - j] && page[i] == h[|h| - 1 - i];
    }
  }

  /** The run of the producer up to its marker, when there is something new. */
  lemma PublishRun(s: State, w: nat) returns (es: seq<Event>)
    requires Inv(s) && Restarted(s) && Syncable(s, w)
    ensures Legal(s, es) && Restart !in es
    ensures var s' := Run(s, es);
            && OnlyProducer(s, s') && s'.synced == s.synced
            && s'.producer.Finishing? && s'.producer.wallet == w
            && Reach(s.chain[w], s'.producer) == |s.chain[w]|
            && (forall m :: m in s'.queue ==> m.wallet == w) && Drainable(s.t, s'.queue)
  {
    hide WalletsInv, ConsumerInv, SyncInv, Watermark, Rank, Legal, Run;
    var h, until := s.chain[w], Watermark(s.t, w);
    var page := Page(h, until);
    var s1 := Apply(s, Start(w));
    RunOne(s, Start(w));
    var s2 := Apply(s1, Fetch);
    ThenOne(s, [Start(w)], Fetch);
    es := [Start(w)] + [Fetch];
    if page != [] {
      PageContents(h, until);
      PageDistinct(h, until);
      RunInv(s, es);
      var tail := PageRun(s2, w);
      RunConcat(s, es, tail);
      es := es + tail;
    }
  }

  /** From the page on to its end. */
  lemma PageRun(s2: State, w: nat) returns (es: seq<Event>)
    requires Inv(s2) && Restarted(s2.(producer := Idle)) && Syncable(s2.(producer := Idle), w)
    requires var h, p := s2.chain[w], s2.producer;
             && p.Reading? && p.wallet == w && p.until == Watermark(s2.t, w) && p.page == Page(h, p.until) != []
             && p.newLast == p.page[0]
    ensures Legal(s2, es) && Restart !in es
    ensures var s' := Run(s2, es);
            && OnlyProducer(s2, s') && s'.synced == s2.synced
            && s'.producer.Finishing? && s'.producer.wallet == w
            && Reach(s2.chain[w], s'.producer) == |s2.chain[w]|
            && (forall m :: m in s'.queue ==> m.wallet == w) && Drainable(s2.t, s'.queue)
  {
    hide WalletsInv, ConsumerInv, SyncInv, Watermark, Rank, Legal, Run, Enabled, Apply, Midway, Drainable, SavedIn, ReadRows, SavedMsgs;
    var page := s2.producer.page;
    PageContents(s2.chain[w], s2.producer.until);
    PageDistinct(s2.chain[w], s2.producer.until);
    var order, accs := SavedIn(s2.t, page), seq(|SavedIn(s2.t, page)|, i => []);
    es := ReadAndPublish(s2, order, accs);
    var s4 := Run(s2, es);
    PublishedMidway(s2.(producer := Idle), s4, w, page, order, accs);
    RunInv(s2, es);
    var tail := ScanRun(s4, w);
    RunConcat(s2, es, tail);
    es := es + tail;
  }

  lemma ReadAndPublish(s: State, order: seq<string>, accs: seq<seq<AssociatedAccount>>) returns (es: seq<Event>)
    requires s.producer.Reading? && IsSavedQuery(s.t, s.producer.page, order) && |accs| == |order|
    ensures Legal(s, es) && Restart !in es
    ensures |ReadRows(s.t, order)| == |order|
    ensures var p, saved := s.producer, ReadRows(s.t, order);
            Run(s, es) == s.(producer := Scanning(p.wallet, p.until, p.newLast, p.page, saved, 0),
                             queue := s.queue + SavedMsgs(p.wallet, saved, accs))
  {
    hide Legal, Run;
    RunOne(s, ReadSaved(order));
    ThenOne(s, [ReadSaved(order)], PublishSaved(accs));
    es := [ReadSaved(order)] + [PublishSaved(accs)];
  }

  lemma PublishedMidway(s: State, s4: State, w: nat, page: seq<string>, order: seq<string>, accs: seq<seq<AssociatedAccount>>)
    requires Base(s) && Restarted(s) && Syncable(s, w)
    requires page == Page(s.chain[w], Watermark(s.t, w)) && order == SavedIn(s.t, page) && |accs| == |order|
    requires page != []
    requires s4 == s.(producer := Scanning(w, Watermark(s.t, w), page[0], page, ReadRows(s.t, order), 0),
                      queue := s.queue + SavedMsgs(w, ReadRows(s.t, order), accs))
    ensures Midway(s4, w)
  {
    hide Watermark, Rank, Storable, SavedIn, Page, RowFor, ReadRows;
    PageDistinct(s.chain[w], Watermark(s.t, w));
    PageContents(s.chain[w], Watermark(s.t, w));
    SavedRows(s.t, page, order);
    assert |ReadRows(s.t, order)| == |order| by { RowsSize(s.t, order); }
  }

  lemma RowsSize(t: Tables, order: seq<string>)
    requires forall x :: x in order ==> x in t.signature
    ensures |ReadRows(t, order)| == |order|
  {
  }

  /** Every signature of the page has its row in the query's answer or is not saved. */
  lemma SavedRows(t: Tables, page: seq<string>, order: seq<string>)
    requires order == SavedIn(t, page)
    ensures forall i :: 0 <= i < |page| ==> RowFor(ReadRows(t, order), page[i]) || page[i] !in t.signature
  {
    hide SavedIn;
    var saved := ReadRows(t, order);
    forall i | 0 <= i < |page| && page[i] in t.signature
      ensures RowFor(saved, page[i])
    {
      assert page[i] in order;
      var k :| 0 <= k < |order| && order[k] == page[i];
      assert saved[k].signature == page[i];
    }
  }

  /** The whole run of the producer. */
  lemma SyncRun(s: State, w: nat) returns (es: seq<Event>)
    requires Inv(s) && Restarted(s) && Syncable(s, w)
    ensures Legal(s, es) && Restart !in es
    ensures var s' := Run(s, es);
            && OnlyProducer(s, s') && s'.producer.Idle?
            && w in s'.synced && s'.synced[w] == |s.chain[w]|
            && (forall m :: m in s'.queue ==> m.wallet == w) && Drainable(s.t, s'.queue)
  {
    hide Inv, Drainable, Syncable;
    var front := PublishRun(s, w);
    var s1 := Run(s, front);
    assert w in s.chain by { SyncableWallet(s, w); }
    ThenOne(s, front, SendMarker);
    es := front + [SendMarker];
    DrainableLast(s.t, s1.queue, Last(w, s1.producer.newLast));
  }

  lemma SyncableWallet(s: State, w: nat)
    requires Syncable(s, w)
    ensures w in s.chain
  {
  }

  lemma DrainableLast(t: Tables, ms: seq<Msg>, m: Msg)
    requires Drainable(t, ms) && m.Last?
    ensures Drainable(t, ms + [m])
  {
    hide Storable;
  }

  // ---- the consumer's run ----

  lemma {:induction false} FreshBound(ids: set<int>) returns (b: int)
    ensures forall x :: x in ids ==> x < b
    decreases |ids|
  {
    b := 0;
    if y :| y in ids {
      var c := FreshBound(ids - {y});
      b := if c > y then c else y + 1;
      forall x | x in ids
        ensures x < b
      {
        assert x == y || x in ids - {y};
      }
    }
  }

  lemma FreshIdsExist(t: Tables, n: nat) returns (ids: seq<int>)
    ensures |ids| == n && FreshIds(t, ids)
  {
    var b := FreshBound(t.signature.Values);
    ids := seq(n, i => b + i);
  }

  /** On a queue of one wallet the walk cuts off a prefix. */
  lemma TakenPrefix(items: seq<Msg>, w: nat)
    requires items != [] && forall m :: m in items ==> m.wallet == w
    ensures var n := Scanned(items);
            1 <= n && Taken(items) == items[..n] && Rest(items) == items[n..]
  {
    hide Of, Others, Scanned, BatchOf;
    var n := Scanned(items);
    TakenFirst(items);
    assert items[0] in items;
    assert forall m :: m in items[..n] ==> m in items;
    OfOwn(items[..n], w, w);
    SplitSize(items[..n], w);
  }

  lemma {:induction false} DrainableSaves(t: Tables, ms: seq<Msg>)
    requires Drainable(t, ms)
    ensures CanSave(t, Transactions(ms))
  {
    hide Storable;
    var txs := Transactions(ms);
    forall tx | tx in txs
      ensures tx.signature !in t.signature && Storable(tx)
    {
      TransactionsAt(ms, tx);
    }
    TransactionsDistinct(t, ms);
  }

  lemma {:induction false} TransactionsDistinct(t: Tables, ms: seq<Msg>)
    requires Drainable(t, ms)
    ensures Distinct(Signatures(Transactions(ms)))
  {
    hide Storable;
    if ms != [] {
      var front, m := ms[..|ms| - 1], ms[|ms| - 1];
      assert forall i :: 0 <= i < |front| ==> front[i] == ms[i];
      TransactionsDistinct(t, front);
      var txs := Transactions(front);
      if m.Onchain? {
        forall i | 0 <= i < |txs|
          ensures txs[i].signature != m.tx.signature
        {
          TransactionsAt(front, txs[i]);
        }
        assert Signatures(txs + [m.tx]) == Signatures(txs) + [m.tx.signature];
      } else {
        assert txs + [] == txs;
      }
    }
  }

  /** After saving a prefix the rest can still be saved. */
  lemma DrainableRest(t: Tables, ms: seq<Msg>, n: nat, ids: seq<int>)
    requires n <= |ms| && Drainable(t, ms)
    requires var txs := Transactions(ms[..n]);
             CanSave(t, txs) && FreshIds(t, ids) && |ids| == |txs|
    ensures Drainable(SaveTables(t, Signatures(Transactions(ms[..n])), ids), ms[n..])
  {
    hide Storable, CanSave, FreshIds, Transactions, SaveTables;
    var front, rest := ms[..n], ms[n..];
    var txs := Transactions(front);
    CanSaveDistinct(t, txs);
    var t' := SaveTables(t, Signatures(txs), ids);
    SaveRows(t, txs, ids);
    forall i | 0 <= i < |rest| && rest[i].Onchain?
      ensures rest[i].tx.signature !in t'.signature && Storable(rest[i].tx)
    {
      assert rest[i] == ms[n + i];
      forall k | 0 <= k < |txs|
        ensures txs[k].signature != rest[i].tx.signature
      {
        TransactionsAt(front, txs[k]);
        var j :| 0 <= j < |front| && front[j].Onchain? && front[j].tx == txs[k];
        assert front[j] == ms[j];
      }
    }
  }

  lemma DrainablePrefix(t: Tables, ms: seq<Msg>, n: nat)
    requires n <= |ms| && Drainable(t, ms)
    ensures Drainable(t, ms[..n])
  {
    hide Storable;
  }

  /** Whether the queue can be drained depends on the signature table alone. */
  lemma DrainableTables(t: Tables, t': Tables, ms: seq<Msg>)
    requires Drainable(t, ms) && t'.signature == t.signature
    ensures Drainable(t', ms)
  {
    hide Storable;
  }

  ghost predicate OnlyConsumer(s: State, s': State) {
    s'.ledger == s.ledger && s'.chain == s.chain && s'.producer == s.producer && s'.synced == s.synced
  }

  /** Taking a batch off a queue of one wallet and saving it. */
  lemma SaveRun(s: State, w: nat) returns (es: seq<Event>)
    requires s.consumer.Free? && s.queue != [] && Drainable(s.t, s.queue)
    requires forall m :: m in s.queue ==> m.wallet == w
    ensures Legal(s, es) && Restart !in es
    ensures var s' := Run(s, es);
            && OnlyConsumer(s, s') && s'.t.wallet == s.t.wallet && s'.t.links == s.t.links
            && s'.consumer.Linking? && s'.consumer.taken != [] && s'.consumer.taken[0].wallet == w
            && |s'.queue| < |s.queue| && Drainable(s'.t, s'.queue) && forall m :: m in s'.queue ==> m.wallet == w
  {
    hide Drainable, CanSave, FreshIds, Transactions, SignaturesIds, Of, Taken, Rest, Zip, Scanned;
    var items := s.queue;
    var n := Scanned(items);
    TakenPrefix(items, w);
    var taken, rest, txs := items[..n], items[n..], Transactions(items[..n]);
    RunOne(s, Take);
    DrainablePrefix(s.t, items, n);
    DrainableSaves(s.t, taken);
    CanSaveDistinct(s.t, txs);
    var ids := FreshIdsExist(s.t, |txs|);
    ThenOne(s, [Take], Save(ids));
    es := [Take] + [Save(ids)];
    DrainableRest(s.t, items, n, ids);
    assert taken[0] == items[0] && items[0] in items;
    assert forall m :: m in rest ==> m in items;
  }

  /** One batch, from taking it to its watermark. */
  lemma BatchRun(s: State, w: nat) returns (es: seq<Event>)
    requires Inv(s) && s.consumer.Free? && s.queue != [] && Drainable(s.t, s.queue)
    requires w in s.chain && forall m :: m in s.queue ==> m.wallet == w
    ensures Legal(s, es) && Restart !in es
    ensures var s' := Run(s, es);
            && OnlyConsumer(s, s') && s'.consumer.Free? && |s'.queue| < |s.queue|
            && Drainable(s'.t, s'.queue) && forall m :: m in s'.queue ==> m.wallet == w
  {
    hide WalletsInv, SyncInv, ConsumerInv, Drainable, LastSignature, LinkTables, Legal, Run;
    var front := SaveRun(s, w);
    var s2 := Run(s, front);
    var s3 := Apply(s2, Link);
    ThenOne(s, front, Link);
    LinkSignature(s2.t, w, s2.consumer.ids);
    var s4 := Apply(s3, Mark);
    ThenOne(s, front + [Link], Mark);
    es := front + [Link] + [Mark];
    DrainableTables(s2.t, s4.t, s2.queue);
  }

  lemma LinkSignature(t: Tables, w: nat, ids: seq<int>)
    requires w in t.wallet && w in t.links
    ensures var t' := LinkTables(t, w, ids); t'.signature == t.signature && w in t'.wallet && w in t'.links
  {
  }

  lemma {:induction false} DrainRun(s: State, w: nat) returns (es: seq<Event>)
    requires Inv(s) && s.consumer.Free? && Drainable(s.t, s.queue)
    requires w in s.chain && forall m :: m in s.queue ==> m.wallet == w
    ensures Legal(s, es) && Restart !in es
    ensures var s' := Run(s, es);
            OnlyConsumer(s, s') && s'.consumer.Free? && s'.queue == []
    decreases |s.queue|
  {
    hide Inv, Drainable;
    if s.queue == [] {
      es := [];
    } else {
      var front := BatchRun(s, w);
      RunInv(s, front);
      var tail := DrainRun(Run(s, front), w);
      RunConcat(s, front, tail);
      es := front + tail;
    }
  }

  // ---- together ----

  lemma ReachableRun(s: State, es: seq<Event>)
    requires Reachable(s) && Legal(s, es)
    ensures Reachable(Run(s, es))
  {
    hide Enabled, Apply, Init;
    var init, before :| Init(init) && Legal(init, before) && Run(init, before) == s;
    RunConcat(init, before, es);
  }

  /**
   * Recovery: in every reachable state in which the process has just been started again, whatever was
   * half committed, a wallet with fewer than 100 new signatures, all storable, has a run without a
   * stop after which its whole history is linked, counted and marked and nothing is left to do. The run may commit several batches,
   * so this is about a program in which `deduplicateTimestamps` returns; `LivesRecovery` is about the other.
   */
  lemma RecoveryConverges(s: State, w: nat) returns (es: seq<Event>)
    requires Reachable(s) && Restarted(s) && Syncable(s, w)
    ensures Legal(s, es) && Restart !in es
    ensures var s' := Run(s, es);
            var h := s.chain[w];
            && Restarted(s') && s'.chain == s.chain && w in s'.t.wallet && w in s'.t.links
            && (forall x :: Linked(s'.t, w, x) <==> x in h)
            && s'.t.wallet[w].signatures == |h|
            && Watermark(s'.t, w) == if h == [] then "" else h[|h| - 1]
  {
    hide Reachable, Inv, Syncable, Drainable, Legal, Run, Linked, Watermark;
    ReachableInv(s);
    SyncableWallet(s, w);
    var front := SyncRun(s, w);
    RunInv(s, front);
    var s1 := Run(s, front);
    DrainableTables(s.t, s1.t, s1.queue);
    var tail := DrainRun(s1, w);
    RunConcat(s, front, tail);
    es := front + tail;
    ReachableRun(s, es);
    SettledWalletConverged(Run(s, es), w);
    assert s.chain[w][..|s.chain[w]|] == s.chain[w];
  }
}
