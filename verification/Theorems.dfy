/** What the invariant says of every reachable state and of every run. */
module Theorems {
  import opened Common
  import opened Ledger
  import opened MsgQueue
  import opened Pipeline
  import opened WalletInvariant
  import opened ProducerInvariant
  import opened Safety

  /**
   * Watermark safety: whatever the interleaving of appends, commits and stops, a wallet whose last
   * signature is `chain[k]` has `chain[k]` and every older signature of its history linked.
   */
  lemma WatermarkNeverAhead(s: State, w: nat, k: nat)
    requires Reachable(s) && w in s.chain && w in s.t.wallet
    requires k < |s.chain[w]| && Watermark(s.t, w) == s.chain[w][k]
    ensures forall j :: 0 <= j <= k ==> Linked(s.t, w, s.chain[w][j])
  {
    hide Reachable, Watermark;
    ReachableInv(s);
    WalletAt(s, w);
    RankAt(s.chain[w], k);
  }

  /** A stored last_signature_id always resolves to a signature of the wallet's history. */
  lemma WatermarkInHistory(s: State, w: nat)
    requires Reachable(s) && w in s.chain
    ensures w in s.t.wallet
    ensures s.t.wallet[w].lastSignatureId.Some? ==>
              Watermark(s.t, w) in s.chain[w] && HasId(s.t, Watermark(s.t, w), s.t.wallet[w].lastSignatureId.value)
    ensures s.t.wallet[w].lastSignatureId.None? ==> Watermark(s.t, w) == ""
  {
    hide Reachable;
    ReachableInv(s);
    WalletAt(s, w);
  }

  /** The counter is the number of wallet_to_signature rows, and each row links a signature of the history. */
  lemma CounterCountsLinks(s: State, w: nat)
    requires Reachable(s) && w in s.chain
    ensures w in s.t.wallet && w in s.t.links
    ensures s.t.wallet[w].signatures == |s.t.links[w]|
    ensures forall id :: id in s.t.links[w] ==> KnownId(s.t, s.chain[w], id)
  {
    hide Reachable, KnownId;
    ReachableInv(s);
    WalletAt(s, w);
  }

  /** Linking the same signatures again inserts nothing and leaves the counter alone. */
  lemma RelinkingChangesNothing(t: Tables, w: nat, ids: seq<int>)
    requires w in t.wallet && w in t.links
    ensures var t' := LinkTables(t, w, ids); LinkTables(t', w, ids) == t'
  {
    var t' := LinkTables(t, w, ids);
    assert Elements(ids) - t'.links[w] == {};
  }

  // ---- the watermark over a run ----

  ghost predicate Forward(s: State, s': State, w: nat)
    requires w in s.chain && w in s.t.wallet && w in s'.chain && w in s'.t.wallet
  {
    s.chain[w] <= s'.chain[w] && Reached(s.t, w, s.chain[w]) <= Reached(s'.t, w, s'.chain[w])
  }

  lemma QuietStep(s: State, e: Event)
    requires Enabled(s, e) && !e.Grow? && !e.Save? && !e.Link? && !e.Mark?
    ensures Apply(s, e).t == s.t && Apply(s, e).chain == s.chain
  {
  }

  lemma CommitForward(s: State, e: Event, w: nat)
    requires Inv(s) && Enabled(s, e) && w in s.chain && (e.Save? || e.Link? || e.Mark?)
    ensures var s' := Apply(s, e);
            w in s.t.wallet && w in s'.chain && w in s'.t.wallet && Forward(s, s', w)
  {
    hide WalletInv, ProducerInv, IdsReady, AllLinked, Of, Watermark, Rank, RowOk;
    var s' := Apply(s, e);
    match e
    case Save(ids) => SaveInv(s, s', ids);
    case Link => LinkInv(s, s');
    case Mark => MarkWallet(s, s', w);
  }

  lemma StepForward(s: State, e: Event, w: nat)
    requires Inv(s) && Enabled(s, e) && w in s.chain
    ensures var s' := Apply(s, e);
            w in s.t.wallet && w in s'.chain && w in s'.t.wallet && Forward(s, s', w)
  {
    hide Inv, WalletsInv, SyncInv, ConsumerInv, WalletInv, Enabled, Watermark, Rank, Of;
    InvParts(s);
    WalletAt(s, w);
    if e.Grow? {
      GrowForward(s, e.wallet, e.signature, w);
    } else if e.Save? || e.Link? || e.Mark? {
      CommitForward(s, e, w);
    } else {
      QuietStep(s, e);
    }
  }

  lemma GrowForward(s: State, v: nat, x: string, w: nat)
    requires Inv(s) && Enabled(s, Grow(v, x)) && w in s.chain
    ensures var s' := Apply(s, Grow(v, x));
            w in s.t.wallet && w in s'.chain && w in s'.t.wallet && Forward(s, s', w)
  {
    hide WalletInv, ProducerInv, Watermark, Rank, RowOk, Of;
    WalletAt(s, w);
    if v == w {
      GrowKeeps(s.t, w, s.chain[w], Flow(s, w), x);
    }
  }

  /** The watermark never moves backwards in any run. */
  lemma {:induction false} WatermarkMonotone(s: State, es: seq<Event>, w: nat)
    requires Inv(s) && Legal(s, es) && w in s.chain
    ensures var s' := Run(s, es);
            w in s.t.wallet && w in s'.chain && w in s'.t.wallet && Forward(s, s', w)
    decreases |es|
  {
    hide Inv, Apply, Enabled, Reached;
    if es == [] {
      assert WalletsInv(s) by { InvParts(s); }
      WalletAt(s, w);
    } else {
      StepInv(s, es[0]);
      StepForward(s, es[0], w);
      WatermarkMonotone(Apply(s, es[0]), es[1..], w);
    }
  }

  lemma InvParts(s: State)
    requires Inv(s)
    ensures Base(s) && ConsumerInv(s) && WalletsInv(s) && SyncInv(s)
  {
  }

  // ---- markers ----

  /**
   * When a batch is committed, the sub-select for its marker finds a row, so last_signature_id is never
   * reset to NULL; and the watermark becomes the batch's last non-empty marker, even when an empty one
   * follows it and makes the update skip the statement.
   */
  lemma MarkerApplied(s: State)
    requires Reachable(s) && Enabled(s, Mark)
    ensures var taken := s.consumer.taken;
            var w, t' := taken[0].wallet, Apply(s, Mark).t;
            && (LastSignature(taken) != "" ==> LastSignature(taken) in s.t.signature)
            && (s.t.wallet[w].lastSignatureId.Some? ==> t'.wallet[w].lastSignatureId.Some?)
            && Watermark(t', w) == if LastMark(taken) == "" then Watermark(s.t, w) else LastMark(taken)
  {
    hide Reachable, Inv, WalletInv, Of, Flow, AllLinked, Watermark, LastMark, LastSignature, WalletsInv, SyncInv;
    ReachableInv(s);
    InvParts(s);
    var taken, s' := s.consumer.taken, Apply(s, Mark);
    var w := taken[0].wallet;
    MarkWallet(s, s', w);
    WalletAt(s, w);
    FlowDone(s, s', w);
    MarkKeeps(s.t, w, s.chain[w], taken, Flow(s', w));
  }

  /**
   * An empty marker may follow a non-empty one into the same batch, but only when the watermark already
   * is that marker: a marker newer than the watermark is never masked.
   */
  lemma MaskedMarkerIsStale(s: State)
    requires Reachable(s) && Enabled(s, Mark)
    requires LastMark(s.consumer.taken) != "" && LastSignature(s.consumer.taken) == ""
    ensures Watermark(s.t, s.consumer.taken[0].wallet) == LastMark(s.consumer.taken)
  {
    hide Reachable, LastMark, LastSignature, Watermark;
    MarkerApplied(s);
    assert Apply(s, Mark).t == s.t;
  }

  /**
   * The markers of a wallet that are still to be applied are in history order, none is older than the
   * stored watermark, and an empty one follows only markers the watermark has reached already.
   */
  lemma PendingMarkers(s: State, w: nat, p: nat, q: nat)
    requires Reachable(s) && w in s.chain && p < q < |Flow(s, w)| && Marks(Flow(s, w)[p])
    ensures w in s.t.wallet
    ensures var h, flow := s.chain[w], Flow(s, w);
            var reached, rank := Reached(s.t, w, h), Rank(h, flow[p].signature);
            && reached <= rank
            && (Marks(flow[q]) ==> rank <= Rank(h, flow[q].signature))
            && (Blank(flow[q]) ==> rank == reached)
  {
    hide Reachable, Watermark, Flow, MarkersBacked;
    ReachableInv(s);
    WalletAt(s, w);
  }

  // ---- the queue over a run ----

  /** The messages a step appends to the queue. */
  ghost function Sent(s: State, e: Event): seq<Msg>
    requires Enabled(s, e)
  {
    match e
    case PublishSaved(accs) => SavedMsgs(s.producer.wallet, s.producer.saved, accs)
    case ScanNext(acc) =>
      var p := s.producer;
      if RowFor(p.saved, p.page[p.next]) then [] else [Onchain(p.wallet, s.ledger[p.page[p.next]], acc)]
    case SendMarker => [Last(s.producer.wallet, s.producer.newLast)]
    case _ => []
  }

  /** The messages whose batch a step finishes committing. */
  ghost function Done(s: State, e: Event): seq<Msg>
    requires Enabled(s, e)
  {
    if e.Mark? then s.consumer.taken else []
  }

  ghost function AllSent(s: State, es: seq<Event>): seq<Msg>
    requires Legal(s, es)
    decreases |es|
  {
    if es == [] then [] else Sent(s, es[0]) + AllSent(Apply(s, es[0]), es[1..])
  }

  ghost function AllDone(s: State, es: seq<Event>): seq<Msg>
    requires Legal(s, es)
    decreases |es|
  {
    if es == [] then [] else Done(s, es[0]) + AllDone(Apply(s, es[0]), es[1..])
  }

  lemma StepFifo(s: State, e: Event, w: nat)
    requires Inv(s) && Enabled(s, e) && !e.Restart?
    ensures Flow(s, w) + Of(Sent(s, e), w) == Of(Done(s, e), w) + Flow(Apply(s, e), w)
  {
    hide Of, Inv;
    var s' := Apply(s, e);
    assert Of([], w) == [] by { OfMembers([], w); }
    if e.Take? {
      FlowTake(s, s', w);
    } else if e.Mark? {
      InvParts(s);
      FlowDone(s, s', w);
      OfOwn(s.consumer.taken, s.consumer.taken[0].wallet, w);
    } else {
      OfConcat(s.queue, Sent(s, e), w);
    }
  }

  /**
   * Per-wallet FIFO and conservation over every run without a stop: what was pending followed by what
   * was sent is what was committed followed by what is pending now, message by message.
   */
  lemma {:induction false} RunFifo(s: State, es: seq<Event>, w: nat)
    requires Inv(s) && Legal(s, es) && Restart !in es
    ensures Flow(s, w) + Of(AllSent(s, es), w) == Of(AllDone(s, es), w) + Flow(Run(s, es), w)
    decreases |es|
  {
    hide Inv, Apply, Enabled, Of, Flow, Sent, Done;
    if es == [] {
      OfMembers([], w);
    } else {
      var e, next, tail := es[0], Apply(s, es[0]), es[1..];
      StepInv(s, e);
      StepFifo(s, e, w);
      RunFifo(next, tail, w);
      OfConcat(Sent(s, e), AllSent(next, tail), w);
      OfConcat(Done(s, e), AllDone(next, tail), w);
      calc {
        Flow(s, w) + Of(AllSent(s, es), w);
        (Flow(s, w) + Of(Sent(s, e), w)) + Of(AllSent(next, tail), w);
        (Of(Done(s, e), w) + Flow(next, w)) + Of(AllSent(next, tail), w);
        Of(Done(s, e), w) + (Of(AllDone(next, tail), w) + Flow(Run(next, tail), w));
        Of(AllDone(s, es), w) + Flow(Run(s, es), w);
      }
    }
  }
}
