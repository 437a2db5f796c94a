/**
 * The invariant of the pipeline, its preservation by every event, and what it says of every run: the
 * watermark is never ahead of what is linked, never goes back, and the counter counts the links, under
 * every interleaving of producer, consumer and stops.
 */
module Safety {
  import opened Common
  import opened Ledger
  import opened MsgQueue
  import opened Pipeline
  import opened WalletInvariant
  import opened ProducerInvariant

  /** The messages of `w` that the consumer has taken and not finished with. */
  function Inflight(c: Consumer, w: nat): seq<Msg> {
    if !c.Free? && c.taken != [] && c.taken[0].wallet == w then c.taken else []
  }

  function Flow(s: State, w: nat): seq<Msg> {
    Inflight(s.consumer, w) + Of(s.queue, w)
  }

  ghost predicate Base(s: State) {
    && s.chain.Keys == s.t.wallet.Keys == s.t.links.Keys
    && (forall w :: w in s.chain ==>
          Distinct(s.chain[w]) && "" !in s.chain[w] && forall x :: x in s.chain[w] ==> x in s.ledger)
    && (forall x :: x in s.ledger ==> s.ledger[x].signature == x)
    && Injective(s.t.signature)
    && (forall m :: m in s.queue ==> m.wallet in s.chain)
  }

  ghost predicate ConsumerInv(s: State) {
    var c := s.consumer;
    c.Free? ||
    (&& c.taken != [] && c.taken[0].wallet in s.chain
     && (forall m :: m in c.taken ==> m.wallet == c.taken[0].wallet)
     && (c.Linking? ==> IdsReady(s.t, s.chain[c.taken[0].wallet], c.taken, c.ids))
     && (c.Marking? ==> AllLinked(s.t, c.taken[0].wallet, c.taken)))
  }

  /** After the save, `u.signaturesIds` is the ids of exactly the batch's signatures. */
  ghost predicate IdsReady(t: Tables, h: seq<string>, taken: seq<Msg>, ids: seq<int>) {
    && (forall i, x :: 0 <= i < |taken| && Covers(t, taken[i], x) ==> x in t.signature && t.signature[x] in ids)
    && (forall id :: id in ids ==> exists i, x :: 0 <= i < |taken| && Covers(t, taken[i], x) && x in h && HasId(t, x, id))
  }

  ghost predicate WalletsInv(s: State) {
    forall w :: w in s.chain ==> WalletInv(s.t, w, s.chain[w], Flow(s, w))
  }

  ghost predicate SyncInv(s: State) {
    s.producer.Idle? ||
    (&& s.producer.wallet in s.chain && s.producer.wallet in s.t.wallet
     && ProducerInv(s.t, s.chain[s.producer.wallet], Flow(s, s.producer.wallet), s.producer))
  }

  ghost predicate Inv(s: State) {
    Base(s) && ConsumerInv(s) && WalletsInv(s) && SyncInv(s)
  }

  lemma InitInv(s: State)
    requires Init(s)
    ensures Inv(s)
  {
    forall w | w in s.chain
      ensures WalletInv(s.t, w, s.chain[w], Flow(s, w))
    {
      assert Flow(s, w) == [];
      assert Watermark(s.t, w) == "";
    }
  }

  lemma WalletAt(s: State, w: nat)
    requires WalletsInv(s) && w in s.chain
    ensures WalletInv(s.t, w, s.chain[w], Flow(s, w)) && RowOk(s.t, w, s.chain[w])
  {
  }

  // ---- environment ----

  lemma IdsReadyGrow(t: Tables, h: seq<string>, taken: seq<Msg>, ids: seq<int>, x: string)
    requires IdsReady(t, h, taken, ids)
    ensures IdsReady(t, h + [x], taken, ids)
  {
    forall id | id in ids
      ensures exists i, y :: 0 <= i < |taken| && Covers(t, taken[i], y) && y in h + [x] && HasId(t, y, id)
    {
      var i, y :| 0 <= i < |taken| && Covers(t, taken[i], y) && y in h && HasId(t, y, id);
      assert y in h + [x];
    }
  }

  lemma BaseGrow(s: State, s': State, w: nat, x: string)
    requires Base(s) && w in s.chain && x != "" && x !in s.chain[w] && x in s.ledger
    requires s' == s.(chain := s.chain[w := s.chain[w] + [x]])
    ensures Base(s')
  {
    var h' := s.chain[w] + [x];
    assert forall y :: y in h' ==> y in s.chain[w] || y == x;
    assert Distinct(h');
  }

  lemma GrowInv(s: State, s': State, w: nat, x: string)
    requires Inv(s) && w in s.chain && x != "" && x !in s.chain[w] && x in s.ledger
    requires s' == s.(chain := s.chain[w := s.chain[w] + [x]])
    ensures Inv(s')
  {
    hide Base, WalletInv, ProducerInv, IdsReady, AllLinked, Of;
    var h := s.chain[w];
    assert WalletInv(s.t, w, h, Flow(s, w));
    GrowKeeps(s.t, w, h, Flow(s, w), x);
    if !s.producer.Idle? && s.producer.wallet == w {
      ProducerGrow(s.t, h, Flow(s, w), s.producer, x);
    }
    if s.consumer.Linking? && s.consumer.taken[0].wallet == w {
      IdsReadyGrow(s.t, h, s.consumer.taken, s.consumer.ids, x);
    }
    BaseGrow(s, s', w, x);
    assert forall v :: Flow(s', v) == Flow(s, v);
  }

  lemma RestartInv(s: State, s': State)
    requires Inv(s)
    requires s' == s.(queue := [], producer := Idle, consumer := Free, synced := map[])
    ensures Inv(s')
  {
    hide WalletInv, ProducerInv;
    forall w | w in s'.chain
      ensures WalletInv(s'.t, w, s'.chain[w], Flow(s', w))
    {
      DropKeeps(s.t, w, s.chain[w], Flow(s, w));
      assert Flow(s', w) == [];
    }
  }

  // ---- producer ----

  lemma FlowAppend(s: State, s': State, msgs: seq<Msg>, w: nat, v: nat)
    requires s'.consumer == s.consumer && s'.queue == s.queue + msgs
    requires forall m :: m in msgs ==> m.wallet == w
    ensures Flow(s', v) == if v == w then Flow(s, v) + msgs else Flow(s, v)
  {
    hide Of;
    OfConcat(s.queue, msgs, v);
    OfOwn(msgs, w, v);
  }

  /** A step of the producer that only moves its program counter. */
  lemma PcInv(s: State, s': State)
    requires Inv(s) && s' == s.(producer := s'.producer)
    requires s'.producer.Idle? || (s'.producer.wallet in s.chain &&
             ProducerInv(s.t, s.chain[s'.producer.wallet], Flow(s, s'.producer.wallet), s'.producer))
    ensures Inv(s')
  {
    hide WalletInv, ProducerInv, IdsReady, AllLinked, Of;
    assert forall v :: Flow(s', v) == Flow(s, v);
  }

  /** A step of the producer that appends messages of its wallet. */
  lemma AppendInv(s: State, s': State, msgs: seq<Msg>)
    requires Inv(s) && !s.producer.Idle?
    requires s' == s.(producer := s'.producer, queue := s.queue + msgs, synced := s'.synced)
    requires forall m :: m in msgs ==> m.wallet == s.producer.wallet
    requires var w := s.producer.wallet;
             WalletInv(s.t, w, s.chain[w], Flow(s, w) + msgs)
    requires s'.producer.Idle? || (s'.producer.wallet == s.producer.wallet &&
             var w := s.producer.wallet;
             ProducerInv(s.t, s.chain[w], Flow(s, w) + msgs, s'.producer))
    ensures Inv(s')
  {
    hide WalletInv, ProducerInv, IdsReady, AllLinked, Of;
    forall v
      ensures Flow(s', v) == if v == s.producer.wallet then Flow(s, v) + msgs else Flow(s, v)
    {
      FlowAppend(s, s', msgs, s.producer.wallet, v);
    }
  }

  lemma ProducerPcInv(s: State, e: Event)
    requires Inv(s) && Enabled(s, e)
    requires e.Start? || e.Fetch? || e.ReadSaved? || e.EndPage?
    ensures Inv(Apply(s, e))
  {
    hide WalletInv, Of, IdsReady, AllLinked;
    var s', p := Apply(s, e), s.producer;
    var w := if e.Start? then e.w else p.wallet;
    var h, flow := s.chain[w], Flow(s, w);
    assert WalletInv(s.t, w, h, flow);
    match e {
      case Start(_) => StartStep(s.t, h, flow, w);
      case Fetch => FetchStep(s.t, h, flow, p);
      case ReadSaved(order) => ReadStep(s.t, h, flow, p, order);
      case EndPage => EndPageStep(s.t, h, flow, p);
    }
    PcInv(s, s');
  }

  lemma ProducerAppendInv(s: State, e: Event)
    requires Inv(s) && Enabled(s, e)
    requires e.PublishSaved? || e.ScanNext? || e.SendMarker?
    ensures Inv(Apply(s, e))
  {
    hide WalletInv, ProducerInv, Of, IdsReady, AllLinked;
    var s', p := Apply(s, e), s.producer;
    var w := p.wallet;
    var h, flow := s.chain[w], Flow(s, w);
    assert WalletInv(s.t, w, h, flow);
    match e {
      case PublishSaved(accs) =>
        PublishStep(s.t, h, flow, p, accs);
        AppendInv(s, s', SavedMsgs(w, p.saved, accs));
      case ScanNext(acc) =>
        ScanStep(s.t, h, flow, p, s.ledger[p.page[p.next]], acc);
        if RowFor(p.saved, p.page[p.next]) {
          PcInv(s, s');
        } else {
          AppendInv(s, s', [Onchain(w, s.ledger[p.page[p.next]], acc)]);
        }
      case SendMarker =>
        SendStep(s.t, h, flow, p);
        AppendInv(s, s', [Last(w, p.newLast)]);
    }
  }

  // ---- consumer ----

  lemma FlowTake(s: State, s': State, w: nat)
    requires s.consumer.Free? && s.queue != []
    requires s' == s.(consumer := Saving(Taken(s.queue)), queue := Rest(s.queue))
    ensures Flow(s', w) == Flow(s, w)
  {
    hide Of, Taken, Rest, BatchOf;
    ProcessKeepsOrder(s.queue, w);
    TakenFirst(s.queue);
    OfOwn(Taken(s.queue), s.queue[0].wallet, w);
  }

  lemma TakeInv(s: State, s': State)
    requires Inv(s) && s.consumer.Free? && s.queue != []
    requires s' == s.(consumer := Saving(Taken(s.queue)), queue := Rest(s.queue))
    ensures Inv(s')
  {
    hide WalletInv, ProducerInv, Of, Taken, Rest, BatchOf, Flow;
    forall w
      ensures Flow(s', w) == Flow(s, w)
    {
      FlowTake(s, s', w);
    }
    TakenFirst(s.queue);
    ProcessConserves(s.queue);
    forall m | m in Rest(s.queue)
      ensures m in s.queue
    {
      assert m in multiset(s.queue);
    }
    assert s.queue[0] in s.queue;
  }

  /** A commit of the consumer that leaves the flow alone and only adds to the tables. */
  lemma CommitInv(s: State, s': State)
    requires Inv(s) && s' == s.(t := s'.t, consumer := s'.consumer)
    requires !s.consumer.Free? && !s'.consumer.Free? && s'.consumer.taken == s.consumer.taken
    requires s'.t.wallet.Keys == s.t.wallet.Keys && s'.t.links.Keys == s.t.links.Keys
    requires forall w :: w in s.chain ==>
               Extends(s.t, s'.t, w) && forall id :: id in s'.t.links[w] ==> KnownId(s'.t, s.chain[w], id)
    requires Injective(s'.t.signature) && ConsumerInv(s')
    ensures Inv(s')
    ensures forall w :: w in s.chain ==> Watermark(s'.t, w) == Watermark(s.t, w)
  {
    hide WalletInv, ProducerInv, Extends, KnownId, Of, ConsumerInv;
    assert forall v :: Flow(s', v) == Flow(s, v);
    forall w | w in s.chain
      ensures WalletInv(s'.t, w, s'.chain[w], Flow(s', w)) && Watermark(s'.t, w) == Watermark(s.t, w)
    {
      ExtendsKeeps(s.t, s'.t, w, s.chain[w], Flow(s, w));
    }
    if !s.producer.Idle? {
      ProducerExtends(s.t, s'.t, s.chain[s.producer.wallet], Flow(s, s.producer.wallet), s.producer);
    }
  }

  lemma {:induction false} TransactionsAt(ms: seq<Msg>, tx: OnchainTx)
    ensures tx in Transactions(ms) <==> exists i :: 0 <= i < |ms| && ms[i].Onchain? && ms[i].tx == tx
  {
    if ms != [] {
      TransactionsAt(ms[..|ms| - 1], tx);
      if tx in Transactions(ms[..|ms| - 1]) {
        var i :| 0 <= i < |ms| - 1 && ms[..|ms| - 1][i].Onchain? && ms[..|ms| - 1][i].tx == tx;
        assert ms[i].Onchain? && ms[i].tx == tx;
      }
      if i :| 0 <= i < |ms| && ms[i].Onchain? && ms[i].tx == tx {
        assert i < |ms| - 1 ==> ms[..|ms| - 1][i] == ms[i];
      }
    }
  }

  lemma {:induction false} SignaturesIdsAt(ms: seq<Msg>, id: int)
    ensures id in SignaturesIds(ms) <==> exists i :: 0 <= i < |ms| && ms[i].Saved? && ms[i].signatureId == id
  {
    if ms != [] {
      SignaturesIdsAt(ms[..|ms| - 1], id);
      if id in SignaturesIds(ms[..|ms| - 1]) {
        var i :| 0 <= i < |ms| - 1 && ms[..|ms| - 1][i].Saved? && ms[..|ms| - 1][i].signatureId == id;
        assert ms[i].Saved? && ms[i].signatureId == id;
      }
      if i :| 0 <= i < |ms| && ms[i].Saved? && ms[i].signatureId == id {
        assert i < |ms| - 1 ==> ms[..|ms| - 1][i] == ms[i];
      }
    }
  }

  /** The rows a save inserts: each new signature gets its id, the others keep theirs. */
  lemma SaveRows(t: Tables, txs: seq<OnchainTx>, ids: seq<int>)
    requires CanSave(t, txs) && FreshIds(t, ids) && |ids| == |txs|
    ensures var t' := SaveTables(t, Signatures(txs), ids);
            && (forall x :: x in t.signature ==> HasId(t', x, t.signature[x]))
            && (forall i :: 0 <= i < |txs| ==> txs[i].signature !in t.signature && HasId(t', txs[i].signature, ids[i]))
            && (forall x :: x in t'.signature && x !in t.signature ==>
                  exists i :: 0 <= i < |txs| && txs[i].signature == x)
  {
    hide Storable, Zip;
    var sigs := Signatures(txs);
    var added := Zip(sigs, ids);
    assert forall i :: 0 <= i < |txs| ==> txs[i] in txs && sigs[i] == txs[i].signature && sigs[i] in added;
    AddedRows(txs, ids);
    assert forall x :: x in t.signature ==> x !in added;
  }

  lemma AddedRows(txs: seq<OnchainTx>, ids: seq<int>)
    requires |ids| == |txs| && Distinct(Signatures(txs))
    ensures forall x :: x in Zip(Signatures(txs), ids) ==> exists i :: 0 <= i < |txs| && txs[i].signature == x
  {
    var sigs := Signatures(txs);
    forall x | x in Zip(sigs, ids)
      ensures exists i :: 0 <= i < |txs| && txs[i].signature == x
    {
      var i :| 0 <= i < |sigs| && sigs[i] == x;
      assert txs[i].signature == x;
    }
  }

  lemma CanSaveDistinct(t: Tables, txs: seq<OnchainTx>)
    requires CanSave(t, txs)
    ensures Distinct(Signatures(txs))
  {
  }

  lemma SaveInjective(t: Tables, txs: seq<OnchainTx>, ids: seq<int>)
    requires CanSave(t, txs) && FreshIds(t, ids) && |ids| == |txs| && Injective(t.signature)
    ensures Injective(SaveTables(t, Signatures(txs), ids).signature)
  {
    hide CanSave, SaveTables;
    CanSaveDistinct(t, txs);
    var m := SaveTables(t, Signatures(txs), ids).signature;
    forall a, b | a in m && b in m && m[a] == m[b]
      ensures a == b
    {
      SaveOneToOne(t, txs, ids, a, b);
    }
  }

  lemma SaveOneToOne(t: Tables, txs: seq<OnchainTx>, ids: seq<int>, a: string, b: string)
    requires CanSave(t, txs) && FreshIds(t, ids) && |ids| == |txs| && Injective(t.signature)
    requires Distinct(Signatures(txs))
    requires var m := SaveTables(t, Signatures(txs), ids).signature; a in m && b in m && m[a] == m[b]
    ensures a == b
  {
    hide CanSave, SaveTables;
    SaveRows(t, txs, ids);
    assert forall x :: x in t.signature ==> t.signature[x] in t.signature.Values;
    assert forall i :: 0 <= i < |ids| ==> ids[i] in ids;
    if a !in t.signature && b !in t.signature {
      var i :| 0 <= i < |txs| && txs[i].signature == a;
      var j :| 0 <= j < |txs| && txs[j].signature == b;
      assert ids[i] == ids[j];
    }
  }

  lemma SaveCovers(t: Tables, taken: seq<Msg>, ids: seq<int>, i: nat, x: string)
    requires var txs := Transactions(taken);
             CanSave(t, txs) && FreshIds(t, ids) && |ids| == |txs| && i < |taken|
    requires Covers(SaveTables(t, Signatures(Transactions(taken)), ids), taken[i], x)
    ensures var t' := SaveTables(t, Signatures(Transactions(taken)), ids);
            x in t'.signature && t'.signature[x] in SignaturesIds(taken) + ids
  {
    hide CanSave, SaveTables, Transactions, SignaturesIds, FreshIds;
    CanSaveDistinct(t, Transactions(taken));
    var txs := Transactions(taken);
    SaveRows(t, txs, ids);
    if taken[i].Saved? {
      SignaturesIdsAt(taken, taken[i].signatureId);
    } else {
      TransactionsAt(taken, taken[i].tx);
      var k :| 0 <= k < |txs| && txs[k] == taken[i].tx;
      assert ids[k] in ids;
    }
  }

  lemma SaveKnows(t: Tables, w: nat, h: seq<string>, taken: seq<Msg>, ids: seq<int>, id: int)
    requires var txs := Transactions(taken);
             CanSave(t, txs) && FreshIds(t, ids) && |ids| == |txs|
    requires forall i :: 0 <= i < |taken| ==> MsgOk(t, w, h, taken[i])
    requires id in SignaturesIds(taken) + ids
    ensures var t' := SaveTables(t, Signatures(Transactions(taken)), ids);
            exists i, x :: 0 <= i < |taken| && Covers(t', taken[i], x) && x in h && HasId(t', x, id)
  {
    hide CanSave, SaveTables, Transactions, SignaturesIds, FreshIds;
    CanSaveDistinct(t, Transactions(taken));
    var txs := Transactions(taken);
    var t' := SaveTables(t, Signatures(txs), ids);
    SaveRows(t, txs, ids);
    if id in SignaturesIds(taken) {
      SignaturesIdsAt(taken, id);
      var i :| 0 <= i < |taken| && taken[i].Saved? && taken[i].signatureId == id;
      assert MsgOk(t, w, h, taken[i]);
      var x :| x in h && HasId(t, x, id);
      assert HasId(t', x, id);
      assert Covers(t', taken[i], x);
    } else {
      var k :| 0 <= k < |ids| && ids[k] == id;
      TransactionsAt(taken, txs[k]);
      var i :| 0 <= i < |taken| && taken[i].Onchain? && taken[i].tx == txs[k];
      assert MsgOk(t, w, h, taken[i]);
      assert Covers(t', taken[i], txs[k].signature);
    }
  }

  lemma SaveIdsReady(t: Tables, w: nat, h: seq<string>, taken: seq<Msg>, ids: seq<int>)
    requires var txs := Transactions(taken);
             CanSave(t, txs) && FreshIds(t, ids) && |ids| == |txs|
    requires forall i :: 0 <= i < |taken| ==> MsgOk(t, w, h, taken[i])
    ensures IdsReady(SaveTables(t, Signatures(Transactions(taken)), ids), h, taken, SignaturesIds(taken) + ids)
  {
    hide CanSave, SaveTables, Transactions, SignaturesIds, FreshIds, Covers, HasId, MsgOk;
    CanSaveDistinct(t, Transactions(taken));
    var t' := SaveTables(t, Signatures(Transactions(taken)), ids);
    forall i, x | 0 <= i < |taken| && Covers(t', taken[i], x)
      ensures x in t'.signature && t'.signature[x] in SignaturesIds(taken) + ids
    {
      SaveCovers(t, taken, ids, i, x);
    }
    forall id | id in SignaturesIds(taken) + ids
      ensures exists i, x :: 0 <= i < |taken| && Covers(t', taken[i], x) && x in h && HasId(t', x, id)
    {
      SaveKnows(t, w, h, taken, ids, id);
    }
  }

  lemma SaveExtends(t: Tables, txs: seq<OnchainTx>, ids: seq<int>, w: nat, h: seq<string>)
    requires CanSave(t, txs) && FreshIds(t, ids) && |ids| == |txs| && Injective(t.signature)
    requires RowOk(t, w, h)
    ensures var t' := SaveTables(t, Signatures(txs), ids);
            Extends(t, t', w) && forall id :: id in t'.links[w] ==> KnownId(t', h, id)
  {
    hide CanSave, FreshIds;
    CanSaveDistinct(t, txs);
    SaveRows(t, txs, ids);
    SaveInjective(t, txs, ids);
    var t' := SaveTables(t, Signatures(txs), ids);
    forall id | id in t.links[w]
      ensures KnownId(t', h, id)
    {
      var x :| x in h && HasId(t, x, id);
      assert HasId(t', x, id);
    }
  }

  lemma TakenOk(s: State)
    requires Inv(s) && !s.consumer.Free?
    ensures var taken := s.consumer.taken;
            forall i :: 0 <= i < |taken| ==> MsgOk(s.t, taken[0].wallet, s.chain[taken[0].wallet], taken[i])
  {
    hide ProducerInv, Of, MsgOk;
    var taken, w := s.consumer.taken, s.consumer.taken[0].wallet;
    var flow := Flow(s, w);
    assert WalletInv(s.t, w, s.chain[w], flow);
    assert flow == taken + Of(s.queue, w);
    forall i | 0 <= i < |taken|
      ensures MsgOk(s.t, w, s.chain[w], taken[i])
    {
      assert flow[i] == taken[i];
    }
  }

  lemma SaveInv(s: State, s': State, ids: seq<int>)
    requires Inv(s) && s.consumer.Saving?
    requires var txs := Transactions(s.consumer.taken);
             CanSave(s.t, txs) && FreshIds(s.t, ids) && |ids| == |txs|
    requires s' == s.(consumer := Linking(s.consumer.taken, SignaturesIds(s.consumer.taken) + ids),
                      t := SaveTables(s.t, Signatures(Transactions(s.consumer.taken)), ids))
    ensures Inv(s')
    ensures forall w :: w in s.chain ==> Watermark(s'.t, w) == Watermark(s.t, w)
  {
    hide WalletInv, ProducerInv, Of, CanSave, FreshIds, Extends, KnownId, IdsReady, Transactions, SignaturesIds, MsgOk;
    var taken, txs := s.consumer.taken, Transactions(s.consumer.taken);
    SaveInjective(s.t, txs, ids);
    TakenOk(s);
    SaveIdsReady(s.t, taken[0].wallet, s.chain[taken[0].wallet], taken, ids);
    forall w | w in s.chain
      ensures Extends(s.t, s'.t, w) && forall id :: id in s'.t.links[w] ==> KnownId(s'.t, s.chain[w], id)
    {
      WalletAt(s, w);
      SaveExtends(s.t, txs, ids, w, s.chain[w]);
    }
    CommitInv(s, s');
  }

  lemma LinkExtends(t: Tables, v: nat, hv: seq<string>, taken: seq<Msg>, ids: seq<int>, w: nat, h: seq<string>)
    requires IdsReady(t, hv, taken, ids) && v in t.wallet && v in t.links && (v == w ==> hv == h)
    requires RowOk(t, w, h) && Injective(t.signature)
    ensures var t' := LinkTables(t, v, ids);
            Extends(t, t', w) && forall id :: id in t'.links[w] ==> KnownId(t', h, id)
  {
    var t' := LinkTables(t, v, ids);
    forall id | id in t'.links[w]
      ensures KnownId(t', h, id)
    {
      if id in t.links[w] {
        var x :| x in h && HasId(t, x, id);
        assert HasId(t', x, id);
      } else {
        var i, x :| 0 <= i < |taken| && Covers(t, taken[i], x) && x in hv && HasId(t, x, id);
        assert HasId(t', x, id);
      }
    }
    assert t.links[v] !! (Elements(ids) - t.links[v]);
  }

  lemma LinkAll(t: Tables, v: nat, h: seq<string>, taken: seq<Msg>, ids: seq<int>)
    requires IdsReady(t, h, taken, ids) && v in t.wallet && v in t.links
    ensures AllLinked(LinkTables(t, v, ids), v, taken)
  {
    var t' := LinkTables(t, v, ids);
    forall i, x | 0 <= i < |taken| && Covers(t', taken[i], x)
      ensures Linked(t', v, x)
    {
      assert Covers(t, taken[i], x);
    }
  }

  lemma LinkInv(s: State, s': State)
    requires Inv(s) && s.consumer.Linking? && HasWallet(s, s.consumer.taken)
    requires s' == s.(consumer := Marking(s.consumer.taken),
                      t := LinkTables(s.t, s.consumer.taken[0].wallet, s.consumer.ids))
    ensures Inv(s')
    ensures forall w :: w in s.chain ==> Watermark(s'.t, w) == Watermark(s.t, w)
  {
    hide WalletInv, ProducerInv, Of, Extends, KnownId, IdsReady, AllLinked;
    var taken, ids := s.consumer.taken, s.consumer.ids;
    var v := taken[0].wallet;
    forall w | w in s.chain
      ensures Extends(s.t, s'.t, w) && forall id :: id in s'.t.links[w] ==> KnownId(s'.t, s.chain[w], id)
    {
      WalletAt(s, w);
      LinkExtends(s.t, v, s.chain[v], taken, ids, w, s.chain[w]);
    }
    LinkAll(s.t, v, s.chain[v], taken, ids);
    CommitInv(s, s');
  }

  lemma MarkExtends(t: Tables, v: nat, sig: string, w: nat, h: seq<string>)
    requires RowOk(t, w, h) && Injective(t.signature) && v in t.wallet && v != w
    ensures var t' := MarkTables(t, v, sig);
            Extends(t, t', w) && forall id :: id in t'.links[w] ==> KnownId(t', h, id)
  {
    var t' := MarkTables(t, v, sig);
    forall id | id in t'.links[w]
      ensures KnownId(t', h, id)
    {
      var x :| x in h && HasId(t, x, id);
      assert HasId(t', x, id);
    }
  }

  /** The flow of the batch's wallet is the batch and then the queue; the others have no part in it. */
  lemma FlowDone(s: State, s': State, w: nat)
    requires !s.consumer.Free? && s.consumer.taken != [] && s'.consumer.Free? && s'.queue == s.queue
    ensures Flow(s', w) == Of(s.queue, w)
    ensures Flow(s, w) == if w == s.consumer.taken[0].wallet then s.consumer.taken + Flow(s', w) else Flow(s', w)
  {
    hide Of;
  }

  lemma MarkWallet(s: State, s': State, w: nat)
    requires Inv(s) && s.consumer.Marking? && HasWallet(s, s.consumer.taken) && w in s.chain
    requires s' == s.(consumer := Free,
                      t := MarkTables(s.t, s.consumer.taken[0].wallet, LastSignature(s.consumer.taken)))
    ensures WalletInv(s'.t, w, s'.chain[w], Flow(s', w))
    ensures !s.producer.Idle? && s.producer.wallet == w ==>
              ProducerInv(s'.t, s.chain[w], Flow(s', w), s.producer)
    ensures Watermark(s'.t, w) ==
              if w != s.consumer.taken[0].wallet || LastMark(s.consumer.taken) == "" then Watermark(s.t, w)
              else LastMark(s.consumer.taken)
    ensures Reached(s.t, w, s.chain[w]) <= Reached(s'.t, w, s.chain[w])
  {
    hide WalletInv, ProducerInv, Of, Flow, AllLinked, Extends, KnownId, Watermark, LastMark;
    var taken := s.consumer.taken;
    var v := taken[0].wallet;
    WalletAt(s, w);
    FlowDone(s, s', w);
    if w == v {
      MarkKeeps(s.t, w, s.chain[w], taken, Flow(s', w));
      if !s.producer.Idle? && s.producer.wallet == w {
        ProducerMark(s.t, s.chain[w], taken, Flow(s', w), s.producer);
      }
    } else {
      MarkExtends(s.t, v, LastSignature(taken), w, s.chain[w]);
      ExtendsKeeps(s.t, s'.t, w, s.chain[w], Flow(s, w));
      if !s.producer.Idle? && s.producer.wallet == w {
        ProducerExtends(s.t, s'.t, s.chain[w], Flow(s, w), s.producer);
      }
    }
  }

  lemma MarkInv(s: State, s': State)
    requires Inv(s) && s.consumer.Marking? && HasWallet(s, s.consumer.taken)
    requires s' == s.(consumer := Free,
                      t := MarkTables(s.t, s.consumer.taken[0].wallet, LastSignature(s.consumer.taken)))
    ensures Inv(s')
  {
    hide WalletInv, ProducerInv, Of, Flow;
    forall w | w in s.chain
      ensures WalletInv(s'.t, w, s'.chain[w], Flow(s', w))
      ensures !s.producer.Idle? && s.producer.wallet == w ==>
                ProducerInv(s'.t, s.chain[w], Flow(s', w), s.producer)
    {
      MarkWallet(s, s', w);
    }
  }

  lemma StepInv(s: State, e: Event)
    requires Inv(s) && Enabled(s, e)
    ensures Inv(Apply(s, e))
  {
    hide Inv;
    var s' := Apply(s, e);
    match e
    case Grow(w, x) => GrowInv(s, s', w, x);
    case Start(_) => ProducerPcInv(s, e);
    case Fetch => ProducerPcInv(s, e);
    case ReadSaved(_) => ProducerPcInv(s, e);
    case EndPage => ProducerPcInv(s, e);
    case PublishSaved(_) => ProducerAppendInv(s, e);
    case ScanNext(_) => ProducerAppendInv(s, e);
    case SendMarker => ProducerAppendInv(s, e);
    case Take => TakeInv(s, s');
    case Save(ids) => SaveInv(s, s', ids);
    case Link => LinkInv(s, s');
    case Mark => MarkInv(s, s');
    case Restart => RestartInv(s, s');
  }

  lemma {:induction false} RunInv(s: State, es: seq<Event>)
    requires Inv(s) && Legal(s, es)
    ensures Inv(Run(s, es))
    decreases |es|
  {
    hide Inv, Apply, Enabled;
    if es != [] {
      StepInv(s, es[0]);
      RunInv(Apply(s, es[0]), es[1..]);
    }
  }

  lemma ReachableInv(s: State)
    requires Reachable(s)
    ensures Inv(s)
  {
    hide Inv, Init, Legal, Run;
    var init, es :| Init(init) && Legal(init, es) && Run(init, es) == s;
    InitInv(init);
    RunInv(init, es);
  }
}
