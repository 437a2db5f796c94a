/**
 * A wallet whose sync has sent its marker converges: once its flow is empty, exactly the history that
 * sync saw is linked, the counter is its length and the watermark its newest signature, whatever stops
 * and partial commits came before.
 */
module Convergence {
  import opened Common
  import opened Ledger
  import opened MsgQueue
  import opened Pipeline
  import opened WalletInvariant
  import opened ProducerInvariant
  import opened Safety
  import opened Theorems

  /** Nothing outside the first `n` signatures is linked or pending. */
  ghost predicate Within(t: Tables, w: nat, h: seq<string>, flow: seq<Msg>, n: nat) {
    forall x :: Handled(t, w, flow, |flow|, x) ==> x in h && Rank(h, x) <= n
  }

  ghost predicate MarkPending(h: seq<string>, flow: seq<Msg>, n: nat) {
    exists i :: 0 <= i < |flow| && Marks(flow[i]) && Rank(h, flow[i].signature) == n
  }

  /** A sync that saw the first `n` signatures has sent its marker. */
  ghost predicate Synced(t: Tables, w: nat, h: seq<string>, flow: seq<Msg>, n: nat)
    requires w in t.wallet
  {
    && n <= |h|
    && HandledUpTo(t, w, h, flow, |flow|, n)
    && MarkedWithin(t, w, h, flow, n)
    && (Reached(t, w, h) == n || MarkPending(h, flow, n))
  }

  /** The bound a sync in progress keeps once it has seen the whole stretch it has to read. */
  ghost predicate Bounded(t: Tables, h: seq<string>, flow: seq<Msg>, p: Producer) {
    && (HasPage(p) && |p.page| < LIMIT ==> Within(t, p.wallet, h, flow, Rank(h, p.newLast)))
    && (p.Finishing? ==> Within(t, p.wallet, h, flow, Reach(h, p)))
  }

  ghost predicate WalletConv(s: State, w: nat)
    requires w in s.chain && w in s.t.wallet
  {
    var h, flow, p := s.chain[w], Flow(s, w), s.producer;
    && (w in s.synced ==> Synced(s.t, w, h, flow, s.synced[w]))
    && (w in s.synced && (p.Idle? || p.wallet != w) ==> Within(s.t, w, h, flow, s.synced[w]))
    && (!p.Idle? && p.wallet == w ==> Bounded(s.t, h, flow, p))
  }

  ghost predicate Conv(s: State) {
    s.chain.Keys == s.t.wallet.Keys && forall w :: w in s.chain ==> WalletConv(s, w)
  }

  // ---- what is linked or pending belongs to the history ----

  lemma HandledKnown(t: Tables, w: nat, h: seq<string>, flow: seq<Msg>, x: string)
    requires WalletInv(t, w, h, flow) && Injective(t.signature) && Handled(t, w, flow, |flow|, x)
    ensures x in h
  {
    if Linked(t, w, x) {
      assert KnownId(t, h, t.signature[x]);
      var y :| y in h && HasId(t, y, t.signature[x]);
    } else {
      var i :| 0 <= i < |flow| && Covers(t, flow[i], x);
      assert MsgOk(t, w, h, flow[i]);
    }
  }

  // ---- steps of others ----

  lemma WithinGrow(t: Tables, w: nat, h: seq<string>, flow: seq<Msg>, n: nat, x: string)
    requires Within(t, w, h, flow, n) && x !in h
    ensures Within(t, w, h + [x], flow, n)
  {
    forall y | Handled(t, w, flow, |flow|, y)
      ensures y in h + [x] && Rank(h + [x], y) <= n
    {
      RankExtend(h, x, y);
    }
  }

  lemma SyncedGrow(t: Tables, w: nat, h: seq<string>, flow: seq<Msg>, n: nat, x: string)
    requires WalletInv(t, w, h, flow) && Synced(t, w, h, flow, n) && x !in h && x != ""
    ensures Synced(t, w, h + [x], flow, n)
  {
    hide MarkedWithin, Watermark;
    var h' := h + [x];
    MarkedGrow(t, w, h, flow, x);
    GrowKeeps(t, w, h, flow, x);
    if Reached(t, w, h) != n {
      var i :| 0 <= i < |flow| && Marks(flow[i]) && Rank(h, flow[i].signature) == n;
      assert MsgOk(t, w, h, flow[i]);
      RankExtend(h, x, flow[i].signature);
      assert MarkPending(h', flow, n);
    }
    forall j | 0 <= j < n
      ensures Handled(t, w, flow, |flow|, h'[j])
    {
      assert Handled(t, w, flow, |flow|, h[j]);
    }
  }

  /** The same signatures are linked or pending, the same markers pending, the watermark unmoved. */
  lemma SameHandled(t: Tables, t': Tables, w: nat, h: seq<string>, flow: seq<Msg>, n: nat)
    requires w in t.wallet && w in t'.wallet && Reached(t', w, h) == Reached(t, w, h)
    requires forall x :: Handled(t, w, flow, |flow|, x) <==> Handled(t', w, flow, |flow|, x)
    ensures Within(t, w, h, flow, n) ==> Within(t', w, h, flow, n)
    ensures Synced(t, w, h, flow, n) ==> Synced(t', w, h, flow, n)
  {
  }

  /** After a save nothing else is linked or pending than before. */
  lemma SaveHandled(t: Tables, t': Tables, w: nat, h: seq<string>, flow: seq<Msg>, x: string)
    requires WalletInv(t, w, h, flow) && Extends(t, t', w) && t'.links[w] == t.links[w]
    requires Handled(t', w, flow, |flow|, x)
    ensures Handled(t, w, flow, |flow|, x)
  {
    if Linked(t', w, x) {
      assert KnownId(t, h, t'.signature[x]);
      var y :| y in h && HasId(t, y, t'.signature[x]);
      assert HasId(t', y, t'.signature[x]);
    } else {
      var i :| 0 <= i < |flow| && Covers(t', flow[i], x);
      assert MsgOk(t, w, h, flow[i]);
      if flow[i].Saved? {
        var y :| y in h && HasId(t, y, flow[i].signatureId);
        assert HasId(t', y, flow[i].signatureId);
      }
      assert Covers(t, flow[i], x);
    }
  }

  /** Linking a batch that is still in the flow links only what the flow already covers. */
  lemma LinkHandled(t: Tables, t': Tables, v: nat, h: seq<string>, taken: seq<Msg>, rest: seq<Msg>, ids: seq<int>, x: string)
    requires IdsReady(t, h, taken, ids) && v in t.wallet && v in t.links && Injective(t.signature)
    requires t' == LinkTables(t, v, ids)
    requires Handled(t', v, taken + rest, |taken + rest|, x)
    ensures Handled(t, v, taken + rest, |taken + rest|, x)
  {
    var flow := taken + rest;
    if Linked(t', v, x) {
      if !Linked(t, v, x) {
        var i, y :| 0 <= i < |taken| && Covers(t, taken[i], y) && y in h && HasId(t, y, t.signature[x]);
        assert flow[i] == taken[i];
        assert Covers(t, flow[i], x);
      }
    } else {
      var i :| 0 <= i < |flow| && Covers(t', flow[i], x);
      assert Covers(t, flow[i], x);
    }
  }

  // ---- the watermark commit ----

  lemma MarkConv(t: Tables, w: nat, h: seq<string>, taken: seq<Msg>, rest: seq<Msg>, n: nat)
    requires Injective(t.signature) && WalletInv(t, w, h, taken + rest) && AllLinked(t, w, taken)
    ensures var t' := MarkTables(t, w, LastSignature(taken));
            && (Within(t, w, h, taken + rest, n) ==> Within(t', w, h, rest, n))
            && (Synced(t, w, h, taken + rest, n) ==> Synced(t', w, h, rest, n))
  {
    var flow, t' := taken + rest, MarkTables(t, w, LastSignature(taken));
    MarkKeeps(t, w, h, taken, rest);
    forall x
      ensures Handled(t, w, flow, |flow|, x) <==> Handled(t', w, rest, |rest|, x)
    {
      HandledSuffix(t, t', w, taken, rest, |rest|, x);
    }
    if Synced(t, w, h, flow, n) {
      MarkReaches(t, w, h, taken, rest, n);
    }
  }

  lemma MarkReaches(t: Tables, w: nat, h: seq<string>, taken: seq<Msg>, rest: seq<Msg>, n: nat)
    requires Injective(t.signature) && WalletInv(t, w, h, taken + rest) && AllLinked(t, w, taken)
    requires w in t.wallet && MarkersOrdered(t, w, h, taken + rest) && MarkedWithin(t, w, h, taken + rest, n)
    requires Reached(t, w, h) == n || MarkPending(h, taken + rest, n)
    ensures var t' := MarkTables(t, w, LastSignature(taken));
            MarkedWithin(t', w, h, rest, n) && (Reached(t', w, h) == n || MarkPending(h, rest, n))
  {
    hide WalletInv, AllLinked, Injective, LastSignature, LastMark, Watermark, MarkersOrdered, Rank;
    var flow, t' := taken + rest, MarkTables(t, w, LastSignature(taken));
    MarkKeeps(t, w, h, taken, rest);
    LastReach(t, w, h, taken, flow, n);
    assert forall i :: 0 <= i < |rest| ==> rest[i] == flow[|taken| + i];
    if Reached(t', w, h) != n {
      var i :| 0 <= i < |flow| && Marks(flow[i]) && Rank(h, flow[i].signature) == n;
      assert Marks(rest[i - |taken|]);
    }
  }

  /** The last marker of a batch is as far as any of its markers goes, and no further than `n`. */
  lemma LastReach(t: Tables, w: nat, h: seq<string>, taken: seq<Msg>, flow: seq<Msg>, n: nat)
    requires w in t.wallet && MarkersOrdered(t, w, h, flow) && MarkedWithin(t, w, h, flow, n)
    requires |taken| <= |flow| && forall i :: 0 <= i < |taken| ==> flow[i] == taken[i]
    ensures LastMark(taken) != "" ==> Reached(t, w, h) <= Rank(h, LastMark(taken)) <= n
    ensures forall i {:trigger Marks(flow[i])} :: 0 <= i < |taken| && Marks(flow[i]) ==>
              LastMark(taken) != "" && Rank(h, flow[i].signature) <= Rank(h, LastMark(taken))
  {
    hide LastMark, LastSignature, Reached, Rank;
    if LastMark(taken) == "" {
      LastMarkAt(taken);
    } else {
      var q := LastMarkIndex(taken);
      assert Marks(flow[q]);
    }
  }

  lemma LastMarkIndex(taken: seq<Msg>) returns (q: nat)
    requires LastMark(taken) != ""
    ensures q < |taken| && Marks(taken[q]) && taken[q].signature == LastMark(taken)
    ensures forall i :: q < i < |taken| ==> !Marks(taken[i])
  {
    hide LastMark, LastSignature;
    LastMarkAt(taken);
    q :| 0 <= q < |taken| && Marks(taken[q]) && taken[q].signature == LastMark(taken)
      && forall i :: q < i < |taken| ==> !Marks(taken[i]);
  }

  // ---- preservation ----

  lemma ProducerStrings(t: Tables, h: seq<string>, flow: seq<Msg>, p: Producer)
    requires !p.Idle? && p.wallet in t.wallet && ProducerInv(t, h, flow, p)
    ensures (p.until == "" || p.until in h) && (p.newLast == "" || p.newLast in h)
  {
  }

  lemma GrowConv(s: State, s': State, v: nat, x: string)
    requires Inv(s) && Conv(s) && v in s.chain && x != "" && x !in s.chain[v]
    requires s' == s.(chain := s.chain[v := s.chain[v] + [x]])
    ensures Conv(s')
  {
    hide WalletInv, ProducerInv, Of, Synced, Within, IdsReady, AllLinked, Rank;
    assert forall w :: Flow(s', w) == Flow(s, w);
    forall w | w in s'.chain
      ensures WalletConv(s', w)
    {
      var h, flow, p := s.chain[w], Flow(s, w), s.producer;
      assert WalletConv(s, w);
      if w == v {
        WalletAt(s, w);
        if w in s.synced {
          SyncedGrow(s.t, w, h, flow, s.synced[w], x);
        }
        forall n | Within(s.t, w, h, flow, n)
          ensures Within(s.t, w, h + [x], flow, n)
        {
          WithinGrow(s.t, w, h, flow, n, x);
        }
        if !p.Idle? && p.wallet == w {
          ProducerStrings(s.t, h, flow, p);
          RankExtend(h, x, p.newLast);
          RankExtend(h, x, p.until);
        }
      }
    }
  }

  /** A step that moves only the producer's program counter. */
  lemma PcConv(s: State, s': State)
    requires Inv(s) && Conv(s) && s' == s.(producer := s'.producer)
    requires !s'.producer.Idle? && (s.producer.Idle? || s.producer.wallet == s'.producer.wallet)
    requires var w := s'.producer.wallet;
             w in s.chain && Bounded(s.t, s.chain[w], Flow(s, w), s'.producer)
    ensures Conv(s')
  {
    hide WalletInv, ProducerInv, Of, Synced, Within, Bounded, Inv;
    assert forall w :: Flow(s', w) == Flow(s, w);
    forall w | w in s'.chain
      ensures WalletConv(s', w)
    {
      assert WalletConv(s, w);
    }
  }

  lemma AllWithin(t: Tables, w: nat, h: seq<string>, flow: seq<Msg>)
    requires WalletInv(t, w, h, flow) && Injective(t.signature)
    ensures Within(t, w, h, flow, |h|)
  {
    hide WalletInv, Injective, Handled;
    forall x | Handled(t, w, flow, |flow|, x)
      ensures x in h
    {
      HandledKnown(t, w, h, flow, x);
    }
  }

  lemma FetchBounded(t: Tables, h: seq<string>, flow: seq<Msg>, p: Producer)
    requires p.Fetching? && Injective(t.signature) && Distinct(h) && "" !in h
    requires WalletInv(t, p.wallet, h, flow) && ProducerInv(t, h, flow, p)
    ensures var page := Page(h, p.until);
            Bounded(t, h, flow,
              if page == [] then Finishing(p.wallet, p.until, p.newLast)
              else Reading(p.wallet, p.until, if p.newLast == "" then page[0] else p.newLast, page))
  {
    hide Within, WalletInv, Injective, Watermark;
    AllWithin(t, p.wallet, h, flow);
    if Page(h, p.until) != [] {
      PageContents(h, p.until);
    }
  }

  /** Appending messages of the page keeps the bound and every finished sync. */
  lemma AppendConv(t: Tables, w: nat, h: seq<string>, flow: seq<Msg>, msgs: seq<Msg>, n: nat)
    requires w in t.wallet
    requires forall i :: 0 <= i < |msgs| ==> !Marks(msgs[i])
    ensures Synced(t, w, h, flow, n) ==> Synced(t, w, h, flow + msgs, n)
    ensures (forall i, x :: 0 <= i < |msgs| && Covers(t, msgs[i], x) ==> x in h && Rank(h, x) <= n) ==>
              (Within(t, w, h, flow, n) ==> Within(t, w, h, flow + msgs, n))
  {
    var f := flow + msgs;
    assert forall i :: 0 <= i < |flow| ==> f[i] == flow[i];
    assert forall i :: |flow| <= i < |f| ==> f[i] == msgs[i - |flow|];
    forall x
      ensures Handled(t, w, flow, |flow|, x) ==> Handled(t, w, f, |f|, x)
      ensures Handled(t, w, f, |f|, x) ==>
                Handled(t, w, flow, |flow|, x) || exists i :: 0 <= i < |msgs| && Covers(t, msgs[i], x)
    {
      if i :| 0 <= i < |flow| && Covers(t, flow[i], x) {
        assert Covers(t, f[i], x);
      }
      if i :| 0 <= i < |f| && Covers(t, f[i], x) {
        if i < |flow| {
          assert Covers(t, flow[i], x);
        } else {
          assert Covers(t, msgs[i - |flow|], x);
        }
      }
    }
    if Synced(t, w, h, flow, n) {
      if i :| 0 <= i < |flow| && Marks(flow[i]) && Rank(h, flow[i].signature) == n {
        assert Marks(f[i]);
      }
    }
  }

  lemma WholePageRank(h: seq<string>, p: Producer, i: nat)
    requires HasPage(p) && PageOk(h, p) && |p.page| < LIMIT && i < |p.page| && Distinct(h)
    ensures p.page[i] in h && Rank(h, p.page[i]) <= Rank(h, p.newLast)
  {
    RankAt(h, Rank(h, p.newLast) - 1 - i);
  }

  lemma WholePageCovers(t: Tables, h: seq<string>, flow: seq<Msg>, p: Producer, msgs: seq<Msg>)
    requires HasPage(p) && |p.page| < LIMIT && p.wallet in t.wallet && Distinct(h)
    requires ProducerInv(t, h, flow, p)
    requires forall i, x :: 0 <= i < |msgs| && Covers(t, msgs[i], x) ==> x in p.page
    ensures forall i, x :: 0 <= i < |msgs| && Covers(t, msgs[i], x) ==> x in h && Rank(h, x) <= Rank(h, p.newLast)
  {
    hide MarkedWithin, SavedOk, ScannedOk, Covers, Rank;
    forall i, x | 0 <= i < |msgs| && Covers(t, msgs[i], x)
      ensures x in h && Rank(h, x) <= Rank(h, p.newLast)
    {
      assert x in p.page;
      var k :| 0 <= k < |p.page| && p.page[k] == x;
      WholePageRank(h, p, k);
    }
  }

  lemma AppendWalletConv(s: State, s': State, msgs: seq<Msg>, w: nat)
    requires w in s.chain && w in s.t.wallet && WalletConv(s, w)
    requires HasPage(s.producer) && HasPage(s'.producer)
    requires s' == s.(producer := s'.producer, queue := s.queue + msgs)
    requires var p, p' := s.producer, s'.producer;
             p'.wallet == p.wallet && p'.until == p.until && p'.newLast == p.newLast && p'.page == p.page
    requires forall i :: 0 <= i < |msgs| ==> !msgs[i].Last?
    requires Flow(s', w) == if w == s.producer.wallet then Flow(s, w) + msgs else Flow(s, w)
    requires |s.producer.page| < LIMIT && w == s.producer.wallet ==>
               forall i, x :: 0 <= i < |msgs| && Covers(s.t, msgs[i], x) ==>
                 x in s.chain[w] && Rank(s.chain[w], x) <= Rank(s.chain[w], s.producer.newLast)
    ensures WalletConv(s', w)
  {
    hide Flow, Synced, Within, Covers, Rank;
    var p := s.producer;
    if w == p.wallet {
      if w in s.synced {
        AppendConv(s.t, w, s.chain[w], Flow(s, w), msgs, s.synced[w]);
      }
      AppendConv(s.t, w, s.chain[w], Flow(s, w), msgs, Rank(s.chain[w], p.newLast));
    }
  }

  lemma AppendOneConv(s: State, s': State, msgs: seq<Msg>, w: nat)
    requires w in s.chain
    requires Inv(s) && Conv(s) && HasPage(s.producer) && HasPage(s'.producer)
    requires s' == s.(producer := s'.producer, queue := s.queue + msgs)
    requires var p, p' := s.producer, s'.producer;
             p'.wallet == p.wallet && p'.until == p.until && p'.newLast == p.newLast && p'.page == p.page
    requires forall i :: 0 <= i < |msgs| ==> !msgs[i].Last? && msgs[i].wallet == s.producer.wallet
    requires forall i, x :: 0 <= i < |msgs| && Covers(s.t, msgs[i], x) ==> x in s.producer.page
    ensures WalletConv(s', w)
  {
    hide Inv, WalletsInv, ConsumerInv, ProducerInv, Of, WalletConv, Covers, Rank, Flow;
    InvParts(s);
    var p := s.producer;
    FlowAppend(s, s', msgs, p.wallet, w);
    if |p.page| < LIMIT && w == p.wallet {
      WholePageCovers(s.t, s.chain[w], Flow(s, w), p, msgs);
    }
    AppendWalletConv(s, s', msgs, w);
  }

  lemma AppendStepConv(s: State, s': State, msgs: seq<Msg>)
    requires Inv(s) && Conv(s) && HasPage(s.producer) && HasPage(s'.producer)
    requires s' == s.(producer := s'.producer, queue := s.queue + msgs)
    requires var p, p' := s.producer, s'.producer;
             p'.wallet == p.wallet && p'.until == p.until && p'.newLast == p.newLast && p'.page == p.page
    requires forall i :: 0 <= i < |msgs| ==> !msgs[i].Last? && msgs[i].wallet == s.producer.wallet
    requires forall i, x :: 0 <= i < |msgs| && Covers(s.t, msgs[i], x) ==> x in s.producer.page
    ensures Conv(s')
  {
    hide Inv, WalletConv, Covers;
    forall w | w in s'.chain
      ensures WalletConv(s', w)
    {
      AppendOneConv(s, s', msgs, w);
    }
  }

  lemma SendSynced(t: Tables, h: seq<string>, flow: seq<Msg>, p: Producer)
    requires p.Finishing? && p.wallet in t.wallet
    requires WalletInv(t, p.wallet, h, flow) && ProducerInv(t, h, flow, p) && Bounded(t, h, flow, p)
    ensures var f, n := flow + [Last(p.wallet, p.newLast)], Reach(h, p);
            Synced(t, p.wallet, h, f, n) && Within(t, p.wallet, h, f, n)
  {
    var m := Last(p.wallet, p.newLast);
    var f, n := flow + [m], Reach(h, p);
    forall x
      ensures Handled(t, p.wallet, f, |f|, x) <==> Handled(t, p.wallet, flow, |flow|, x)
    {
      HandledAppend(t, p.wallet, flow, m, |flow|, x);
    }
    assert f[|flow|] == m && forall i :: 0 <= i < |flow| ==> f[i] == flow[i];
    if p.newLast != "" {
      assert Marks(f[|flow|]) && Rank(h, f[|flow|].signature) == n;
    }
  }

  lemma SendConv(s: State, s': State)
    requires Inv(s) && Conv(s) && s.producer.Finishing?
    requires var p := s.producer;
             p.wallet in s.chain &&
             s' == s.(producer := Idle, queue := s.queue + [Last(p.wallet, p.newLast)],
                      synced := s.synced[p.wallet := Reach(s.chain[p.wallet], p)])
    ensures Conv(s')
  {
    hide WalletInv, Of, Synced, Within, ProducerInv, IdsReady, AllLinked, Reach;
    var p := s.producer;
    var v, msgs := p.wallet, [Last(p.wallet, p.newLast)];
    forall w
      ensures Flow(s', w) == if w == v then Flow(s, w) + msgs else Flow(s, w)
    {
      FlowAppend(s, s', msgs, v, w);
    }
    forall w | w in s'.chain
      ensures WalletConv(s', w)
    {
      assert WalletConv(s, w);
      if w == v {
        WalletAt(s, w);
        SendSynced(s.t, s.chain[w], Flow(s, w), p);
      }
    }
  }

  /** The flow, what is linked or pending, and the watermark of `w` are the same in both states. */
  ghost predicate SameFlow(s: State, s': State, w: nat)
    requires w in s.t.wallet && w in s'.t.wallet
  {
    && Flow(s', w) == Flow(s, w)
    && Watermark(s'.t, w) == Watermark(s.t, w)
    && forall x :: Handled(s.t, w, Flow(s, w), |Flow(s, w)|, x) <==> Handled(s'.t, w, Flow(s, w), |Flow(s, w)|, x)
  }

  lemma CommitConv(s: State, s': State)
    requires Conv(s) && s'.chain == s.chain && s'.producer == s.producer && s'.synced == s.synced
    requires s'.t.wallet.Keys == s.t.wallet.Keys
    requires forall w :: w in s.chain ==> SameFlow(s, s', w)
    ensures Conv(s')
  {
    hide Flow, Synced, Within, Handled, Watermark, Rank, SameFlow;
    forall w | w in s'.chain
      ensures WalletConv(s', w)
    {
      assert WalletConv(s, w);
      CommitWallet(s, s', w);
    }
  }

  lemma CommitWallet(s: State, s': State, w: nat)
    requires w in s.chain && w in s.t.wallet && w in s'.t.wallet && WalletConv(s, w) && SameFlow(s, s', w)
    requires s'.chain == s.chain && s'.producer == s.producer && s'.synced == s.synced
    ensures WalletConv(s', w)
  {
    hide Flow, Synced, Within, Handled, Watermark, Rank;
    forall n
      ensures Within(s.t, w, s.chain[w], Flow(s, w), n) ==> Within(s'.t, w, s.chain[w], Flow(s, w), n)
      ensures Synced(s.t, w, s.chain[w], Flow(s, w), n) ==> Synced(s'.t, w, s.chain[w], Flow(s, w), n)
    {
      SameHandled(s.t, s'.t, w, s.chain[w], Flow(s, w), n);
    }
  }

  lemma SaveWallet(t: Tables, w: nat, h: seq<string>, flow: seq<Msg>, txs: seq<OnchainTx>, ids: seq<int>)
    requires WalletInv(t, w, h, flow) && Injective(t.signature)
    requires CanSave(t, txs) && FreshIds(t, ids) && |ids| == |txs|
    ensures var t' := SaveTables(t, Signatures(txs), ids);
            forall x :: Handled(t, w, flow, |flow|, x) <==> Handled(t', w, flow, |flow|, x)
  {
    hide WalletInv, CanSave, FreshIds, Handled, Injective, SaveTables, Extends, KnownId;
    CanSaveDistinct(t, txs);
    SaveLinks(t, Signatures(txs), ids);
    WalletInvRow(t, w, h, flow);
    SaveExtends(t, txs, ids, w, h);
    var t' := SaveTables(t, Signatures(txs), ids);
    forall x
      ensures Handled(t, w, flow, |flow|, x) <==> Handled(t', w, flow, |flow|, x)
    {
      if Handled(t, w, flow, |flow|, x) {
        HandledExtends(t, t', w, flow, |flow|, x);
      }
      if Handled(t', w, flow, |flow|, x) {
        SaveHandled(t, t', w, h, flow, x);
      }
    }
  }

  lemma SaveLinks(t: Tables, sigs: seq<string>, ids: seq<int>)
    requires |sigs| == |ids| && Distinct(sigs)
    ensures SaveTables(t, sigs, ids).links == t.links
  {
  }

  lemma WalletInvRow(t: Tables, w: nat, h: seq<string>, flow: seq<Msg>)
    requires WalletInv(t, w, h, flow)
    ensures RowOk(t, w, h)
  {
  }

  lemma SaveSame(s: State, s': State, ids: seq<int>, w: nat)
    requires w in s.chain
    requires Inv(s) && s.consumer.Saving?
    requires var txs := Transactions(s.consumer.taken);
             CanSave(s.t, txs) && FreshIds(s.t, ids) && |ids| == |txs|
    requires s' == s.(consumer := Linking(s.consumer.taken, SignaturesIds(s.consumer.taken) + ids),
                      t := SaveTables(s.t, Signatures(Transactions(s.consumer.taken)), ids))
    ensures w in s.t.wallet && w in s'.t.wallet && SameFlow(s, s', w)
  {
    hide Inv, WalletsInv, SyncInv, ConsumerInv, WalletInv, RowOk, Watermark, Of, CanSave, FreshIds, Transactions, SignaturesIds, Handled, Zip;
    SaveInv(s, s', ids);
    InvParts(s);
    WalletAt(s, w);
    SaveWallet(s.t, w, s.chain[w], Flow(s, w), Transactions(s.consumer.taken), ids);
  }

  lemma SaveConv(s: State, s': State, ids: seq<int>)
    requires Conv(s)
    requires Inv(s) && s.consumer.Saving?
    requires var txs := Transactions(s.consumer.taken);
             CanSave(s.t, txs) && FreshIds(s.t, ids) && |ids| == |txs|
    requires s' == s.(consumer := Linking(s.consumer.taken, SignaturesIds(s.consumer.taken) + ids),
                      t := SaveTables(s.t, Signatures(Transactions(s.consumer.taken)), ids))
    ensures Conv(s')
  {
    hide Inv, CanSave, FreshIds, Transactions, SignaturesIds, SameFlow, WalletConv;
    forall w | w in s.chain
      ensures SameFlow(s, s', w)
    {
      SaveSame(s, s', ids, w);
    }
    CommitConv(s, s');
  }

  lemma LinkWallet(t: Tables, v: nat, hv: seq<string>, taken: seq<Msg>, rest: seq<Msg>, ids: seq<int>,
                   w: nat, h: seq<string>, flow: seq<Msg>)
    requires WalletInv(t, w, h, flow) && Injective(t.signature)
    requires IdsReady(t, hv, taken, ids) && v in t.wallet && v in t.links
    requires v == w ==> hv == h && flow == taken + rest
    ensures var t' := LinkTables(t, v, ids);
            forall x :: Handled(t, w, flow, |flow|, x) <==> Handled(t', w, flow, |flow|, x)
  {
    hide WalletInv, IdsReady, Handled, Injective, Extends, KnownId;
    var t' := LinkTables(t, v, ids);
    WalletInvRow(t, w, h, flow);
    LinkExtends(t, v, hv, taken, ids, w, h);
    forall x
      ensures Handled(t, w, flow, |flow|, x) <==> Handled(t', w, flow, |flow|, x)
    {
      if Handled(t, w, flow, |flow|, x) {
        HandledExtends(t, t', w, flow, |flow|, x);
      }
      if Handled(t', w, flow, |flow|, x) {
        if w == v {
          LinkHandled(t, t', v, h, taken, rest, ids, x);
        } else {
          SaveHandled(t, t', w, h, flow, x);
        }
      }
    }
  }

  lemma LinkConv(s: State, s': State)
    requires Inv(s) && Conv(s) && s.consumer.Linking? && HasWallet(s, s.consumer.taken)
    requires s' == s.(consumer := Marking(s.consumer.taken),
                      t := LinkTables(s.t, s.consumer.taken[0].wallet, s.consumer.ids))
    ensures Conv(s')
  {
    hide WalletInv, ProducerInv, Of, IdsReady, Handled, RowOk, Conv, Watermark, AllLinked;
    var taken, ids := s.consumer.taken, s.consumer.ids;
    var v := taken[0].wallet;
    LinkInv(s, s');
    forall w | w in s.chain
      ensures SameFlow(s, s', w)
    {
      LinkWallet(s.t, v, s.chain[v], taken, Of(s.queue, v), ids, w, s.chain[w], Flow(s, w));
    }
    CommitConv(s, s');
  }

  lemma MarkStepConv(s: State, s': State)
    requires Inv(s) && Conv(s) && s.consumer.Marking? && HasWallet(s, s.consumer.taken)
    requires s' == s.(consumer := Free,
                      t := MarkTables(s.t, s.consumer.taken[0].wallet, LastSignature(s.consumer.taken)))
    ensures Conv(s')
  {
    hide WalletInv, ProducerInv, Of, Flow, AllLinked, Extends, Handled, RowOk, Synced, Within, LastSignature, Watermark, Rank;
    var taken := s.consumer.taken;
    var v := taken[0].wallet;
    forall w | w in s'.chain
      ensures WalletConv(s', w)
    {
      assert WalletConv(s, w);
      WalletAt(s, w);
      FlowDone(s, s', w);
      if w == v {
        forall n
          ensures Within(s.t, w, s.chain[w], Flow(s, w), n) ==> Within(s'.t, w, s.chain[w], Flow(s', w), n)
          ensures Synced(s.t, w, s.chain[w], Flow(s, w), n) ==> Synced(s'.t, w, s.chain[w], Flow(s', w), n)
        {
          MarkConv(s.t, w, s.chain[w], taken, Flow(s', w), n);
        }
      } else {
        MarkOther(s.t, s'.t, v, LastSignature(taken), w, s.chain[w], Flow(s, w));
      }
    }
  }

  lemma MarkOther(t: Tables, t': Tables, v: nat, sig: string, w: nat, h: seq<string>, flow: seq<Msg>)
    requires WalletInv(t, w, h, flow) && Injective(t.signature) && v in t.wallet && v != w
    requires t' == MarkTables(t, v, sig)
    ensures forall n :: Within(t, w, h, flow, n) ==> Within(t', w, h, flow, n)
    ensures forall n :: Synced(t, w, h, flow, n) ==> Synced(t', w, h, flow, n)
  {
    hide WalletInv, Extends, Watermark, Within, Synced, Injective, KnownId;
    WalletInvRow(t, w, h, flow);
    MarkExtends(t, v, sig, w, h);
    ExtendsKeeps(t, t', w, h, flow);
    forall n
      ensures Within(t, w, h, flow, n) ==> Within(t', w, h, flow, n)
      ensures Synced(t, w, h, flow, n) ==> Synced(t', w, h, flow, n)
    {
      forall x
        ensures Handled(t, w, flow, |flow|, x) <==> Handled(t', w, flow, |flow|, x)
      {
        assert forall m :: Covers(t, m, x) <==> Covers(t', m, x);
      }
      SameHandled(t, t', w, h, flow, n);
    }
  }

  lemma FetchConv(s: State, s': State)
    requires Inv(s) && Conv(s) && Enabled(s, Fetch) && s' == Apply(s, Fetch)
    ensures Conv(s')
  {
    hide WalletInv, ProducerInv, Of, Bounded, IdsReady, AllLinked, Conv;
    var w := s.producer.wallet;
    FetchBounded(s.t, s.chain[w], Flow(s, w), s.producer);
    PcConv(s, s');
  }

  lemma PcOnlyConv(s: State, s': State, e: Event)
    requires Inv(s) && Conv(s) && Enabled(s, e) && s' == Apply(s, e)
    requires e.Start? || e.ReadSaved? || e.EndPage?
    ensures Conv(s')
  {
    hide WalletInv, Of, IdsReady, AllLinked, Within, Synced;
    if !s.producer.Idle? {
      assert WalletConv(s, s.producer.wallet);
    }
    PcConv(s, s');
  }

  lemma PublishCovers(t: Tables, p: Producer, accs: seq<seq<AssociatedAccount>>)
    requires p.Publishing? && SavedOk(t, p) && Injective(t.signature) && |accs| == |p.saved|
    ensures var msgs := SavedMsgs(p.wallet, p.saved, accs);
            forall i, x :: 0 <= i < |msgs| && Covers(t, msgs[i], x) ==> x in p.page
  {
  }

  lemma AppendEventConv(s: State, s': State, e: Event)
    requires Inv(s) && Conv(s) && Enabled(s, e) && s' == Apply(s, e)
    requires e.PublishSaved? || e.ScanNext?
    ensures Conv(s')
  {
    hide WalletInv, Of, IdsReady, AllLinked, Conv, SavedOk, Flow;
    var p := s.producer;
    match e {
      case PublishSaved(accs) =>
        PublishCovers(s.t, p, accs);
        AppendStepConv(s, s', SavedMsgs(p.wallet, p.saved, accs));
      case ScanNext(acc) =>
        var x := p.page[p.next];
        var msgs := if RowFor(p.saved, x) then [] else [Onchain(p.wallet, s.ledger[x], acc)];
        assert s.queue + [] == s.queue;
        assert x in p.page;
        AppendStepConv(s, s', msgs);
    }
  }

  lemma TakeConv(s: State, s': State)
    requires Conv(s) && s.consumer.Free? && s.queue != []
    requires s' == s.(consumer := Saving(Taken(s.queue)), queue := Rest(s.queue))
    ensures Conv(s')
  {
    hide Flow, Taken, Rest, Synced, Within, Bounded;
    forall w | w in s'.chain
      ensures WalletConv(s', w)
    {
      assert WalletConv(s, w);
      FlowTake(s, s', w);
    }
  }

  lemma RestartConv(s: State, s': State)
    requires Conv(s) && s' == s.(queue := [], producer := Idle, consumer := Free, synced := map[])
    ensures Conv(s')
  {
  }

  lemma StepConv(s: State, e: Event)
    requires Inv(s) && Conv(s) && Enabled(s, e)
    ensures Conv(Apply(s, e))
  {
    hide Inv, Conv, ConsumerInv, WalletsInv, SyncInv;
    InvParts(s);
    var s' := Apply(s, e);
    match e
    case Grow(w, x) => GrowConv(s, s', w, x);
    case Start(_) => PcOnlyConv(s, s', e);
    case Fetch => FetchConv(s, s');
    case ReadSaved(_) => PcOnlyConv(s, s', e);
    case PublishSaved(_) => AppendEventConv(s, s', e);
    case ScanNext(_) => AppendEventConv(s, s', e);
    case EndPage => PcOnlyConv(s, s', e);
    case SendMarker => SendConv(s, s');
    case Take => TakeConv(s, s');
    case Save(ids) => SaveConv(s, s', ids);
    case Link => LinkConv(s, s');
    case Mark => MarkStepConv(s, s');
    case Restart => RestartConv(s, s');
  }

  lemma {:induction false} RunConv(s: State, es: seq<Event>)
    requires Inv(s) && Conv(s) && Legal(s, es)
    ensures Conv(Run(s, es))
    decreases |es|
  {
    hide Inv, Conv, Apply, Enabled;
    if es != [] {
      StepInv(s, es[0]);
      StepConv(s, es[0]);
      RunConv(Apply(s, es[0]), es[1..]);
    }
  }

  lemma ReachableConv(s: State)
    requires Reachable(s)
    ensures Inv(s) && Conv(s)
  {
    hide Inv, Legal, Run;
    ReachableInv(s);
    var init, es :| Init(init) && Legal(init, es) && Run(init, es) == s;
    InitInv(init);
    RunConv(init, es);
  }

  // ---- convergence ----

  /** Nothing of wallet `w` is on its way: no message queued or being committed, no sync reading it. */
  ghost predicate Settled(s: State, w: nat) {
    && (forall m :: m in s.queue ==> m.wallet != w)
    && (s.consumer.Free? || s.consumer.taken == [] || s.consumer.taken[0].wallet != w)
    && (s.producer.Idle? || s.producer.wallet != w)
  }

  lemma SettledFlow(s: State, w: nat)
    requires Settled(s, w)
    ensures Flow(s, w) == []
  {
    OfNone(s.queue, w);
  }

  /**
   * Crash recovery converges: in every reachable state, after any stops at any commit point, a settled
   * wallet with a finished sync has exactly the history seen by that sync linked, in number its counter,
   * and the newest of it as its watermark.
   */
  lemma SettledWalletConverged(s: State, w: nat)
    requires Reachable(s) && w in s.chain && w in s.synced && Settled(s, w)
    ensures w in s.t.wallet && w in s.t.links && s.synced[w] <= |s.chain[w]|
    ensures forall x :: Linked(s.t, w, x) <==> x in s.chain[w][..s.synced[w]]
    ensures s.t.wallet[w].signatures == s.synced[w]
    ensures Watermark(s.t, w) == if s.synced[w] == 0 then "" else s.chain[w][s.synced[w] - 1]
  {
    hide Reachable, Watermark, MarkersBacked, MarkersOrdered, BlanksHarmless, SyncInv, ConsumerInv;
    ReachableConv(s);
    WalletAt(s, w);
    SettledFlow(s, w);
    assert WalletConv(s, w);
    var h, n, t := s.chain[w], s.synced[w], s.t;
    forall x
      ensures Linked(t, w, x) <==> x in h[..n]
    {
      if Linked(t, w, x) {
        assert Handled(t, w, [], 0, x);
        assert h[Rank(h, x) - 1] == x;
      }
      if x in h[..n] {
        var j :| 0 <= j < n && h[j] == x;
        assert Handled(t, w, [], 0, h[j]);
      }
    }
    LinkedCount(t, w, h, n);
    assert Reached(t, w, h) == n;
  }

  /** The ids of the linked signatures are as many as the signatures. */
  lemma LinkedCount(t: Tables, w: nat, h: seq<string>, n: nat)
    requires n <= |h| && Distinct(h) && Injective(t.signature) && w in t.links
    requires forall x :: Linked(t, w, x) <==> x in h[..n]
    requires forall id :: id in t.links[w] ==> KnownId(t, h, id)
    ensures |t.links[w]| == n
  {
    var p := h[..n];
    assert forall j :: 0 <= j < n ==> p[j] in p && Linked(t, w, p[j]);
    var ids := seq(n, j requires 0 <= j < n => t.signature[p[j]]);
    forall i, j | 0 <= i < j < n
      ensures ids[i] != ids[j]
    {
      assert p[i] != p[j];
    }
    DistinctSize(ids);
    forall id | id in t.links[w]
      ensures id in ids
    {
      var x :| x in h && HasId(t, x, id);
      assert Linked(t, w, x);
      var j :| 0 <= j < n && p[j] == x;
      assert ids[j] == id;
    }
    assert t.links[w] == Elements(ids);
  }

  // ---- what a sync sees ----

  /** The sync in progress of `w` will have seen at least the first `n` signatures when it ends. */
  ghost predicate Sees(s: State, w: nat, n: nat) {
    var p := s.producer;
    && !p.Idle? && p.wallet == w && w in s.chain && n <= |s.chain[w]|
    && ((p.Fetching? && p.newLast == "") || n <= Reach(s.chain[w], p))
  }

  lemma SeesStep(s: State, e: Event, w: nat, n: nat)
    requires Inv(s) && Sees(s, w, n) && Enabled(s, e) && !e.Restart? && !e.SendMarker?
    ensures Sees(Apply(s, e), w, n)
  {
    hide ProducerInv, WalletsInv, ConsumerInv, Of, Rank, Taken, Rest, Flow, Watermark;
    var p := s.producer;
    if e.Grow? && e.wallet == w {
      ProducerStrings(s.t, s.chain[w], Flow(s, w), p);
      RankExtend(s.chain[w], e.signature, p.until);
      RankExtend(s.chain[w], e.signature, p.newLast);
    }
    if e.Fetch? && Page(s.chain[w], p.until) != [] {
      PageContents(s.chain[w], p.until);
    }
  }

  lemma {:induction false} SeesRun(s: State, es: seq<Event>, w: nat, n: nat)
    requires Inv(s) && Sees(s, w, n) && Legal(s, es) && es != [] && es[|es| - 1] == SendMarker
    requires Restart !in es && SendMarker !in es[..|es| - 1]
    ensures w in Run(s, es).synced && n <= Run(s, es).synced[w]
    decreases |es|
  {
    hide Inv, Sees, Enabled, Apply;
    var e, tail := es[0], es[1..];
    if tail == [] {
      SeesAll(s, w, n);
    } else {
      assert es[..|es| - 1][0] == e && es[0] in es;
      StepInv(s, e);
      SeesStep(s, e, w, n);
      assert tail[..|tail| - 1] == es[..|es| - 1][1..];
      SeesRun(Apply(s, e), tail, w, n);
    }
  }

  lemma SeesAll(s: State, w: nat, n: nat)
    requires Sees(s, w, n) && Enabled(s, SendMarker)
    ensures var s' := Apply(s, SendMarker); w in s'.synced && n <= s'.synced[w]
  {
  }

  /** A sync that ends has seen the whole history there was when it started, whatever happened meanwhile. */
  lemma SyncSeesHistory(s: State, es: seq<Event>, w: nat)
    requires Reachable(s) && w in s.chain && Legal(s, es)
    requires |es| >= 2 && es[0] == Start(w) && es[|es| - 1] == SendMarker
    requires Restart !in es && SendMarker !in es[..|es| - 1]
    ensures w in Run(s, es).synced && |s.chain[w]| <= Run(s, es).synced[w]
  {
    hide Reachable, Inv, Rank, Watermark;
    ReachableInv(s);
    StepInv(s, es[0]);
    var tail := es[1..];
    assert tail[..|tail| - 1] == es[..|es| - 1][1..];
    SeesRun(Apply(s, es[0]), tail, w, |s.chain[w]|);
  }
}
