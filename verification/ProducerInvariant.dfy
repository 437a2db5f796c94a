/** What holds of a sync in progress, stated over the wallet it is reading. */
module ProducerInvariant {
  import opened Common
  import opened Ledger
  import opened MsgQueue
  import opened Pipeline
  import opened WalletInvariant

  predicate HasPage(p: Producer) {
    p.Reading? || p.Publishing? || p.Scanning?
  }

  /**
   * A full page means there were at least `LIMIT` newer signatures; a short one is the whole stretch of
   * history from `until` up to `newLast`, newest first.
   */
  ghost predicate PageOk(h: seq<string>, p: Producer)
    requires HasPage(p)
  {
    && p.page != [] && p.newLast != "" && p.newLast in h
    && (forall i :: 0 <= i < |p.page| ==> p.page[i] in h)
    && (|p.page| >= LIMIT ==> |h| - Rank(h, p.until) >= LIMIT)
    && (|p.page| < LIMIT ==>
          var n := Rank(h, p.newLast);
          n - Rank(h, p.until) == |p.page| && forall i :: 0 <= i < |p.page| ==> p.page[i] == h[n - 1 - i])
  }

  /** Neither the watermark nor a pending marker is newer than the first `n` signatures. */
  ghost predicate MarkedWithin(t: Tables, w: nat, h: seq<string>, flow: seq<Msg>, n: nat)
    requires w in t.wallet
  {
    Reached(t, w, h) <= n && forall i {:trigger Marks(flow[i])} :: 0 <= i < |flow| && Marks(flow[i]) ==> Rank(h, flow[i].signature) <= n
  }

  ghost predicate SavedOk(t: Tables, p: Producer)
    requires p.Publishing? || p.Scanning?
  {
    forall i :: 0 <= i < |p.saved| ==> p.saved[i].signature in p.page && HasId(t, p.saved[i].signature, p.saved[i].id)
  }

  /** What the loop over the page has queued so far. */
  ghost predicate ScannedOk(t: Tables, w: nat, flow: seq<Msg>, p: Producer)
    requires p.Scanning?
  {
    p.next <= |p.page| &&
    forall i :: 0 <= i < |p.page| && (i < p.next || RowFor(p.saved, p.page[i])) ==>
      Handled(t, w, flow, |flow|, p.page[i])
  }

  ghost predicate ProducerInv(t: Tables, h: seq<string>, flow: seq<Msg>, p: Producer)
    requires !p.Idle? && p.wallet in t.wallet
  {
    var w := p.wallet;
    && (p.until == "" || p.until in h) && (p.newLast == "" || p.newLast in h)
    && Rank(h, p.until) <= Reached(t, w, h)
    && (p.Fetching? && p.newLast != "" ==> |h| - Rank(h, p.until) >= LIMIT)
    && (HasPage(p) ==> PageOk(h, p))
    && (HasPage(p) && |p.page| < LIMIT ==> MarkedWithin(t, w, h, flow, Rank(h, p.newLast)))
    && (p.Publishing? || p.Scanning? ==> SavedOk(t, p))
    && (p.Scanning? ==> ScannedOk(t, w, flow, p))
    && (p.Finishing? ==>
          && MarkedWithin(t, w, h, flow, Reach(h, p))
          && HandledUpTo(t, w, h, flow, |flow|, Reach(h, p)))
  }

  // ---- steps of others ----

  lemma ProducerGrow(t: Tables, h: seq<string>, flow: seq<Msg>, p: Producer, x: string)
    requires !p.Idle? && p.wallet in t.wallet && x != "" && x !in h
    requires WalletInv(t, p.wallet, h, flow) && ProducerInv(t, h, flow, p)
    ensures ProducerInv(t, h + [x], flow, p)
  {
    hide WalletInv, MarkedWithin, PageOk, ScannedOk, SavedOk, Rank, Watermark, Handled;
    var h' := h + [x];
    GrowKeeps(t, p.wallet, h, flow, x);
    MarkedGrow(t, p.wallet, h, flow, x);
    RankExtend(h, x, p.until);
    RankExtend(h, x, p.newLast);
    if HasPage(p) {
      PageGrow(h, p, x);
    }
    assert forall j :: 0 <= j < |h| ==> h'[j] == h[j];
  }

  lemma PageGrow(h: seq<string>, p: Producer, x: string)
    requires HasPage(p) && PageOk(h, p) && x !in h && p.until != x
    ensures PageOk(h + [x], p)
  {
    hide Rank;
    RankExtend(h, x, p.until);
    RankExtend(h, x, p.newLast);
    forall i | 0 <= i < |p.page|
      ensures p.page[i] in h + [x]
    {
      assert p.page[i] in h;
    }
  }

  lemma MarkedGrow(t: Tables, w: nat, h: seq<string>, flow: seq<Msg>, x: string)
    requires WalletInv(t, w, h, flow) && x != "" && x !in h
    ensures forall n :: MarkedWithin(t, w, h, flow, n) ==> MarkedWithin(t, w, h + [x], flow, n)
  {
    GrowKeeps(t, w, h, flow, x);
    forall i | 0 <= i < |flow| && flow[i].Last?
      ensures Rank(h + [x], flow[i].signature) == Rank(h, flow[i].signature)
    {
      assert MsgOk(t, w, h, flow[i]);
      RankExtend(h, x, flow[i].signature);
    }
  }

  lemma ProducerExtends(t: Tables, t': Tables, h: seq<string>, flow: seq<Msg>, p: Producer)
    requires !p.Idle? && p.wallet in t.wallet && Extends(t, t', p.wallet) && WalletInv(t, p.wallet, h, flow)
    requires ProducerInv(t, h, flow, p)
    ensures ProducerInv(t', h, flow, p)
  {
    ExtendsWatermark(t, t', p.wallet);
    forall x | Handled(t, p.wallet, flow, |flow|, x)
      ensures Handled(t', p.wallet, flow, |flow|, x)
    {
      HandledExtends(t, t', p.wallet, flow, |flow|, x);
    }
  }

  lemma ProducerMark(t: Tables, h: seq<string>, taken: seq<Msg>, rest: seq<Msg>, p: Producer)
    requires !p.Idle? && p.wallet in t.wallet && Injective(t.signature)
    requires WalletInv(t, p.wallet, h, taken + rest) && AllLinked(t, p.wallet, taken)
    requires ProducerInv(t, h, taken + rest, p)
    ensures ProducerInv(MarkTables(t, p.wallet, LastSignature(taken)), h, rest, p)
  {
    var w, flow, t' := p.wallet, taken + rest, MarkTables(t, p.wallet, LastSignature(taken));
    MarkKeeps(t, w, h, taken, rest);
    LastMarkAt(taken);
    assert forall i :: 0 <= i < |taken| ==> taken[i] == flow[i];
    assert forall i :: 0 <= i < |rest| ==> rest[i] == flow[|taken| + i];
    forall n | MarkedWithin(t, w, h, flow, n)
      ensures MarkedWithin(t', w, h, rest, n)
    {
      if LastMark(taken) != "" {
        var q :| 0 <= q < |taken| && Marks(taken[q]) && taken[q].signature == LastMark(taken);
        assert Marks(flow[q]);
      }
    }
    forall x | Handled(t, w, flow, |flow|, x)
      ensures Handled(t', w, rest, |rest|, x)
    {
      HandledSuffix(t, t', w, taken, rest, |rest|, x);
    }
  }

  // ---- the producer's own steps ----

  lemma PageContents(h: seq<string>, until: string)
    requires Distinct(h) && Page(h, until) != []
    ensures var page := Page(h, until);
            && page[0] in h && Rank(h, page[0]) == |h|
            && (forall i :: 0 <= i < |page| ==> page[i] in h && page[i] == h[|h| - 1 - i])
            && (|page| < LIMIT ==> |page| == |h| - Rank(h, until))
            && (|page| >= LIMIT ==> |h| - Rank(h, until) >= LIMIT)
  {
    RankAt(h, |h| - 1);
  }

  lemma StartStep(t: Tables, h: seq<string>, flow: seq<Msg>, w: nat)
    requires WalletInv(t, w, h, flow)
    ensures ProducerInv(t, h, flow, Fetching(w, Watermark(t, w), ""))
  {
  }

  lemma FetchStep(t: Tables, h: seq<string>, flow: seq<Msg>, p: Producer)
    requires p.Fetching? && p.wallet in t.wallet && Distinct(h) && "" !in h
    requires WalletInv(t, p.wallet, h, flow) && ProducerInv(t, h, flow, p)
    ensures var page := Page(h, p.until);
            ProducerInv(t, h, flow,
              if page == [] then Finishing(p.wallet, p.until, p.newLast)
              else Reading(p.wallet, p.until, if p.newLast == "" then page[0] else p.newLast, page))
  {
    var page := Page(h, p.until);
    if page == [] {
      forall j | 0 <= j < |h|
        ensures Handled(t, p.wallet, flow, |flow|, h[j])
      {
        assert Linked(t, p.wallet, h[j]);
      }
    } else {
      PageContents(h, p.until);
    }
  }

  lemma ReadStep(t: Tables, h: seq<string>, flow: seq<Msg>, p: Producer, order: seq<string>)
    requires p.Reading? && p.wallet in t.wallet && IsSavedQuery(t, p.page, order)
    requires ProducerInv(t, h, flow, p)
    ensures ProducerInv(t, h, flow, Publishing(p.wallet, p.until, p.newLast, p.page, ReadRows(t, order)))
  {
    var saved := ReadRows(t, order);
    forall i | 0 <= i < |saved|
      ensures saved[i].signature in p.page && HasId(t, saved[i].signature, saved[i].id)
    {
      assert order[i] in order;
    }
  }

  lemma PublishStep(t: Tables, h: seq<string>, flow: seq<Msg>, p: Producer, accs: seq<seq<AssociatedAccount>>)
    requires p.Publishing? && p.wallet in t.wallet && |accs| == |p.saved|
    requires WalletInv(t, p.wallet, h, flow) && ProducerInv(t, h, flow, p)
    ensures var flow' := flow + SavedMsgs(p.wallet, p.saved, accs);
            && WalletInv(t, p.wallet, h, flow')
            && ProducerInv(t, h, flow', Scanning(p.wallet, p.until, p.newLast, p.page, p.saved, 0))
  {
    var msgs := SavedMsgs(p.wallet, p.saved, accs);
    forall i | 0 <= i < |msgs|
      ensures msgs[i].Saved? && MsgOk(t, p.wallet, h, msgs[i])
    {
      assert p.saved[i].signature in h && HasId(t, p.saved[i].signature, p.saved[i].id);
    }
    AppendSavedKeeps(t, p.wallet, h, flow, msgs);
    var flow' := flow + msgs;
    forall i | 0 <= i < |p.page| && RowFor(p.saved, p.page[i])
      ensures Handled(t, p.wallet, flow', |flow'|, p.page[i])
    {
      var k :| 0 <= k < |p.saved| && p.saved[k].signature == p.page[i];
      assert flow'[|flow| + k] == msgs[k];
      assert Covers(t, flow'[|flow| + k], p.page[i]);
    }
  }

  lemma {:induction false} AppendSavedKeeps(t: Tables, w: nat, h: seq<string>, flow: seq<Msg>, msgs: seq<Msg>)
    requires WalletInv(t, w, h, flow)
    requires forall i :: 0 <= i < |msgs| ==> msgs[i].Saved? && MsgOk(t, w, h, msgs[i])
    ensures WalletInv(t, w, h, flow + msgs)
    ensures forall i :: 0 <= i < |flow + msgs| && Marks((flow + msgs)[i]) ==> i < |flow| && (flow + msgs)[i] == flow[i]
    ensures forall x :: Handled(t, w, flow, |flow|, x) ==> Handled(t, w, flow + msgs, |flow + msgs|, x)
    decreases |msgs|
  {
    if msgs == [] {
      assert flow + msgs == flow;
    } else {
      var front, m := msgs[..|msgs| - 1], msgs[|msgs| - 1];
      AppendSavedKeeps(t, w, h, flow, front);
      AppendKeeps(t, w, h, flow + front, m);
      assert flow + msgs == (flow + front) + [m];
      forall x | Handled(t, w, flow, |flow|, x)
        ensures Handled(t, w, flow + msgs, |flow + msgs|, x)
      {
        HandledAppend(t, w, flow + front, m, |flow + front|, x);
      }
    }
  }

  lemma ScanStep(t: Tables, h: seq<string>, flow: seq<Msg>, p: Producer, tx: OnchainTx, acc: seq<AssociatedAccount>)
    requires p.Scanning? && p.wallet in t.wallet && p.next < |p.page| && tx.signature == p.page[p.next]
    requires WalletInv(t, p.wallet, h, flow) && ProducerInv(t, h, flow, p)
    ensures var flow' := if RowFor(p.saved, p.page[p.next]) then flow else flow + [Onchain(p.wallet, tx, acc)];
            && WalletInv(t, p.wallet, h, flow')
            && ProducerInv(t, h, flow', p.(next := p.next + 1))
  {
    hide WalletInv, MarkedWithin, Watermark, Rank, Handled;
    if !RowFor(p.saved, p.page[p.next]) {
      var m := Onchain(p.wallet, tx, acc);
      assert p.page[p.next] in h;
      OnchainAppendable(t, p.wallet, h, flow, tx, acc);
      AppendKeeps(t, p.wallet, h, flow, m);
      MarkedAppend(t, p.wallet, h, flow, m);
      ScannedNext(t, p.wallet, flow, p, m);
    }
  }

  lemma OnchainAppendable(t: Tables, w: nat, h: seq<string>, flow: seq<Msg>, tx: OnchainTx, acc: seq<AssociatedAccount>)
    requires w in t.wallet && tx.signature in h
    ensures Appendable(t, w, h, flow, Onchain(w, tx, acc))
  {
  }

  lemma ScannedNext(t: Tables, w: nat, flow: seq<Msg>, p: Producer, m: Msg)
    requires p.Scanning? && p.next < |p.page| && ScannedOk(t, w, flow, p)
    requires m.Onchain? && m.tx.signature == p.page[p.next]
    ensures ScannedOk(t, w, flow + [m], p.(next := p.next + 1))
  {
    hide Handled;
    var f := flow + [m];
    assert Covers(t, m, p.page[p.next]);
    forall i | 0 <= i < |p.page| && (i < p.next + 1 || RowFor(p.saved, p.page[i]))
      ensures Handled(t, w, f, |f|, p.page[i])
    {
      HandledAppend(t, w, flow, m, |flow|, p.page[i]);
    }
  }

  lemma MarkedAppend(t: Tables, w: nat, h: seq<string>, flow: seq<Msg>, m: Msg)
    requires w in t.wallet && !Marks(m)
    ensures forall n :: MarkedWithin(t, w, h, flow, n) ==> MarkedWithin(t, w, h, flow + [m], n)
  {
    var f := flow + [m];
    assert forall i :: 0 <= i < |flow| ==> f[i] == flow[i];
  }

  lemma EndPageStep(t: Tables, h: seq<string>, flow: seq<Msg>, p: Producer)
    requires p.Scanning? && p.wallet in t.wallet && p.next == |p.page|
    requires WalletInv(t, p.wallet, h, flow) && ProducerInv(t, h, flow, p)
    ensures ProducerInv(t, h, flow,
              if |p.page| < LIMIT then Finishing(p.wallet, p.until, p.newLast)
              else Fetching(p.wallet, p.until, p.newLast))
  {
    if |p.page| < LIMIT {
      var n, r := Rank(h, p.newLast), Rank(h, p.until);
      forall j | 0 <= j < n
        ensures Handled(t, p.wallet, flow, |flow|, h[j])
      {
        if j < r {
          assert Linked(t, p.wallet, h[j]);
        } else {
          assert p.page[n - 1 - j] == h[j];
        }
      }
    }
  }

  lemma SendStep(t: Tables, h: seq<string>, flow: seq<Msg>, p: Producer)
    requires p.Finishing? && p.wallet in t.wallet
    requires WalletInv(t, p.wallet, h, flow) && ProducerInv(t, h, flow, p)
    ensures WalletInv(t, p.wallet, h, flow + [Last(p.wallet, p.newLast)])
  {
    AppendKeeps(t, p.wallet, h, flow, Last(p.wallet, p.newLast));
  }
}
