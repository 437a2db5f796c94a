/**
 * The program as it stands stops after every committed round: `deduplicateTimestamps` names a column the
 * table does not have. So each life of the process commits one batch, and a watermark moves only if one
 * batch holds everything new together with the marker.
 */
module Lives {
  import opened Common
  import opened Ledger
  import opened MsgQueue
  import opened Pipeline
  import opened WalletInvariant
  import opened ProducerInvariant
  import opened Safety
  import opened Theorems
  import opened Convergence
  import opened Recovery
  import opened Limits

  /** After a `Mark` the consumer takes no batch until the process has been started again. */
  predicate OneBatch(es: seq<Event>, spent: bool)
    decreases |es|
  {
    es == [] ||
    (!(spent && es[0].Take?) && OneBatch(es[1..], !es[0].Restart? && (spent || es[0].Mark?)))
  }

  /** The signatures newer than the watermark. */
  ghost function News(s: State, w: nat): set<string>
    requires w in s.chain && w in s.t.wallet
  {
    set x | x in s.chain[w] && Rank(s.chain[w], x) > Reached(s.t, w, s.chain[w])
  }

  ghost function Kept(s: State, w: nat): set<string>
    requires w in s.chain && w in s.t.wallet
  {
    set x | x in News(s, w) && x in s.t.signature
  }

  // ---- what one batch can hold ----

  /** No marker was taken once the batch was full. */
  predicate Open(taken: seq<Msg>) {
    forall p :: 0 <= p < |taken| ==> !Full(BatchOf(taken[..p]))
  }

  lemma {:induction false} CollectedOpen(items: seq<Msg>, n: nat)
    requires n <= |items| && forall k :: 0 <= k < n ==> !Full(BatchOf(Collected(items, k)))
    ensures Open(Collected(items, n))
  {
    hide BatchOf, Full, Collected;
    if n == 0 {
      CollectedNone(items);
    } else {
      CollectedOpen(items, n - 1);
      CollectedStep(items, n - 1);
      var c, d := Collected(items, n - 1), Collected(items, n);
      forall p | 0 <= p < |d|
        ensures !Full(BatchOf(d[..p]))
      {
        if p < |c| {
          assert d[..p] == c[..p];
        } else {
          assert d[..p] == c;
        }
      }
    }
  }

  lemma CollectedNone(items: seq<Msg>)
    ensures Collected(items, 0) == []
  {
  }

  lemma TakenOpen(items: seq<Msg>)
    ensures Open(Taken(items))
  {
    hide BatchOf, Full, Open;
    CollectedOpen(items, Scanned(items));
  }

  /** `x` is brought by one of the messages, or brought as a saved one. */
  ghost predicate Carried(t: Tables, ms: seq<Msg>, x: string) {
    exists i :: 0 <= i < |ms| && Covers(t, ms[i], x)
  }

  ghost predicate CarriedSaved(t: Tables, ms: seq<Msg>, x: string) {
    exists i :: 0 <= i < |ms| && ms[i].Saved? && Covers(t, ms[i], x)
  }

  ghost predicate Carries(t: Tables, ms: seq<Msg>, news: set<string>, kept: set<string>) {
    (forall x :: x in news ==> Carried(t, ms, x)) && forall x :: x in kept ==> CarriedSaved(t, ms, x)
  }

  lemma SetSize<T>(a: set<T>, s: seq<T>)
    requires forall x :: x in a ==> x in s
    ensures |a| <= |s|
    decreases |s|
  {
    if s != [] {
      var x, front := s[|s| - 1], s[..|s| - 1];
      forall y | y in a - {x}
        ensures y in front
      {
        assert y in s;
      }
      SetSize(a - {x}, front);
      assert |a| <= |a - {x}| + 1;
    }
  }

  /** Signatures brought as saved ones are no more than the saved messages. */
  lemma SavedSize(t: Tables, ms: seq<Msg>, xs: set<string>)
    requires Injective(t.signature) && forall x :: x in xs ==> CarriedSaved(t, ms, x)
    ensures |xs| <= |SignaturesIds(ms)|
  {
    var ids := set x | x in xs && x in t.signature :: t.signature[x];
    forall x | x in xs
      ensures x in t.signature && t.signature[x] in SignaturesIds(ms)
    {
      var i :| 0 <= i < |ms| && ms[i].Saved? && Covers(t, ms[i], x);
      SignaturesIdsAt(ms, ms[i].signatureId);
    }
    ImageSize(t.signature, xs, ids);
    SetSize(ids, SignaturesIds(ms));
  }

  lemma ImageSize(m: map<string, int>, xs: set<string>, ids: set<int>)
    requires Injective(m) && xs <= m.Keys && ids == set x | x in xs && x in m :: m[x]
    ensures |xs| == |ids|
    decreases |xs|
  {
    if x :| x in xs {
      var less := ids - {m[x]};
      forall id | id in less
        ensures exists y :: y in xs - {x} && y in m && m[y] == id
      {
        var y :| y in xs && y in m && m[y] == id;
        assert y in xs - {x};
      }
      assert less == set y | y in xs - {x} && y in m :: m[y];
      ImageSize(m, xs - {x}, less);
      assert m[x] in ids;
    } else {
      assert ids == {};
    }
  }

  lemma OnchainSize(t: Tables, ms: seq<Msg>, xs: set<string>)
    requires forall x :: x in xs ==> Carried(t, ms, x) && !CarriedSaved(t, ms, x)
    ensures |xs| <= |Transactions(ms)|
  {
    var sigs := Signatures(Transactions(ms));
    forall x | x in xs
      ensures x in sigs
    {
      var i :| 0 <= i < |ms| && Covers(t, ms[i], x);
      TransactionsAt(ms, ms[i].tx);
      var k :| 0 <= k < |Transactions(ms)| && Transactions(ms)[k] == ms[i].tx;
      assert sigs[k] == x;
    }
    SetSize(xs, sigs);
  }

  /** A batch that is not full brings at most 40 signatures, 20 of them saved. */
  lemma OpenCarries(t: Tables, ms: seq<Msg>, news: set<string>, kept: set<string>)
    requires Injective(t.signature) && Carries(t, ms, news, kept) && !Full(BatchOf(ms))
    ensures |news| <= 40 && |kept| <= 20
  {
    hide Carried, CarriedSaved, SignaturesIds, Transactions;
    SavedSize(t, ms, kept);
    var saved := set x | x in news && CarriedSaved(t, ms, x);
    SavedSize(t, ms, saved);
    OnchainSize(t, ms, news - saved);
    assert news == saved + (news - saved);
  }

  // ---- monotonicity ----

  ghost predicate Keeps(t: Tables, t': Tables) {
    forall x :: x in t.signature ==> HasId(t', x, t.signature[x])
  }

  lemma CarriesMore(t: Tables, t': Tables, ms: seq<Msg>, more: seq<Msg>, news: set<string>, kept: set<string>)
    requires Keeps(t, t')
    ensures forall x :: Carried(t, ms, x) ==> Carried(t', ms + more, x)
    ensures forall x :: CarriedSaved(t, ms, x) ==> CarriedSaved(t', ms + more, x)
    ensures Carries(t, ms, news, kept) ==> Carries(t', ms + more, news, kept)
  {
    var all := ms + more;
    forall x | Carried(t, ms, x)
      ensures Carried(t', all, x)
    {
      var i :| 0 <= i < |ms| && Covers(t, ms[i], x);
      assert Covers(t', all[i], x);
    }
    forall x | CarriedSaved(t, ms, x)
      ensures CarriedSaved(t', all, x)
    {
      var i :| 0 <= i < |ms| && ms[i].Saved? && Covers(t, ms[i], x);
      assert all[i].Saved? && Covers(t', all[i], x);
    }
  }

  /** Before every non-empty marker of the flow comes everything the marker stands for. */
  ghost predicate FlowCarries(t: Tables, flow: seq<Msg>, news: set<string>, kept: set<string>) {
    forall p {:trigger Marks(flow[p])} :: 0 <= p < |flow| && Marks(flow[p]) ==> Carries(t, flow[..p], news, kept)
  }

  lemma FlowKeeps(t: Tables, t': Tables, flow: seq<Msg>, news: set<string>, kept: set<string>)
    requires FlowCarries(t, flow, news, kept) && Keeps(t, t')
    ensures FlowCarries(t', flow, news, kept)
  {
    hide Carries;
    forall p | 0 <= p < |flow| && Marks(flow[p])
      ensures Carries(t', flow[..p], news, kept)
    {
      CarriesMore(t, t', flow[..p], [], news, kept);
      assert flow[..p] + [] == flow[..p];
    }
  }

  lemma FlowAppends(t: Tables, flow: seq<Msg>, more: seq<Msg>, news: set<string>, kept: set<string>)
    requires FlowCarries(t, flow, news, kept)
    requires forall i :: 0 <= i < |more| && Marks(more[i]) ==> i == 0 && Carries(t, flow, news, kept)
    ensures FlowCarries(t, flow + more, news, kept)
  {
    hide Carries;
    var all := flow + more;
    forall p | 0 <= p < |all| && Marks(all[p])
      ensures Carries(t, all[..p], news, kept)
    {
      if p < |flow| {
        assert Marks(flow[p]) && all[..p] == flow[..p];
      } else {
        assert Marks(more[p - |flow|]);
        assert all[..p] == flow;
      }
    }
  }

  // ---- a life of the process ----

  ghost predicate PageCarries(t: Tables, flow: seq<Msg>, p: Producer, news: set<string>, kept: set<string>)
    requires HasPage(p)
  {
    && (forall x :: x in news ==> x in p.page)
    && (!p.Reading? ==> forall x :: x in kept ==> RowFor(p.saved, x))
    && (p.Scanning? ==>
          forall i :: 0 <= i < |p.page| ==>
            && (RowFor(p.saved, p.page[i]) ==> CarriedSaved(t, flow, p.page[i]))
            && (i < p.next && !RowFor(p.saved, p.page[i]) ==> Carried(t, flow, p.page[i])))
  }

  ghost predicate SyncCarries(t: Tables, h: seq<string>, flow: seq<Msg>, p: Producer, r: nat, news: set<string>, kept: set<string>)
    requires !p.Idle?
  {
    && Rank(h, p.until) == r
    && (HasPage(p) && |p.page| < LIMIT ==> PageCarries(t, flow, p, news, kept))
    && (p.Finishing? ==> Carries(t, flow, news, kept))
  }

  /** The watermark of `w` is where it was, behind all of `news`, of which `kept` are saved. */
  ghost predicate Behind(s: State, w: nat, r: nat, news: set<string>, kept: set<string>) {
    && w in s.chain && w in s.t.wallet && Reached(s.t, w, s.chain[w]) == r
    && (forall x :: x in news ==> x in s.chain[w] && Rank(s.chain[w], x) > r)
    && kept <= news && forall x :: x in kept ==> x in s.t.signature
  }

  /** No batch has been committed in this life. */
  ghost predicate Unspent(s: State, w: nat, r: nat, news: set<string>, kept: set<string>) {
    && FlowCarries(s.t, Flow(s, w), news, kept)
    && (!s.producer.Idle? && s.producer.wallet == w && w in s.chain ==>
          SyncCarries(s.t, s.chain[w], Flow(s, w), s.producer, r, news, kept))
    && (!s.consumer.Free? ==> Open(s.consumer.taken))
  }

  /** A batch of `w` that would move the watermark cannot be committed. */
  lemma NoMarkCommitted(s: State, w: nat, r: nat, news: set<string>, kept: set<string>)
    requires Inv(s) && Enabled(s, Mark) && Unspent(s, w, r, news, kept) && (|news| > 40 || |kept| > 20)
    requires s.consumer.taken[0].wallet == w
    ensures LastMark(s.consumer.taken) == ""
  {
    hide WalletsInv, SyncInv, ConsumerInv, Carries, Full, BatchOf, Of;
    var taken := s.consumer.taken;
    LastMarkAt(taken);
    if LastMark(taken) != "" {
      var p :| 0 <= p < |taken| && Marks(taken[p]);
      var flow := Flow(s, w);
      assert flow[p] == taken[p] && flow[..p] == taken[..p];
      OpenCarries(s.t, taken[..p], news, kept);
    }
  }

  lemma TablesKept(s: State, e: Event)
    requires Inv(s) && Enabled(s, e)
    ensures Keeps(s.t, Apply(s, e).t)
  {
    hide Inv, CanSave, FreshIds, Watermark, Rank, Taken, Rest, Of, Transactions, Zip;
    if e.Save? {
      SaveRows(s.t, Transactions(s.consumer.taken), e.newIds);
    }
  }

  lemma BehindStep(s: State, e: Event, w: nat, r: nat, news: set<string>, kept: set<string>)
    requires Inv(s) && Enabled(s, e) && Behind(s, w, r, news, kept)
    requires e.Mark? && s.consumer.taken[0].wallet == w ==> LastMark(s.consumer.taken) == ""
    ensures Behind(Apply(s, e), w, r, news, kept)
  {
    hide WalletInv, Of, Rank, Watermark, Enabled, Apply;
    WatermarkStep(s, e, w);
    TablesKept(s, e);
    InvParts(s);
    WalletAt(s, w);
    if e.Grow? && e.wallet == w {
      GrowFresh(s, e.wallet, e.signature);
      GrowKeeps(s.t, w, s.chain[w], Flow(s, w), e.signature);
      forall x | x in news
        ensures Rank(s.chain[w] + [e.signature], x) == Rank(s.chain[w], x)
      {
        RankExtend(s.chain[w], e.signature, x);
      }
    }
  }

  lemma SyncKeeps(t: Tables, t': Tables, h: seq<string>, flow: seq<Msg>, p: Producer, r: nat, news: set<string>, kept: set<string>)
    requires !p.Idle? && SyncCarries(t, h, flow, p, r, news, kept) && Keeps(t, t')
    ensures SyncCarries(t', h, flow, p, r, news, kept)
  {
    hide Carries, Carried, CarriedSaved;
    CarriesMore(t, t', flow, [], news, kept);
    assert flow + [] == flow;
  }

  lemma SyncGrow(t: Tables, h: seq<string>, flow: seq<Msg>, p: Producer, r: nat, news: set<string>, kept: set<string>, x: string)
    requires !p.Idle? && p.wallet in t.wallet && ProducerInv(t, h, flow, p) && x != "" && x !in h
    requires SyncCarries(t, h, flow, p, r, news, kept)
    ensures SyncCarries(t, h + [x], flow, p, r, news, kept)
  {
    hide Carries, PageCarries;
    ProducerStrings(t, h, flow, p);
    RankExtend(h, x, p.until);
  }

  /** A short page holds everything newer than `until`. */
  lemma ShortPage(h: seq<string>, until: string, news: set<string>)
    requires Distinct(h) && news != {} && forall x :: x in news ==> x in h && Rank(h, x) > Rank(h, until)
    ensures Page(h, until) != []
    ensures |Page(h, until)| < LIMIT ==> forall x :: x in news ==> x in Page(h, until)
  {
    hide Page, Rank, Distinct;
    var page := Page(h, until);
    var y :| y in news;
    assert Rank(h, y) <= |h|;
    PageContents(h, until);
    if |page| < LIMIT {
      forall x | x in news
        ensures x in page
      {
        var k := Rank(h, x);
        assert page[|h| - k] == h[k - 1] == x;
      }
    }
  }

  lemma FetchCarries(s: State, w: nat, r: nat, news: set<string>, kept: set<string>)
    requires Inv(s) && Enabled(s, Fetch) && Behind(s, w, r, news, kept) && news != {} && s.producer.wallet == w
    requires SyncCarries(s.t, s.chain[w], Flow(s, w), s.producer, r, news, kept)
    ensures var s' := Apply(s, Fetch);
            !s'.producer.Idle? && SyncCarries(s'.t, s'.chain[w], Flow(s', w), s'.producer, r, news, kept)
  {
    hide WalletsInv, ConsumerInv, SyncInv, Carries, Rank, Watermark, Of;
    ShortPage(s.chain[w], s.producer.until, news);
  }

  lemma ReadCarries(s: State, order: seq<string>, w: nat, r: nat, news: set<string>, kept: set<string>)
    requires Enabled(s, ReadSaved(order)) && Behind(s, w, r, news, kept) && s.producer.wallet == w
    requires SyncCarries(s.t, s.chain[w], Flow(s, w), s.producer, r, news, kept)
    ensures var s' := Apply(s, ReadSaved(order));
            !s'.producer.Idle? && SyncCarries(s'.t, s'.chain[w], Flow(s', w), s'.producer, r, news, kept)
  {
    hide Carries, Rank, Watermark, Of;
    var p, s' := s.producer, Apply(s, ReadSaved(order));
    if |p.page| < LIMIT {
      forall x | x in kept
        ensures RowFor(s'.producer.saved, x)
      {
        assert x in order;
        var i :| 0 <= i < |order| && order[i] == x;
        assert ReadRows(s.t, order)[i].signature == x;
      }
    }
  }

  lemma PublishCarries(s: State, accs: seq<seq<AssociatedAccount>>, w: nat, r: nat, news: set<string>, kept: set<string>)
    requires Inv(s) && Enabled(s, PublishSaved(accs)) && Behind(s, w, r, news, kept) && s.producer.wallet == w
    requires SyncCarries(s.t, s.chain[w], Flow(s, w), s.producer, r, news, kept)
    ensures var s' := Apply(s, PublishSaved(accs));
            !s'.producer.Idle? && SyncCarries(s'.t, s'.chain[w], Flow(s', w), s'.producer, r, news, kept)
  {
    hide WalletsInv, ConsumerInv, Carries, Rank, Watermark, Of, MarkedWithin, PageOk;
    var p, s', msgs := s.producer, Apply(s, PublishSaved(accs)), SavedMsgs(s.producer.wallet, s.producer.saved, accs);
    FlowAppend(s, s', msgs, w, w);
    assert SavedOk(s.t, p);
    forall x | RowFor(p.saved, x)
      ensures CarriedSaved(s.t, Flow(s, w) + msgs, x)
    {
      var i :| 0 <= i < |p.saved| && p.saved[i].signature == x;
      var m := (Flow(s, w) + msgs)[|Flow(s, w)| + i];
      assert m == msgs[i] && m.Saved? && Covers(s.t, m, x);
    }
  }

  lemma ScanCarries(s: State, acc: seq<AssociatedAccount>, w: nat, r: nat, news: set<string>, kept: set<string>)
    requires Inv(s) && Enabled(s, ScanNext(acc)) && Behind(s, w, r, news, kept) && s.producer.wallet == w
    requires SyncCarries(s.t, s.chain[w], Flow(s, w), s.producer, r, news, kept)
    ensures var s' := Apply(s, ScanNext(acc));
            !s'.producer.Idle? && SyncCarries(s'.t, s'.chain[w], Flow(s', w), s'.producer, r, news, kept)
  {
    hide WalletsInv, ConsumerInv, SyncInv, Carries, Rank, Watermark, Of, RowFor, Carried, CarriedSaved;
    var p, s', sent, flow := s.producer, Apply(s, ScanNext(acc)), Sent(s, ScanNext(acc)), Flow(s, w);
    FlowAppend(s, s', sent, w, w);
    CarriesMore(s.t, s.t, flow, sent, news, kept);
    if !RowFor(p.saved, p.page[p.next]) {
      OnchainCarried(s.t, flow, Onchain(w, s.ledger[p.page[p.next]], acc));
    }
  }

  lemma OnchainCarried(t: Tables, flow: seq<Msg>, m: Msg)
    requires m.Onchain?
    ensures Carried(t, flow + [m], m.tx.signature)
  {
    assert (flow + [m])[|flow|] == m;
  }

  lemma EndCarries(s: State, w: nat, r: nat, news: set<string>, kept: set<string>)
    requires Inv(s) && Enabled(s, EndPage) && Behind(s, w, r, news, kept) && s.producer.wallet == w
    requires SyncCarries(s.t, s.chain[w], Flow(s, w), s.producer, r, news, kept)
    ensures var s' := Apply(s, EndPage);
            !s'.producer.Idle? && SyncCarries(s'.t, s'.chain[w], Flow(s', w), s'.producer, r, news, kept)
  {
    hide WalletsInv, ConsumerInv, SyncInv, Rank, Watermark, Of, RowFor, Carried, CarriedSaved;
    var p, flow := s.producer, Flow(s, w);
    if |p.page| < LIMIT {
      forall x | x in news
        ensures Carried(s.t, flow, x)
      {
        var i :| 0 <= i < |p.page| && p.page[i] == x;
        if RowFor(p.saved, x) {
          SavedCarried(s.t, flow, x);
        }
      }
      forall x | x in kept
        ensures CarriedSaved(s.t, flow, x)
      {
        var i :| 0 <= i < |p.page| && p.page[i] == x;
      }
    }
  }

  lemma SavedCarried(t: Tables, ms: seq<Msg>, x: string)
    requires CarriedSaved(t, ms, x)
    ensures Carried(t, ms, x)
  {
  }

  /** The producer's part. */
  lemma SyncStep(s: State, e: Event, w: nat, r: nat, news: set<string>, kept: set<string>)
    requires Inv(s) && Enabled(s, e) && !e.Mark? && Behind(s, w, r, news, kept) && news != {}
    requires !s.producer.Idle? && s.producer.wallet == w ==>
               SyncCarries(s.t, s.chain[w], Flow(s, w), s.producer, r, news, kept)
    ensures var s' := Apply(s, e);
            !s'.producer.Idle? && s'.producer.wallet == w && w in s'.chain ==>
              SyncCarries(s'.t, s'.chain[w], Flow(s', w), s'.producer, r, news, kept)
  {
    hide Inv, SyncCarries, Behind, Rank, Watermark, Of, Taken, Rest, Page, CanSave, FreshIds, Transactions, IsSavedQuery;
    BehindKnown(s, w, r, news, kept);
    TablesKept(s, e);
    if e.Start? {
      StartCarries(s, e.w, w, r, news, kept);
    } else if !s.producer.Idle? && s.producer.wallet == w {
      match e
      case Fetch => FetchCarries(s, w, r, news, kept);
      case ReadSaved(order) => ReadCarries(s, order, w, r, news, kept);
      case PublishSaved(accs) => PublishCarries(s, accs, w, r, news, kept);
      case ScanNext(acc) => ScanCarries(s, acc, w, r, news, kept);
      case EndPage => EndCarries(s, w, r, news, kept);
      case Grow(v, x) => GrowCarries(s, v, x, w, r, news, kept);
      case Take =>
        FlowTake(s, Apply(s, e), w);
        SyncKeeps(s.t, s.t, s.chain[w], Flow(s, w), s.producer, r, news, kept);
      case Save(_) => SyncKeeps(s.t, Apply(s, e).t, s.chain[w], Flow(s, w), s.producer, r, news, kept);
      case Link => SyncKeeps(s.t, Apply(s, e).t, s.chain[w], Flow(s, w), s.producer, r, news, kept);
      case _ =>
    }
  }

  lemma StartCarries(s: State, v: nat, w: nat, r: nat, news: set<string>, kept: set<string>)
    requires Enabled(s, Start(v)) && Behind(s, w, r, news, kept)
    ensures var s' := Apply(s, Start(v));
            s'.producer.wallet == w ==> SyncCarries(s'.t, s'.chain[w], Flow(s', w), s'.producer, r, news, kept)
  {
    hide Rank, Watermark, Of;
  }

  lemma GrowCarries(s: State, v: nat, x: string, w: nat, r: nat, news: set<string>, kept: set<string>)
    requires Inv(s) && Enabled(s, Grow(v, x)) && Behind(s, w, r, news, kept) && !s.producer.Idle? && s.producer.wallet == w
    requires SyncCarries(s.t, s.chain[w], Flow(s, w), s.producer, r, news, kept)
    ensures var s' := Apply(s, Grow(v, x));
            SyncCarries(s'.t, s'.chain[w], Flow(s', w), s'.producer, r, news, kept)
  {
    hide WalletsInv, ConsumerInv, SyncCarries, ProducerInv, Rank, Watermark, Of;
    if v == w {
      SyncGrow(s.t, s.chain[w], Flow(s, w), s.producer, r, news, kept, x);
    }
  }

  lemma UnspentStep(s: State, e: Event, w: nat, r: nat, news: set<string>, kept: set<string>)
    requires Inv(s) && Enabled(s, e) && !e.Mark? && Behind(s, w, r, news, kept) && news != {}
    requires Unspent(s, w, r, news, kept)
    ensures Unspent(Apply(s, e), w, r, news, kept)
  {
    hide Inv, SyncCarries, FlowCarries, Behind, Of, Flow, Open, Watermark, Rank, Taken, Rest;
    BehindKnown(s, w, r, news, kept);
    SyncStep(s, e, w, r, news, kept);
    FlowStep(s, e, w, r, news, kept);
    if e.Take? {
      TakenOpen(s.queue);
    }
  }

  lemma BehindKnown(s: State, w: nat, r: nat, news: set<string>, kept: set<string>)
    requires Behind(s, w, r, news, kept)
    ensures w in s.chain && w in s.t.wallet
  {
  }

  lemma FlowStep(s: State, e: Event, w: nat, r: nat, news: set<string>, kept: set<string>)
    requires Inv(s) && Enabled(s, e) && !e.Mark? && w in s.chain && Unspent(s, w, r, news, kept)
    ensures FlowCarries(Apply(s, e).t, Flow(Apply(s, e), w), news, kept)
  {
    hide Inv, FlowCarries, Of, Flow, Watermark, Rank, Taken, Rest, Carries;
    if e.Restart? {
      NoFlowCarries(s, w, news, kept);
    } else {
      var sent := Of(Sent(s, e), w);
      StepFifo(s, e, w);
      TablesKept(s, e);
      OfMembers([], w);
      OfMembers(Sent(s, e), w);
      SentMarks(s, e, w);
      FlowAppends(s.t, Flow(s, w), sent, news, kept);
      assert [] + Flow(Apply(s, e), w) == Flow(Apply(s, e), w);
      FlowKeeps(s.t, Apply(s, e).t, Flow(s, w) + sent, news, kept);
    }
  }

  lemma NoFlowCarries(s: State, w: nat, news: set<string>, kept: set<string>)
    ensures FlowCarries(Apply(s, Restart).t, Flow(Apply(s, Restart), w), news, kept)
  {
  }

  lemma SentMarks(s: State, e: Event, w: nat)
    requires Enabled(s, e)
    ensures var sent := Of(Sent(s, e), w);
            forall i :: 0 <= i < |sent| && Marks(sent[i]) ==> i == 0 && e.SendMarker? && s.producer.wallet == w
  {
    var sent := Of(Sent(s, e), w);
    OfMembers(Sent(s, e), w);
    if e.SendMarker? {
      var m := Last(s.producer.wallet, s.producer.newLast);
      OfOwn([m], m.wallet, w);
    }
    assert forall i :: 0 <= i < |sent| ==> sent[i] in Sent(s, e);
  }

  // ---- over runs ----

  /** However often the process is started again, the watermark of `w` stays behind. */
  lemma {:induction false} BehindRun(s: State, es: seq<Event>, spent: bool, w: nat, r: nat, news: set<string>, kept: set<string>)
    requires Inv(s) && Legal(s, es) && OneBatch(es, spent) && Behind(s, w, r, news, kept)
    requires if spent then s.consumer.Free? else Unspent(s, w, r, news, kept)
    requires |news| > 40 || |kept| > 20
    ensures Inv(Run(s, es)) && Behind(Run(s, es), w, r, news, kept)
    decreases |es|
  {
    hide Inv, Unspent, Behind, Enabled, Apply;
    if es != [] {
      LifeStep(s, es[0], spent, w, r, news, kept);
      StepInv(s, es[0]);
      BehindRun(Apply(s, es[0]), es[1..], !es[0].Restart? && (spent || es[0].Mark?), w, r, news, kept);
    }
  }

  lemma LifeStep(s: State, e: Event, spent: bool, w: nat, r: nat, news: set<string>, kept: set<string>)
    requires Inv(s) && Enabled(s, e) && !(spent && e.Take?) && Behind(s, w, r, news, kept)
    requires if spent then s.consumer.Free? else Unspent(s, w, r, news, kept)
    requires |news| > 40 || |kept| > 20
    ensures var s' := Apply(s, e);
            && Behind(s', w, r, news, kept)
            && if !e.Restart? && (spent || e.Mark?) then s'.consumer.Free? else Unspent(s', w, r, news, kept)
  {
    hide Inv, Unspent, Behind, Of, Watermark, Rank, Taken, Rest;
    SomeNews(s, w, r, news, kept);
    if e.Mark? && s.consumer.taken[0].wallet == w {
      NoMarkCommitted(s, w, r, news, kept);
    }
    BehindStep(s, e, w, r, news, kept);
    if e.Restart? {
      RestartUnspent(s, w, r, news, kept);
    } else if !spent && !e.Mark? {
      UnspentStep(s, e, w, r, news, kept);
    }
  }

  lemma SomeNews(s: State, w: nat, r: nat, news: set<string>, kept: set<string>)
    requires Behind(s, w, r, news, kept) && (|news| > 40 || |kept| > 20)
    ensures news != {}
  {
  }

  lemma RestartUnspent(s: State, w: nat, r: nat, news: set<string>, kept: set<string>)
    ensures Unspent(Apply(s, Restart), w, r, news, kept)
  {
  }

  lemma OnlyLightConverges(s: State, es: seq<Event>, w: nat)
    requires Reachable(s) && Restarted(s) && w in s.chain && Legal(s, es) && OneBatch(es, false)
    requires w in Run(s, es).chain && Converged(Run(s, es), w)
    ensures w in s.t.wallet && |News(s, w)| <= 40 && |Kept(s, w)| <= 20
  {
    hide Reachable, Inv, Converged, Watermark, Rank, Legal, Run, Linked, Behind, Unspent;
    ReachableInv(s);
    WalletKnown(s, w);
    var r, news, kept := Reached(s.t, w, s.chain[w]), News(s, w), Kept(s, w);
    if |news| > 40 || |kept| > 20 {
      StartsBehind(s, w);
      BehindRun(s, es, false, w, r, news, kept);
      BehindDiverges(Run(s, es), w, r, news, kept);
    }
  }

  lemma StartsBehind(s: State, w: nat)
    requires Restarted(s) && w in s.chain && w in s.t.wallet
    ensures Behind(s, w, Reached(s.t, w, s.chain[w]), News(s, w), Kept(s, w))
    ensures Unspent(s, w, Reached(s.t, w, s.chain[w]), News(s, w), Kept(s, w))
  {
    assert Flow(s, w) == [];
  }

  lemma BehindDiverges(s: State, w: nat, r: nat, news: set<string>, kept: set<string>)
    requires Inv(s) && Behind(s, w, r, news, kept) && (|news| > 40 || |kept| > 20)
    ensures w in s.chain && !Converged(s, w)
  {
    hide WalletsInv, ConsumerInv, SyncInv, Watermark, Linked, Rank;
    SomeNews(s, w, r, news, kept);
    var x :| x in news;
    assert s.chain[w] != [];
    RankAt(s.chain[w], |s.chain[w]| - 1);
    assert Rank(s.chain[w], x) <= |s.chain[w]|;
  }
}
