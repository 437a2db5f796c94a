/**
 * The other half: with at most 40 new signatures, at most 20 of them saved, and the rest storable, two
 * lives of the process are enough, even though each commits one batch only.
 */
module LivesRecovery {
  import opened Common
  import opened Ledger
  import opened MsgQueue
  import opened Pipeline
  import opened WalletInvariant
  import opened ProducerInvariant
  import opened Safety
  import opened Theorems
  import opened Convergence
  import opened Recovery
  import opened Limits
  import opened Lives
  import opened Rounds

  // ---- batches that take the whole queue ----

  lemma ProjectConcat(a: seq<Msg>, b: seq<Msg>)
    ensures Transactions(a + b) == Transactions(a) + Transactions(b)
    ensures SignaturesIds(a + b) == SignaturesIds(a) + SignaturesIds(b)
    ensures Accounts(a + b) == Accounts(a) + Accounts(b)
  {
    TransactionsConcat(a, b);
    IdsConcat(a, b);
    AccountsConcat(a, b);
  }

  lemma {:induction false} TransactionsConcat(a: seq<Msg>, b: seq<Msg>)
    ensures Transactions(a + b) == Transactions(a) + Transactions(b)
  {
    if b == [] {
      assert a + b == a;
    } else {
      TransactionsConcat(a, b[..|b| - 1]);
      assert (a + b)[..|a + b| - 1] == a + b[..|b| - 1];
    }
  }

  lemma {:induction false} IdsConcat(a: seq<Msg>, b: seq<Msg>)
    ensures SignaturesIds(a + b) == SignaturesIds(a) + SignaturesIds(b)
  {
    if b == [] {
      assert a + b == a;
    } else {
      IdsConcat(a, b[..|b| - 1]);
      assert (a + b)[..|a + b| - 1] == a + b[..|b| - 1];
    }
  }

  lemma {:induction false} AccountsConcat(a: seq<Msg>, b: seq<Msg>)
    ensures Accounts(a + b) == Accounts(a) + Accounts(b)
  {
    if b == [] {
      assert a + b == a;
    } else {
      AccountsConcat(a, b[..|b| - 1]);
      assert (a + b)[..|a + b| - 1] == a + b[..|b| - 1];
    }
  }

  lemma NoMessages()
    ensures Transactions([]) == [] && Signatures([]) == [] && SignaturesIds([]) == [] && Accounts([]) == []
  {
  }

  lemma OneMessage(m: Msg)
    ensures Transactions([m]) == if m.Onchain? then [m.tx] else []
    ensures SignaturesIds([m]) == if m.Saved? then [m.signatureId] else []
    ensures Accounts([m]) == if m.Last? then [] else m.accounts
  {
    assert [m][..0] == [];
  }

  /** Few enough messages never fill a batch. */
  lemma LightOpen(ms: seq<Msg>)
    requires |Transactions(ms)| <= 20 && |SignaturesIds(ms)| <= 20 && |Accounts(ms)| <= 40
    ensures Open(ms)
  {
    hide Transactions, SignaturesIds, Accounts, LastSignature;
    forall p | 0 <= p < |ms|
      ensures !Full(BatchOf(ms[..p]))
    {
      ProjectConcat(ms[..p], ms[p..]);
      assert ms == ms[..p] + ms[p..];
    }
  }

  lemma TakeAll(items: seq<Msg>, w: nat)
    requires items != [] && Open(items) && forall m :: m in items ==> m.wallet == w
    ensures Taken(items) == items && Rest(items) == []
  {
    hide BatchOf, Full, Of;
    var n := Scanned(items);
    TakenFirst(items);
    OfOwn(items[..n], w, w);
    assert items[..n] == Taken(items);
    assert Collected(items, n) == items[..n];
    assert n == |items|;
    assert items[..n] == items;
    SplitSize(items, w);
  }

  // ---- what one page sends ----

  function NoAccounts(x: string): seq<AssociatedAccount> {
    []
  }

  /** The unsaved signatures among the first `n` of a page. */
  function Unsaved(page: seq<string>, n: nat, saved: seq<SavedRow>): seq<string>
    requires n <= |page|
  {
    if n == 0 then []
    else Unsaved(page, n - 1, saved) + if RowFor(saved, page[n - 1]) then [] else [page[n - 1]]
  }

  lemma {:induction false} UnsavedFacts(page: seq<string>, n: nat, saved: seq<SavedRow>)
    requires n <= |page| && Distinct(page)
    ensures Distinct(Unsaved(page, n, saved))
    ensures forall x :: x in Unsaved(page, n, saved) <==> x in page[..n] && !RowFor(saved, x)
  {
    hide RowFor;
    if n > 0 {
      UnsavedFacts(page, n - 1, saved);
      assert page[..n] == page[..n - 1] + [page[n - 1]];
      assert page[n - 1] !in page[..n - 1];
    }
  }

  lemma {:induction false} OnchainFacts(w: nat, page: seq<string>, n: nat, saved: seq<SavedRow>, ledger: map<string, OnchainTx>)
    requires n <= |page| && forall x :: x in page ==> x in ledger
    requires forall x :: x in ledger ==> ledger[x].signature == x
    ensures var ms := OnchainMsgs(w, page, n, saved, ledger, NoAccounts);
            && Signatures(Transactions(ms)) == Unsaved(page, n, saved)
            && SignaturesIds(ms) == [] && Accounts(ms) == []
            && (forall m :: m in ms ==> m.wallet == w && m.Onchain?)
            && forall tx :: tx in Transactions(ms) ==> tx.signature in ledger && tx == ledger[tx.signature]
  {
    hide RowFor, Transactions, SignaturesIds, Accounts, Signatures, OnchainMsgs, Unsaved;
    NoMessages();
    OnchainStep(w, page, n, saved, ledger);
    if n > 0 {
      OnchainFacts(w, page, n - 1, saved, ledger);
      if !RowFor(saved, page[n - 1]) {
        var x := page[n - 1];
        OneMore(OnchainMsgs(w, page, n - 1, saved, ledger, NoAccounts), Onchain(w, ledger[x], NoAccounts(x)));
      }
    }
  }

  lemma OnchainStep(w: nat, page: seq<string>, n: nat, saved: seq<SavedRow>, ledger: map<string, OnchainTx>)
    requires n <= |page| && forall x :: x in page ==> x in ledger
    ensures n == 0 ==> OnchainMsgs(w, page, n, saved, ledger, NoAccounts) == [] && Unsaved(page, n, saved) == []
    ensures n > 0 ==>
              var x, front := page[n - 1], OnchainMsgs(w, page, n - 1, saved, ledger, NoAccounts);
              && x in ledger
              && OnchainMsgs(w, page, n, saved, ledger, NoAccounts)
                 == (if RowFor(saved, x) then front else front + [Onchain(w, ledger[x], NoAccounts(x))])
              && Unsaved(page, n, saved)
                 == (if RowFor(saved, x) then Unsaved(page, n - 1, saved) else Unsaved(page, n - 1, saved) + [x])
  {
    hide RowFor;
    assert n > 0 ==> page[n - 1] in page;
  }

  lemma OneMore(front: seq<Msg>, m: Msg)
    requires m.Onchain? && m.accounts == []
    ensures Signatures(Transactions(front + [m])) == Signatures(Transactions(front)) + [m.tx.signature]
    ensures Transactions(front + [m]) == Transactions(front) + [m.tx]
    ensures SignaturesIds(front + [m]) == SignaturesIds(front) && Accounts(front + [m]) == Accounts(front)
  {
    hide Transactions, SignaturesIds, Accounts;
    ProjectConcat(front, [m]);
    OneMessage(m);
  }

  lemma {:induction false} SavedFacts(w: nat, rows: seq<SavedRow>, accs: seq<seq<AssociatedAccount>>)
    requires |accs| == |rows| && forall i :: 0 <= i < |accs| ==> accs[i] == []
    ensures var ms := SavedMsgs(w, rows, accs);
            && Transactions(ms) == [] && |SignaturesIds(ms)| == |rows| && Accounts(ms) == []
            && forall m :: m in ms ==> m.wallet == w && m.Saved?
  {
    if rows != [] {
      var n := |rows| - 1;
      SavedFacts(w, rows[..n], accs[..n]);
      assert SavedMsgs(w, rows, accs)[..n] == SavedMsgs(w, rows[..n], accs[..n]);
    }
  }

  /** The queue once a sync has sent its saved rows and looked at `n` signatures of its page. */
  ghost function Sending(t: Tables, w: nat, page: seq<string>, order: seq<string>, n: nat, ledger: map<string, OnchainTx>): seq<Msg>
    requires IsSavedQuery(t, page, order) && n <= |page| && forall x :: x in page ==> x in ledger
  {
    var rows := ReadRows(t, order);
    SavedMsgs(w, rows, ParsedAll(order, NoAccounts)) + OnchainMsgs(w, page, n, rows, ledger, NoAccounts)
  }

  lemma SendingFacts(t: Tables, w: nat, page: seq<string>, order: seq<string>, n: nat, ledger: map<string, OnchainTx>)
    requires IsSavedQuery(t, page, order) && n <= |page| && forall x :: x in page ==> x in ledger
    requires forall x :: x in ledger ==> ledger[x].signature == x
    ensures var ms := Sending(t, w, page, order, n, ledger);
            && Signatures(Transactions(ms)) == Unsaved(page, n, ReadRows(t, order))
            && |SignaturesIds(ms)| == |order| && Accounts(ms) == []
            && (forall m :: m in ms ==> m.wallet == w && !m.Last?)
            && forall tx :: tx in Transactions(ms) ==> tx.signature in ledger && tx == ledger[tx.signature]
  {
    hide Transactions, SignaturesIds, Accounts, SavedMsgs, OnchainMsgs, RowFor;
    var rows, accs := ReadRows(t, order), ParsedAll(order, NoAccounts);
    SavedFacts(w, rows, accs);
    OnchainFacts(w, page, n, rows, ledger);
    ProjectConcat(SavedMsgs(w, rows, accs), OnchainMsgs(w, page, n, rows, ledger, NoAccounts));
  }

  /** Those transactions can be saved: they are not saved yet and all of them are storable. */
  lemma SendingSaves(t: Tables, w: nat, page: seq<string>, order: seq<string>, n: nat, ledger: map<string, OnchainTx>)
    requires IsSavedQuery(t, page, order) && n <= |page| && Distinct(page)
    requires forall x :: x in page ==> x in ledger && (x in t.signature || Storable(ledger[x]))
    requires forall x :: x in ledger ==> ledger[x].signature == x
    ensures CanSave(t, Transactions(Sending(t, w, page, order, n, ledger)))
    ensures forall x :: x in Unsaved(page, n, ReadRows(t, order)) <==> x in page[..n] && x !in t.signature
  {
    hide Transactions, Storable, RowFor, Sending;
    var rows, txs := ReadRows(t, order), Transactions(Sending(t, w, page, order, n, ledger));
    SendingFacts(t, w, page, order, n, ledger);
    UnsavedFacts(page, n, rows);
    RowsAreSaved(t, page, order);
    assert forall x :: x in page[..n] ==> x in page;
    forall tx | tx in txs
      ensures tx.signature !in t.signature && Storable(tx)
    {
      var i :| 0 <= i < |txs| && txs[i] == tx;
      assert Signatures(txs)[i] == tx.signature;
    }
  }

  lemma RowsAreSaved(t: Tables, page: seq<string>, order: seq<string>)
    requires IsSavedQuery(t, page, order)
    ensures forall x :: x in page ==> (RowFor(ReadRows(t, order), x) <==> x in t.signature)
  {
    forall x | x in page
      ensures RowFor(ReadRows(t, order), x) <==> x in t.signature
    {
      if x in t.signature {
        assert x in order;
        var i :| 0 <= i < |order| && order[i] == x;
        assert ReadRows(t, order)[i].signature == x;
      }
    }
  }

  // ---- a life ----

  predicate Quiet(es: seq<Event>) {
    forall i :: 0 <= i < |es| ==> !es[i].Take? && !es[i].Mark? && !es[i].Restart?
  }

  lemma {:induction false} QuietLife(a: seq<Event>, b: seq<Event>, spent: bool)
    requires Quiet(a) && OneBatch(b, spent)
    ensures OneBatch(a + b, spent)
    decreases |a|
  {
    if a == [] {
      assert a + b == b;
    } else {
      QuietLife(a[1..], b, spent);
      assert (a + b)[1..] == a[1..] + b;
    }
  }

  lemma {:induction false} TwoLives(a: seq<Event>, b: seq<Event>, spent: bool)
    requires OneBatch(a, spent) && OneBatch(b, false)
    ensures OneBatch(a + [Restart] + b, spent)
    decreases |a|
  {
    if a == [] {
      assert ([Restart] + b)[1..] == b;
      assert a + [Restart] + b == [Restart] + b;
    } else {
      TwoLives(a[1..], b, !a[0].Restart? && (spent || a[0].Mark?));
      assert (a + [Restart] + b)[1..] == a[1..] + [Restart] + b;
    }
  }

  /** What two lives start from: nothing pending, a page with everything new on it, and room for it. */
  ghost predicate Ready(s: State, w: nat, page: seq<string>, order: seq<string>) {
    && Inv(s) && Restarted(s) && w in s.chain && w in s.t.wallet
    && page == Page(s.chain[w], Watermark(s.t, w)) && 0 < |page| < LIMIT
    && order == SavedIn(s.t, page) && |order| <= 20
    && (forall x :: x in page ==> x in s.ledger && (x in s.t.signature || Storable(s.ledger[x])))
  }

  function Beginning(w: nat, page: seq<string>, order: seq<string>, n: nat): (es: seq<Event>)
    requires n <= |page|
    ensures Quiet(es)
  {
    [Start(w), Fetch, ReadSaved(order), PublishSaved(ParsedAll(order, NoAccounts))] + Scans(page, n, NoAccounts)
  }

  /** A sync up to signature `n` of its page. */
  lemma BeginningRun(s: State, w: nat, page: seq<string>, order: seq<string>, n: nat)
    requires Ready(s, w, page, order) && n <= |page|
    ensures IsSavedQuery(s.t, page, order) && forall x :: x in page ==> x in s.ledger
    ensures Legal(s, Beginning(w, page, order, n))
    ensures Run(s, Beginning(w, page, order, n)) ==
            s.(queue := Sending(s.t, w, page, order, n, s.ledger),
               producer := Scanning(w, Watermark(s.t, w), page[0], page, ReadRows(s.t, order), n))
  {
    hide Legal, Run, Inv, Page, Watermark, SavedMsgs, OnchainMsgs, ReadRows, Storable, SavedIn;
    PageIsDistinct(s, w, page, order);
    var until, accs := Watermark(s.t, w), ParsedAll(order, NoAccounts);
    RowsSize(s.t, order);
    RunOne(s, Start(w));
    var s1 := s.(producer := Fetching(w, until, ""));
    assert Apply(s, Start(w)) == s1;
    ThenOne(s, [Start(w)], Fetch);
    var s2 := s.(producer := Reading(w, until, page[0], page));
    assert Apply(s1, Fetch) == s2;
    ThenOne(s, [Start(w)] + [Fetch], ReadSaved(order));
    var s3 := s.(producer := Publishing(w, until, page[0], page, ReadRows(s.t, order)));
    assert Apply(s2, ReadSaved(order)) == s3;
    ThenOne(s, [Start(w)] + [Fetch] + [ReadSaved(order)], PublishSaved(accs));
    var front := [Start(w)] + [Fetch] + [ReadSaved(order)] + [PublishSaved(accs)];
    var s4 := Run(s, front);
    ScanRuns(s4, n, NoAccounts);
    RunConcat(s, front, Scans(page, n, NoAccounts));
    assert front == [Start(w), Fetch, ReadSaved(order), PublishSaved(accs)];
  }

  lemma PageIsDistinct(s: State, w: nat, page: seq<string>, order: seq<string>)
    requires Ready(s, w, page, order)
    ensures Distinct(page) && IsSavedQuery(s.t, page, order)
    ensures forall x :: x in s.ledger ==> s.ledger[x].signature == x
  {
    hide WalletsInv, ConsumerInv, SyncInv, Watermark;
    PageDistinct(s.chain[w], Watermark(s.t, w));
  }

  /** Committing a queue that is one open batch. */
  lemma CommitAll(s: State, w: nat) returns (ids: seq<int>)
    requires Inv(s) && s.consumer.Free? && s.queue != [] && w in s.chain
    requires Open(s.queue) && (forall m :: m in s.queue ==> m.wallet == w) && CanSave(s.t, Transactions(s.queue))
    ensures Legal(s, [Take, Save(ids), Link, Mark])
    ensures var s' := Run(s, [Take, Save(ids), Link, Mark]);
            && Inv(s') && s' == s.(queue := [], t := s'.t)
            && w in s.t.wallet && w in s'.t.wallet
            && Watermark(s'.t, w) == (if LastMark(s.queue) == "" then Watermark(s.t, w) else LastMark(s.queue))
            && s'.t.signature.Keys == s.t.signature.Keys + Elements(Signatures(Transactions(s.queue)))
  {
    hide Legal, Run, Inv, Watermark, LastMark, Open, CanSave, Transactions, SignaturesIds, Taken, Rest, LinkTables, MarkTables, FreshIds, Zip, LastSignature;
    var items := s.queue;
    TakeAll(items, w);
    WalletRows(s, w);
    assert items[0] in items;
    ids := FreshIdsExist(s.t, |Transactions(items)|);
    var s1 := Apply(s, Take);
    RunOne(s, Take);
    WatermarkStep(s, Take, w);
    StepInv(s, Take);
    var s2 := Apply(s1, Save(ids));
    ThenOne(s, [Take], Save(ids));
    WatermarkStep(s1, Save(ids), w);
    StepInv(s1, Save(ids));
    SavedKeys(s1, ids);
    WalletRows(s2, w);
    var s3 := Apply(s2, Link);
    ThenOne(s, [Take] + [Save(ids)], Link);
    WatermarkStep(s2, Link, w);
    StepInv(s2, Link);
    WalletRows(s3, w);
    ThenOne(s, [Take] + [Save(ids)] + [Link], Mark);
    WatermarkStep(s3, Mark, w);
    StepInv(s3, Mark);
    LinkSignature(s2.t, w, s2.consumer.ids);
    MarkSignature(s3.t, w, LastSignature(items));
    assert [Take] + [Save(ids)] + [Link] + [Mark] == [Take, Save(ids), Link, Mark];
  }

  lemma WalletRows(s: State, w: nat)
    requires Inv(s) && w in s.chain
    ensures w in s.t.wallet && w in s.t.links
  {
  }

  lemma SavedKeys(s: State, ids: seq<int>)
    requires Enabled(s, Save(ids))
    ensures Apply(s, Save(ids)).t.signature.Keys == s.t.signature.Keys + Elements(Signatures(Transactions(s.consumer.taken)))
  {
  }

  lemma MarkSignature(t: Tables, w: nat, sig: string)
    requires w in t.wallet
    ensures MarkTables(t, w, sig).signature == t.signature
  {
  }

  // ---- counting ----

  lemma Split(a: seq<string>, b: seq<string>, all: seq<string>)
    requires Distinct(a) && Distinct(b) && Distinct(all)
    requires forall x :: x in all <==> x in a || x in b
    requires forall x :: x in a ==> x !in b
    ensures |all| == |a| + |b|
  {
    DistinctSize(a);
    DistinctSize(b);
    DistinctSize(all);
    assert Elements(all) == Elements(a) + Elements(b);
    assert Elements(a) !! Elements(b);
  }

  /** Scanning far enough sends any number of unsaved signatures up to all of them. */
  lemma {:induction false} ScanUntil(page: seq<string>, m: nat, saved: seq<SavedRow>, k: nat) returns (n: nat)
    requires m <= |page| && k <= |Unsaved(page, m, saved)|
    ensures n <= m && |Unsaved(page, n, saved)| == k
    decreases m
  {
    hide RowFor;
    if k == |Unsaved(page, m, saved)| {
      n := m;
    } else {
      n := ScanUntil(page, m - 1, saved, k);
    }
  }

  lemma UnsavedCount(s: State, w: nat, page: seq<string>, order: seq<string>)
    requires Ready(s, w, page, order)
    ensures IsSavedQuery(s.t, page, order)
    ensures |Unsaved(page, |page|, ReadRows(s.t, order))| + |order| == |page|
  {
    hide Ready, RowFor, Unsaved;
    PageIsDistinct(s, w, page, order);
    var rows := ReadRows(s.t, order);
    UnsavedFacts(page, |page|, rows);
    RowsAreSaved(s.t, page, order);
    assert page[..|page|] == page;
    Split(order, Unsaved(page, |page|, rows), page);
  }

  // ---- one life ----

  lemma ReadyFacts(s: State, w: nat, page: seq<string>, order: seq<string>)
    requires Ready(s, w, page, order)
    ensures w in s.chain && w in s.t.wallet && Inv(s) && Restarted(s) && 0 < |page| < LIMIT
    ensures page[0] != "" && Rank(s.chain[w], page[0]) == |s.chain[w]|
    ensures forall x :: x in page ==> x in s.ledger && (x in s.t.signature || Storable(s.ledger[x]))
    ensures forall x :: x in s.ledger ==> s.ledger[x].signature == x
  {
    hide WalletsInv, ConsumerInv, SyncInv, Watermark, Rank, Page;
    PageContents(s.chain[w], Watermark(s.t, w));
  }

  /** What a life sends, with its marker or without, is one open batch that can be saved. */
  lemma LightBatch(s: State, w: nat, page: seq<string>, order: seq<string>, n: nat, last: seq<Msg>)
    requires Ready(s, w, page, order) && n <= |page| && IsSavedQuery(s.t, page, order)
    requires |order| <= 20 && |Unsaved(page, n, ReadRows(s.t, order))| <= 20
    requires forall x :: x in page ==> x in s.ledger
    requires last == [] || last == [Last(w, page[0])]
    ensures var ms := Sending(s.t, w, page, order, n, s.ledger) + last;
            && Open(ms) && (forall m :: m in ms ==> m.wallet == w) && CanSave(s.t, Transactions(ms))
            && Signatures(Transactions(ms)) == Unsaved(page, n, ReadRows(s.t, order))
  {
    hide Ready, Sending, CanSave, Transactions, SignaturesIds, Accounts, Unsaved, Open, Rank, Storable, ReadRows, IsSavedQuery;
    ReadyFacts(s, w, page, order);
    PageIsDistinct(s, w, page, order);
    var ms := Sending(s.t, w, page, order, n, s.ledger);
    SendingFacts(s.t, w, page, order, n, s.ledger);
    SendingSaves(s.t, w, page, order, n, s.ledger);
    ProjectConcat(ms, last);
    NoMessages();
    if last != [] {
      OneMessage(last[0]);
    }
    assert Transactions(ms + last) == Transactions(ms);
    assert |Signatures(Transactions(ms))| == |Transactions(ms)|;
    LightOpen(ms + last);
  }

  lemma MarkerRun(s: State, w: nat, page: seq<string>, order: seq<string>)
    requires Ready(s, w, page, order)
    ensures IsSavedQuery(s.t, page, order) && forall x :: x in page ==> x in s.ledger
    ensures var es := Beginning(w, page, order, |page|) + [EndPage] + [SendMarker];
            && Legal(s, es)
            && Run(s, es) == s.(queue := Sending(s.t, w, page, order, |page|, s.ledger) + [Last(w, page[0])],
                                synced := s.synced[w := |s.chain[w]|])
  {
    hide Legal, Run, Inv, Ready, Watermark, Sending, ReadRows, Rank, Storable;
    ReadyFacts(s, w, page, order);
    var front := Beginning(w, page, order, |page|);
    BeginningRun(s, w, page, order, |page|);
    var s4 := Run(s, front);
    ThenOne(s, front, EndPage);
    var s5 := s4.(producer := Finishing(w, Watermark(s.t, w), page[0]));
    assert Apply(s4, EndPage) == s5;
    ThenOne(s, front + [EndPage], SendMarker);
  }

  lemma QuietMiddle(w: nat, page: seq<string>, order: seq<string>)
    ensures Quiet(Beginning(w, page, order, |page|) + [EndPage] + [SendMarker])
  {
  }

  lemma LastBatch(ids: seq<int>)
    ensures OneBatch([Take, Save(ids), Link, Mark], false)
  {
    assert [Take, Save(ids), Link, Mark][1..] == [Save(ids), Link, Mark];
    assert [Save(ids), Link, Mark][1..] == [Link, Mark];
    assert [Link, Mark][1..] == [Mark];
    assert [Mark][1..] == [];
  }

  lemma SettledEnd(s: State, w: nat)
    requires Reachable(s) && s.queue == [] && s.producer.Idle? && s.consumer.Free?
    requires w in s.chain && w in s.synced && s.synced[w] == |s.chain[w]|
    ensures Converged(s, w)
  {
    hide Reachable, Watermark, Linked;
    SettledWalletConverged(s, w);
    assert s.chain[w][..|s.chain[w]|] == s.chain[w];
  }

  /** A sync and its one batch, marker included. */
  lemma FullLife(s: State, w: nat, page: seq<string>, order: seq<string>) returns (es: seq<Event>)
    requires Reachable(s) && Ready(s, w, page, order) && |page| <= |order| + 20
    ensures Legal(s, es) && OneBatch(es, false)
    ensures w in Run(s, es).chain && Converged(Run(s, es), w)
  {
    hide Legal, Run, Inv, Reachable, Sending, Converged, CanSave, Open, Transactions, OneBatch, Quiet, Unsaved, ReadRows;
    hide Rank, Watermark, Page, Storable, IsSavedQuery, LastMark;
    ReadyFacts(s, w, page, order);
    UnsavedCount(s, w, page, order);
    MarkerRun(s, w, page, order);
    LightBatch(s, w, page, order, |page|, [Last(w, page[0])]);
    var middle := Beginning(w, page, order, |page|) + [EndPage] + [SendMarker];
    RunInv(s, middle);
    var ids := CommitAll(Run(s, middle), w);
    var commit := [Take, Save(ids), Link, Mark];
    RunConcat(s, middle, commit);
    es := middle + commit;
    QuietMiddle(w, page, order);
    LastBatch(ids);
    QuietLife(middle, commit, false);
    ReachableRun(s, es);
    SettledEnd(Run(s, es), w);
  }

  /** A sync whose batch is taken before it is done, then a stop: the batch is saved and linked. */
  lemma PartLife(s: State, w: nat, page: seq<string>, order: seq<string>, n: nat) returns (es: seq<Event>, order': seq<string>)
    requires Reachable(s) && Ready(s, w, page, order) && n <= |page| && IsSavedQuery(s.t, page, order)
    requires 0 < |Unsaved(page, n, ReadRows(s.t, order))| <= 20 - |order|
    ensures Legal(s, es + [Restart]) && OneBatch(es, false)
    ensures var s' := Run(s, es + [Restart]);
            && Reachable(s') && Ready(s', w, page, order')
            && |order'| == |order| + |Unsaved(page, n, ReadRows(s.t, order))|
  {
    hide Legal, Run, Inv, Reachable, Sending, CanSave, Open, Transactions, OneBatch, Quiet, Unsaved, ReadRows, LastMark;
    hide Rank, Watermark, Page, Storable, Ready, SavedIn, IsSavedQuery;
    ReadyFacts(s, w, page, order);
    var front := Beginning(w, page, order, n);
    BeginningRun(s, w, page, order, n);
    LightBatch(s, w, page, order, n, []);
    var items := Sending(s.t, w, page, order, n, s.ledger);
    assert items + [] == items;
    assert items != [] by { NoMessages(); }
    NoMarkSent(s.t, w, page, order, n, s.ledger);
    RunInv(s, front);
    var s4 := Run(s, front);
    var ids := CommitAll(s4, w);
    var commit := [Take, Save(ids), Link, Mark];
    RunConcat(s, front, commit);
    es := front + commit;
    LastBatch(ids);
    QuietLife(front, commit, false);
    ThenOne(s, es, Restart);
    ReachableRun(s, es + [Restart]);
    var s' := Run(s, es + [Restart]);
    order' := SavedIn(s'.t, page);
    RunInv(s, es + [Restart]);
    ReadyAgain(s, s', w, page, order, order', n);
  }

  lemma NoMarkSent(t: Tables, w: nat, page: seq<string>, order: seq<string>, n: nat, ledger: map<string, OnchainTx>)
    requires IsSavedQuery(t, page, order) && n <= |page| && forall x :: x in page ==> x in ledger
    requires forall x :: x in ledger ==> ledger[x].signature == x
    ensures LastMark(Sending(t, w, page, order, n, ledger)) == ""
  {
    hide Sending, Transactions, SignaturesIds, Accounts;
    SendingFacts(t, w, page, order, n, ledger);
    LastMarkAt(Sending(t, w, page, order, n, ledger));
  }

  lemma ReadyAgain(s: State, s': State, w: nat, page: seq<string>, order: seq<string>, order': seq<string>, n: nat)
    requires Ready(s, w, page, order) && n <= |page| && IsSavedQuery(s.t, page, order)
    requires |Unsaved(page, n, ReadRows(s.t, order))| <= 20 - |order|
    requires Inv(s') && Restarted(s') && s'.chain == s.chain && s'.ledger == s.ledger && w in s'.t.wallet
    requires Watermark(s'.t, w) == Watermark(s.t, w)
    requires s'.t.signature.Keys == s.t.signature.Keys + Elements(Unsaved(page, n, ReadRows(s.t, order)))
    requires order' == SavedIn(s'.t, page)
    ensures |order'| == |order| + |Unsaved(page, n, ReadRows(s.t, order))|
    ensures Ready(s', w, page, order')
  {
    hide RowFor, Unsaved, ReadRows, Storable, Page, Watermark, Rank, Inv, SavedIn, Distinct;
    var more, rows := Unsaved(page, n, ReadRows(s.t, order)), ReadRows(s.t, order);
    PageIsDistinct(s, w, page, order);
    UnsavedFacts(page, n, rows);
    RowsAreSaved(s.t, page, order);
    assert forall x :: x in page[..n] ==> x in page;
    assert forall x :: x in s'.t.signature <==> x in s.t.signature || x in more;
    Split(order, more, order');
  }

  // ---- the exact condition ----

  /** At most 40 new signatures, at most 20 of them saved, and every unsaved one storable. */
  ghost predicate Light(s: State, w: nat) {
    && w in s.chain && w in s.t.wallet
    && |News(s, w)| <= 40 && |Kept(s, w)| <= 20
    && forall x :: x in s.chain[w] && x !in s.t.signature ==> x in s.ledger && Storable(s.ledger[x])
  }

  lemma LightReady(s: State, w: nat)
    requires Reachable(s) && Restarted(s) && Light(s, w) && Reached(s.t, w, s.chain[w]) < |s.chain[w]|
    ensures var page := Page(s.chain[w], Watermark(s.t, w));
            var order := SavedIn(s.t, page);
            Ready(s, w, page, order) && |page| <= 40 && |order| <= 20
  {
    hide Reachable, Inv, Rank, Watermark, Storable, SavedIn, Page, News, Kept;
    ReachableInv(s);
    WalletKnown(s, w);
    LightSizes(s, w);
    HistoryDistinct(s, w);
    PageDistinct(s.chain[w], Watermark(s.t, w));
  }

  lemma LightSizes(s: State, w: nat)
    requires Inv(s) && w in s.chain && w in s.t.wallet
    ensures var page := Page(s.chain[w], Watermark(s.t, w));
            |page| <= |News(s, w)| && |SavedIn(s.t, page)| <= |Kept(s, w)|
  {
    hide Inv, Rank, Watermark, SavedIn, Page, Distinct;
    var h, until := s.chain[w], Watermark(s.t, w);
    var page := Page(h, until);
    var order := SavedIn(s.t, page);
    HistoryDistinct(s, w);
    PageDistinct(h, until);
    PageNews(h, until);
    DistinctSize(page);
    DistinctSize(order);
    SetInSet(Elements(page), News(s, w));
    SetInSet(Elements(order), Kept(s, w));
  }

  lemma HistoryDistinct(s: State, w: nat)
    requires Inv(s) && w in s.chain
    ensures Distinct(s.chain[w])
  {
  }

  /** A page only holds what is newer than `until`. */
  lemma PageNews(h: seq<string>, until: string)
    requires Distinct(h)
    ensures forall x :: x in Page(h, until) ==> x in h && Rank(h, x) > Rank(h, until)
  {
    hide Rank;
    var page := Page(h, until);
    forall x | x in page
      ensures x in h && Rank(h, x) > Rank(h, until)
    {
      var i :| 0 <= i < |page| && page[i] == x;
      RankAt(h, |h| - 1 - i);
    }
  }

  lemma SetInSet(a: set<string>, b: set<string>)
    requires a <= b
    ensures |a| <= |b|
  {
    assert b == a + (b - a);
  }

  lemma LightConverges(s: State, w: nat) returns (es: seq<Event>)
    requires Reachable(s) && Restarted(s) && Light(s, w)
    ensures Legal(s, es) && OneBatch(es, false)
    ensures w in Run(s, es).chain && Converged(Run(s, es), w)
  {
    hide Legal, Run, Reachable, Converged, Ready, Unsaved, ReadRows, Rank, Watermark, Page, SavedIn, OneBatch, IsSavedQuery;
    if Reached(s.t, w, s.chain[w]) == |s.chain[w]| {
      es := [];
      RunNone(s);
      UpToDateConverged(s, w);
      NothingTaken();
    } else {
      LightReady(s, w);
      var page := Page(s.chain[w], Watermark(s.t, w));
      var order := SavedIn(s.t, page);
      UnsavedCount(s, w, page, order);
      if |page| <= |order| + 20 {
        es := FullLife(s, w, page, order);
      } else {
        var n := ScanUntil(page, |page|, ReadRows(s.t, order), |page| - 20 - |order|);
        var first, order' := PartLife(s, w, page, order, n);
        var next := FullLife(Run(s, first + [Restart]), w, page, order');
        RunConcat(s, first + [Restart], next);
        TwoLives(first, next, false);
        es := first + [Restart] + next;
      }
    }
  }

  lemma NothingTaken()
    ensures OneBatch([], false)
  {
  }

  /** A wallet whose watermark is up to date has converged. */
  lemma UpToDateConverged(s: State, w: nat)
    requires Reachable(s) && w in s.chain && w in s.t.wallet
    requires Reached(s.t, w, s.chain[w]) == |s.chain[w]|
    ensures Converged(s, w)
  {
    hide Reachable, Watermark, MarkersBacked, MarkersOrdered, BlanksHarmless, SyncInv, ConsumerInv;
    ReachableInv(s);
    WalletAt(s, w);
    var h, t := s.chain[w], s.t;
    forall x
      ensures Linked(t, w, x) <==> x in h
    {
      if Linked(t, w, x) {
        assert KnownId(t, h, t.signature[x]);
        var y :| y in h && HasId(t, y, t.signature[x]);
        assert y == x;
      }
      if x in h {
        var j :| 0 <= j < |h| && h[j] == x;
        assert Linked(t, w, h[j]);
      }
    }
    assert h[..|h|] == h;
    LinkedCount(t, w, h, |h|);
  }

  /**
   * As the program stands, one batch to a life of the process, a wallet converges from a restart in some
   * run, however many lives it takes, if and only if `Light` holds.
   */
  lemma OneBatchConvergesIff(s: State, w: nat)
    requires Reachable(s) && Restarted(s) && w in s.chain
    ensures (exists es :: Legal(s, es) && OneBatch(es, false) && w in Run(s, es).chain && Converged(Run(s, es), w)) <==> Light(s, w)
  {
    hide Reachable, Restarted, Converged, Legal, Run, OneBatch, Storable, News, Kept;
    if Light(s, w) {
      var es := LightConverges(s, w);
      assert Legal(s, es) && OneBatch(es, false) && w in Run(s, es).chain && Converged(Run(s, es), w);
    }
    forall es | Legal(s, es) && OneBatch(es, false) && w in Run(s, es).chain && Converged(Run(s, es), w)
      ensures Light(s, w)
    {
      OnlyLightConverges(s, es, w);
      OnlySyncableConverges(s, es, w);
    }
  }
}
