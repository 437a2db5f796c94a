/**
 * The two loops of the program as methods on the queue and the tables, and that each round of them is
 * a run of the step system: what is proved of every run holds of the objects.
 */
module Rounds {
  import opened Common
  import opened Ledger
  import opened MsgQueue
  import opened Pipeline
  import opened Recovery
  import opened Storage
  import opened Saving
  import opened RoundTrip
  import opened Rows
  import opened Processing
  import opened Database

  // ---- the consumer ----

  /** The events of one round of the consumer that is not stopped. */
  function ConsumerEvents(ids: seq<int>): seq<Event> {
    [Take, Save(ids), Link, Mark]
  }

  /** From any state with these tables and this queue, the events are legal and lead to those. */
  ghost predicate RunsTo(t: Tables, items: seq<Msg>, es: seq<Event>, t': Tables, items': seq<Msg>) {
    forall s: State :: s.t == t && s.queue == items && s.consumer.Free? ==>
      Legal(s, es) && Run(s, es) == s.(t := t', queue := items')
  }

  ghost predicate KnownWallets(t: Tables, items: seq<Msg>) {
    forall m :: m in items ==> m.wallet in t.wallet && m.wallet in t.links
  }

  function Committed(t: Tables, taken: seq<Msg>, ids: seq<int>): Tables
    requires taken != [] && Distinct(Signatures(Transactions(taken))) && |ids| == |Transactions(taken)|
    requires taken[0].wallet in t.wallet && taken[0].wallet in t.links
  {
    var w := taken[0].wallet;
    var saved := SaveTables(t, Signatures(Transactions(taken)), ids);
    MarkTables(LinkTables(saved, w, SignaturesIds(taken) + ids), w, LastSignature(taken))
  }

  lemma ConsumerRuns(t: Tables, items: seq<Msg>, ids: seq<int>)
    requires items != [] && KnownWallets(t, items)
    requires var txs := Transactions(Taken(items)); CanSave(t, txs) && FreshIds(t, ids) && |ids| == |txs|
    ensures Taken(items) != [] && Taken(items)[0] == items[0]
    ensures RunsTo(t, items, ConsumerEvents(ids), Committed(t, Taken(items), ids), Rest(items))
  {
    hide Taken, Rest, FreshIds, Storable, Transactions, SignaturesIds, LastSignature, BatchOf, Of, Scanned, Legal, Run, Committed;
    TakenFirst(items);
    assert items[0] in items;
    forall s: State | s.t == t && s.queue == items && s.consumer.Free?
      ensures Legal(s, ConsumerEvents(ids))
      ensures Run(s, ConsumerEvents(ids)) == s.(t := Committed(t, Taken(items), ids), queue := Rest(items))
    {
      var s1 := s.(consumer := Consumer.Saving(Taken(items)), queue := Rest(items));
      RunOne(s, Take);
      assert Apply(s, Take) == s1;
      BatchCommits(s1, Taken(items), ids);
      RunConcat(s, [Take], [Save(ids), Link, Mark]);
      assert [Take] + [Save(ids), Link, Mark] == ConsumerEvents(ids);
    }
  }

  /** The three commits of a batch. */
  lemma BatchCommits(s: State, taken: seq<Msg>, ids: seq<int>)
    requires s.consumer == Consumer.Saving(taken) && HasWallet(s, taken)
    requires var txs := Transactions(taken); CanSave(s.t, txs) && FreshIds(s.t, ids) && |ids| == |txs|
    ensures Legal(s, [Save(ids), Link, Mark])
    ensures Run(s, [Save(ids), Link, Mark]) == s.(consumer := Free, t := Committed(s.t, taken, ids))
  {
    hide FreshIds, Storable, Transactions, SignaturesIds, LastSignature, Legal, Run, LinkTables, MarkTables, Zip;
    var w, all := taken[0].wallet, SignaturesIds(taken) + ids;
    var t1 := SaveTables(s.t, Signatures(Transactions(taken)), ids);
    var t2 := LinkTables(t1, w, all);
    LinkKeeps(t1, w, all);
    var s1, s2 := s.(consumer := Linking(taken, all), t := t1), s.(consumer := Marking(taken), t := t2);
    RunOne(s, Save(ids));
    assert Apply(s, Save(ids)) == s1;
    ThenOne(s, [Save(ids)], Link);
    assert Apply(s1, Link) == s2;
    assert [Save(ids)] + [Link] == [Save(ids), Link];
    ThenOne(s, [Save(ids), Link], Mark);
    assert [Save(ids), Link] + [Mark] == [Save(ids), Link, Mark];
  }

  /**
   * One round of the consumer. On an empty queue nothing happens; otherwise a batch leaves the queue
   * and the round goes through exactly when the batch can be saved, as a run of the step system.
   */
  method ConsumerRound(q: Queue, store: Store) returns (err: Option<SaveError>, ghost ids: seq<int>)
    requires q.Valid() && store.Valid() && KnownWallets(store.Snapshot(), q.items)
    requires forall tx :: tx in Transactions(Taken(q.items)) ==> Resolved(tx)
    modifies q, store
    ensures q.Valid() && store.Valid()
    ensures q.items == Rest(old(q.items)) && q.removed == old(q.removed) + Taken(old(q.items)) && q.appended == old(q.appended)
    ensures old(q.items) == [] ==> err.None? && store.Snapshot() == old(store.Snapshot())
    ensures err.None? <==> CanSave(old(store.Snapshot()), Transactions(Taken(old(q.items))))
    ensures err.Some? ==> store.Snapshot() == old(store.Snapshot())
    ensures err.None? && old(q.items) != [] ==>
              RunsTo(old(store.Snapshot()), old(q.items), ConsumerEvents(ids), store.Snapshot(), q.items)
  {
    hide Commits, Taken, Rest, Transactions, SignaturesIds, LastSignature, Accounts, Resolved, CanSave, FreshIds, SaveBatch, AddressesSaved;
    hide Queue.Valid, DbOk, RunsTo, ConsumerEvents, BatchAddresses, Of, Zip, KnownWallets;
    KnownFirst(store.Snapshot(), q.items);
    ghost var t, items, db := store.Snapshot(), q.items, store.View();
    var u := q.ProcessMessages();
    if u.walletId == -1 {
      QueueWasEmpty(t, items);
      return None, [];
    }
    TakenFirst(items);
    assert u.walletId == items[0].wallet;
    err, ids := store.SaveTransactions(u, AsWritten);
    assert u.View().transactions == Transactions(Taken(items));
    CommitsIffCanSave(db, t, u.transactions);
    if err.Some? {
      return;
    }
    SavedSnapshot(db, u.transactions, ids, store.address);
    store.UpdateUser(u);
    ConsumerRuns(t, items, ids);
  }

  lemma KnownFirst(t: Tables, items: seq<Msg>)
    requires KnownWallets(t, items)
    ensures items != [] ==> items[0].wallet in t.wallet && items[0].wallet in t.links
    ensures items == [] ==> BatchOf(Taken(items)).walletId == -1
  {
    assert items != [] ==> items[0] in items;
  }

  lemma QueueWasEmpty(t: Tables, items: seq<Msg>)
    requires BatchOf(Taken(items)).walletId == -1
    ensures items == [] && CanSave(t, Transactions(Taken(items)))
  {
    if items != [] {
      TakenFirst(items);
    }
  }

  lemma CommitsIffCanSave(db: Db, t: Tables, txs: seq<OnchainTx>)
    requires t.signature == db.signature && forall tx :: tx in txs ==> Resolved(tx)
    ensures Commits(db, txs, AsWritten) <==> CanSave(t, txs)
  {
    hide Resolved;
    ResolvedBatch(txs);
    assert forall i :: 0 <= i < |txs| ==> txs[i] in txs;
  }

  lemma SavedSnapshot(db: Db, txs: seq<OnchainTx>, ids: seq<int>, address: map<string, int>)
    requires |ids| == |txs| && SaveBatch(db, txs, ids, address, AsWritten).Ok?
    ensures Distinct(Signatures(txs))
    ensures SaveBatch(db, txs, ids, address, AsWritten).value.signature == db.signature + Zip(Signatures(txs), ids)
  {
    hide Zip, Insert, ComponentsOf, AllKnown, Restrict, BatchAddresses;
  }

  // ---- the producer ----

  /** The on-chain messages for the first `n` signatures of a page. */
  function OnchainMsgs(w: nat, page: seq<string>, n: nat, saved: seq<SavedRow>, ledger: map<string, OnchainTx>,
                       parsed: string -> seq<AssociatedAccount>): seq<Msg>
    requires n <= |page| && forall x :: x in page ==> x in ledger
  {
    if n == 0 then []
    else
      var x := page[n - 1];
      OnchainMsgs(w, page, n - 1, saved, ledger, parsed)
      + if RowFor(saved, x) then [] else [Onchain(w, ledger[x], parsed(x))]
  }

  function ParsedAll(order: seq<string>, parsed: string -> seq<AssociatedAccount>): (r: seq<seq<AssociatedAccount>>)
    ensures |r| == |order|
  {
    seq(|order|, i requires 0 <= i < |order| => parsed(order[i]))
  }

  /** What one page adds to the queue, when the saved ones were read in `order`. */
  ghost function PageMsgs(t: Tables, w: nat, page: seq<string>, order: seq<string>, ledger: map<string, OnchainTx>,
                          parsed: string -> seq<AssociatedAccount>): seq<Msg>
    requires IsSavedQuery(t, page, order) && forall x :: x in page ==> x in ledger
  {
    var saved := ReadRows(t, order);
    SavedMsgs(w, saved, ParsedAll(order, parsed)) + OnchainMsgs(w, page, |page|, saved, ledger, parsed)
  }

  function Scans(page: seq<string>, n: nat, parsed: string -> seq<AssociatedAccount>): (es: seq<Event>)
    requires n <= |page|
    ensures |es| == n
  {
    seq(n, i requires 0 <= i < n => ScanNext(parsed(page[i])))
  }

  /** The events of one page. */
  function PageEvents(page: seq<string>, order: seq<string>, parsed: string -> seq<AssociatedAccount>): seq<Event> {
    [ReadSaved(order), PublishSaved(ParsedAll(order, parsed))] + Scans(page, |page|, parsed) + [EndPage]
  }

  lemma {:induction false} ScanRuns(s: State, n: nat, parsed: string -> seq<AssociatedAccount>)
    requires var p := s.producer; p.Scanning? && p.next == 0 && n <= |p.page| && forall x :: x in p.page ==> x in s.ledger
    ensures var p := s.producer;
            && Legal(s, Scans(p.page, n, parsed))
            && Run(s, Scans(p.page, n, parsed)) ==
               s.(producer := p.(next := n), queue := s.queue + OnchainMsgs(p.wallet, p.page, n, p.saved, s.ledger, parsed))
  {
    hide Legal, Run, RowFor;
    var p := s.producer;
    if n == 0 {
      RunNone(s);
    } else {
      ScanRuns(s, n - 1, parsed);
      var front, e := Scans(p.page, n - 1, parsed), ScanNext(parsed(p.page[n - 1]));
      assert Scans(p.page, n, parsed) == front + [e];
      assert p.page[n - 1] in p.page;
      ThenOne(s, front, e);
    }
  }

  lemma RunNone(s: State)
    ensures Legal(s, []) && Run(s, []) == s
  {
  }

  /** One page is a run of the producer's events. */
  lemma PageRuns(s: State, order: seq<string>, parsed: string -> seq<AssociatedAccount>)
    requires s.producer.Reading? && IsSavedQuery(s.t, s.producer.page, order)
    requires forall x :: x in s.producer.page ==> x in s.ledger
    ensures var p := s.producer;
            && Legal(s, PageEvents(p.page, order, parsed))
            && Run(s, PageEvents(p.page, order, parsed)) ==
               s.(queue := s.queue + PageMsgs(s.t, p.wallet, p.page, order, s.ledger, parsed),
                  producer := if |p.page| < LIMIT then Finishing(p.wallet, p.until, p.newLast)
                              else Fetching(p.wallet, p.until, p.newLast))
  {
    hide Legal, Run, SavedMsgs, OnchainMsgs, ReadRows, Distinct;
    var p, saved, accs := s.producer, ReadRows(s.t, order), ParsedAll(order, parsed);
    assert |saved| == |order| by { RowsSize(s.t, order); }
    var e1, e2, scans := ReadSaved(order), PublishSaved(accs), Scans(p.page, |p.page|, parsed);
    RunOne(s, e1);
    ThenOne(s, [e1], e2);
    assert [e1] + [e2] == [e1, e2];
    var s2 := Run(s, [e1, e2]);
    assert s2 == s.(producer := Scanning(p.wallet, p.until, p.newLast, p.page, saved, 0), queue := s.queue + SavedMsgs(p.wallet, saved, accs));
    ScanRuns(s2, |p.page|, parsed);
    RunConcat(s, [e1, e2], scans);
    ThenOne(s, [e1, e2] + scans, EndPage);
    assert s2.queue + OnchainMsgs(p.wallet, p.page, |p.page|, saved, s.ledger, parsed)
        == s.queue + PageMsgs(s.t, p.wallet, p.page, order, s.ledger, parsed);
  }

  /**
   * The messages of a page, one by one: a saved row with its id for each saved signature, then an on-chain
   * transaction for each unsaved one, in page order; each with what was parsed for its own signature.
   */
  lemma PageMessages(t: Tables, w: nat, page: seq<string>, order: seq<string>, ledger: map<string, OnchainTx>,
                     parsed: string -> seq<AssociatedAccount>) returns (pos: seq<int>)
    requires IsSavedQuery(t, page, order) && forall x :: x in page ==> x in ledger
    ensures Increasing(pos) && forall i: int :: i in pos <==> 0 <= i < |page| && page[i] !in t.signature
    ensures var ms, m := PageMsgs(t, w, page, order, ledger, parsed), |order|;
            && |ms| == m + |pos|
            && (forall i :: 0 <= i < m ==>
                  order[i] in t.signature && ms[i] == Saved(w, t.signature[order[i]], parsed(order[i])))
            && forall i :: 0 <= i < |pos| ==>
                 0 <= pos[i] < |page| && page[pos[i]] in ledger
                 && ms[m + i] == Onchain(w, ledger[page[pos[i]]], parsed(page[pos[i]]))
  {
    hide OnchainMsgs, IsSavedQuery;
    QueryKnown(t, page, order);
    var rows := ReadRows(t, order);
    pos := OnchainAt(w, page, |page|, rows, ledger, parsed);
    RowsSaved(t, page, order);
  }

  lemma QueryKnown(t: Tables, page: seq<string>, order: seq<string>)
    requires IsSavedQuery(t, page, order)
    ensures forall x :: x in order ==> x in t.signature
  {
  }

  lemma RowsSaved(t: Tables, page: seq<string>, order: seq<string>)
    requires IsSavedQuery(t, page, order)
    ensures forall i :: 0 <= i < |page| ==> (RowFor(ReadRows(t, order), page[i]) <==> page[i] in t.signature)
  {
    forall i | 0 <= i < |page| && page[i] in t.signature
      ensures RowFor(ReadRows(t, order), page[i])
    {
      assert page[i] in order;
      var k :| 0 <= k < |order| && order[k] == page[i];
      assert ReadRows(t, order)[k].signature == page[i];
    }
  }

  lemma {:induction false} OnchainAt(w: nat, page: seq<string>, n: nat, saved: seq<SavedRow>, ledger: map<string, OnchainTx>,
                                     parsed: string -> seq<AssociatedAccount>) returns (pos: seq<int>)
    requires n <= |page| && forall x :: x in page ==> x in ledger
    ensures Increasing(pos) && forall i: int :: i in pos <==> 0 <= i < n && !RowFor(saved, page[i])
    ensures var ms := OnchainMsgs(w, page, n, saved, ledger, parsed);
            && |ms| == |pos|
            && forall i :: 0 <= i < |pos| ==>
                 0 <= pos[i] < n && page[pos[i]] in ledger && ms[i] == Onchain(w, ledger[page[pos[i]]], parsed(page[pos[i]]))
  {
    hide RowFor;
    if n == 0 {
      pos := [];
    } else {
      var front := OnchainAt(w, page, n - 1, saved, ledger, parsed);
      assert page[n - 1] in page;
      pos := if RowFor(saved, page[n - 1]) then front else front + [n - 1];
    }
  }

  /** `savedTransactions.Get`, as far as the queue needs it: the rows of the page that are saved, in any order. */
  method SelectSaved(store: Store, page: seq<string>) returns (saved: seq<SavedRow>)
    ensures IsSavedQuery(store.Snapshot(), page, OrderOf(saved)) && saved == ReadRows(store.Snapshot(), OrderOf(saved))
  {
    var rest := set x | x in page && x in store.signature;
    saved := [];
    while rest != {}
      invariant forall x :: x in rest ==> x in page && x in store.signature && x !in OrderOf(saved)
      invariant forall x :: x in OrderOf(saved) ==> x in page && x in store.signature
      invariant forall x :: x in page && x in store.signature && x !in rest ==> x in OrderOf(saved)
      invariant Distinct(OrderOf(saved)) && saved == ReadRows(store.Snapshot(), OrderOf(saved))
      decreases rest
    {
      var x :| x in rest;
      var row := SavedRow(x, store.signature[x]);
      assert OrderOf(saved + [row]) == OrderOf(saved) + [x];
      saved := saved + [row];
      rest := rest - {x};
    }
  }

  function OrderOf(saved: seq<SavedRow>): seq<string> {
    seq(|saved|, i requires 0 <= i < |saved| => saved[i].signature)
  }

  /** `transactions.contains`. */
  method Contains(saved: seq<SavedRow>, x: string) returns (found: bool)
    ensures found <==> RowFor(saved, x)
  {
    for i := 0 to |saved|
      invariant forall k :: 0 <= k < i ==> saved[k].signature != x
    {
      if saved[i].signature == x {
        return true;
      }
    }
    found := false;
  }

  /** The saved part of a page, appended as one block. */
  method PublishRows(q: Queue, w: nat, saved: seq<SavedRow>, ghost order: seq<string>, parsed: string -> seq<AssociatedAccount>)
    requires q.Valid() && |saved| == |order| && forall i :: 0 <= i < |saved| ==> saved[i].signature == order[i]
    modifies q
    ensures q.Valid() && q.removed == old(q.removed)
    ensures q.items == old(q.items) + SavedMsgs(w, saved, ParsedAll(order, parsed))
  {
    ghost var published := SavedMsgs(w, saved, ParsedAll(order, parsed));
    if |saved| > 0 {
      var messages: seq<Msg> := [];
      for i := 0 to |saved|
        invariant messages == published[..i]
      {
        messages := messages + [Saved(w, saved[i].id, parsed(saved[i].signature))];
      }
      q.AppendMessages(messages);
    }
  }

  /** One round of the loop of `fetchAndParse`, given the answer of the RPC. */
  method FetchPage(q: Queue, store: Store, w: nat, page: seq<string>, ledger: map<string, OnchainTx>,
                   parsed: string -> seq<AssociatedAccount>) returns (isLast: bool, ghost order: seq<string>)
    requires q.Valid() && forall x :: x in page ==> x in ledger
    modifies q
    ensures q.Valid() && q.removed == old(q.removed)
    ensures isLast <==> |page| < 100
    ensures IsSavedQuery(store.Snapshot(), page, order)
    ensures q.items == old(q.items) + PageMsgs(store.Snapshot(), w, page, order, ledger, parsed)
  {
    hide RowFor, Of, Distinct, Queue.Valid;
    isLast := |page| < LIMIT;
    var saved := SelectSaved(store, page);
    order := OrderOf(saved);
    PublishRows(q, w, saved, order, parsed);
    ghost var published := q.items;
    for i := 0 to |page|
      invariant q.Valid() && q.removed == old(q.removed)
      invariant q.items == published + OnchainMsgs(w, page, i, saved, ledger, parsed)
    {
      var found := Contains(saved, page[i]);
      if found {
        continue;
      }
      assert page[i] in page;
      q.Append(Onchain(w, ledger[page[i]], parsed(page[i])));
    }
  }

  /** `orders` lists, page by page, the order in which the saved rows of the first pages were read. */
  ghost predicate AreQueries(t: Tables, answers: seq<seq<string>>, orders: seq<seq<string>>) {
    |orders| <= |answers| && forall i :: 0 <= i < |orders| ==> IsSavedQuery(t, answers[i], orders[i])
  }

  predicate AllIn(answers: seq<seq<string>>, ledger: map<string, OnchainTx>) {
    forall i :: 0 <= i < |answers| ==> forall x :: x in answers[i] ==> x in ledger
  }

  ghost function PagesMsgs(t: Tables, w: nat, answers: seq<seq<string>>, orders: seq<seq<string>>, ledger: map<string, OnchainTx>,
                           parsed: string -> seq<AssociatedAccount>): seq<Msg>
    requires AreQueries(t, answers, orders) && AllIn(answers, ledger)
    decreases |orders|
  {
    if orders == [] then []
    else
      var n := |orders| - 1;
      PagesMsgs(t, w, answers, orders[..n], ledger, parsed) + PageMsgs(t, w, answers[n], orders[n], ledger, parsed)
  }

  /** How many answers are looked at before one is short; all of them when none is. */
  function FullPages(answers: seq<seq<string>>): (n: nat)
    ensures n <= |answers|
    ensures forall i :: 0 <= i < n ==> |answers[i]| >= 100
    ensures n < |answers| ==> |answers[n]| < 100
  {
    if answers == [] || |answers[0]| < LIMIT then 0 else 1 + FullPages(answers[1..])
  }

  /**
   * `fetchAndParse` over the answers its requests get. It sends the marker exactly when some answer is
   * short; the marker comes last, names the newest signature of the first answer, and follows one block
   * of messages for every non-empty answer up to the short one.
   */
  method FetchAndParse(q: Queue, store: Store, w: nat, answers: seq<seq<string>>, ledger: map<string, OnchainTx>,
                       parsed: string -> seq<AssociatedAccount>) returns (finished: bool, ghost orders: seq<seq<string>>)
    requires q.Valid() && AllIn(answers, ledger) && "" !in ledger
    modifies q
    ensures q.Valid() && q.removed == old(q.removed)
    ensures finished <==> exists k :: 0 <= k < |answers| && |answers[k]| < 100
    ensures finished <==> FullPages(answers) < |answers|
    ensures |orders| == FullPages(answers) + if finished && answers[FullPages(answers)] != [] then 1 else 0
    ensures AreQueries(store.Snapshot(), answers, orders)
    ensures q.items == old(q.items) + PagesMsgs(store.Snapshot(), w, answers, orders, ledger, parsed)
                       + if finished then [Last(w, if answers[0] == [] then "" else answers[0][0])] else []
  {
    hide PageMsgs, PagesMsgs, AreQueries, FullPages, AllIn, Queue.Valid, IsSavedQuery, Distinct, Of;
    var newLast := "";
    orders := [];
    NoPages(store.Snapshot(), w, answers, ledger, parsed);
    ghost var t, before := store.Snapshot(), q.items;
    for k := 0 to |answers|
      invariant q.Valid() && q.removed == old(q.removed)
      invariant |orders| == k && AreQueries(t, answers, orders)
      invariant q.items == before + PagesMsgs(t, w, answers, orders, ledger, parsed)
      invariant forall i :: 0 <= i < k ==> |answers[i]| >= 100
      invariant newLast == if k == 0 then "" else answers[0][0]
      invariant k > 0 ==> newLast != ""
    {
      var page := answers[k];
      if page == [] {
        FullPagesIs(answers, k);
        q.Append(Last(w, newLast));
        return true, orders;
      }
      AnswerIn(answers, ledger, k);
      assert page[0] in page;
      if newLast == "" {
        newLast := page[0];
      }
      ghost var order;
      var isLast;
      isLast, order := FetchPage(q, store, w, page, ledger, parsed);
      OneMorePage(t, w, answers, orders, order, ledger, parsed);
      orders := orders + [order];
      if isLast {
        FullPagesIs(answers, k);
        q.Append(Last(w, newLast));
        return true, orders;
      }
    }
    FullPagesIs(answers, |answers|);
    finished := false;
  }

  lemma NoPages(t: Tables, w: nat, answers: seq<seq<string>>, ledger: map<string, OnchainTx>, parsed: string -> seq<AssociatedAccount>)
    requires AllIn(answers, ledger)
    ensures AreQueries(t, answers, []) && PagesMsgs(t, w, answers, [], ledger, parsed) == []
  {
  }

  lemma AnswerIn(answers: seq<seq<string>>, ledger: map<string, OnchainTx>, k: nat)
    requires AllIn(answers, ledger) && k < |answers|
    ensures forall x :: x in answers[k] ==> x in ledger
  {
  }

  lemma OneMorePage(t: Tables, w: nat, answers: seq<seq<string>>, orders: seq<seq<string>>, order: seq<string>,
                    ledger: map<string, OnchainTx>, parsed: string -> seq<AssociatedAccount>)
    requires AreQueries(t, answers, orders) && AllIn(answers, ledger) && |orders| < |answers|
    requires IsSavedQuery(t, answers[|orders|], order)
    ensures AreQueries(t, answers, orders + [order])
    ensures PagesMsgs(t, w, answers, orders + [order], ledger, parsed) ==
            PagesMsgs(t, w, answers, orders, ledger, parsed) + PageMsgs(t, w, answers[|orders|], order, ledger, parsed)
  {
    hide PageMsgs, IsSavedQuery;
    assert (orders + [order])[..|orders|] == orders;
  }

  lemma FullPagesIs(answers: seq<seq<string>>, n: nat)
    requires n <= |answers| && (n < |answers| ==> |answers[n]| < 100)
    requires forall i :: 0 <= i < n ==> |answers[i]| >= 100
    ensures FullPages(answers) == n
  {
  }
}
