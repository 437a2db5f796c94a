/** Runs of the pipeline that end where one might expect it never to get. */
module Counterexamples {
  import opened Common
  import opened Ledger
  import opened MsgQueue
  import opened Pipeline
  import opened WalletInvariant
  import opened Safety
  import opened Recovery
  import opened Rounds
  import opened LivesRecovery

  const A: string := "a"
  const TX: OnchainTx := OnchainTx(A, [], [], [], 0, false, 0, 0, 0)
  const W: nat := 1

  /** One wallet, one signature. */
  function World(t: Tables, queue: seq<Msg>, p: Producer, c: Consumer, synced: map<nat, nat>): State {
    State(map[A := TX], map[W := [A]], t, queue, p, c, synced)
  }

  function Empty(): Tables {
    Tables(map[], map[W := WalletRow(None, 0)], map[W := {}])
  }

  function Stored(): Tables {
    Tables(map[A := 7], map[W := WalletRow(Some(7), 1)], map[W := {7}])
  }

  lemma RankA()
    ensures Rank([A], A) == 1 && Rank([A], "") == 0
    ensures Page([A], "") == [A] && Page([A], A) == []
  {
    RankAt([A], 0);
  }

  /** Some run leads from one state to the other. */
  ghost predicate Leads(s: State, s': State) {
    exists es :: Legal(s, es) && Run(s, es) == s'
  }

  lemma Go(s0: State, s: State, e: Event, s': State)
    requires Leads(s0, s) && Enabled(s, e) && Apply(s, e) == s'
    ensures Leads(s0, s')
  {
    hide Enabled, Apply;
    var es :| Legal(s0, es) && Run(s0, es) == s;
    ThenOne(s0, es, e);
    assert Run(s0, es + [e]) == s';
  }

  lemma Here(s: State)
    ensures Leads(s, s)
  {
    hide Enabled, Apply;
    var none: seq<Event> := [];
    assert Legal(s, none) && Run(s, none) == s;
  }

  lemma LeadsReachable(s: State, s': State)
    requires Init(s) && Leads(s, s')
    ensures Reachable(s')
  {
    hide Enabled, Apply, Init;
    var es :| Legal(s, es) && Run(s, es) == s';
    assert Init(s) && Legal(s, es) && Run(s, es) == s';
  }

  const SEEN: map<nat, nat> := map[W := 1]

  /** A sync that has loaded no watermark reads the page and queues the transaction, not saved yet. */
  lemma FirstSync(s0: State, q: seq<Msg>, synced: map<nat, nat>)
    requires Leads(s0, World(Empty(), q, Fetching(W, "", ""), Free, synced))
    ensures Leads(s0, World(Empty(), q + [Onchain(W, TX, [])] + [Last(W, A)], Idle, Free, synced[W := 1]))
  {
    hide Leads, Rank;
    RankA();
    var t := Empty();
    var scan := World(t, q, Scanning(W, "", A, [A], [], 0), Free, synced);
    FirstPage(s0, q, synced);
    var q1 := q + [Onchain(W, TX, [])];
    var done := World(t, q1, Scanning(W, "", A, [A], [], 1), Free, synced);
    Go(s0, scan, ScanNext([]), done);
    Go(s0, done, EndPage, World(t, q1, Finishing(W, "", A), Free, synced));
    Go(s0, World(t, q1, Finishing(W, "", A), Free, synced), SendMarker,
       World(t, q1 + [Last(W, A)], Idle, Free, synced[W := 1]));
  }

  lemma FirstPage(s0: State, q: seq<Msg>, synced: map<nat, nat>)
    requires Leads(s0, World(Empty(), q, Fetching(W, "", ""), Free, synced))
    ensures Leads(s0, World(Empty(), q, Scanning(W, "", A, [A], [], 0), Free, synced))
  {
    hide Leads, Rank;
    RankA();
    var t := Empty();
    Go(s0, World(t, q, Fetching(W, "", ""), Free, synced), Fetch, World(t, q, Reading(W, "", A, [A]), Free, synced));
    assert ReadRows(t, []) == [];
    Go(s0, World(t, q, Reading(W, "", A, [A]), Free, synced), ReadSaved([]),
       World(t, q, Publishing(W, "", A, [A], []), Free, synced));
    assert q + SavedMsgs(W, [], []) == q;
    Go(s0, World(t, q, Publishing(W, "", A, [A], []), Free, synced), PublishSaved([]),
       World(t, q, Scanning(W, "", A, [A], [], 0), Free, synced));
  }

  /** A sync that loaded no watermark but reads its page after the transaction was saved. */
  lemma StaleSync(s0: State)
    requires Leads(s0, World(Stored(), [], Fetching(W, "", ""), Free, SEEN))
    ensures Leads(s0, World(Stored(), [Saved(W, 7, []), Last(W, A)], Idle, Free, SEEN))
  {
    hide Leads, Rank;
    RankA();
    var t, row, q := Stored(), [SavedRow(A, 7)], [Saved(W, 7, [])];
    StalePage(s0);
    assert row[0].signature == A;
    Go(s0, World(t, q, Scanning(W, "", A, [A], row, 0), Free, SEEN), ScanNext([]),
       World(t, q, Scanning(W, "", A, [A], row, 1), Free, SEEN));
    Go(s0, World(t, q, Scanning(W, "", A, [A], row, 1), Free, SEEN), EndPage,
       World(t, q, Finishing(W, "", A), Free, SEEN));
    assert q + [Last(W, A)] == [Saved(W, 7, []), Last(W, A)];
    Go(s0, World(t, q, Finishing(W, "", A), Free, SEEN), SendMarker, World(t, q + [Last(W, A)], Idle, Free, SEEN));
  }

  lemma StalePage(s0: State)
    requires Leads(s0, World(Stored(), [], Fetching(W, "", ""), Free, SEEN))
    ensures Leads(s0, World(Stored(), [Saved(W, 7, [])], Scanning(W, "", A, [A], [SavedRow(A, 7)], 0), Free, SEEN))
  {
    hide Leads, Rank;
    RankA();
    var t, row, q := Stored(), [SavedRow(A, 7)], [Saved(W, 7, [])];
    Go(s0, World(t, [], Fetching(W, "", ""), Free, SEEN), Fetch, World(t, [], Reading(W, "", A, [A]), Free, SEEN));
    assert ReadRows(t, [A]) == row;
    Go(s0, World(t, [], Reading(W, "", A, [A]), Free, SEEN), ReadSaved([A]),
       World(t, [], Publishing(W, "", A, [A], row), Free, SEEN));
    assert [] + SavedMsgs(W, row, [[]]) == q;
    Go(s0, World(t, [], Publishing(W, "", A, [A], row), Free, SEEN), PublishSaved([[]]),
       World(t, q, Scanning(W, "", A, [A], row, 0), Free, SEEN));
  }

  /** A sync that starts with nothing new sends an empty marker. */
  lemma BlankSync(s0: State, q: seq<Msg>)
    requires Leads(s0, World(Stored(), q, Idle, Free, SEEN))
    ensures Leads(s0, World(Stored(), q + [Last(W, "")], Idle, Free, SEEN))
  {
    hide Leads, Rank, Watermark;
    RankA();
    var t := Stored();
    assert HasId(t, A, 7);
    WatermarkIs(t, W, A);
    Go(s0, World(t, q, Idle, Free, SEEN), Start(W), World(t, q, Fetching(W, A, ""), Free, SEEN));
    Go(s0, World(t, q, Fetching(W, A, ""), Free, SEEN), Fetch, World(t, q, Finishing(W, A, ""), Free, SEEN));
    Go(s0, World(t, q, Finishing(W, A, ""), Free, SEEN), SendMarker, World(t, q + [Last(W, "")], Idle, Free, SEEN));
  }

  // ---- small queues ----

  lemma {:induction false} Sizes(ms: seq<Msg>)
    requires forall i :: 0 <= i < |ms| && !ms[i].Last? ==> ms[i].accounts == []
    ensures |Transactions(ms)| <= |ms| && |SignaturesIds(ms)| <= |ms| && Accounts(ms) == []
  {
    if ms != [] {
      Sizes(ms[..|ms| - 1]);
    }
  }

  /** A short queue of one wallet is taken whole. */
  lemma TakenWhole(ms: seq<Msg>)
    requires 0 < |ms| <= 20
    requires forall i :: 0 <= i < |ms| ==> ms[i].wallet == W && (!ms[i].Last? ==> ms[i].accounts == [])
    ensures Taken(ms) == ms && Rest(ms) == []
  {
    hide Of, Rest, Transactions, SignaturesIds, Accounts, LastSignature;
    var n := Scanned(ms);
    TakenPrefix(ms, W);
    Sizes(ms[..n]);
    assert n == |ms|;
    assert ms[..n] == ms;
  }

  lemma Snoc(ms: seq<Msg>, m: Msg)
    ensures Transactions(ms + [m]) == Transactions(ms) + if m.Onchain? then [m.tx] else []
    ensures SignaturesIds(ms + [m]) == SignaturesIds(ms) + if m.Saved? then [m.signatureId] else []
    ensures LastSignature(ms + [m]) == if m.Last? then m.signature else LastSignature(ms)
    ensures LastMark(ms + [m]) == if Marks(m) then m.signature else LastMark(ms)
  {
    assert (ms + [m])[..|ms|] == ms;
  }

  const NEW: seq<Msg> := [Onchain(W, TX, []), Last(W, A)]
  const MASKED: seq<Msg> := [Saved(W, 7, []), Last(W, A)] + [Last(W, "")]

  lemma NewFields()
    ensures Transactions(NEW) == [TX] && Signatures([TX]) == [A] && SignaturesIds(NEW) == [] && LastSignature(NEW) == A
    ensures Transactions(NEW + NEW) == [TX, TX]
  {
    hide Transactions, SignaturesIds, LastSignature, LastMark;
    Snoc([], Onchain(W, TX, []));
    NoFields();
    assert [] + [Onchain(W, TX, [])] == [Onchain(W, TX, [])];
    Snoc([Onchain(W, TX, [])], Last(W, A));
    assert NEW == [Onchain(W, TX, [])] + [Last(W, A)];
    Snoc(NEW, Onchain(W, TX, []));
    Snoc(NEW + [Onchain(W, TX, [])], Last(W, A));
    assert NEW + NEW == NEW + [Onchain(W, TX, [])] + [Last(W, A)];
  }

  lemma NoFields()
    ensures Transactions([]) == [] && SignaturesIds([]) == [] && LastSignature([]) == "" && LastMark([]) == ""
  {
  }

  lemma MaskedFields()
    ensures Transactions(MASKED) == [] && SignaturesIds(MASKED) == [7]
    ensures LastSignature(MASKED) == "" && LastMark(MASKED) == A
  {
    hide Transactions, SignaturesIds, LastSignature, LastMark;
    NoFields();
    Snoc([], Saved(W, 7, []));
    assert [] + [Saved(W, 7, [])] == [Saved(W, 7, [])];
    Snoc([Saved(W, 7, [])], Last(W, A));
    assert [Saved(W, 7, []), Last(W, A)] == [Saved(W, 7, [])] + [Last(W, A)];
    Snoc([Saved(W, 7, []), Last(W, A)], Last(W, ""));
  }

  /** Committing the batch of the first sync while another sync of the wallet has loaded its request. */
  lemma FirstBatch(s0: State)
    requires Leads(s0, World(Empty(), NEW, Fetching(W, "", ""), Free, SEEN))
    ensures Leads(s0, World(Stored(), [], Fetching(W, "", ""), Free, SEEN))
  {
    hide Leads, Taken, Rest, Transactions, SignaturesIds, LastSignature, LinkTables, Signatures, CanSave, FreshIds;
    var p := Fetching(W, "", "");
    var t1 := Tables(map[A := 7], map[W := WalletRow(None, 0)], map[W := {}]);
    var t2 := Tables(map[A := 7], map[W := WalletRow(None, 1)], map[W := {7}]);
    FirstSave(s0);
    NewFields();
    FirstLink();
    Go(s0, World(t1, [], p, Linking(NEW, [7]), SEEN), Link, World(t2, [], p, Marking(NEW), SEEN));
    Go(s0, World(t2, [], p, Marking(NEW), SEEN), Mark, World(Stored(), [], p, Free, SEEN));
  }

  lemma FirstSave(s0: State)
    requires Leads(s0, World(Empty(), NEW, Fetching(W, "", ""), Free, SEEN))
    ensures Leads(s0, World(Tables(map[A := 7], map[W := WalletRow(None, 0)], map[W := {}]), [],
                            Fetching(W, "", ""), Linking(NEW, [7]), SEEN))
  {
    hide Leads, Taken, Rest, Transactions, SignaturesIds, LastSignature, Signatures, CanSave, FreshIds, SaveTables;
    var p := Fetching(W, "", "");
    TakenWhole(NEW);
    NewFields();
    Go(s0, World(Empty(), NEW, p, Free, SEEN), Take, World(Empty(), [], p, Saving(NEW), SEEN));
    assert [] + [7] == [7];
    FirstNew();
    Go(s0, World(Empty(), [], p, Saving(NEW), SEEN), Save([7]),
       World(Tables(map[A := 7], map[W := WalletRow(None, 0)], map[W := {}]), [], p, Linking(NEW, [7]), SEEN));
  }

  lemma FirstNew()
    ensures Signatures([TX]) == [A] && CanSave(Empty(), [TX]) && FreshIds(Empty(), [7])
    ensures SaveTables(Empty(), [A], [7]) == Tables(map[A := 7], map[W := WalletRow(None, 0)], map[W := {}])
  {
    assert SaveTables(Empty(), [A], [7]).signature == map[A := 7];
  }

  lemma FirstLink()
    ensures LinkTables(Tables(map[A := 7], map[W := WalletRow(None, 0)], map[W := {}]), W, [7])
            == Tables(map[A := 7], map[W := WalletRow(None, 1)], map[W := {7}])
  {
    assert Elements([7]) == {7};
    assert {7} - {} == {7};
  }

  lemma MaskedBatch(s0: State)
    requires Leads(s0, World(Stored(), MASKED, Idle, Free, SEEN))
    ensures Leads(s0, World(Stored(), [], Idle, Marking(MASKED), SEEN))
  {
    hide Leads, Taken, Rest, Transactions, SignaturesIds, LastSignature, CanSave, FreshIds, SaveTables, LinkTables;
    TakenWhole(MASKED);
    MaskedFields();
    var t := Stored();
    Go(s0, World(t, MASKED, Idle, Free, SEEN), Take, World(t, [], Idle, Saving(MASKED), SEEN));
    NothingNew(t);
    assert [7] + [] == [7];
    Go(s0, World(t, [], Idle, Saving(MASKED), SEEN), Save([]), World(t, [], Idle, Linking(MASKED, [7]), SEEN));
    Go(s0, World(t, [], Idle, Linking(MASKED, [7]), SEEN), Link, World(t, [], Idle, Marking(MASKED), SEEN));
  }

  /** A batch without transactions saves nothing; linking a linked signature changes nothing. */
  lemma NothingNew(t: Tables)
    requires t == Stored()
    ensures CanSave(t, []) && FreshIds(t, []) && SaveTables(t, Signatures([]), []) == t
    ensures LinkTables(t, W, [7]) == t
  {
    assert Elements([7]) == {7} && {7} - {7} == {};
  }

  // ---- the two runs ----

  /** One sync has sent everything and the next has just loaded its request, with no watermark yet. */
  lemma TwoSyncs() returns (s0: State)
    ensures Init(s0) && Leads(s0, World(Empty(), NEW, Fetching(W, "", ""), Free, SEEN))
  {
    hide Leads;
    s0 := World(Empty(), [], Idle, Free, map[]);
    var t := Empty();
    assert Watermark(t, W) == "";
    Here(s0);
    Go(s0, s0, Start(W), World(t, [], Fetching(W, "", ""), Free, map[]));
    FirstSync(s0, [], map[]);
    assert [] + [Onchain(W, TX, [])] + [Last(W, A)] == NEW;
    assert map[][W := 1] == SEEN;
    Go(s0, World(t, NEW, Idle, Free, SEEN), Start(W), World(t, NEW, Fetching(W, "", ""), Free, SEEN));
  }

  /**
   * An empty marker can overwrite a non-empty one in a batch: a sync loads the watermark just before the
   * batch of an earlier sync moves it, finds the same signatures again, and the next sync finds nothing.
   */
  lemma MaskedMarkerReachable() returns (s: State)
    ensures Reachable(s) && Enabled(s, Mark)
    ensures LastMark(s.consumer.taken) == A && LastSignature(s.consumer.taken) == ""
  {
    hide Leads, Init, LastMark, LastSignature;
    var s0 := TwoSyncs();
    FirstBatch(s0);
    StaleSync(s0);
    BlankSync(s0, [Saved(W, 7, []), Last(W, A)]);
    MaskedBatch(s0);
    s := World(Stored(), [], Idle, Marking(MASKED), SEEN);
    LeadsReachable(s0, s);
    MaskedFields();
  }

  /**
   * A second sync of a wallet before the first has drained queues its transactions twice; the batch then
   * violates the unique signature and the process stops.
   */
  lemma ResyncBeforeDrainStops() returns (s: State)
    ensures Reachable(s) && s.consumer.Saving?
    ensures !Distinct(Signatures(Transactions(s.consumer.taken))) && !CanSave(s.t, Transactions(s.consumer.taken))
  {
    hide Leads, Init, Taken, Rest, Transactions;
    var s0 := TwoSyncs();
    FirstSync(s0, NEW, SEEN);
    var both := NEW + NEW;
    assert NEW + [Onchain(W, TX, [])] + [Last(W, A)] == both;
    assert SEEN[W := 1] == SEEN;
    TakenWhole(both);
    s := World(Empty(), [], Idle, Saving(both), SEEN);
    Go(s0, World(Empty(), both, Idle, Free, SEEN), Take, s);
    LeadsReachable(s0, s);
    NewFields();
    assert Signatures([TX, TX])[0] == Signatures([TX, TX])[1];
  }

  // ---- two wallets that share a transaction ----

  const V: nat := 2

  /** Two wallets with the same one signature. */
  function Shared(): State {
    State(map[A := TX], map[W := [A], V := [A]],
          Tables(map[], map[W := WalletRow(None, 0), V := WalletRow(None, 0)], map[W := {}, V := {}]), [], Idle, Free, map[])
  }

  function NewOf(w: nat): seq<Msg> {
    [Onchain(w, TX, []), Last(w, A)]
  }

  /** A whole sync while nothing is saved. */
  lemma NewSync(s: State, w: nat) returns (es: seq<Event>)
    requires s.producer.Idle? && w in s.chain && s.chain[w] == [A] && s.ledger == map[A := TX]
    requires s.t.signature == map[] && w in s.t.wallet && s.t.wallet[w].lastSignatureId.None?
    ensures Legal(s, es) && Run(s, es) == s.(queue := s.queue + NewOf(w), synced := s.synced[w := 1])
  {
    hide Legal, Run, Rank, Page;
    RankA();
    assert Watermark(s.t, w) == "";
    RunOne(s, Start(w));
    assert Apply(s, Start(w)) == s.(producer := Fetching(w, "", ""));
    ThenOne(s, [Start(w)], Fetch);
    var s2 := s.(producer := Reading(w, "", A, [A]));
    assert Run(s, [Start(w)] + [Fetch]) == s2;
    PageRuns(s2, [], NoAccounts);
    NewPage(s.t, w);
    var middle := PageEvents([A], [], NoAccounts);
    RunConcat(s, [Start(w)] + [Fetch], middle);
    es := [Start(w)] + [Fetch] + middle;
    ThenOne(s, es, SendMarker);
    es := es + [SendMarker];
    assert s.queue + [Onchain(w, TX, [])] + [Last(w, A)] == s.queue + NewOf(w);
  }

  lemma NewPage(t: Tables, w: nat)
    requires t.signature == map[]
    ensures PageMsgs(t, w, [A], [], map[A := TX], NoAccounts) == [Onchain(w, TX, [])]
  {
    var rows := ReadRows(t, []);
    assert OnchainMsgs(w, [A], 0, rows, map[A := TX], NoAccounts) == [];
    assert OnchainMsgs(w, [A], 1, rows, map[A := TX], NoAccounts) == [] + [Onchain(w, TX, [])];
  }

  /** A short queue with no parsed accounts is scanned to its end. */
  lemma TakenShort(ms: seq<Msg>)
    requires 0 < |ms| <= 20 && forall i :: 0 <= i < |ms| && !ms[i].Last? ==> ms[i].accounts == []
    ensures Taken(ms) == Of(ms, ms[0].wallet) && Rest(ms) == Others(ms, ms[0].wallet)
  {
    hide Of, Others, Transactions, SignaturesIds, Accounts, LastSignature;
    var n, w := Scanned(ms), ms[0].wallet;
    TakenFirst(ms);
    var taken := Of(ms[..n], w);
    OfMembers(ms[..n], w);
    forall i | 0 <= i < |taken| && !taken[i].Last?
      ensures taken[i].accounts == []
    {
      assert taken[i] in ms[..n];
    }
    Sizes(taken);
    assert n == |ms|;
    assert ms[..n] == ms && Others(ms, w) + ms[n..] == Others(ms, w);
  }

  lemma BothTaken()
    ensures Taken(NewOf(W) + NewOf(V)) == NewOf(W) && Rest(NewOf(W) + NewOf(V)) == NewOf(V)
    ensures Taken(NewOf(V)) == NewOf(V)
  {
    hide Taken, Rest;
    var both := NewOf(W) + NewOf(V);
    TakenShort(both);
    OfConcat(NewOf(W), NewOf(V), W);
    OfOwn(NewOf(W), W, W);
    OfOwn(NewOf(V), V, W);
    OthersApart(NewOf(W), NewOf(V), W);
    TakenShort(NewOf(V));
    OfOwn(NewOf(V), V, V);
  }

  lemma {:induction false} OthersNone(a: seq<Msg>, w: nat)
    requires forall m :: m in a ==> m.wallet == w
    ensures Others(a, w) == []
  {
    if a != [] {
      OthersNone(a[..|a| - 1], w);
    }
  }

  /** Messages of other wallets stay, those of `w` leave. */
  lemma {:induction false} OthersApart(a: seq<Msg>, b: seq<Msg>, w: nat)
    requires (forall m :: m in a ==> m.wallet == w) && forall m :: m in b ==> m.wallet != w
    ensures Others(a + b, w) == b
    decreases |b|
  {
    if b == [] {
      OthersNone(a, w);
      assert a + b == a;
    } else {
      var front, m := b[..|b| - 1], b[|b| - 1];
      OthersApart(a, front, w);
      assert (a + b)[..|a + b| - 1] == a + front;
      assert Others(a + b, w) == front + [m];
    }
  }

  lemma NewFieldsOf(w: nat)
    ensures Transactions(NewOf(w)) == [TX] && Signatures([TX]) == [A]
  {
    hide Transactions, SignaturesIds, Accounts;
    var a, b := Onchain(w, TX, []), Last(w, A);
    OneMessage(a);
    OneMessage(b);
    ProjectConcat([a], [b]);
    assert NewOf(w) == [a] + [b];
  }

  /**
   * Two wallets whose histories share a transaction queue it twice when the second is synced before the
   * first is saved; the batch of the second then meets the row the first has stored.
   */
  lemma SharedSignatureStops() returns (s: State)
    ensures Reachable(s) && s.consumer.Saving? && Transactions(s.consumer.taken) == [TX]
    ensures TX.signature in s.t.signature && !CanSave(s.t, Transactions(s.consumer.taken)) && Storable(TX)
  {
    hide Leads, Taken, Rest, Transactions, SignaturesIds, LastSignature, Init, CanSave, FreshIds, Committed;
    var s0 := Shared();
    SharedInit();
    var s2 := SharedQueued();
    BothTaken();
    NewFieldsOf(W);
    NewFieldsOf(V);
    var s3 := s2.(consumer := Saving(NewOf(W)), queue := NewOf(V));
    Go(s0, s2, Take, s3);
    SharedSaves(s3.t);
    var s4 := SharedCommitted(s0, s3);
    s := s4.(consumer := Saving(NewOf(V)), queue := Rest(NewOf(V)));
    Go(s0, s4, Take, s);
    LeadsReachable(s0, s);
    StoredStops(s.t);
  }

  /** Both syncs are done and nothing is taken yet. */
  lemma SharedQueued() returns (s: State)
    ensures Leads(Shared(), s) && s.queue == NewOf(W) + NewOf(V) && s.producer.Idle? && s.consumer.Free? && s.t == Shared().t
  {
    hide Legal, Run;
    var s0 := Shared();
    var first := NewSync(s0, W);
    var second := NewSync(Run(s0, first), V);
    RunConcat(s0, first, second);
    s := Run(s0, first + second);
    assert [] + NewOf(W) == NewOf(W);
  }

  lemma SharedCommitted(s0: State, s: State) returns (s': State)
    requires Leads(s0, s) && s.consumer == Saving(NewOf(W)) && HasWallet(s, NewOf(W))
    requires Transactions(NewOf(W)) == [TX] && Signatures([TX]) == [A] && CanSave(s.t, [TX]) && FreshIds(s.t, [7])
    ensures Leads(s0, s') && s' == s.(consumer := Free, t := s'.t) && A in s'.t.signature
  {
    hide Legal, Run, Transactions, SignaturesIds, LastSignature, CanSave, FreshIds, Committed;
    var es :| Legal(s0, es) && Run(s0, es) == s;
    BatchCommits(s, NewOf(W), [7]);
    RunConcat(s0, es, [Save([7]), Link, Mark]);
    s' := Run(s0, es + [Save([7]), Link, Mark]);
    CanSaveDistinct(s.t, [TX]);
    CommittedKeeps(s.t, NewOf(W), [7]);
  }

  lemma SharedInit()
    ensures Init(Shared())
  {
  }

  lemma SharedSaves(t: Tables)
    requires t.signature == map[]
    ensures CanSave(t, [TX]) && FreshIds(t, [7])
  {
  }

  lemma CommittedKeeps(t: Tables, taken: seq<Msg>, ids: seq<int>)
    requires taken != [] && Transactions(taken) == [TX] && |ids| == 1 && Distinct(Signatures([TX]))
    requires taken[0].wallet in t.wallet && taken[0].wallet in t.links
    ensures A in Committed(t, taken, ids).signature
  {
    hide Transactions, SignaturesIds, LastSignature;
    assert Signatures([TX])[0] == A;
    assert A in Zip(Signatures([TX]), ids);
  }

  lemma StoredStops(t: Tables)
    requires A in t.signature
    ensures !CanSave(t, [TX])
  {
    assert TX in [TX];
  }
}
