/**
 * The wallet-sync pipeline as a step system: one producer goroutine, one consumer goroutine, the
 * queue between them, the tables they commit to, and an environment that extends wallet histories,
 * asks for syncs at any time and may stop the process between any two steps.
 *
 * Each event is one atomic action of the program: one RPC call, one query, one append under the
 * queue's lock, one walk under it, or one database commit. After `Mark` the program calls
 * `deduplicateTimestamps`; here that call is assumed to return. As the code stands it never does but
 * stops the process: `Lives` and `LivesRecovery` treat the runs of that program.
 */
module Pipeline {
  import opened Common
  import opened Ledger
  import opened MsgQueue

  // ---- tables ----

  datatype WalletRow = WalletRow(lastSignatureId: Option<int>, signatures: int)

  /**
   * `signature` is the table signature joined with transaction (both rows are always inserted by the
   * same commit), keyed by the unique value; `links` is wallet_to_signature grouped by wallet, a set
   * because (wallet_id, signature_id) is unique.
   */
  datatype Tables = Tables(
    signature: map<string, int>,
    wallet: map<nat, WalletRow>,
    links: map<nat, set<int>>)

  ghost predicate HasId(t: Tables, x: string, id: int) {
    HasRow(t.signature, x, id)
  }

  /** `wallet LEFT JOIN signature` on last_signature_id; "" stands for NULL. */
  ghost function Watermark(t: Tables, w: nat): string
    requires w in t.wallet
  {
    var last := t.wallet[w].lastSignatureId;
    if last.Some? && exists x :: HasId(t, x, last.value) then
      var x :| HasId(t, x, last.value);
      x
    else ""
  }

  function Signatures(txs: seq<OnchainTx>): (s: seq<string>)
    ensures |s| == |txs|
  {
    seq(|txs|, i requires 0 <= i < |txs| => txs[i].signature)
  }

  /** The batch insert commits; otherwise an assertion stops the process. */
  predicate CanSave(t: Tables, txs: seq<OnchainTx>) {
    && Distinct(Signatures(txs))
    && (forall tx :: tx in txs ==> tx.signature !in t.signature && Storable(tx))
  }

  /** Ids the database may hand out for new signature rows. */
  predicate FreshIds(t: Tables, ids: seq<int>) {
    Distinct(ids) && forall id :: id in ids ==> id !in t.signature.Values
  }

  function SaveTables(t: Tables, sigs: seq<string>, ids: seq<int>): Tables
    requires |sigs| == |ids| && Distinct(sigs)
  {
    t.(signature := t.signature + Zip(sigs, ids))
  }

  /** INSERT ... ON CONFLICT DO NOTHING, then the counter grows by the rows inserted; one commit. */
  function LinkTables(t: Tables, w: nat, ids: seq<int>): Tables
    requires w in t.wallet && w in t.links
  {
    var added := Elements(ids) - t.links[w];
    var row := t.wallet[w];
    t.(links := t.links[w := t.links[w] + added],
       wallet := t.wallet[w := row.(signatures := row.signatures + |added|)])
  }

  /** last_signature_id := (SELECT id FROM signature WHERE value = sig), NULL when there is no row. */
  function MarkTables(t: Tables, w: nat, sig: string): Tables
    requires w in t.wallet
  {
    if sig == "" then t
    else
      var id := if sig in t.signature then Some(t.signature[sig]) else None;
      t.(wallet := t.wallet[w := t.wallet[w].(lastSignatureId := id)])
  }

  // ---- the RPC ----

  const LIMIT: nat := 100

  /** The newest `LIMIT` signatures of history `h` newer than `until`, newest first. */
  function Page(h: seq<string>, until: string): (page: seq<string>)
    ensures |page| <= LIMIT
    ensures |page| == 0 <==> Rank(h, until) == |h|
  {
    var newer := |h| - Rank(h, until);
    var n := if newer < LIMIT then newer else LIMIT;
    seq(n, i requires 0 <= i < n => h[|h| - 1 - i])
  }

  /** A page is the newest 100 of what is newer than `until`, or all of it, newest first. */
  lemma PageIs(h: seq<string>, until: string)
    ensures var newer := |h| - Rank(h, until);
            && |Page(h, until)| == (if newer < 100 then newer else 100)
            && forall i :: 0 <= i < |Page(h, until)| ==> Page(h, until)[i] == h[|h| - 1 - i]
  {
  }

  // ---- program counters ----

  datatype SavedRow = SavedRow(signature: string, id: int)

  datatype Producer =
    | Idle
    | Fetching(wallet: nat, until: string, newLast: string)
    | Reading(wallet: nat, until: string, newLast: string, page: seq<string>)
    | Publishing(wallet: nat, until: string, newLast: string, page: seq<string>, saved: seq<SavedRow>)
    | Scanning(wallet: nat, until: string, newLast: string, page: seq<string>, saved: seq<SavedRow>, next: nat)
    | Finishing(wallet: nat, until: string, newLast: string)

  /** `taken` is the batch; the `update` being committed is `BatchOf(taken)`. */
  datatype Consumer =
    | Free
    | Saving(taken: seq<Msg>)
    | Linking(taken: seq<Msg>, ids: seq<int>)
    | Marking(taken: seq<Msg>)

  /**
   * `ledger` gives the content of every signature there will ever be. `synced` is a history variable:
   * for each wallet whose sync has sent its marker since the process started, how much of the history
   * that sync had seen.
   */
  datatype State = State(
    ledger: map<string, OnchainTx>,
    chain: map<nat, seq<string>>,
    t: Tables,
    queue: seq<Msg>,
    producer: Producer,
    consumer: Consumer,
    synced: map<nat, nat>)

  // ---- events ----

  datatype Event =
    | Grow(wallet: nat, signature: string)          // a transaction of the wallet is confirmed
    | Start(w: nat)                                 // load a queued request
    | Fetch                                         // getSignaturesForAddress
    | ReadSaved(order: seq<string>)                 // transactions.Get
    | PublishSaved(accs: seq<seq<AssociatedAccount>>)
    | ScanNext(acc: seq<AssociatedAccount>)         // one round of the loop over the page
    | EndPage
    | SendMarker
    | Take                                          // processMessages
    | Save(newIds: seq<int>)                        // saveTransactions commits
    | Link                                          // updateUser: links and counter commit
    | Mark                                          // updateUser: the watermark; deduplicateTimestamps returns
    | Restart                                       // the process stops and is started again

  predicate RowFor(saved: seq<SavedRow>, x: string) {
    exists i :: 0 <= i < |saved| && saved[i].signature == x
  }

  /** A query without ORDER BY: the matching rows in some order. */
  ghost predicate IsSavedQuery(t: Tables, page: seq<string>, order: seq<string>) {
    && Distinct(order)
    && forall x :: x in order <==> x in page && x in t.signature
  }

  ghost predicate Enabled(s: State, e: Event) {
    match e
    case Grow(w, x) => w in s.chain && x != "" && x !in s.chain[w] && x in s.ledger
    case Start(w) => s.producer.Idle? && w in s.t.wallet
    case Fetch => s.producer.Fetching? && s.producer.wallet in s.chain
    case ReadSaved(order) => s.producer.Reading? && IsSavedQuery(s.t, s.producer.page, order)
    case PublishSaved(accs) => s.producer.Publishing? && |accs| == |s.producer.saved|
    case ScanNext(_) =>
      s.producer.Scanning? && s.producer.next < |s.producer.page| && s.producer.page[s.producer.next] in s.ledger
    case EndPage => s.producer.Scanning? && s.producer.next == |s.producer.page|
    case SendMarker => s.producer.Finishing? && s.producer.wallet in s.chain
    case Take => s.consumer.Free? && s.queue != []
    case Save(ids) =>
      s.consumer.Saving? && var txs := Transactions(s.consumer.taken);
      CanSave(s.t, txs) && FreshIds(s.t, ids) && |ids| == |txs|
    case Link => s.consumer.Linking? && HasWallet(s, s.consumer.taken)
    case Mark => s.consumer.Marking? && HasWallet(s, s.consumer.taken)
    case Restart => true
  }

  predicate HasWallet(s: State, taken: seq<Msg>) {
    taken != [] && taken[0].wallet in s.t.wallet && taken[0].wallet in s.t.links
  }

  function SavedMsgs(w: nat, saved: seq<SavedRow>, accs: seq<seq<AssociatedAccount>>): seq<Msg>
    requires |accs| == |saved|
  {
    seq(|saved|, i requires 0 <= i < |saved| => Saved(w, saved[i].id, accs[i]))
  }

  ghost function ReadRows(t: Tables, order: seq<string>): seq<SavedRow>
    requires forall x :: x in order ==> x in t.signature
  {
    seq(|order|, i requires 0 <= i < |order| => SavedRow(order[i], t.signature[order[i]]))
  }

  ghost function Apply(s: State, e: Event): State
    requires Enabled(s, e)
  {
    var p, c := s.producer, s.consumer;
    match e
    case Grow(w, x) => s.(chain := s.chain[w := s.chain[w] + [x]])
    case Start(w) => s.(producer := Fetching(w, Watermark(s.t, w), ""))
    case Fetch =>
      var page := Page(s.chain[p.wallet], p.until);
      s.(producer :=
        if page == [] then Finishing(p.wallet, p.until, p.newLast)
        else Reading(p.wallet, p.until, if p.newLast == "" then page[0] else p.newLast, page))
    case ReadSaved(order) =>
      s.(producer := Publishing(p.wallet, p.until, p.newLast, p.page, ReadRows(s.t, order)))
    case PublishSaved(accs) =>
      s.(producer := Scanning(p.wallet, p.until, p.newLast, p.page, p.saved, 0),
         queue := s.queue + SavedMsgs(p.wallet, p.saved, accs))
    case ScanNext(acc) =>
      var x := p.page[p.next];
      s.(producer := p.(next := p.next + 1),
         queue := if RowFor(p.saved, x) then s.queue else s.queue + [Onchain(p.wallet, s.ledger[x], acc)])
    case EndPage =>
      s.(producer :=
        if |p.page| < LIMIT then Finishing(p.wallet, p.until, p.newLast)
        else Fetching(p.wallet, p.until, p.newLast))
    case SendMarker =>
      s.(producer := Idle,
         queue := s.queue + [Last(p.wallet, p.newLast)],
         synced := s.synced[p.wallet := Reach(s.chain[p.wallet], p)])
    case Take => s.(consumer := Saving(Taken(s.queue)), queue := Rest(s.queue))
    case Save(ids) =>
      s.(consumer := Linking(c.taken, SignaturesIds(c.taken) + ids),
         t := SaveTables(s.t, Signatures(Transactions(c.taken)), ids))
    case Link => s.(consumer := Marking(c.taken), t := LinkTables(s.t, c.taken[0].wallet, c.ids))
    case Mark => s.(consumer := Free, t := MarkTables(s.t, c.taken[0].wallet, LastSignature(c.taken)))
    case Restart => s.(queue := [], producer := Idle, consumer := Free, synced := map[])
  }

  /** How much of the history a finished sync has seen. */
  function Reach(h: seq<string>, p: Producer): nat
    requires !p.Idle?
  {
    Rank(h, if p.newLast == "" then p.until else p.newLast)
  }

  // ---- runs ----

  ghost predicate Legal(s: State, es: seq<Event>)
    decreases |es|
  {
    es == [] || (Enabled(s, es[0]) && Legal(Apply(s, es[0]), es[1..]))
  }

  ghost function Run(s: State, es: seq<Event>): State
    requires Legal(s, es)
    decreases |es|
  {
    if es == [] then s else Run(Apply(s, es[0]), es[1..])
  }

  /** An empty database with some wallets, and histories yet to be read. */
  ghost predicate Init(s: State) {
    && s.chain.Keys == s.t.wallet.Keys == s.t.links.Keys
    && (forall w :: w in s.chain ==>
          Distinct(s.chain[w]) && "" !in s.chain[w] && forall x :: x in s.chain[w] ==> x in s.ledger)
    && (forall x :: x in s.ledger ==> s.ledger[x].signature == x)
    && s.t.signature == map[]
    && (forall w :: w in s.t.wallet ==> s.t.wallet[w] == WalletRow(None, 0) && s.t.links[w] == {})
    && s.queue == [] && s.producer.Idle? && s.consumer.Free? && s.synced == map[]
  }

  ghost predicate Reachable(s: State) {
    exists init, es :: Init(init) && Legal(init, es) && Run(init, es) == s
  }
}
