/** The producer/consumer queue, the in-place walk over it, and the batch the walk collects. */
module MsgQueue {
  import opened Common
  import opened Ledger

  datatype Msg =
    | Saved(wallet: nat, signatureId: int, accounts: seq<AssociatedAccount>)
    | Onchain(wallet: nat, tx: OnchainTx, accounts: seq<AssociatedAccount>)
    | Last(wallet: nat, signature: string)

  /** The messages of one wallet, in queue order. */
  function Of(ms: seq<Msg>, w: nat): seq<Msg> {
    if ms == [] then []
    else
      var m := ms[|ms| - 1];
      Of(ms[..|ms| - 1], w) + if m.wallet == w then [m] else []
  }

  /** The messages of every other wallet, in queue order. */
  function Others(ms: seq<Msg>, w: nat): seq<Msg> {
    if ms == [] then []
    else
      var m := ms[|ms| - 1];
      Others(ms[..|ms| - 1], w) + if m.wallet == w then [] else [m]
  }

  function Transactions(ms: seq<Msg>): seq<OnchainTx> {
    if ms == [] then []
    else
      var m := ms[|ms| - 1];
      Transactions(ms[..|ms| - 1]) + if m.Onchain? then [m.tx] else []
  }

  function SignaturesIds(ms: seq<Msg>): seq<int> {
    if ms == [] then []
    else
      var m := ms[|ms| - 1];
      SignaturesIds(ms[..|ms| - 1]) + if m.Saved? then [m.signatureId] else []
  }

  function Accounts(ms: seq<Msg>): seq<AssociatedAccount> {
    if ms == [] then []
    else
      var m := ms[|ms| - 1];
      Accounts(ms[..|ms| - 1]) + if m.Last? then [] else m.accounts
  }

  /** The signature of the last marker, "" when there is none or when it is empty. */
  function LastSignature(ms: seq<Msg>): string {
    if ms == [] then ""
    else
      var m := ms[|ms| - 1];
      if m.Last? then m.signature else LastSignature(ms[..|ms| - 1])
  }

  /** The value of an `update`: -1 stands for "no wallet yet". */
  datatype Batch = Batch(
    walletId: int,
    transactions: seq<OnchainTx>,
    signaturesIds: seq<int>,
    associatedAccounts: seq<AssociatedAccount>,
    lastSignature: string)

  function BatchOf(ms: seq<Msg>): Batch {
    Batch(if ms == [] then -1 else ms[0].wallet,
          Transactions(ms), SignaturesIds(ms), Accounts(ms), LastSignature(ms))
  }

  /** The early exit of the walk. */
  predicate Full(b: Batch) {
    |b.signaturesIds| > 20 || |b.transactions| > 20 || |b.associatedAccounts| > 40
  }

  /** What the walk has collected once it has looked at the first `n` messages. */
  function Collected(items: seq<Msg>, n: nat): seq<Msg>
    requires n <= |items|
  {
    if n == 0 then [] else Of(items[..n], items[0].wallet)
  }

  /** How many messages the walk looks at, having already looked at `n`. */
  function ScannedFrom(items: seq<Msg>, n: nat): (r: nat)
    requires n <= |items|
    ensures n <= r <= |items|
    ensures r < |items| ==> Full(BatchOf(Collected(items, r)))
    ensures forall k :: n <= k < r ==> !Full(BatchOf(Collected(items, k)))
    decreases |items| - n
  {
    if n == |items| || Full(BatchOf(Collected(items, n))) then n else ScannedFrom(items, n + 1)
  }

  function Scanned(items: seq<Msg>): (r: nat)
    ensures r <= |items|
  {
    ScannedFrom(items, 0)
  }

  /** The messages one call of `processMessages` removes. */
  function Taken(items: seq<Msg>): seq<Msg> {
    Collected(items, Scanned(items))
  }

  /** The queue one call of `processMessages` leaves behind. */
  function Rest(items: seq<Msg>): seq<Msg> {
    if items == [] then []
    else
      var n := Scanned(items);
      Others(items[..n], items[0].wallet) + items[n..]
  }

  // ---- filters ----

  lemma {:induction false} OfConcat(a: seq<Msg>, b: seq<Msg>, w: nat)
    ensures Of(a + b, w) == Of(a, w) + Of(b, w)
  {
    if b == [] {
      assert a + b == a;
    } else {
      OfConcat(a, b[..|b| - 1], w);
      assert (a + b)[..|a + b| - 1] == a + b[..|b| - 1];
    }
  }

  lemma {:induction false} OfOthers(a: seq<Msg>, w: nat, v: nat)
    ensures Of(Others(a, w), v) == if v == w then [] else Of(a, v)
  {
    if a != [] {
      var p, m := a[..|a| - 1], a[|a| - 1];
      OfOthers(p, w, v);
      OfConcat(Others(p, w), if m.wallet == w then [] else [m], v);
      assert Of([m], v) == if m.wallet == v then [m] else [] by {
        assert [m][..0] == [];
      }
    }
  }

  lemma {:induction false} OfMembers(a: seq<Msg>, w: nat)
    ensures |Of(a, w)| <= |a|
    ensures forall m :: m in Of(a, w) <==> m in a && m.wallet == w
  {
    if a != [] {
      OfMembers(a[..|a| - 1], w);
      assert a == a[..|a| - 1] + [a[|a| - 1]];
    }
  }

  lemma {:induction false} OfNone(a: seq<Msg>, w: nat)
    requires forall m :: m in a ==> m.wallet != w
    ensures Of(a, w) == []
  {
    if a != [] {
      OfNone(a[..|a| - 1], w);
    }
  }

  lemma {:induction false} OfOwn(a: seq<Msg>, w: nat, v: nat)
    requires forall m :: m in a ==> m.wallet == w
    ensures Of(a, v) == if v == w then a else []
  {
    if a != [] {
      OfOwn(a[..|a| - 1], w, v);
      assert a == a[..|a| - 1] + [a[|a| - 1]];
    }
  }

  lemma OfSplit(front: seq<Msg>, back: seq<Msg>, v: nat, w: nat)
    ensures Of(front + back, w) == Of(Of(front, v), w) + Of(Others(front, v) + back, w)
  {
    calc {
      Of(Of(front, v), w) + Of(Others(front, v) + back, w);
      { OfConcat(Others(front, v), back, w); OfOthers(front, v, w); }
      Of(Of(front, v), w) + ((if v == w then [] else Of(front, w)) + Of(back, w));
      { OfMembers(front, v); OfOwn(Of(front, v), v, w); }
      (if v == w then Of(front, v) else []) + ((if v == w then [] else Of(front, w)) + Of(back, w));
      Of(front, w) + Of(back, w);
      { OfConcat(front, back, w); }
      Of(front + back, w);
    }
  }

  lemma {:induction false} SplitSize(a: seq<Msg>, w: nat)
    ensures |a| == |Of(a, w)| + |Others(a, w)|
  {
    if a != [] {
      SplitSize(a[..|a| - 1], w);
    }
  }

  lemma {:induction false} SplitContents(a: seq<Msg>, w: nat)
    ensures multiset(a) == multiset(Of(a, w)) + multiset(Others(a, w))
  {
    if a != [] {
      var p, m := a[..|a| - 1], a[|a| - 1];
      SplitContents(p, w);
      assert a == p + [m];
      if m.wallet == w {
        assert Others(a, w) == Others(p, w);
        assert multiset(Of(a, w)) == multiset(Of(p, w)) + multiset{m};
      } else {
        assert Of(a, w) == Of(p, w);
        assert multiset(Others(a, w)) == multiset(Others(p, w)) + multiset{m};
      }
    }
  }

  // ---- what one call of processMessages does to the queue ----

  /** The walk looks at the first message of a non-empty queue and always removes it. */
  lemma TakenFirst(items: seq<Msg>)
    requires items != []
    ensures 1 <= Scanned(items)
    ensures Taken(items) == Of(items[..Scanned(items)], items[0].wallet)
    ensures Taken(items) != [] && Taken(items)[0] == items[0]
    ensures forall m :: m in Taken(items) ==> m.wallet == items[0].wallet
    ensures BatchOf(Taken(items)).walletId == items[0].wallet
  {
    var n, w := Scanned(items), items[0].wallet;
    assert !Full(BatchOf(Collected(items, 0)));
    assert n >= 1;
    OfConcat(items[..1], items[1..n], w);
    assert items[..n] == items[..1] + items[1..n];
    assert Of(items[..1], w) == [items[0]] by {
      assert items[..1][..0] == [];
    }
    OfMembers(items[..n], w);
  }

  lemma ProcessNothing(w: nat)
    ensures Taken([]) == [] && Rest([]) == [] && Of([], w) == []
  {
  }

  /**
   * Per-wallet FIFO: for every wallet, the removed messages followed by the remaining ones are the
   * messages there were, in the same order.
   */
  lemma ProcessKeepsOrder(items: seq<Msg>, w: nat)
    ensures Of(items, w) == Of(Taken(items), w) + Of(Rest(items), w)
  {
    hide Of, Others, Taken, Scanned, BatchOf;
    if items == [] {
      ProcessNothing(w);
    } else {
      TakenFirst(items);
      var n := Scanned(items);
      OfSplit(items[..n], items[n..], items[0].wallet, w);
      assert items == items[..n] + items[n..];
    }
  }

  /** No message is lost or duplicated. */
  lemma ProcessConserves(items: seq<Msg>)
    ensures multiset(items) == multiset(Taken(items)) + multiset(Rest(items))
  {
    hide Of, Others, Taken, Scanned, BatchOf;
    if items == [] {
      ProcessNothing(0);
    } else {
      var n, v := Scanned(items), items[0].wallet;
      TakenFirst(items);
      var front, back := items[..n], items[n..];
      assert items == front + back;
      SplitContents(front, v);
    }
  }

  /** A call on a non-empty queue shortens it, and by exactly the messages of the batch. */
  lemma ProcessShortens(items: seq<Msg>)
    requires items != []
    ensures |Rest(items)| == |items| - |Taken(items)| < |items|
  {
    TakenFirst(items);
    SplitSize(items[..Scanned(items)], items[0].wallet);
  }

  lemma CollectedStep(items: seq<Msg>, n: nat)
    requires n < |items|
    ensures var m := items[n];
            Collected(items, n + 1) == Collected(items, n) + if m.wallet == items[0].wallet then [m] else []
  {
    var front, w := items[..n], items[0].wallet;
    assert items[..n + 1] == front + [items[n]];
    OfOneMore(front, items[n], w);
    if n == 0 {
      assert front == [];
    }
  }

  lemma OfOneMore(ms: seq<Msg>, m: Msg, w: nat)
    ensures Of(ms + [m], w) == Of(ms, w) + if m.wallet == w then [m] else []
  {
    assert (ms + [m])[..|ms|] == ms;
  }

  /** A batch holds at most 21 transactions and at most 21 saved signatures. */
  lemma BatchBounded(items: seq<Msg>)
    ensures |BatchOf(Taken(items)).transactions| <= 21
    ensures |BatchOf(Taken(items)).signaturesIds| <= 21
  {
    var n := Scanned(items);
    if n > 0 {
      assert !Full(BatchOf(Collected(items, n - 1)));
      CollectedStep(items, n - 1);
      var c := Collected(items, n - 1);
      assert (c + [items[n - 1]])[..|c|] == c;
      assert c + [] == c;
    }
  }

  /**
   * The walk goes on exactly as long as the messages it has collected hold at most 20 saved signatures, 20
   * transactions and 40 associated accounts, or until it has looked at the whole queue.
   */
  lemma WalkStops(items: seq<Msg>, k: nat)
    requires k <= Scanned(items)
    ensures var c := Collected(items, k);
            var light := |SignaturesIds(c)| <= 20 && |Transactions(c)| <= 20 && |Accounts(c)| <= 40;
            && (k < Scanned(items) ==> light)
            && (k == Scanned(items) ==> c == Taken(items) && (light ==> k == |items|))
  {
    hide SignaturesIds, Transactions, Accounts, Of, LastSignature;
  }

  /** `n` calls of `processMessages` with no append in between. */
  function Drained(items: seq<Msg>, n: nat): seq<Msg>
    decreases n
  {
    if n == 0 then items else Drained(Rest(items), n - 1)
  }

  lemma {:induction false} DrainedEmpty(items: seq<Msg>, n: nat)
    requires |items| <= n
    ensures Drained(items, n) == []
    decreases n
  {
    if n > 0 {
      if items != [] {
        ProcessShortens(items);
      }
      DrainedEmpty(Rest(items), n - 1);
    }
  }
}
