/** The queue and the update as the objects they are: changed in place, message by message. */
module Processing {
  import opened Common
  import opened Ledger
  import opened MsgQueue

  /** What one walk collects; the closures `processMessages` hands to the walk are its two methods. */
  class Update {
    var walletId: int
    var transactions: seq<OnchainTx>
    var signaturesIds: seq<int>
    var associatedAccounts: seq<AssociatedAccount>
    var lastSignature: string

    constructor ()
      ensures View() == BatchOf([])
    {
      walletId := -1;
      transactions, signaturesIds, associatedAccounts := [], [], [];
      lastSignature := "";
    }

    function View(): Batch
      reads this
    {
      Batch(walletId, transactions, signaturesIds, associatedAccounts, lastSignature)
    }

    method ExitEarly() returns (exit: bool)
      ensures exit == Full(View())
    {
      exit := |signaturesIds| > 20 || |transactions| > 20 || |associatedAccounts| > 40;
    }

    /** Takes the message when it is of the wallet the update is for, or the first one. */
    method Offer(msg: Msg, ghost taken: seq<Msg>) returns (shouldDelete: bool)
      requires View() == BatchOf(taken)
      modifies this
      ensures shouldDelete <==> taken == [] || msg.wallet == taken[0].wallet
      ensures View() == BatchOf(if shouldDelete then taken + [msg] else taken)
    {
      hide Transactions, SignaturesIds, Accounts, LastSignature;
      BatchStep(taken, msg);
      shouldDelete := false;
      match msg
      case Onchain(w, tx, accs) =>
        if walletId == w || walletId == -1 {
          walletId := w;
          transactions := transactions + [tx];
          associatedAccounts := associatedAccounts + accs;
          shouldDelete := true;
        }
      case Saved(w, id, accs) =>
        if walletId == w || walletId == -1 {
          walletId := w;
          signaturesIds := signaturesIds + [id];
          associatedAccounts := associatedAccounts + accs;
          shouldDelete := true;
        }
      case Last(w, sig) =>
        if walletId == w || walletId == -1 {
          walletId := w;
          lastSignature := sig;
          shouldDelete := true;
        }
    }
  }

  /** What one more message adds to a batch. */
  lemma BatchStep(taken: seq<Msg>, msg: Msg)
    ensures var b, c := BatchOf(taken), BatchOf(taken + [msg]);
            && c.walletId == (if taken == [] then msg.wallet else b.walletId)
            && c.transactions == b.transactions + (if msg.Onchain? then [msg.tx] else [])
            && c.signaturesIds == b.signaturesIds + (if msg.Saved? then [msg.signatureId] else [])
            && c.associatedAccounts == b.associatedAccounts + (if msg.Last? then [] else msg.accounts)
            && c.lastSignature == if msg.Last? then msg.signature else b.lastSignature
  {
    assert (taken + [msg])[..|taken|] == taken;
  }

  class Queue {
    var items: seq<Msg>
    /** Everything ever appended and everything ever removed, in order. */
    ghost var appended: seq<Msg>
    ghost var removed: seq<Msg>

    /** Nothing is lost or duplicated, and every wallet's messages leave in the order they came. */
    ghost predicate Valid()
      reads this
    {
      && multiset(appended) == multiset(removed) + multiset(items)
      && forall w: nat :: Of(appended, w) == Of(removed, w) + Of(items, w)
    }

    constructor ()
      ensures Valid() && items == [] && appended == [] && removed == []
    {
      items, appended, removed := [], [], [];
    }

    method Append(item: Msg)
      requires Valid()
      modifies this
      ensures Valid() && items == old(items) + [item]
      ensures appended == old(appended) + [item] && removed == old(removed)
    {
      AppendMessages([item]);
    }

    method AppendMessages(more: seq<Msg>)
      requires Valid()
      modifies this
      ensures Valid() && items == old(items) + more
      ensures appended == old(appended) + more && removed == old(removed)
    {
      forall w: nat
        ensures Of(appended + more, w) == Of(removed, w) + Of(items + more, w)
      {
        OfConcat(appended, more, w);
        OfConcat(items, more, w);
      }
      items, appended := items + more, appended + more;
    }

    /** Splices every message `u` takes out of the queue, until `u` is full or the queue is at its end. */
    method Walk(u: Update)
      requires u.View() == BatchOf([])
      modifies this`items, u
      ensures items == Rest(old(items)) && u.View() == BatchOf(Taken(old(items)))
    {
      hide Looked, Collected, BatchOf, Full;
      ghost var orig := items;
      ghost var n := 0;
      ghost var taken: seq<Msg> := [];
      var i := 0;
      LookFirst(orig);
      while true
        invariant n <= |orig| && Looked(orig, items, i, n)
        invariant taken == Collected(orig, n) && u.View() == BatchOf(taken)
        invariant taken == [] <==> n == 0
        invariant n > 0 ==> taken[0].wallet == orig[0].wallet
        decreases |orig| - n
      {
        LookNext(orig, items, i, n);
        if i > |items| - 1 {
          break;
        }
        var exit := u.ExitEarly();
        if exit {
          break;
        }
        var item := items[i];
        var shouldDelete := u.Offer(item, taken);
        if shouldDelete {
          items := items[..i] + items[i + 1..];
          taken := taken + [item];
        } else {
          i := i + 1;
        }
        n := n + 1;
      }
    }

    /** One call of `processMessages`. */
    method ProcessMessages() returns (u: Update)
      requires Valid()
      modifies this
      ensures Valid() && fresh(u)
      ensures items == Rest(old(items)) && u.View() == BatchOf(Taken(old(items)))
      ensures appended == old(appended) && removed == old(removed) + Taken(old(items))
    {
      u := new Update();
      RemovedInOrder(appended, removed, items);
      removed := removed + Taken(items);
      Walk(u);
    }
  }

  /** The walk has looked at the first `n` messages of `orig` and kept `i` of them. */
  ghost predicate Looked(orig: seq<Msg>, items: seq<Msg>, i: int, n: nat) {
    var w := if orig == [] then 0 else orig[0].wallet;
    && n <= |orig| && Scanned(orig) == ScannedFrom(orig, n)
    && i == |Others(orig[..n], w)| && items == Others(orig[..n], w) + orig[n..]
  }

  lemma LookFirst(orig: seq<Msg>)
    ensures Looked(orig, orig, 0, 0) && Collected(orig, 0) == []
  {
  }

  lemma LookNext(orig: seq<Msg>, items: seq<Msg>, i: int, n: nat)
    requires Looked(orig, items, i, n)
    ensures 0 <= i <= |items| && n <= |orig| && (i < |items| <==> n < |orig|)
    ensures i < |items| && !Full(BatchOf(Collected(orig, n))) ==>
              var m := items[i];
              && m == orig[n]
              && Collected(orig, n + 1) == Collected(orig, n) + (if m.wallet == orig[0].wallet then [m] else [])
              && if m.wallet == orig[0].wallet then Looked(orig, items[..i] + items[i + 1..], i, n + 1)
                 else Looked(orig, items, i + 1, n + 1)
    ensures i == |items| || Full(BatchOf(Collected(orig, n))) ==> Taken(orig) == Collected(orig, n) && Rest(orig) == items
  {
    hide Full, Of, Others, BatchOf, Collected;
    LookEnd(orig, n);
    assert orig == [] ==> Others(orig[..n], 0) == [] by { NoOthers(0); }
    if i < |items| {
      CollectedStep(orig, n);
      OthersStep(orig, n, orig[0].wallet);
      Splice(Others(orig[..n], orig[0].wallet), orig, n);
    }
  }

  lemma NoOthers(w: nat)
    ensures Others([], w) == []
  {
  }

  lemma LookEnd(orig: seq<Msg>, n: nat)
    requires n <= |orig| && Scanned(orig) == ScannedFrom(orig, n)
    ensures n == |orig| || Full(BatchOf(Collected(orig, n))) ==> Scanned(orig) == n
    ensures n < |orig| && !Full(BatchOf(Collected(orig, n))) ==> Scanned(orig) == ScannedFrom(orig, n + 1)
  {
  }

  lemma OthersStep(orig: seq<Msg>, n: nat, w: nat)
    requires n < |orig|
    ensures Others(orig[..n + 1], w) == Others(orig[..n], w) + if orig[n].wallet == w then [] else [orig[n]]
  {
    assert orig[..n + 1][..n] == orig[..n];
  }

  lemma Splice(front: seq<Msg>, orig: seq<Msg>, n: nat)
    requires n < |orig|
    ensures var items, i := front + orig[n..], |front|;
            && items[i] == orig[n]
            && items[..i] + items[i + 1..] == front + orig[n + 1..]
            && items == front + [orig[n]] + orig[n + 1..]
  {
  }

  lemma RemovedInOrder(appended: seq<Msg>, removed: seq<Msg>, items: seq<Msg>)
    requires multiset(appended) == multiset(removed) + multiset(items)
    requires forall w: nat :: Of(appended, w) == Of(removed, w) + Of(items, w)
    ensures multiset(appended) == multiset(removed + Taken(items)) + multiset(Rest(items))
    ensures forall w: nat :: Of(appended, w) == Of(removed + Taken(items), w) + Of(Rest(items), w)
  {
    hide Of, Taken, Rest;
    ProcessConserves(items);
    forall w: nat
      ensures Of(appended, w) == Of(removed + Taken(items), w) + Of(Rest(items), w)
    {
      ProcessKeepsOrder(items, w);
      OfConcat(removed, Taken(items), w);
    }
  }
}
