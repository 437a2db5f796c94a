/** The tables as one object, and the methods that change them commit by commit. */
module Database {
  import opened Common
  import opened Ledger
  import opened MsgQueue
  import opened Pipeline
  import opened Storage
  import opened Saving
  import opened RoundTrip
  import opened Rows
  import opened Processing

  function Pairs(values: seq<string>, ids: seq<int>): seq<(string, int)>
    requires |values| == |ids|
  {
    seq(|values|, i requires 0 <= i < |values| => (values[i], ids[i]))
  }

  function RowsOf(values: seq<string>, ids: seq<int>): seq<IdRow>
    requires |values| == |ids|
  {
    seq(|values|, i requires 0 <= i < |values| => IdRow(ids[i], values[i]))
  }

  /** INSERT ... RETURNING into an (id, value) table goes through exactly for distinct new values. */
  lemma InsertValues(table: map<string, int>, values: seq<string>, ids: seq<int>)
    requires |values| == |ids|
    ensures Insert(table, Pairs(values, ids)).Some? <==> Distinct(values) && forall i :: 0 <= i < |values| ==> values[i] !in table
    ensures Insert(table, Pairs(values, ids)).Some? ==>
              && Distinct(values)
              && Insert(table, Pairs(values, ids)).value == table + Zip(values, ids)
              && Lists(RowsOf(values, ids), Zip(values, ids))
  {
    hide Insert, Zip, Lists;
    var rows := Pairs(values, ids);
    InsertIff(table, rows);
    assert Keys(rows) == values;
    assert forall i :: 0 <= i < |values| ==> rows[i].0 == values[i] && rows[i].1 == ids[i];
    if Insert(table, rows).Some? {
      RowsList(values, ids);
      ZipAdded(table, Insert(table, rows).value, values, ids);
    }
  }

  lemma ZipAdded(table: map<string, int>, after: map<string, int>, values: seq<string>, ids: seq<int>)
    requires |values| == |ids| && Distinct(values)
    requires after.Keys == table.Keys + Elements(values)
    requires forall x :: x in table ==> after[x] == table[x]
    requires forall i :: 0 <= i < |values| ==> values[i] in after && after[values[i]] == ids[i]
    requires forall i :: 0 <= i < |values| ==> values[i] !in table
    ensures after == table + Zip(values, ids)
  {
    var added := Zip(values, ids);
    forall x | x in after
      ensures after[x] == (table + added)[x]
    {
      if x in added {
        var i :| 0 <= i < |values| && values[i] == x;
      }
    }
  }

  lemma RowsList(values: seq<string>, ids: seq<int>)
    requires |values| == |ids| && Distinct(values)
    ensures Lists(RowsOf(values, ids), Zip(values, ids))
  {
    var rows, m := RowsOf(values, ids), Zip(values, ids);
    assert forall i :: 0 <= i < |values| ==> rows[i].value == values[i] && values[i] in m;
    forall x | x in m
      ensures Listed(rows, x)
    {
      var i :| 0 <= i < |values| && values[i] == x;
      assert rows[i].value == x;
    }
  }

  function NextIds(next: int, n: nat): (ids: seq<int>)
    ensures |ids| == n && Distinct(ids)
    ensures forall id :: id in ids ==> next <= id < next + n
  {
    seq(n, i => next + i)
  }

  class Store {
    var signature: map<string, int>
    var address: map<string, int>
    var transaction: map<int, TxRow>
    var instruction: map<IxKey, IxRow>
    var inner: map<InnerKey, IxRow>
    var wallet: map<nat, WalletRow>
    var links: map<nat, set<int>>
    /** The serial sequences; a rollback does not set them back. */
    var nextSignatureId: int
    var nextAddressId: int

    ghost predicate Valid()
      reads this
    {
      && DbOk(View())
      && (forall id :: id in signature.Values ==> id < nextSignatureId)
      && (forall id :: id in address.Values ==> id < nextAddressId)
    }

    function View(): Db
      reads this
    {
      Db(signature, address, transaction, instruction, inner)
    }

    /** The tables the step system speaks of. */
    function Snapshot(): Tables
      reads this
    {
      Tables(signature, wallet, links)
    }

    constructor (wallets: set<nat>)
      ensures Valid()
      ensures View() == Db(map[], map[], map[], map[], map[])
      ensures Snapshot() == Tables(map[], map w: nat | w in wallets :: WalletRow(None, 0), map w: nat | w in wallets :: {})
    {
      signature, address, transaction, instruction, inner := map[], map[], map[], map[], map[];
      wallet := map w: nat | w in wallets :: WalletRow(None, 0);
      links := map w: nat | w in wallets :: {};
      nextSignatureId, nextAddressId := 1, 1;
    }

    /** `signatures.save`: every value gets a new row, or the statement fails and changes nothing. */
    method SaveSignatures(values: seq<string>) returns (r: Result<seq<IdRow>, SaveError>, ghost ids: seq<int>)
      requires Valid()
      modifies this`signature, this`nextSignatureId
      ensures |ids| == |values| && Distinct(ids) && forall id :: id in ids ==> id !in old(signature).Values && id < nextSignatureId
      ensures nextSignatureId >= old(nextSignatureId)
      ensures r.Ok? <==> Distinct(values) && forall i :: 0 <= i < |values| ==> values[i] !in old(signature)
      ensures r.Ok? ==> signature == old(signature) + Zip(values, ids)
      ensures r.Ok? ==> r.value == RowsOf(values, ids) && Lists(r.value, Zip(values, ids))
      ensures r.Err? ==> r.error == ConstraintViolation && signature == old(signature)
    {
      hide Insert, Lists, DbOk;
      var newIds := NextIds(nextSignatureId, |values|);
      ids := newIds;
      nextSignatureId := nextSignatureId + |values|;
      var inserted := Insert(signature, Pairs(values, newIds));
      InsertValues(signature, values, newIds);
      if inserted.None? {
        return Err(ConstraintViolation), ids;
      }
      signature := inserted.value;
      r := Ok(RowsOf(values, newIds));
    }

    /** SELECT id, value FROM address WHERE value = ANY(values), in whatever order. */
    method SelectAddresses(values: seq<string>) returns (rows: seq<IdRow>)
      ensures Lists(rows, Restrict(address, Elements(values)))
    {
      var rest := set a | a in address && a in values;
      rows := [];
      while rest != {}
        invariant rest <= Restrict(address, Elements(values)).Keys
        invariant Lists(rows, Restrict(address, Elements(values) - rest))
        decreases rest
      {
        var a :| a in rest;
        ListOneMore(rows, address, Elements(values) - rest, a);
        assert Elements(values) - rest + {a} == Elements(values) - (rest - {a});
        rows := rows + [IdRow(address[a], a)];
        rest := rest - {a};
      }
      assert Elements(values) - {} == Elements(values);
    }

    /**
     * `accounts.save` as get-or-create. The set is walked in an order of the runtime's choosing; the
     * statements never fail, known addresses keep their ids, and the rows returned list the table on
     * exactly the wanted addresses.
     */
    method SaveAddresses(wanted: set<string>) returns (rows: seq<IdRow>)
      requires Injective(address) && forall id :: id in address.Values ==> id < nextAddressId
      modifies this`address, this`nextAddressId
      ensures AddressesSaved(old(address), address, wanted)
      ensures Lists(rows, Restrict(address, wanted))
      ensures nextAddressId >= old(nextAddressId) && forall id :: id in address.Values ==> id < nextAddressId
    {
      hide Insert, Lists, AddressesSaved, Restrict, Zip, Injective, Listed, RowRefs;
      var insertable := AnyOrder(wanted);
      var saved := SelectAddresses(insertable);
      var unsaved: seq<string> := [];
      for i := 0 to |insertable|
        invariant address == old(address) && nextAddressId == old(nextAddressId) && Distinct(unsaved)
        invariant forall x :: x in unsaved <==> x in insertable[..i] && !Listed(saved, x)
      {
        var id := GetId(saved, insertable[i]);
        assert insertable[..i + 1] == insertable[..i] + [insertable[i]];
        if id.None? {
          NotBefore(insertable, i);
          unsaved := unsaved + [insertable[i]];
        }
      }
      assert insertable[..|insertable|] == insertable;
      MissingOnly(saved, address, wanted, unsaved);
      var newIds := NextIds(nextAddressId, |unsaved|);
      var inserted := Insert(address, Pairs(unsaved, newIds));
      InsertValues(address, unsaved, newIds);
      assert inserted.Some?;
      GetOrCreate(address, unsaved, newIds, saved, wanted);
      nextAddressId := nextAddressId + |unsaved|;
      address := inserted.value;
      rows := saved + RowsOf(unsaved, newIds);
      IdsBelow(old(address), unsaved, newIds, nextAddressId);
    }

    /**
     * `saveTransactions`: one database transaction. It commits exactly under the condition stated, and
     * then the tables are what the specification of a batch says; a failed assertion rolls back.
     */
    method SaveTransactions(u: Update, target: Target) returns (err: Option<SaveError>, ghost ids: seq<int>)
      requires Valid()
      modifies this`signature, this`address, this`transaction, this`instruction, this`inner
      modifies this`nextSignatureId, this`nextAddressId, u`signaturesIds
      ensures Valid()
      ensures err.None? <==> Commits(old(View()), u.transactions, target)
      ensures err.None? ==>
                && |ids| == |u.transactions| && FreshIds(old(Snapshot()), ids)
                && u.signaturesIds == old(u.signaturesIds) + ids
                && AddressesSaved(old(address), address, BatchAddresses(u.transactions))
                && SaveBatch(old(View()), u.transactions, ids, address, target) == Ok(View())
      ensures err.Some? ==> View() == old(View())
    {
      hide DbOk, AddressesSaved, Lists, Commits, BatchAddresses, Zip, Restrict, AllKnown, ComponentsOf, Distinct, SaveBatch, InsertRows, Signatures, Injective, RowRefs;
      ghost var before := View();
      var txs, oldSignature, oldAddress := u.transactions, signature, address;
      var signatures, accounts;
      err, signatures, accounts, ids := SaveIds(u);
      if err.Some? {
        NotFresh(before, txs, target);
        return;
      }
      BatchOutcome(before, txs, ids, address, target);
      BatchSteps(before, txs, ids, address, target);
      err := InsertBatch(txs, signatures, accounts, Zip(Signatures(txs), ids), Restrict(address, BatchAddresses(txs)), target);
      if err.Some? {
        signature, address := oldSignature, oldAddress;
      }
    }

    /** The first part of `saveTransactions`: ids for the signatures and the addresses of the batch. */
    method SaveIds(u: Update) returns (err: Option<SaveError>, signatures: seq<IdRow>, accounts: seq<IdRow>, ghost ids: seq<int>)
      requires Valid()
      modifies this`signature, this`address, this`nextSignatureId, this`nextAddressId, u`signaturesIds
      ensures var sigs := Signatures(u.transactions);
              && (err.None? <==> Distinct(sigs) && forall i :: 0 <= i < |sigs| ==> sigs[i] !in old(signature))
              && (err.None? ==>
                    && |ids| == |sigs| && Distinct(ids) && FreshIds(old(Snapshot()), ids)
                    && u.signaturesIds == old(u.signaturesIds) + ids
                    && signature == old(signature) + Zip(sigs, ids) && Lists(signatures, Zip(sigs, ids)))
      ensures var wanted := BatchAddresses(u.transactions);
              err.None? ==> AddressesSaved(old(address), address, wanted) && Lists(accounts, Restrict(address, wanted))
      ensures err.Some? ==> signature == old(signature) && address == old(address)
      ensures nextSignatureId >= old(nextSignatureId) && nextAddressId >= old(nextAddressId)
      ensures forall id :: id in signature.Values ==> id < nextSignatureId
      ensures forall id :: id in address.Values ==> id < nextAddressId
    {
      hide DbOk, AddressesSaved, Lists, BatchAddresses, Zip, Restrict, Injective, Signatures, RowsOf, Ids, FreshIds;
      ghost var before := View();
      SchemaInjective(before);
      var values := InsertableSignatures(u.transactions);
      var wanted := InsertableAddresses(u.transactions);
      var r;
      r, ids := SaveSignatures(values);
      if r.Err? {
        return Some(r.error), [], [], ids;
      }
      signatures := r.value;
      u.signaturesIds := u.signaturesIds + Ids(signatures);
      RowIds(values, ids);
      NewIds(Tables(before.signature, wallet, links), ids);
      IdsBelow(before.signature, values, ids, nextSignatureId);
      accounts := SaveAddresses(wanted);
      err := None;
    }

    /** The rows of the batch, once its signatures and addresses have ids. */
    method InsertBatch(txs: seq<OnchainTx>, signatures: seq<IdRow>, accounts: seq<IdRow>,
                       ghost sigs: map<string, int>, ghost known: map<string, int>, target: Target) returns (err: Option<SaveError>)
      requires Lists(signatures, sigs) && Lists(accounts, known)
      modifies this`transaction, this`instruction, this`inner
      ensures err.None? ==> AllKnown(txs, sigs, known) && InsertRows(old(View()), ComponentsOf(txs, sigs, known), target) == Ok(View())
      ensures err.Some? ==> View() == old(View())
      ensures err.Some? && AllKnown(txs, sigs, known) ==> InsertRows(old(View()), ComponentsOf(txs, sigs, known), target).Err?
    {
      hide Lists, AllKnown, ComponentsOf, InsertRows;
      var rows := PrepareInsertableComponents(txs, signatures, accounts, sigs, known);
      if rows.Err? {
        return Some(rows.error);
      }
      err := InsertComponents(rows.value, target);
    }

    /** The three inserts at the end of `saveTransactions`, each skipped when it has no rows. */
    method InsertComponents(c: Components, target: Target) returns (err: Option<SaveError>)
      modifies this`transaction, this`instruction, this`inner
      ensures err.None? ==> InsertRows(old(View()), c, target) == Ok(View())
      ensures err.Some? ==> InsertRows(old(View()), c, target) == Err(err.value) && View() == old(View())
    {
      var oldTransaction, oldInstruction := transaction, instruction;
      if |c.txs| > 0 {
        var rows := Insert(transaction, c.txs);
        if rows.None? {
          return Some(ConstraintViolation);
        }
        transaction := rows.value;
      }
      if |c.ixs| > 0 {
        var rows := InsertIxs(instruction, c.ixs);
        if rows.None? {
          transaction := oldTransaction;
          return Some(ConstraintViolation);
        }
        instruction := rows.value;
      }
      if |c.inner| > 0 {
        var rows := InsertInner(View(), c.inner, target);
        if rows.Err? {
          transaction, instruction := oldTransaction, oldInstruction;
          return Some(rows.error);
        }
        inner := rows.value;
      }
      err := None;
    }

    /**
     * `updateUser`: one commit links the batch and counts the rows it added, the next statement sets
     * the watermark.
     */
    method UpdateUser(u: Update)
      requires u.walletId >= 0 && u.walletId in wallet && u.walletId in links
      modifies this`wallet, this`links
      ensures Snapshot() == MarkTables(LinkTables(old(Snapshot()), u.walletId, u.signaturesIds), u.walletId, u.lastSignature)
    {
      hide LinkTables;
      var w := u.walletId;
      assert LinkTables(Snapshot(), w, []) == Snapshot() by {
        LinkedOnce(Snapshot(), Snapshot(), w, []);
      }
      LinkKeeps(Snapshot(), w, u.signaturesIds);
      if |u.signaturesIds| > 0 {
        var linked, count := InsertLinks(u.signaturesIds, links[w]);
        links := links[w := linked];
        if count > 0 {
          wallet := wallet[w := wallet[w].(signatures := wallet[w].signatures + count)];
        }
        LinkedOnce(old(Snapshot()), Snapshot(), w, u.signaturesIds);
      }
      if u.lastSignature != "" {
        var id := if u.lastSignature in signature then Some(signature[u.lastSignature]) else None;
        wallet := wallet[w := wallet[w].(lastSignatureId := id)];
      }
    }

    /** The part of `load` that reads the watermark: an outer join, None for NULL. */
    method LastSignature(w: nat) returns (r: Option<string>)
      requires Valid() && w in wallet && "" !in signature
      ensures (if r.Some? then r.value else "") == Watermark(Snapshot(), w)
      ensures r != Some("")
    {
      hide RowRefs;
      var last := wallet[w].lastSignatureId;
      var rest := signature.Keys;
      if last.Some? {
        while rest != {}
          invariant rest <= signature.Keys
          invariant forall x :: x in signature && x !in rest ==> signature[x] != last.value
          decreases rest
        {
          var x :| x in rest;
          if signature[x] == last.value {
            assert HasId(Snapshot(), x, last.value);
            return Some(x);
          }
          rest := rest - {x};
        }
      }
      r := None;
    }
  }

  /** INSERT ... ON CONFLICT DO NOTHING for one wallet, and how many rows it added. */
  method InsertLinks(ids: seq<int>, before: set<int>) returns (linked: set<int>, count: nat)
    ensures linked == before + Elements(ids)
    ensures count == |Elements(ids) - before|
  {
    linked, count := before, 0;
    for i := 0 to |ids|
      invariant linked == before + Elements(ids[..i])
      invariant count == |Elements(ids[..i]) - before|
    {
      OneMoreLink(ids, i, before);
      if ids[i] !in linked {
        linked, count := linked + {ids[i]}, count + 1;
      }
    }
    assert ids[..|ids|] == ids;
  }

  lemma LinkKeeps(t: Tables, w: nat, ids: seq<int>)
    requires w in t.wallet && w in t.links
    ensures w in LinkTables(t, w, ids).wallet && w in LinkTables(t, w, ids).links
  {
  }

  lemma SchemaInjective(db: Db)
    requires DbOk(db)
    ensures Injective(db.signature) && Injective(db.address)
  {
  }

  lemma BatchOutcome(db: Db, txs: seq<OnchainTx>, ids: seq<int>, address: map<string, int>, target: Target)
    requires DbOk(db) && |ids| == |txs| && Distinct(ids)
    requires forall id :: id in ids ==> id !in db.signature.Values
    requires AddressesSaved(db.address, address, BatchAddresses(txs))
    ensures SaveBatch(db, txs, ids, address, target).Ok? <==> Commits(db, txs, target)
    ensures SaveBatch(db, txs, ids, address, target).Ok? ==> DbOk(SaveBatch(db, txs, ids, address, target).value)
  {
    hide DbOk, BatchAddresses, SaveBatch, Distinct, Injective, Commits;
    SaveCommitsIff(db, txs, ids, address, target);
    if SaveBatch(db, txs, ids, address, target).Ok? {
      SaveKeepsSchema(db, txs, ids, address, target);
    }
  }

  lemma BatchSteps(db: Db, txs: seq<OnchainTx>, ids: seq<int>, address: map<string, int>, target: Target)
    requires |ids| == |txs| && Distinct(Signatures(txs))
    requires forall i :: 0 <= i < |txs| ==> Signatures(txs)[i] !in db.signature
    ensures var sigs, known := Zip(Signatures(txs), ids), Restrict(address, BatchAddresses(txs));
            SaveBatch(db, txs, ids, address, target) ==
            if !AllKnown(txs, sigs, known) then Err(LookupFailed)
            else InsertRows(db.(signature := db.signature + sigs, address := address), ComponentsOf(txs, sigs, known), target)
  {
    hide Zip, Restrict, BatchAddresses, AllKnown, ComponentsOf, InsertRows;
  }

  lemma NotFresh(db: Db, txs: seq<OnchainTx>, target: Target)
    requires !(Distinct(Signatures(txs)) && forall i :: 0 <= i < |txs| ==> Signatures(txs)[i] !in db.signature)
    ensures !Commits(db, txs, target)
  {
  }

  function Ids(rows: seq<IdRow>): seq<int> {
    seq(|rows|, i requires 0 <= i < |rows| => rows[i].id)
  }

  lemma NewIds(t: Tables, ids: seq<int>)
    requires Distinct(ids) && forall id :: id in ids ==> id !in t.signature.Values
    ensures FreshIds(t, ids)
  {
  }

  lemma RowIds(values: seq<string>, ids: seq<int>)
    requires |values| == |ids|
    ensures Ids(RowsOf(values, ids)) == ids
  {
  }

  lemma OneMoreLink(ids: seq<int>, i: nat, linked: set<int>)
    requires i < |ids|
    ensures Elements(ids[..i + 1]) == Elements(ids[..i]) + {ids[i]}
    ensures |Elements(ids[..i + 1]) - linked| ==
            |Elements(ids[..i]) - linked| + if ids[i] in linked + Elements(ids[..i]) then 0 else 1
  {
    assert ids[..i + 1] == ids[..i] + [ids[i]];
    var before := Elements(ids[..i]) - linked;
    if ids[i] in linked + Elements(ids[..i]) {
      assert Elements(ids[..i + 1]) - linked == before;
    } else {
      assert Elements(ids[..i + 1]) - linked == before + {ids[i]};
    }
  }

  lemma LinkedOnce(t: Tables, t': Tables, w: nat, ids: seq<int>)
    requires w in t.wallet && w in t.links && t'.signature == t.signature
    requires t'.links == if ids == [] then t.links else t.links[w := t.links[w] + Elements(ids)]
    requires var n := |Elements(ids) - t.links[w]|;
             t'.wallet == if n == 0 then t.wallet else t.wallet[w := t.wallet[w].(signatures := t.wallet[w].signatures + n)]
    ensures t' == LinkTables(t, w, ids)
  {
    var added := Elements(ids) - t.links[w];
    assert t.links[w] + Elements(ids) == t.links[w] + added;
    if ids == [] {
      assert added == {};
    }
    assert added == {} ==> t.wallet == t.wallet[w := t.wallet[w].(signatures := t.wallet[w].signatures + |added|)];
  }

  /** The loop that fills `insertableSignatures`. */
  method InsertableSignatures(txs: seq<OnchainTx>) returns (values: seq<string>)
    ensures values == Signatures(txs)
  {
    values := [];
    for i := 0 to |txs|
      invariant |values| == i && forall k :: 0 <= k < i ==> values[k] == txs[k].signature
    {
      values := values + [txs[i].signature];
    }
  }

  /** The loop that fills `insertableAddresses`. */
  method InsertableAddresses(txs: seq<OnchainTx>) returns (wanted: set<string>)
    ensures wanted == BatchAddresses(txs)
  {
    wanted := {};
    for i := 0 to |txs|
      invariant wanted == BatchAddresses(txs[..i])
    {
      ghost var start := wanted;
      for k := 0 to |txs[i].accounts|
        invariant wanted == start + Elements(txs[i].accounts[..k])
      {
        assert txs[i].accounts[..k + 1] == txs[i].accounts[..k] + [txs[i].accounts[k]];
        wanted := wanted + {txs[i].accounts[k]};
      }
      assert txs[i].accounts[..|txs[i].accounts|] == txs[i].accounts;
      OneMoreBatch(txs, i);
    }
    assert txs[..|txs|] == txs;
  }

  lemma OneMoreBatch(txs: seq<OnchainTx>, i: nat)
    requires i < |txs|
    ensures BatchAddresses(txs[..i + 1]) == BatchAddresses(txs[..i]) + Elements(txs[i].accounts)
  {
    var more, less := txs[..i + 1], txs[..i];
    assert forall k :: 0 <= k < i ==> more[k] == less[k];
    assert more[i] == txs[i];
    forall a
      ensures a in BatchAddresses(more) <==> a in BatchAddresses(less) + Elements(txs[i].accounts)
    {
      if a in BatchAddresses(less) {
        var k :| 0 <= k < |less| && a in less[k].accounts;
        assert a in more[k].accounts;
      }
      if a in txs[i].accounts {
        assert a in more[i].accounts;
      }
    }
  }

  lemma IdsBelow(before: map<string, int>, values: seq<string>, ids: seq<int>, next: int)
    requires |values| == |ids| && Distinct(values)
    requires forall id :: id in before.Values || id in ids ==> id < next
    ensures forall id :: id in (before + Zip(values, ids)).Values ==> id < next
  {
    var added := Zip(values, ids);
    NewValues(values, ids);
    forall id | id in (before + added).Values
      ensures id < next
    {
      var x :| x in before + added && (before + added)[x] == id;
      if x in added {
        assert added[x] in added.Values;
      } else {
        assert before[x] in before.Values;
      }
    }
  }

  method AnyOrder(wanted: set<string>) returns (s: seq<string>)
    ensures Distinct(s) && Elements(s) == wanted
    ensures forall x :: x in s <==> x in wanted
  {
    var rest := wanted;
    s := [];
    while rest != {}
      invariant rest <= wanted && Distinct(s)
      invariant forall x :: x in s <==> x in wanted && x !in rest
      decreases rest
    {
      var a :| a in rest;
      s, rest := s + [a], rest - {a};
    }
  }

  lemma NotBefore(s: seq<string>, i: nat)
    requires Distinct(s) && i < |s|
    ensures s[i] !in s[..i]
  {
  }

  lemma ListOneMore(rows: seq<IdRow>, address: map<string, int>, wanted: set<string>, a: string)
    requires Lists(rows, Restrict(address, wanted)) && a in address && a !in wanted
    ensures Lists(rows + [IdRow(address[a], a)], Restrict(address, wanted + {a}))
  {
    var more, m := rows + [IdRow(address[a], a)], Restrict(address, wanted + {a});
    forall x | x in m
      ensures Listed(more, x)
    {
      if x == a {
        assert more[|rows|].value == x;
      } else {
        assert Listed(rows, x);
        var i :| 0 <= i < |rows| && rows[i].value == x;
        assert more[i].value == x;
      }
    }
  }

  lemma MissingOnly(saved: seq<IdRow>, address: map<string, int>, wanted: set<string>, unsaved: seq<string>)
    requires Lists(saved, Restrict(address, wanted))
    requires forall x :: x in unsaved <==> x in wanted && !Listed(saved, x)
    ensures Elements(unsaved) == wanted - address.Keys
    ensures forall i :: 0 <= i < |unsaved| ==> unsaved[i] !in address
  {
    forall x
      ensures x in unsaved <==> x in wanted && x !in address
    {
      ListedIff(saved, Restrict(address, wanted), x);
    }
    assert forall i :: 0 <= i < |unsaved| ==> unsaved[i] in unsaved;
  }

  lemma ListedIff(rows: seq<IdRow>, m: map<string, int>, x: string)
    requires Lists(rows, m)
    ensures Listed(rows, x) <==> x in m
  {
  }

  lemma GetOrCreate(before: map<string, int>, unsaved: seq<string>, ids: seq<int>, saved: seq<IdRow>, wanted: set<string>)
    requires |unsaved| == |ids| && Distinct(unsaved) && Distinct(ids) && Injective(before)
    requires forall id :: id in ids ==> id !in before.Values
    requires Elements(unsaved) == wanted - before.Keys
    requires Lists(saved, Restrict(before, wanted)) && Lists(RowsOf(unsaved, ids), Zip(unsaved, ids))
    ensures var after := before + Zip(unsaved, ids);
            AddressesSaved(before, after, wanted) && Lists(saved + RowsOf(unsaved, ids), Restrict(after, wanted))
  {
    hide Lists, Zip, Distinct;
    var added := Zip(unsaved, ids);
    var after := before + added;
    NewValues(unsaved, ids);
    ZipInjective(unsaved, ids);
    InjectiveUnion(before, added);
    ListsUnion(saved, Restrict(before, wanted), RowsOf(unsaved, ids), added);
    assert Restrict(after, wanted) == Restrict(before, wanted) + added;
  }

  lemma NewValues(values: seq<string>, ids: seq<int>)
    requires |values| == |ids| && Distinct(values)
    ensures forall id :: id in Zip(values, ids).Values ==> id in ids
  {
    var m := Zip(values, ids);
    forall id | id in m.Values
      ensures id in ids
    {
      var x :| x in m && m[x] == id;
      var i :| 0 <= i < |values| && values[i] == x;
    }
  }

  lemma InjectiveUnion(m: map<string, int>, n: map<string, int>)
    requires Injective(m) && Injective(n) && m.Values !! n.Values
    ensures Injective(m + n)
  {
    assert forall x :: x in m ==> m[x] in m.Values;
    assert forall x :: x in n ==> n[x] in n.Values;
  }

  lemma ListsUnion(a: seq<IdRow>, m: map<string, int>, b: seq<IdRow>, n: map<string, int>)
    requires Lists(a, m) && Lists(b, n) && m.Keys !! n.Keys
    ensures Lists(a + b, m + n)
  {
    var rows := a + b;
    assert forall i :: 0 <= i < |a| ==> rows[i] == a[i] && a[i].value in m;
    assert forall i :: 0 <= i < |b| ==> rows[|a| + i] == b[i] && b[i].value in n;
    forall i, j | 0 <= i < j < |rows|
      ensures rows[i].value != rows[j].value
    {
      if i >= |a| {
        assert rows[i] == b[i - |a|] && rows[j] == b[j - |a|];
      }
    }
    forall i | 0 <= i < |rows|
      ensures rows[i].value in m + n && (m + n)[rows[i].value] == rows[i].id
    {
      if i >= |a| {
        assert rows[i] == b[i - |a|];
      }
    }
    forall x | x in m + n
      ensures Listed(rows, x)
    {
      if x in n {
        assert Listed(b, x);
        var i :| 0 <= i < |b| && b[i].value == x;
        assert rows[|a| + i].value == x;
      } else {
        assert Listed(a, x);
        var i :| 0 <= i < |a| && a[i].value == x;
        assert rows[i].value == x;
      }
    }
  }
}
