/** The loops that turn a batch into rows: id searches and `prepareInsertableComponents`. */
module Rows {
  import opened Common
  import opened Ledger
  import opened Storage
  import opened Saving

  /** A row of the signature or of the address table, as a query returns it. */
  datatype IdRow = IdRow(id: int, value: string)

  /** `rows` lists the table `m`, each row once. */
  ghost predicate Lists(rows: seq<IdRow>, m: map<string, int>) {
    && (forall i :: 0 <= i < |rows| ==> rows[i].value in m && m[rows[i].value] == rows[i].id)
    && (forall i, j :: 0 <= i < j < |rows| ==> rows[i].value != rows[j].value)
    && forall x :: x in m ==> Listed(rows, x)
  }

  predicate Listed(rows: seq<IdRow>, x: string) {
    exists i :: 0 <= i < |rows| && rows[i].value == x
  }

  /** The first row that matches; none when no row does. */
  method GetId(rows: seq<IdRow>, x: string) returns (r: Option<int>)
    ensures r.Some? <==> Listed(rows, x)
    ensures r.Some? ==> exists i :: 0 <= i < |rows| && rows[i] == IdRow(r.value, x) && !Listed(rows[..i], x)
  {
    for i := 0 to |rows|
      invariant !Listed(rows[..i], x)
    {
      if rows[i].value == x {
        return Some(rows[i].id);
      }
    }
    assert rows[..|rows|] == rows;
    r := None;
  }

  /** On a list of a table, the search inverts the table. */
  method LookUp(rows: seq<IdRow>, x: string, ghost m: map<string, int>) returns (r: Result<int, SaveError>)
    requires Lists(rows, m)
    ensures r == if x in m then Ok(m[x]) else Err(LookupFailed)
  {
    var id := GetId(rows, x);
    r := if id.Some? then Ok(id.value) else Err(LookupFailed);
  }

  method IdsFor(rows: seq<IdRow>, addresses: seq<string>, ghost m: map<string, int>) returns (r: Result<seq<int>, SaveError>)
    requires Lists(rows, m)
    ensures (forall a :: a in addresses ==> a in m) ==> r == Ok(IdsOf(addresses, m))
    ensures !(forall a :: a in addresses ==> a in m) ==> r == Err(LookupFailed)
  {
    var ids: seq<int> := [];
    for i := 0 to |addresses|
      invariant |ids| == i
      invariant forall k :: 0 <= k < i ==> addresses[k] in m && ids[k] == m[addresses[k]]
    {
      var id := LookUp(rows, addresses[i], m);
      if id.Err? {
        assert addresses[i] in addresses;
        return Err(id.error);
      }
      ids := ids + [id.value];
    }
    assert forall a :: a in addresses ==> a in m;
    assert ids == IdsOf(addresses, m);
    r := Ok(ids);
  }

  /** `prepareForInsert`: the row of one instruction, an error when any address has no id. */
  method PrepareForInsert(b: IxBase, rows: seq<IdRow>, ghost m: map<string, int>) returns (r: Result<IxRow, SaveError>)
    requires Lists(rows, m)
    ensures BaseKnown(b, m) ==> r == Ok(BaseRow(b, m))
    ensures !BaseKnown(b, m) ==> r == Err(LookupFailed)
  {
    var program := LookUp(rows, b.program, m);
    var accounts := IdsFor(rows, b.accounts, m);
    if program.Err? || accounts.Err? {
      return Err(LookupFailed);
    }
    r := Ok(IxRow(program.value, Appended(accounts.value), b.data));
  }

  // ---- one transaction ----

  lemma OneMoreIx(id: int, ixs: seq<Ix>, ids: map<string, int>, k: nat)
    requires k < |ixs| && OuterKnown(ixs[..k], ids) && BaseKnown(ixs[k].base, ids)
    ensures OuterKnown(ixs[..k + 1], ids)
    ensures IxRows(id, ixs[..k + 1], ids) == IxRows(id, ixs[..k], ids) + [((id, Int16(k)), BaseRow(ixs[k].base, ids))]
  {
    hide Int16, BaseRow, BaseKnown;
    assert ixs[..k + 1] == ixs[..k] + [ixs[k]];
  }

  lemma OneMoreInner(id: int, ixs: seq<Ix>, ids: map<string, int>, k: nat)
    requires k < |ixs| && InnerKnown(ixs[..k], ids)
    requires forall j :: 0 <= j < |ixs[k].inner| ==> BaseKnown(ixs[k].inner[j], ids)
    ensures InnerKnown(ixs[..k + 1], ids)
    ensures InnerRows(id, ixs[..k + 1], ids) == InnerRows(id, ixs[..k], ids) + InnerRowsAt(id, k, ixs[k].inner, ids)
  {
    hide Int16, BaseRow, BaseKnown;
    assert ixs[..k + 1][..k] == ixs[..k];
  }

  /** The loop over the inner instructions of instruction `k`. */
  method PrepareInner(id: int, k: nat, inner: seq<IxBase>, accounts: seq<IdRow>, ghost m: map<string, int>)
    returns (r: Result<seq<(InnerKey, IxRow)>, SaveError>)
    requires Lists(accounts, m)
    ensures (forall j :: 0 <= j < |inner| ==> BaseKnown(inner[j], m)) ==> r == Ok(InnerRowsAt(id, k, inner, m))
    ensures !(forall j :: 0 <= j < |inner| ==> BaseKnown(inner[j], m)) ==> r == Err(LookupFailed)
  {
    hide Int16, BaseRow, BaseKnown, Lists;
    var rows: seq<(InnerKey, IxRow)> := [];
    for j := 0 to |inner|
      invariant |rows| == j
      invariant forall p :: 0 <= p < j ==> BaseKnown(inner[p], m) && rows[p] == ((id, Int16(k), Int16(p)), BaseRow(inner[p], m))
    {
      var row := PrepareForInsert(inner[j], accounts, m);
      if row.Err? {
        return Err(row.error);
      }
      rows := rows + [((id, Int16(k), Int16(j)), row.value)];
    }
    assert rows == InnerRowsAt(id, k, inner, m);
    r := Ok(rows);
  }

  lemma NoRows(id: int, ixs: seq<Ix>, ids: map<string, int>)
    ensures IxRows(id, ixs[..0], ids) == [] && InnerRows(id, ixs[..0], ids) == []
  {
  }

  /** The loop over the instructions of one transaction. */
  method PrepareIxs(id: int, ixs: seq<Ix>, accounts: seq<IdRow>, ghost m: map<string, int>)
    returns (r: Result<(seq<(IxKey, IxRow)>, seq<(InnerKey, IxRow)>), SaveError>)
    requires Lists(accounts, m)
    ensures OuterKnown(ixs, m) && InnerKnown(ixs, m) ==> r == Ok((IxRows(id, ixs, m), InnerRows(id, ixs, m)))
    ensures !(OuterKnown(ixs, m) && InnerKnown(ixs, m)) ==> r == Err(LookupFailed)
  {
    hide Int16, BaseRow, BaseKnown, Lists, InnerRowsAt, IxRows, InnerRows;
    var rows: seq<(IxKey, IxRow)>, innerRows: seq<(InnerKey, IxRow)> := [], [];
    NoRows(id, ixs, m);
    for k := 0 to |ixs|
      invariant OuterKnown(ixs[..k], m) && InnerKnown(ixs[..k], m)
      invariant rows == IxRows(id, ixs[..k], m) && innerRows == InnerRows(id, ixs[..k], m)
    {
      var row := PrepareForInsert(ixs[k].base, accounts, m);
      if row.Err? {
        return Err(row.error);
      }
      rows := rows + [((id, Int16(k)), row.value)];
      var inner := PrepareInner(id, k, ixs[k].inner, accounts, m);
      if inner.Err? {
        return Err(inner.error);
      }
      innerRows := innerRows + inner.value;
      OneMoreIx(id, ixs, m, k);
      OneMoreInner(id, ixs, m, k);
    }
    assert ixs[..|ixs|] == ixs;
    r := Ok((rows, innerRows));
  }

  // ---- the batch ----

  lemma OneMoreTx(txs: seq<OnchainTx>, sigs: map<string, int>, m: map<string, int>, i: nat)
    requires i < |txs| && AllKnown(txs[..i], sigs, m) && txs[i].signature in sigs && TxKnown(txs[i], m)
    ensures AllKnown(txs[..i + 1], sigs, m)
    ensures var c, id := ComponentsOf(txs[..i], sigs, m), sigs[txs[i].signature];
            ComponentsOf(txs[..i + 1], sigs, m) ==
            Components(c.txs + [(id, TxRowOf(txs[i], m))],
                       c.ixs + IxRows(id, txs[i].ixs, m), c.inner + InnerRows(id, txs[i].ixs, m))
  {
    hide TxKnown, TxRowOf, IxRows, InnerRows;
    assert txs[..i + 1][..i] == txs[..i];
  }

  /**
   * The nested loops produce exactly the rows of the specification, and stop exactly when some
   * signature or address of the batch has no id.
   */
  method PrepareInsertableComponents(txs: seq<OnchainTx>, signatures: seq<IdRow>, accounts: seq<IdRow>,
                                     ghost sigs: map<string, int>, ghost m: map<string, int>)
    returns (r: Result<Components, SaveError>)
    requires Lists(signatures, sigs) && Lists(accounts, m)
    ensures AllKnown(txs, sigs, m) ==> r == Ok(ComponentsOf(txs, sigs, m))
    ensures !AllKnown(txs, sigs, m) ==> r == Err(LookupFailed)
  {
    hide Lists, OuterKnown, InnerKnown, IxRows, InnerRows, ComponentsOf;
    var c := Components([], [], []);
    Nothing(txs, sigs, m);
    for i := 0 to |txs|
      invariant AllKnown(txs[..i], sigs, m) && c == ComponentsOf(txs[..i], sigs, m)
    {
      var tx := txs[i];
      var id := LookUp(signatures, tx.signature, sigs);
      if id.Err? {
        return Err(id.error);
      }
      var padding := seq(|tx.accounts|, p => 0);
      var accountsIds := IdsFor(accounts, tx.accounts, m);
      if accountsIds.Err? {
        return Err(accountsIds.error);
      }
      var rows := PrepareIxs(id.value, tx.ixs, accounts, m);
      if rows.Err? {
        return Err(rows.error);
      }
      var row := TxRow(padding + accountsIds.value, tx.slot, tx.err, tx.fee, tx.logs, tx.timestamp, tx.timestampGranularized);
      c := Components(c.txs + [(id.value, row)], c.ixs + rows.value.0, c.inner + rows.value.1);
      assert row == TxRowOf(tx, m);
      OneMoreTx(txs, sigs, m, i);
    }
    assert txs[..|txs|] == txs;
    r := Ok(c);
  }

  lemma Nothing(txs: seq<OnchainTx>, sigs: map<string, int>, m: map<string, int>)
    ensures AllKnown(txs[..0], sigs, m) && ComponentsOf(txs[..0], sigs, m) == Components([], [], [])
  {
  }
}
