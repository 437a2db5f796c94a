/**
 * What one call of `saveTransactions` does to the tables: when it commits, and that what it commits
 * satisfies the schema.
 */
module Saving {
  import opened Common
  import opened Ledger
  import opened Storage
  import opened Pipeline

  /** The table the inner rows are inserted into: the code names `instruction`, the schema has `inner_instruction`. */
  datatype Target = AsWritten | InnerTable

  datatype SaveError = ConstraintViolation | LookupFailed | UndefinedColumn

  /** The set the keys of `insertableAddresses` make. */
  function BatchAddresses(txs: seq<OnchainTx>): set<string> {
    set i, a | 0 <= i < |txs| && a in txs[i].accounts :: a
  }

  function Restrict(address: map<string, int>, wanted: set<string>): map<string, int> {
    map a | a in address && a in wanted :: address[a]
  }

  /** The inner table after its insert, or the error that aborts the transaction. */
  function InsertInner(db: Db, rows: seq<(InnerKey, IxRow)>, target: Target): Result<map<InnerKey, IxRow>, SaveError> {
    if rows == [] then Ok(db.inner)
    else if target.AsWritten? then Err(UndefinedColumn)
    else
      var inner := InsertIxs(db.inner, rows);
      if inner.Some? then Ok(inner.value) else Err(ConstraintViolation)
  }

  /** The last three inserts. */
  function InsertRows(db: Db, c: Components, target: Target): Result<Db, SaveError> {
    var rows, ixs := Insert(db.transaction, c.txs), InsertIxs(db.instruction, c.ixs);
    if rows.None? || ixs.None? then Err(ConstraintViolation)
    else
      var inner := InsertInner(db, c.inner, target);
      if inner.Err? then Err(inner.error)
      else Ok(db.(transaction := rows.value, instruction := ixs.value, inner := inner.value))
  }

  /**
   * The whole database transaction. `ids` are the ids the signature rows get, `address` the address
   * table once `accounts.save` is done. An error leaves the tables alone and stops the process.
   */
  function SaveBatch(db: Db, txs: seq<OnchainTx>, ids: seq<int>, address: map<string, int>, target: Target): Result<Db, SaveError>
    requires |ids| == |txs|
  {
    var sigs := Signatures(txs);
    if !Distinct(sigs) || exists i :: 0 <= i < |sigs| && sigs[i] in db.signature then Err(ConstraintViolation)
    else
      var inserted, accounts := Zip(sigs, ids), Restrict(address, BatchAddresses(txs));
      if !AllKnown(txs, inserted, accounts) then Err(LookupFailed)
      else
        InsertRows(db.(signature := db.signature + inserted, address := address), ComponentsOf(txs, inserted, accounts), target)
  }

  // ---- the schema ----

  /** Primary keys are one-to-one, every foreign key points at a row, and accounts_ids is never NULL. */
  ghost predicate DbOk(db: Db) {
    && Injective(db.signature) && Injective(db.address)
    && (forall k :: k in db.transaction ==> k in db.signature.Values)
    && (forall k :: k in db.instruction ==> k.0 in db.signature.Values && RowRefs(db.address, db.instruction[k]))
    && (forall k :: k in db.inner ==>
          k.0 in db.signature.Values && (k.0, k.1) in db.instruction && RowRefs(db.address, db.inner[k]))
    && (forall k :: k in db.instruction ==> db.instruction[k].accountsIds.Some?)
    && (forall k :: k in db.inner ==> db.inner[k].accountsIds.Some?)
  }

  ghost predicate RowRefs(address: map<string, int>, row: IxRow) {
    row.program in address.Values && forall p :: 0 <= p < |row.Accounts()| ==> row.Accounts()[p] in address.Values
  }

  /** get-or-create of the addresses of a batch: known ones keep their id, new ones get fresh ids. */
  ghost predicate AddressesSaved(before: map<string, int>, after: map<string, int>, wanted: set<string>) {
    && Injective(after)
    && after.Keys == before.Keys + wanted
    && forall a :: a in before ==> after[a] == before[a]
  }

  // ---- ids of rows ----

  lemma {:induction false} ComponentIds(txs: seq<OnchainTx>, sigs: map<string, int>, ids: map<string, int>)
    requires AllKnown(txs, sigs, ids)
    ensures var c := ComponentsOf(txs, sigs, ids);
            && Keys(c.txs) == seq(|txs|, i requires 0 <= i < |txs| => sigs[txs[i].signature])
            && (forall k :: k in Keys(c.ixs) ==> exists i :: 0 <= i < |txs| && k.0 == sigs[txs[i].signature])
            && (forall k :: k in Keys(c.inner) ==> exists i :: 0 <= i < |txs| && k.0 == sigs[txs[i].signature])
  {
    hide Int16, BaseRow, BaseKnown, TxRowOf;
    if txs != [] {
      var n := |txs| - 1;
      var tx, front := txs[n], txs[..n];
      ComponentIds(front, sigs, ids);
      var c, id := ComponentsOf(front, sigs, ids), sigs[tx.signature];
      KeysConcat(c.txs, [(id, TxRowOf(tx, ids))]);
      KeysConcat(c.ixs, IxRows(id, tx.ixs, ids));
      KeysConcat(c.inner, InnerRows(id, tx.ixs, ids));
      OwnKeys(id, tx.ixs, ids);
      assert forall i :: 0 <= i < n ==> front[i] == txs[i];
    }
  }

  lemma OwnKeys(id: int, ixs: seq<Ix>, ids: map<string, int>)
    requires OuterKnown(ixs, ids) && InnerKnown(ixs, ids)
    ensures forall k :: k in Keys(IxRows(id, ixs, ids)) ==> k.0 == id
    ensures forall k :: k in Keys(InnerRows(id, ixs, ids)) ==> k.0 == id
  {
    hide Int16, BaseRow, BaseKnown;
    InnerKeysBelow(id, ixs, ids);
  }

  /** The ids handed out are distinct, so the ids of distinct signatures are. */
  lemma ZipInjective(sigs: seq<string>, ids: seq<int>)
    requires |sigs| == |ids| && Distinct(sigs) && Distinct(ids)
    ensures Injective(Zip(sigs, ids))
  {
    var m := Zip(sigs, ids);
    forall a, b | a in m && b in m && m[a] == m[b]
      ensures a == b
    {
      var i :| 0 <= i < |sigs| && sigs[i] == a;
      var j :| 0 <= j < |sigs| && sigs[j] == b;
      assert ids[i] == ids[j];
    }
  }

  // ---- the primary keys of a batch ----

  predicate IxsFit(txs: seq<OnchainTx>) {
    forall i :: 0 <= i < |txs| ==> |txs[i].ixs| <= 0x1_0000
  }

  predicate InnerFit(txs: seq<OnchainTx>) {
    forall i, k :: 0 <= i < |txs| && 0 <= k < |txs[i].ixs| ==> |txs[i].ixs[k].inner| <= 0x1_0000
  }

  /** Every instruction names at least one account, so that no row has a NULL list. */
  predicate IxsNamed(txs: seq<OnchainTx>) {
    forall i, k :: 0 <= i < |txs| && 0 <= k < |txs[i].ixs| ==> txs[i].ixs[k].base.accounts != []
  }

  predicate InnerNamed(txs: seq<OnchainTx>) {
    forall i :: 0 <= i < |txs| ==> InnerOfNamed(txs[i].ixs)
  }

  predicate InnerOfNamed(ixs: seq<Ix>) {
    forall k, j :: 0 <= k < |ixs| && 0 <= j < |ixs[k].inner| ==> ixs[k].inner[j].accounts != []
  }

  predicate NoInner(txs: seq<OnchainTx>) {
    forall i, k :: 0 <= i < |txs| && 0 <= k < |txs[i].ixs| ==> txs[i].ixs[k].inner == []
  }

  /**
   * The rows of a batch have distinct keys exactly when every level has at most 65536 instructions:
   * the int16 cast is one-to-one up to there.
   */
  lemma {:induction false} ComponentKeysDistinct(txs: seq<OnchainTx>, sigs: map<string, int>, ids: map<string, int>)
    requires AllKnown(txs, sigs, ids) && Distinct(Signatures(txs)) && Injective(sigs)
    ensures var c := ComponentsOf(txs, sigs, ids);
            && Distinct(Keys(c.txs))
            && (Distinct(Keys(c.ixs)) <==> IxsFit(txs))
            && (IxsFit(txs) ==> (Distinct(Keys(c.inner)) <==> InnerFit(txs)))
  {
    hide Int16, BaseRow, BaseKnown, TxRowOf, Keys, Injective, IxRows, InnerRows, OuterKnown, InnerKnown, Distinct, Apart;
    if txs == [] {
      NoKeys<int, TxRow>();
      NoKeys<IxKey, IxRow>();
      NoKeys<InnerKey, IxRow>();
    } else {
      var n := |txs| - 1;
      var tx, front := txs[n], txs[..n];
      SignaturesFront(txs);
      ComponentKeysDistinct(front, sigs, ids);
      var c, id := ComponentsOf(front, sigs, ids), sigs[tx.signature];
      LastApart(txs, sigs, ids);
      KeysConcat(c.txs, [(id, TxRowOf(tx, ids))]);
      KeysConcat(c.ixs, IxRows(id, tx.ixs, ids));
      KeysConcat(c.inner, InnerRows(id, tx.ixs, ids));
      DistinctConcat(Keys(c.txs), Keys([(id, TxRowOf(tx, ids))]));
      DistinctConcat(Keys(c.ixs), Keys(IxRows(id, tx.ixs, ids)));
      DistinctConcat(Keys(c.inner), Keys(InnerRows(id, tx.ixs, ids)));
      IxKeysDistinct(id, tx.ixs, ids);
      if |tx.ixs| <= 0x1_0000 {
        InnerKeysDistinct(id, tx.ixs, ids);
      }
      FitFront(txs);
      var all := ComponentsOf(txs, sigs, ids);
      assert all.txs == c.txs + [(id, TxRowOf(tx, ids))];
      assert all.ixs == c.ixs + IxRows(id, tx.ixs, ids);
      assert all.inner == c.inner + InnerRows(id, tx.ixs, ids);
    }
  }

  lemma FitFront(txs: seq<OnchainTx>)
    requires txs != []
    ensures var front, tx := txs[..|txs| - 1], txs[|txs| - 1];
            && (IxsFit(txs) <==> IxsFit(front) && |tx.ixs| <= 0x1_0000)
            && (InnerFit(txs) <==> InnerFit(front) && forall k :: 0 <= k < |tx.ixs| ==> |tx.ixs[k].inner| <= 0x1_0000)
  {
    var front := txs[..|txs| - 1];
    assert forall i :: 0 <= i < |front| ==> front[i] == txs[i];
  }

  lemma SignaturesFront(txs: seq<OnchainTx>)
    requires txs != [] && Distinct(Signatures(txs))
    ensures Distinct(Signatures(txs[..|txs| - 1]))
    ensures forall i :: 0 <= i < |txs| - 1 ==> txs[i].signature != txs[|txs| - 1].signature
  {
    var sigs, front := Signatures(txs), Signatures(txs[..|txs| - 1]);
    assert forall i :: 0 <= i < |front| ==> front[i] == sigs[i];
    assert forall i :: 0 <= i < |txs| ==> sigs[i] == txs[i].signature;
  }

  /** The rows of the last transaction share no key with those before. */
  lemma LastApart(txs: seq<OnchainTx>, sigs: map<string, int>, ids: map<string, int>)
    requires txs != [] && AllKnown(txs, sigs, ids) && Injective(sigs)
    requires forall i :: 0 <= i < |txs| - 1 ==> txs[i].signature != txs[|txs| - 1].signature
    ensures var n := |txs| - 1;
            var c, id, tx := ComponentsOf(txs[..n], sigs, ids), sigs[txs[n].signature], txs[n];
            && Distinct(Keys([(id, TxRowOf(tx, ids))]))
            && Apart(Keys(c.txs), Keys([(id, TxRowOf(tx, ids))]))
            && Apart(Keys(c.ixs), Keys(IxRows(id, tx.ixs, ids)))
            && Apart(Keys(c.inner), Keys(InnerRows(id, tx.ixs, ids)))
  {
    hide BaseRow, BaseKnown, TxRowOf, Int16, IxRows, InnerRows, ComponentsOf;
    var n := |txs| - 1;
    var tx, front := txs[n], txs[..n];
    ComponentIds(front, sigs, ids);
    OwnKeys(sigs[tx.signature], tx.ixs, ids);
    assert forall i :: 0 <= i < n ==> front[i] == txs[i] && sigs[txs[i].signature] != sigs[tx.signature];
    var c, id := ComponentsOf(front, sigs, ids), sigs[tx.signature];
    ApartById(Keys(c.ixs), Keys(IxRows(id, tx.ixs, ids)), id);
    ApartByInnerId(Keys(c.inner), Keys(InnerRows(id, tx.ixs, ids)), id);
  }

  lemma ApartById(a: seq<IxKey>, b: seq<IxKey>, id: int)
    requires forall k :: k in a ==> k.0 != id
    requires forall k :: k in b ==> k.0 == id
    ensures Apart(a, b)
  {
    assert forall i :: 0 <= i < |a| ==> a[i] in a;
    assert forall j :: 0 <= j < |b| ==> b[j] in b;
  }

  lemma ApartByInnerId(a: seq<InnerKey>, b: seq<InnerKey>, id: int)
    requires forall k :: k in a ==> k.0 != id
    requires forall k :: k in b ==> k.0 == id
    ensures Apart(a, b)
  {
    assert forall i :: 0 <= i < |a| ==> a[i] in a;
    assert forall j :: 0 <= j < |b| ==> b[j] in b;
  }

  lemma {:induction false} NoInnerRows(txs: seq<OnchainTx>, sigs: map<string, int>, ids: map<string, int>)
    requires AllKnown(txs, sigs, ids)
    ensures ComponentsOf(txs, sigs, ids).inner == [] <==> NoInner(txs)
  {
    hide BaseRow, BaseKnown, TxRowOf, Int16, IxRows, InnerRows, OuterKnown, InnerKnown;
    if txs != [] {
      var n := |txs| - 1;
      NoInnerRows(txs[..n], sigs, ids);
      NoInnerRowsOf(sigs[txs[n].signature], txs[n].ixs, ids);
      assert forall i :: 0 <= i < n ==> txs[..n][i] == txs[i];
    }
  }

  lemma {:induction false} NoInnerRowsOf(id: int, ixs: seq<Ix>, ids: map<string, int>)
    requires InnerKnown(ixs, ids)
    ensures InnerRows(id, ixs, ids) == [] <==> forall k :: 0 <= k < |ixs| ==> ixs[k].inner == []
  {
    hide BaseRow, BaseKnown, Int16, InnerRowsAt;
    if ixs != [] {
      var n := |ixs| - 1;
      InnerRowsAtSize(id, n, ixs[n].inner, ids);
      NoInnerRowsOf(id, ixs[..n], ids);
      assert forall k :: 0 <= k < n ==> ixs[..n][k] == ixs[k];
    }
  }

  /** A row of the batch has a NULL list exactly when its instruction names no account. */
  lemma {:induction false} NullRows(txs: seq<OnchainTx>, sigs: map<string, int>, ids: map<string, int>)
    requires AllKnown(txs, sigs, ids)
    ensures NoNull(ComponentsOf(txs, sigs, ids).ixs) <==> IxsNamed(txs)
    ensures NoNull(ComponentsOf(txs, sigs, ids).inner) <==> InnerNamed(txs)
  {
    hide BaseRow, BaseKnown, TxRowOf, Int16, IxRows, InnerRows, OuterKnown, InnerKnown, InnerOfNamed, NoNull;
    if txs == [] {
      NullNone();
    } else {
      var n := |txs| - 1;
      var tx, id, c := txs[n], sigs[txs[n].signature], ComponentsOf(txs[..n], sigs, ids);
      NullRows(txs[..n], sigs, ids);
      NullOuterOf(id, tx.ixs, ids);
      NullInnerOf(id, tx.ixs, ids);
      NullConcat(c.ixs, IxRows(id, tx.ixs, ids));
      NullConcat(c.inner, InnerRows(id, tx.ixs, ids));
      assert forall i :: 0 <= i < n ==> txs[..n][i] == txs[i];
    }
  }

  lemma NullNone()
    ensures NoNull<IxKey>([]) && NoNull<InnerKey>([])
  {
  }

  lemma NullConcat<K>(a: seq<(K, IxRow)>, b: seq<(K, IxRow)>)
    ensures NoNull(a + b) <==> NoNull(a) && NoNull(b)
  {
    assert forall i :: 0 <= i < |a| ==> (a + b)[i] == a[i];
    assert forall i :: 0 <= i < |b| ==> (a + b)[|a| + i] == b[i];
  }

  lemma NullOuterOf(id: int, ixs: seq<Ix>, ids: map<string, int>)
    requires OuterKnown(ixs, ids)
    ensures NoNull(IxRows(id, ixs, ids)) <==> forall k :: 0 <= k < |ixs| ==> ixs[k].base.accounts != []
  {
    hide Int16, BaseRow, BaseKnown;
    var rows := IxRows(id, ixs, ids);
    assert forall k :: 0 <= k < |ixs| ==> rows[k].1 == BaseRow(ixs[k].base, ids);
  }

  lemma {:induction false} NullInnerOf(id: int, ixs: seq<Ix>, ids: map<string, int>)
    requires InnerKnown(ixs, ids)
    ensures NoNull(InnerRows(id, ixs, ids)) <==> InnerOfNamed(ixs)
  {
    hide Int16, BaseRow, BaseKnown, InnerRowsAt;
    if ixs != [] {
      var n := |ixs| - 1;
      NullInnerOf(id, ixs[..n], ids);
      NullInnerAt(id, n, ixs[n].inner, ids);
      NullConcat(InnerRows(id, ixs[..n], ids), InnerRowsAt(id, n, ixs[n].inner, ids));
      assert forall k :: 0 <= k < n ==> ixs[..n][k] == ixs[k];
    }
  }

  lemma NullInnerAt(id: int, k: int, inner: seq<IxBase>, ids: map<string, int>)
    requires forall j :: 0 <= j < |inner| ==> BaseKnown(inner[j], ids)
    ensures NoNull(InnerRowsAt(id, k, inner, ids)) <==> forall j :: 0 <= j < |inner| ==> inner[j].accounts != []
  {
    hide Int16, BaseRow, BaseKnown;
    var rows := InnerRowsAt(id, k, inner, ids);
    assert forall j :: 0 <= j < |inner| ==> rows[j].1 == BaseRow(inner[j], ids);
  }

  lemma InnerRowsAtSize(id: int, k: int, inner: seq<IxBase>, ids: map<string, int>)
    requires forall j :: 0 <= j < |inner| ==> BaseKnown(inner[j], ids)
    ensures |InnerRowsAt(id, k, inner, ids)| == |inner|
  {
  }

  /** Every inner row refers to an instruction row of the same output. */
  lemma {:induction false} InnerRefersToIx(txs: seq<OnchainTx>, sigs: map<string, int>, ids: map<string, int>)
    requires AllKnown(txs, sigs, ids)
    ensures var c := ComponentsOf(txs, sigs, ids);
            forall k :: k in Keys(c.inner) ==> (k.0, k.1) in Keys(c.ixs)
  {
    hide BaseRow, BaseKnown, TxRowOf, Int16, IxRows, InnerRows, Keys, OuterKnown, InnerKnown;
    if txs == [] {
      NoKeyIn<InnerKey, IxRow>();
    } else {
      var n := |txs| - 1;
      var tx, id := txs[n], sigs[txs[n].signature];
      InnerRefersToIx(txs[..n], sigs, ids);
      var c := ComponentsOf(txs[..n], sigs, ids);
      KeysConcat(c.ixs, IxRows(id, tx.ixs, ids));
      KeysConcat(c.inner, InnerRows(id, tx.ixs, ids));
      OwnInnerRefers(id, tx.ixs, ids);
    }
  }

  lemma NoKeyIn<K, V>()
    ensures Keys<K, V>([]) == []
  {
  }

  lemma OwnInnerRefers(id: int, ixs: seq<Ix>, ids: map<string, int>)
    requires OuterKnown(ixs, ids) && InnerKnown(ixs, ids)
    ensures forall k :: k in Keys(InnerRows(id, ixs, ids)) ==> (k.0, k.1) in Keys(IxRows(id, ixs, ids))
  {
    hide BaseRow, BaseKnown, Int16, IxRows, InnerRows;
    InnerKeysBelow(id, ixs, ids);
    forall k: InnerKey | k in Keys(InnerRows(id, ixs, ids))
      ensures (k.0, k.1) in Keys(IxRows(id, ixs, ids))
    {
      IxRowsKeys(id, ixs, ids, (k.0, k.1));
    }
  }

  // ---- when the batch commits ----

  /** Every address the batch uses is in some account list of the batch. */
  predicate BatchResolved(txs: seq<OnchainTx>) {
    forall i :: 0 <= i < |txs| ==>
      forall k :: 0 <= k < |txs[i].ixs| ==>
        BaseWithin(txs[i].ixs[k].base, BatchAddresses(txs)) &&
        forall j :: 0 <= j < |txs[i].ixs[k].inner| ==> BaseWithin(txs[i].ixs[k].inner[j], BatchAddresses(txs))
  }

  predicate BaseWithin(b: IxBase, wanted: set<string>) {
    b.program in wanted && forall a :: a in b.accounts ==> a in wanted
  }

  lemma KnownWithin(b: IxBase, address: map<string, int>, wanted: set<string>)
    requires wanted <= address.Keys
    ensures BaseKnown(b, Restrict(address, wanted)) <==> BaseWithin(b, wanted)
  {
    var m := Restrict(address, wanted);
    assert m.Keys == wanted;
  }

  /** Id lookups while saving succeed exactly when the batch uses only addresses of its account lists. */
  lemma LookupsSucceedIff(txs: seq<OnchainTx>, ids: seq<int>, address: map<string, int>)
    requires |ids| == |txs| && Distinct(Signatures(txs)) && BatchAddresses(txs) <= address.Keys
    ensures AllKnown(txs, Zip(Signatures(txs), ids), Restrict(address, BatchAddresses(txs))) <==> BatchResolved(txs)
  {
    hide BaseKnown, BaseWithin, Zip, Restrict, BatchAddresses;
    var sigs, wanted := Signatures(txs), BatchAddresses(txs);
    var m := Restrict(address, wanted);
    assert forall i :: 0 <= i < |txs| ==> sigs[i] == txs[i].signature;
    forall b: IxBase
      ensures BaseKnown(b, m) <==> BaseWithin(b, wanted)
    {
      KnownWithin(b, address, wanted);
    }
    AccountsWanted(txs, address);
  }

  lemma AccountsWanted(txs: seq<OnchainTx>, address: map<string, int>)
    requires BatchAddresses(txs) <= address.Keys
    ensures forall i, a :: 0 <= i < |txs| && a in txs[i].accounts ==> a in Restrict(address, BatchAddresses(txs))
  {
  }

  /** Transactions from `fetchTransaction` never fail a lookup. */
  lemma ResolvedBatch(txs: seq<OnchainTx>)
    requires forall i :: 0 <= i < |txs| ==> Resolved(txs[i])
    ensures BatchResolved(txs)
  {
    forall i, a | 0 <= i < |txs| && a in txs[i].accounts
      ensures a in BatchAddresses(txs)
    {
    }
  }

  /** The condition under which the database accepts a batch. */
  predicate Commits(db: Db, txs: seq<OnchainTx>, target: Target) {
    && Fresh(db, txs) && BatchResolved(txs) && IxsFit(txs) && IxsNamed(txs)
    && if target.AsWritten? then NoInner(txs) else InnerFit(txs) && InnerNamed(txs)
  }

  predicate Fresh(db: Db, txs: seq<OnchainTx>) {
    Distinct(Signatures(txs)) && forall i :: 0 <= i < |txs| ==> txs[i].signature !in db.signature
  }

  /**
   * The batch commits exactly when its signatures are distinct and new, its addresses resolve, no level
   * has more than 65536 instructions, every instruction names an account and, as the code is written, no
   * instruction has inner instructions.
   */
  lemma SaveCommitsIff(db: Db, txs: seq<OnchainTx>, ids: seq<int>, address: map<string, int>, target: Target)
    requires DbOk(db) && |ids| == |txs| && Distinct(ids) && BatchAddresses(txs) <= address.Keys
    requires forall id :: id in ids ==> id !in db.signature.Values
    ensures SaveBatch(db, txs, ids, address, target).Ok? <==> Commits(db, txs, target)
  {
    hide BatchResolved, Zip, Restrict, BatchAddresses, AllKnown, ComponentsOf, Injective, RowRefs;
    hide IxsFit, InnerFit, IxsNamed, InnerNamed, NoInner, InsertIxs;
    var sigs := Signatures(txs);
    assert forall i :: 0 <= i < |txs| ==> sigs[i] == txs[i].signature;
    if Fresh(db, txs) {
      LookupsSucceedIff(txs, ids, address);
      if BatchResolved(txs) {
        RowsInsertIff(db, txs, ids, address);
      }
    }
  }

  lemma RowsInsertIff(db: Db, txs: seq<OnchainTx>, ids: seq<int>, address: map<string, int>)
    requires DbOk(db) && |ids| == |txs| && Distinct(ids) && Distinct(Signatures(txs))
    requires forall id :: id in ids ==> id !in db.signature.Values
    requires AllKnown(txs, Zip(Signatures(txs), ids), Restrict(address, BatchAddresses(txs)))
    ensures var c := ComponentsOf(txs, Zip(Signatures(txs), ids), Restrict(address, BatchAddresses(txs)));
            && Insert(db.transaction, c.txs).Some?
            && (InsertIxs(db.instruction, c.ixs).Some? <==> IxsFit(txs) && IxsNamed(txs))
            && (c.inner == [] <==> NoInner(txs))
            && (IxsFit(txs) ==> (InsertIxs(db.inner, c.inner).Some? <==> InnerFit(txs) && InnerNamed(txs)))
            && (IxsFit(txs) && NoInner(txs) ==> InnerFit(txs) && InnerNamed(txs))
  {
    hide Insert, InsertIxs, NoNull, BatchAddresses, Restrict, IxsFit, InnerFit, IxsNamed, InnerNamed, NoInner;
    hide RowRefs, ComponentsOf, AllKnown, Keys, Distinct;
    if NoInner(txs) {
      NoInnerFits(txs);
    }
    var sigs, accounts := Zip(Signatures(txs), ids), Restrict(address, BatchAddresses(txs));
    var c := ComponentsOf(txs, sigs, accounts);
    ZipInjective(Signatures(txs), ids);
    ComponentKeysDistinct(txs, sigs, accounts);
    NoInnerRows(txs, sigs, accounts);
    NewKeys(db, txs, ids, accounts);
    InsertIff(db.transaction, c.txs);
    NullRows(txs, sigs, accounts);
    InsertIxsIff(db.instruction, c.ixs);
    InsertIxsIff(db.inner, c.inner);
  }

  lemma NoInnerFits(txs: seq<OnchainTx>)
    requires NoInner(txs)
    ensures InnerFit(txs) && InnerNamed(txs)
  {
  }

  /** Rows of new signatures meet no row of old ones. */
  lemma NewKeys(db: Db, txs: seq<OnchainTx>, ids: seq<int>, accounts: map<string, int>)
    requires DbOk(db) && |ids| == |txs| && Distinct(Signatures(txs))
    requires forall id :: id in ids ==> id !in db.signature.Values
    requires AllKnown(txs, Zip(Signatures(txs), ids), accounts)
    ensures var c := ComponentsOf(txs, Zip(Signatures(txs), ids), accounts);
            && (forall i :: 0 <= i < |c.txs| ==> c.txs[i].0 in ids && c.txs[i].0 !in db.transaction)
            && (forall i :: 0 <= i < |c.ixs| ==> c.ixs[i].0.0 in ids && c.ixs[i].0 !in db.instruction)
            && (forall i :: 0 <= i < |c.inner| ==> c.inner[i].0.0 in ids && c.inner[i].0 !in db.inner)
  {
    hide RowRefs, ComponentsOf, Injective, TxKnown;
    var sigs := Signatures(txs);
    ComponentIds(txs, Zip(sigs, ids), accounts);
    forall i | 0 <= i < |txs|
      ensures Zip(sigs, ids)[txs[i].signature] in ids
    {
      assert sigs[i] == txs[i].signature && Zip(sigs, ids)[sigs[i]] == ids[i];
    }
    var c := ComponentsOf(txs, Zip(sigs, ids), accounts);
    assert forall i :: 0 <= i < |c.txs| ==> c.txs[i].0 == Keys(c.txs)[i] && Keys(c.txs)[i] in Keys(c.txs);
    assert forall i :: 0 <= i < |c.ixs| ==> c.ixs[i].0 == Keys(c.ixs)[i] && Keys(c.ixs)[i] in Keys(c.ixs);
    assert forall i :: 0 <= i < |c.inner| ==> c.inner[i].0 == Keys(c.inner)[i] && Keys(c.inner)[i] in Keys(c.inner);
  }

  /** For transactions that were fetched, the pipeline's condition is the exact one. */
  lemma CanSaveExact(db: Db, t: Tables, txs: seq<OnchainTx>, ids: seq<int>, address: map<string, int>)
    requires DbOk(db) && t.signature == db.signature && FreshIds(t, ids) && |ids| == |txs|
    requires BatchAddresses(txs) <= address.Keys
    requires forall i :: 0 <= i < |txs| ==> Resolved(txs[i])
    ensures SaveBatch(db, txs, ids, address, AsWritten).Ok? <==> CanSave(t, txs)
  {
    hide SaveBatch, DbOk, Resolved, BatchAddresses, BatchResolved;
    SaveCommitsIff(db, txs, ids, address, AsWritten);
    ResolvedBatch(txs);
    assert forall i :: 0 <= i < |txs| ==> txs[i] in txs;
    if Fresh(db, txs) && IxsFit(txs) && IxsNamed(txs) && NoInner(txs) {
      forall tx | tx in txs
        ensures tx.signature !in t.signature && Storable(tx)
      {
        var i :| 0 <= i < |txs| && txs[i] == tx;
      }
    }
    if CanSave(t, txs) {
      assert Fresh(db, txs) && IxsNamed(txs) && NoInner(txs);
    }
  }

  /** An instruction without accounts, as a compute budget instruction is, stops a batch whatever the tables. */
  lemma AccountlessStops(db: Db, txs: seq<OnchainTx>, ids: seq<int>, address: map<string, int>, target: Target, i: nat, k: nat)
    requires DbOk(db) && |ids| == |txs| && Distinct(ids) && BatchAddresses(txs) <= address.Keys
    requires forall id :: id in ids ==> id !in db.signature.Values
    requires i < |txs| && k < |txs[i].ixs| && txs[i].ixs[k].base.accounts == []
    ensures SaveBatch(db, txs, ids, address, target).Err?
  {
    hide SaveBatch, DbOk, BatchAddresses, BatchResolved, IxsFit, InnerFit, InnerNamed, NoInner, Fresh, Distinct;
    SaveCommitsIff(db, txs, ids, address, target);
  }
}
