/**
 * The relational encoding of a transaction: addresses become ids, the instruction tree becomes flat
 * rows under key constraints. Which batches the database accepts, exactly, is proved here.
 */
module Storage {
  import opened Common
  import opened Ledger

  datatype TxRow = TxRow(
    accountsIds: seq<int>,
    slot: nat,
    err: bool,
    fee: nat,
    logs: seq<string>,
    timestamp: int,
    timestampGranularized: int)

  /** `accountsIds` as it is sent: None is NULL. */
  datatype IxRow = IxRow(program: int, accountsIds: Option<seq<int>>, data: string) {
    function Accounts(): seq<int> {
      if accountsIds.Some? then accountsIds.value else []
    }
  }

  type IxKey = (int, int)
  type InnerKey = (int, int, int)

  /** Each table keyed by its primary or unique key. */
  datatype Db = Db(
    signature: map<string, int>,
    address: map<string, int>,
    transaction: map<int, TxRow>,
    instruction: map<IxKey, IxRow>,
    inner: map<InnerKey, IxRow>)

  /** The Go conversion `int16(i)`. */
  function Int16(i: int): int {
    (i + 0x8000) % 0x1_0000 - 0x8000
  }

  lemma Int16Wraps(i: int, j: int)
    ensures Int16(i) == Int16(j) <==> (i - j) % 0x1_0000 == 0
  {
  }

  // ---- rows of one instruction ----

  predicate BaseKnown(b: IxBase, ids: map<string, int>) {
    b.program in ids && forall a :: a in b.accounts ==> a in ids
  }

  predicate OuterKnown(ixs: seq<Ix>, ids: map<string, int>) {
    forall k :: 0 <= k < |ixs| ==> BaseKnown(ixs[k].base, ids)
  }

  predicate InnerKnown(ixs: seq<Ix>, ids: map<string, int>) {
    forall k, j :: 0 <= k < |ixs| && 0 <= j < |ixs[k].inner| ==> BaseKnown(ixs[k].inner[j], ids)
  }

  predicate TxKnown(tx: OnchainTx, ids: map<string, int>) {
    && (forall a :: a in tx.accounts ==> a in ids)
    && OuterKnown(tx.ixs, ids) && InnerKnown(tx.ixs, ids)
  }

  function IdsOf(addresses: seq<string>, ids: map<string, int>): seq<int>
    requires forall a :: a in addresses ==> a in ids
  {
    seq(|addresses|, i requires 0 <= i < |addresses| => ids[addresses[i]])
  }

  /** A slice that is only ever appended to is nil, and sent as NULL, when nothing was. */
  function Appended(ids: seq<int>): Option<seq<int>> {
    if ids == [] then None else Some(ids)
  }

  function BaseRow(b: IxBase, ids: map<string, int>): (row: IxRow)
    requires BaseKnown(b, ids)
    ensures row.Accounts() == IdsOf(b.accounts, ids)
    ensures row.accountsIds.None? <==> b.accounts == []
  {
    IxRow(ids[b.program], Appended(IdsOf(b.accounts, ids)), b.data)
  }

  /** `make(len)` followed by `append`: as many zeros as there are accounts come before the ids. */
  function TxRowOf(tx: OnchainTx, ids: map<string, int>): TxRow
    requires TxKnown(tx, ids)
  {
    TxRow(seq(|tx.accounts|, i => 0) + IdsOf(tx.accounts, ids),
          tx.slot, tx.err, tx.fee, tx.logs, tx.timestamp, tx.timestampGranularized)
  }

  /** The stored account list of a transaction is the intended one only when it is empty. */
  lemma TxAccountsPadded(tx: OnchainTx, ids: map<string, int>)
    requires TxKnown(tx, ids)
    ensures TxRowOf(tx, ids).accountsIds == IdsOf(tx.accounts, ids) <==> tx.accounts == []
    ensures TxRowOf(tx, ids).accountsIds[|tx.accounts|..] == IdsOf(tx.accounts, ids)
  {
    assert |TxRowOf(tx, ids).accountsIds| == 2 * |tx.accounts|;
  }

  // ---- rows of a batch, in the order the loops append them ----

  function IxRows(id: int, ixs: seq<Ix>, ids: map<string, int>): seq<(IxKey, IxRow)>
    requires OuterKnown(ixs, ids)
  {
    seq(|ixs|, k requires 0 <= k < |ixs| => ((id, Int16(k)), BaseRow(ixs[k].base, ids)))
  }

  function InnerRowsAt(id: int, k: int, inner: seq<IxBase>, ids: map<string, int>): seq<(InnerKey, IxRow)>
    requires forall j :: 0 <= j < |inner| ==> BaseKnown(inner[j], ids)
  {
    seq(|inner|, j requires 0 <= j < |inner| => ((id, Int16(k), Int16(j)), BaseRow(inner[j], ids)))
  }

  function InnerRows(id: int, ixs: seq<Ix>, ids: map<string, int>): seq<(InnerKey, IxRow)>
    requires InnerKnown(ixs, ids)
  {
    if ixs == [] then []
    else
      var n := |ixs| - 1;
      InnerRows(id, ixs[..n], ids) + InnerRowsAt(id, n, ixs[n].inner, ids)
  }

  datatype Components = Components(
    txs: seq<(int, TxRow)>,
    ixs: seq<(IxKey, IxRow)>,
    inner: seq<(InnerKey, IxRow)>)

  predicate AllKnown(txs: seq<OnchainTx>, sigs: map<string, int>, ids: map<string, int>) {
    forall i :: 0 <= i < |txs| ==> txs[i].signature in sigs && TxKnown(txs[i], ids)
  }

  function ComponentsOf(txs: seq<OnchainTx>, sigs: map<string, int>, ids: map<string, int>): Components
    requires AllKnown(txs, sigs, ids)
  {
    if txs == [] then Components([], [], [])
    else
      var tx := txs[|txs| - 1];
      var id, c := sigs[tx.signature], ComponentsOf(txs[..|txs| - 1], sigs, ids);
      Components(c.txs + [(id, TxRowOf(tx, ids))],
                 c.ixs + IxRows(id, tx.ixs, ids),
                 c.inner + InnerRows(id, tx.ixs, ids))
  }

  // ---- INSERT under a unique key ----

  function Keys<K, V>(rows: seq<(K, V)>): seq<K> {
    seq(|rows|, i requires 0 <= i < |rows| => rows[i].0)
  }

  /** Row by row; a key that is already there aborts the statement. */
  function Insert<K, V>(table: map<K, V>, rows: seq<(K, V)>): Option<map<K, V>> {
    if rows == [] then Some(table)
    else
      var front := Insert(table, rows[..|rows| - 1]);
      var row := rows[|rows| - 1];
      if front.None? || row.0 in front.value then None else Some(front.value[row.0 := row.1])
  }

  predicate Insertable<K, V>(table: map<K, V>, rows: seq<(K, V)>) {
    Distinct(Keys(rows)) && forall i :: 0 <= i < |rows| ==> rows[i].0 !in table
  }

  /** An insert goes through exactly when its keys are new and distinct, and then adds exactly its rows. */
  lemma {:induction false} InsertIff<K, V>(table: map<K, V>, rows: seq<(K, V)>)
    ensures Insert(table, rows).Some? <==> Insertable(table, rows)
    ensures Insertable(table, rows) ==>
              var t' := Insert(table, rows).value;
              && t'.Keys == table.Keys + Elements(Keys(rows))
              && (forall k :: k in table ==> t'[k] == table[k])
              && (forall i :: 0 <= i < |rows| ==> rows[i].0 in t' && t'[rows[i].0] == rows[i].1)
  {
    if rows != [] {
      InsertIff(table, rows[..|rows| - 1]);
      InsertableFront(table, rows);
    }
  }

  /** The column accounts_ids is NOT NULL. */
  predicate NoNull<K>(rows: seq<(K, IxRow)>) {
    forall i :: 0 <= i < |rows| ==> rows[i].1.accountsIds.Some?
  }

  /** INSERT into instruction or inner_instruction. */
  function InsertIxs<K>(table: map<K, IxRow>, rows: seq<(K, IxRow)>): Option<map<K, IxRow>> {
    if NoNull(rows) then Insert(table, rows) else None
  }

  /** It goes through exactly when the keys are new and distinct and no row has a NULL list; NULL never gets in. */
  lemma InsertIxsIff<K>(table: map<K, IxRow>, rows: seq<(K, IxRow)>)
    ensures InsertIxs(table, rows).Some? <==> Insertable(table, rows) && NoNull(rows)
    ensures InsertIxs(table, rows).Some? && (forall k :: k in table ==> table[k].accountsIds.Some?) ==>
              var t' := InsertIxs(table, rows).value;
              && t'.Keys == table.Keys + Elements(Keys(rows))
              && (forall i :: 0 <= i < |rows| ==> rows[i].0 in t' && t'[rows[i].0] == rows[i].1)
              && (forall k :: k in table ==> t'[k] == table[k])
              && forall k :: k in t' ==> t'[k].accountsIds.Some?
  {
    hide Insert;
    InsertIff(table, rows);
    if InsertIxs(table, rows).Some? {
      var t' := InsertIxs(table, rows).value;
      forall k | k in t' && k !in table
        ensures exists i :: 0 <= i < |rows| && rows[i].0 == k
      {
        assert k in Elements(Keys(rows));
        var i :| 0 <= i < |Keys(rows)| && Keys(rows)[i] == k;
        assert rows[i].0 == k;
      }
    }
  }

  lemma InsertableFront<K, V>(table: map<K, V>, rows: seq<(K, V)>)
    requires rows != []
    ensures var front, key := rows[..|rows| - 1], rows[|rows| - 1].0;
            && (Insertable(table, rows) <==> Insertable(table, front) && key !in table && key !in Keys(front))
            && Elements(Keys(rows)) == Elements(Keys(front)) + {key}
            && forall i :: 0 <= i < |front| ==> front[i] == rows[i] && rows[i].0 in Keys(front)
  {
    var front, key := rows[..|rows| - 1], rows[|rows| - 1].0;
    assert Keys(rows) == Keys(front) + [key];
    DistinctConcat(Keys(front), [key]);
    assert forall i :: 0 <= i < |front| ==> Keys(front)[i] == rows[i].0;
    ApartOne(Keys(front), key);
  }

  lemma ApartOne<T>(a: seq<T>, x: T)
    ensures Apart(a, [x]) <==> x !in a
  {
    assert [x][0] == x;
    if Apart(a, [x]) {
      assert forall i :: 0 <= i < |a| ==> a[i] != [x][0];
    }
  }

  // ---- the keys of a batch ----

  /** The instruction keys of one transaction are distinct exactly up to 65536 instructions. */
  lemma IxKeysDistinct(id: int, ixs: seq<Ix>, ids: map<string, int>)
    requires OuterKnown(ixs, ids)
    ensures Distinct(Keys(IxRows(id, ixs, ids))) <==> |ixs| <= 0x1_0000
  {
    var keys := Keys(IxRows(id, ixs, ids));
    assert forall k :: 0 <= k < |ixs| ==> keys[k] == (id, Int16(k));
    if |ixs| > 0x1_0000 {
      Int16Wraps(0, 0x1_0000);
      assert keys[0] == keys[0x1_0000];
    } else {
      forall i, j | 0 <= i < j < |keys|
        ensures keys[i] != keys[j]
      {
        Int16Wraps(i, j);
      }
    }
  }

  lemma IxRowsKeys(id: int, ixs: seq<Ix>, ids: map<string, int>, key: IxKey)
    requires OuterKnown(ixs, ids)
    ensures key in Keys(IxRows(id, ixs, ids)) <==> exists k :: 0 <= k < |ixs| && key == (id, Int16(k))
  {
    var keys := Keys(IxRows(id, ixs, ids));
    assert |keys| == |ixs| && forall k :: 0 <= k < |ixs| ==> keys[k] == (id, Int16(k));
  }

  /** `row` is the row of inner instruction `j` of instruction `k`. */
  predicate InnerRowAt(id: int, ixs: seq<Ix>, ids: map<string, int>, k: int, j: int, row: (InnerKey, IxRow))
    requires InnerKnown(ixs, ids)
  {
    0 <= k < |ixs| && 0 <= j < |ixs[k].inner| && row == ((id, Int16(k), Int16(j)), BaseRow(ixs[k].inner[j], ids))
  }

  lemma {:induction false} InnerRowsSound(id: int, ixs: seq<Ix>, ids: map<string, int>, row: (InnerKey, IxRow))
    requires InnerKnown(ixs, ids) && row in InnerRows(id, ixs, ids)
    ensures exists k, j :: InnerRowAt(id, ixs, ids, k, j, row)
  {
    hide Int16, BaseRow, BaseKnown;
    var n := |ixs| - 1;
    var last := InnerRowsAt(id, n, ixs[n].inner, ids);
    if row in last {
      var j :| 0 <= j < |last| && last[j] == row;
      assert InnerRowAt(id, ixs, ids, n, j, row);
    } else {
      InnerRowsSound(id, ixs[..n], ids, row);
      var k, j :| InnerRowAt(id, ixs[..n], ids, k, j, row);
      assert InnerRowAt(id, ixs, ids, k, j, row);
    }
  }

  lemma {:induction false} InnerRowsComplete(id: int, ixs: seq<Ix>, ids: map<string, int>, k: nat, j: nat)
    requires InnerKnown(ixs, ids) && k < |ixs| && j < |ixs[k].inner|
    ensures ((id, Int16(k), Int16(j)), BaseRow(ixs[k].inner[j], ids)) in InnerRows(id, ixs, ids)
  {
    hide Int16, BaseRow, BaseKnown;
    var n := |ixs| - 1;
    if k < n {
      InnerRowsComplete(id, ixs[..n], ids, k, j);
    } else {
      var last := InnerRowsAt(id, n, ixs[n].inner, ids);
      assert last[j] in last;
    }
  }

  lemma KeysConcat<K, V>(a: seq<(K, V)>, b: seq<(K, V)>)
    ensures Keys(a + b) == Keys(a) + Keys(b)
  {
  }

  /** No element of `a` is in `b`. */
  predicate Apart<T(==)>(a: seq<T>, b: seq<T>) {
    forall i, j :: 0 <= i < |a| && 0 <= j < |b| ==> a[i] != b[j]
  }

  lemma DistinctConcat<T>(a: seq<T>, b: seq<T>)
    ensures Distinct(a + b) <==> Distinct(a) && Distinct(b) && Apart(a, b)
  {
    var s := a + b;
    assert forall i :: 0 <= i < |a| ==> s[i] == a[i];
    assert forall i :: 0 <= i < |b| ==> s[|a| + i] == b[i];
    if Distinct(s) {
      forall i, j | 0 <= i < |a| && 0 <= j < |b|
        ensures a[i] != b[j]
      {
        assert s[i] != s[|a| + j];
      }
    }
    if Distinct(a) && Distinct(b) && Apart(a, b) {
      forall i, j | 0 <= i < j < |s|
        ensures s[i] != s[j]
      {
        if i >= |a| {
          assert s[i] == b[i - |a|] && s[j] == b[j - |a|];
        }
      }
    }
  }

  /** With at most 65536 instructions, the inner keys are distinct exactly up to 65536 inner ones each. */
  lemma {:induction false} InnerKeysDistinct(id: int, ixs: seq<Ix>, ids: map<string, int>)
    requires InnerKnown(ixs, ids) && |ixs| <= 0x1_0000
    ensures Distinct(Keys(InnerRows(id, ixs, ids))) <==> forall k :: 0 <= k < |ixs| ==> |ixs[k].inner| <= 0x1_0000
  {
    hide Int16, BaseRow, BaseKnown, Keys, InnerRowsAt, Distinct;
    if ixs == [] {
      NoKeys<InnerKey, IxRow>();
    } else {
      var n := |ixs| - 1;
      InnerKeysDistinct(id, ixs[..n], ids);
      var front, last := InnerRows(id, ixs[..n], ids), InnerRowsAt(id, n, ixs[n].inner, ids);
      KeysConcat(front, last);
      DistinctConcat(Keys(front), Keys(last));
      InnerKeysAt(id, n, ixs[n].inner, ids);
      InnerKeysApart(id, ixs, ids, n);
      assert forall k :: 0 <= k < n ==> ixs[..n][k] == ixs[k];
    }
  }

  lemma NoKeys<K, V>()
    ensures Distinct(Keys<K, V>([]))
  {
  }

  lemma InnerKeysApart(id: int, ixs: seq<Ix>, ids: map<string, int>, n: nat)
    requires InnerKnown(ixs, ids) && n < |ixs| <= 0x1_0000
    ensures Apart(Keys(InnerRows(id, ixs[..n], ids)), Keys(InnerRowsAt(id, n, ixs[n].inner, ids)))
  {
    hide Int16, BaseRow, BaseKnown, Keys, InnerRowsAt, InnerRows;
    InnerKeysAt(id, n, ixs[n].inner, ids);
    InnerKeysBelow(id, ixs[..n], ids);
    var front, last := Keys(InnerRows(id, ixs[..n], ids)), Keys(InnerRowsAt(id, n, ixs[n].inner, ids));
    forall i, j | 0 <= i < |front| && 0 <= j < |last|
      ensures front[i] != last[j]
    {
      assert front[i] in front && last[j] in last;
      var k :| 0 <= k < n && front[i].1 == Int16(k);
      Int16Wraps(k, n);
    }
  }

  lemma InnerKeysAt(id: int, k: int, inner: seq<IxBase>, ids: map<string, int>)
    requires forall j :: 0 <= j < |inner| ==> BaseKnown(inner[j], ids)
    ensures Distinct(Keys(InnerRowsAt(id, k, inner, ids))) <==> |inner| <= 0x1_0000
    ensures forall key: InnerKey :: key in Keys(InnerRowsAt(id, k, inner, ids)) ==> key.0 == id && key.1 == Int16(k)
  {
    var keys := Keys(InnerRowsAt(id, k, inner, ids));
    assert forall j :: 0 <= j < |inner| ==> keys[j] == (id, Int16(k), Int16(j));
    if |inner| > 0x1_0000 {
      Int16Wraps(0, 0x1_0000);
      assert keys[0] == keys[0x1_0000];
    } else {
      forall i, j | 0 <= i < j < |keys|
        ensures keys[i] != keys[j]
      {
        Int16Wraps(i, j);
      }
    }
  }

  lemma InnerKeysBelow(id: int, ixs: seq<Ix>, ids: map<string, int>)
    requires InnerKnown(ixs, ids)
    ensures forall key: InnerKey :: key in Keys(InnerRows(id, ixs, ids)) ==>
              key.0 == id && exists k :: 0 <= k < |ixs| && key.1 == Int16(k)
  {
    var rows := InnerRows(id, ixs, ids);
    forall key: InnerKey | key in Keys(rows)
      ensures key.0 == id && exists k :: 0 <= k < |ixs| && key.1 == Int16(k)
    {
      var i :| 0 <= i < |rows| && rows[i].0 == key;
      InnerRowsSound(id, ixs, ids, rows[i]);
      var k, j :| InnerRowAt(id, ixs, ids, k, j, rows[i]);
    }
  }

}
