/**
 * Saving a transaction and reading it back. `transactions.Get` is a query, stated as a relation between
 * the tables and an answer; the answer is then shown to be the saved instruction tree and nothing else.
 */
module RoundTrip {
  import opened Common
  import opened Ledger
  import opened Storage
  import opened Pipeline
  import opened Saving

  // ---- sorted answers ----

  predicate Increasing(s: seq<int>) {
    forall i, j :: 0 <= i < j < |s| ==> s[i] < s[j]
  }

  /** ORDER BY a unique key leaves one possible answer. */
  lemma {:induction false} IncreasingUnique(a: seq<int>, b: seq<int>)
    requires Increasing(a) && Increasing(b)
    requires forall x: int :: x in a <==> x in b
    ensures a == b
  {
    assert Elements(a) == Elements(b);
    DistinctSize(a);
    DistinctSize(b);
    if a != [] {
      var n := |a| - 1;
      assert a[n] in b && b[n] in a;
      assert a[n] == b[n];
      forall x: int
        ensures x in a[..n] <==> x in b[..n]
      {
        FrontBelow(a, x);
        FrontBelow(b, x);
      }
      IncreasingUnique(a[..n], b[..n]);
      assert a == a[..n] + [a[n]] && b == b[..n] + [b[n]];
    }
  }

  lemma FrontBelow(a: seq<int>, x: int)
    requires Increasing(a) && a != []
    ensures x in a[..|a| - 1] <==> x in a && x < a[|a| - 1]
  {
    var m := |a| - 1;
    if x in a[..m] {
      var i :| 0 <= i < m && a[i] == x;
    }
    if x in a && x < a[m] {
      var i :| 0 <= i < |a| && a[i] == x;
      assert a[..m][i] == x;
    }
  }

  // ---- first occurrences ----

  predicate FirstAt<T(==)>(s: seq<T>, p: int) {
    0 <= p < |s| && s[p] !in s[..p]
  }

  /** The positions at which something occurs for the first time, in order. */
  function FirstPositions<T(==)>(s: seq<T>): (pos: seq<int>)
    ensures Increasing(pos)
    ensures forall p: int :: p in pos <==> FirstAt(s, p)
    ensures forall i :: 0 <= i < |pos| ==> 0 <= pos[i] < |s|
  {
    if s == [] then []
    else
      var n := |s| - 1;
      var front := FirstPositions(s[..n]);
      assert forall p: int :: 0 <= p < n ==> (FirstAt(s[..n], p) <==> FirstAt(s, p)) by {
        assert forall p: int :: 0 <= p < n ==> s[..n][..p] == s[..p];
      }
      if s[n] in s[..n] then front else front + [n]
  }

  /** `s` with every repeat dropped, keeping first occurrences. */
  function Dedup<T(==)>(s: seq<T>): seq<T> {
    if s == [] then []
    else
      var n := |s| - 1;
      if s[n] in s[..n] then Dedup(s[..n]) else Dedup(s[..n]) + [s[n]]
  }

  lemma {:induction false} DedupPositions<T>(s: seq<T>)
    ensures |Dedup(s)| == |FirstPositions(s)|
    ensures forall i :: 0 <= i < |Dedup(s)| ==> Dedup(s)[i] == s[FirstPositions(s)[i]]
  {
    if s != [] {
      DedupPositions(s[..|s| - 1]);
    }
  }

  lemma {:induction false} DedupIdentity<T>(s: seq<T>)
    ensures |Dedup(s)| <= |s|
    ensures Dedup(s) == s <==> Distinct(s)
  {
    if s != [] {
      var n := |s| - 1;
      DedupIdentity(s[..n]);
      assert s == s[..n] + [s[n]];
      DistinctConcat(s[..n], [s[n]]);
      if s[n] in s[..n] {
        var i :| 0 <= i < n && s[..n][i] == s[n];
        assert s[i] == s[n];
      }
    }
  }

  // ---- instruction data ----

  const DIGITS: string := "0123456789abcdef"

  predicate IsHex(data: string) {
    forall i :: 0 <= i < |data| ==> data[i] in DIGITS
  }

  function HexOf(c: char): (s: string)
    ensures |s| == 2
  {
    [DIGITS[(c as int / 16) % 16], DIGITS[c as int % 16]]
  }

  function HexText(data: string): string {
    if data == "" then "" else HexOf(data[0]) + HexText(data[1..])
  }

  /**
   * What the query shows of a BYTEA column that was given `data` as text: the hex text sent goes in as its
   * ASCII bytes, and bytes come out as `\x` and their hex.
   */
  function Shown(data: string): string {
    "\\x" + HexText(data)
  }

  function DigitValue(d: char): int {
    if '0' <= d <= '9' then d as int - '0' as int else d as int - 'a' as int + 10
  }

  /** Reading hex: two digits a character, the high one first. */
  function Unhex(s: string): string
    requires forall i :: 0 <= i < |s| ==> 0 <= DigitValue(s[i]) < 16
  {
    if |s| < 2 then "" else [(16 * DigitValue(s[0]) + DigitValue(s[1])) as char] + Unhex(s[2..])
  }

  predicate Ascii(data: string) {
    forall i :: 0 <= i < |data| ==> data[i] as int < 128
  }

  lemma HexCharBack(c: char)
    requires c as int < 128
    ensures forall i :: 0 <= i < 2 ==> 0 <= DigitValue(HexOf(c)[i]) < 16
    ensures 16 * DigitValue(HexOf(c)[0]) + DigitValue(HexOf(c)[1]) == c as int
  {
    DigitAt((c as int / 16) % 16);
    DigitAt(c as int % 16);
  }

  lemma DigitAt(i: int)
    requires 0 <= i < 16
    ensures DigitValue(DIGITS[i]) == i
  {
  }

  /** Reading what is shown gives back what was sent. */
  lemma {:induction false} UnhexShown(data: string)
    requires Ascii(data)
    ensures forall i :: 0 <= i < |HexText(data)| ==> 0 <= DigitValue(HexText(data)[i]) < 16
    ensures Unhex(HexText(data)) == data
  {
    hide HexOf, DigitValue;
    if data != "" {
      HexCharBack(data[0]);
      UnhexShown(data[1..]);
      var s := HexText(data);
      assert s[0] == HexOf(data[0])[0] && s[1] == HexOf(data[0])[1] && s[2..] == HexText(data[1..]);
      assert data == [data[0]] + data[1..];
    }
  }

  /** What is shown is `\x` and hex that reads back as the text that was sent; it is not hex text itself. */
  lemma ShownData(data: string)
    requires IsHex(data)
    ensures Shown(data)[..2] == "\\x"
    ensures var s := Shown(data)[2..];
            (forall i :: 0 <= i < |s| ==> 0 <= DigitValue(s[i]) < 16) && Unhex(s) == data
    ensures !IsHex(Shown(data))
  {
    HexIsAscii(data);
    UnhexShown(data);
    assert Shown(data)[2..] == HexText(data);
    BackslashShown(data);
  }

  lemma BackslashShown(a: string)
    ensures !IsHex(Shown(a))
  {
    assert Shown(a)[0] == '\\';
  }

  lemma HexIsAscii(data: string)
    requires IsHex(data)
    ensures Ascii(data)
  {
    forall i | 0 <= i < |data|
      ensures data[i] as int < 128
    {
      HexDigit(data[i]);
    }
  }

  lemma HexDigit(c: char)
    requires c in DIGITS
    ensures c as int < 128
  {
  }

  // ---- the query ----

  datatype Account = Account(id: int, address: string, ord: int)
  datatype StoredBase = StoredBase(program: string, accounts: seq<Account>, data: string)
  datatype StoredIx = StoredIx(base: StoredBase, inner: seq<StoredBase>)
  datatype StoredTx = StoredTx(signature: string, signatureId: int, ixs: seq<StoredIx>, logs: seq<string>)

  /** One row per address whose id is in `ids`, by `array_position(ids, id)`. */
  ghost predicate IsAccountsAt(address: map<string, int>, ids: seq<int>, pos: seq<int>, r: seq<Account>) {
    && Increasing(pos) && |pos| == |r|
    && (forall p: int :: p in pos <==> FirstAt(ids, p) && ids[p] in address.Values)
    && (forall i :: 0 <= i < |r| ==>
          0 <= pos[i] < |ids| && r[i].id == ids[pos[i]] && r[i].ord == pos[i] + 1
          && HasRow(address, r[i].address, r[i].id))
  }

  ghost predicate IsAccounts(address: map<string, int>, ids: seq<int>, r: seq<Account>) {
    exists pos :: IsAccountsAt(address, ids, pos, r)
  }

  ghost predicate IsBase(address: map<string, int>, row: IxRow, r: StoredBase) {
    && HasRow(address, r.program, row.program) && r.data == Shown(row.data)
    && IsAccounts(address, row.Accounts(), r.accounts)
  }

  ghost predicate IsInnerAt(db: Db, id: int, k: int, idx: seq<int>, r: seq<StoredBase>) {
    && Increasing(idx) && |idx| == |r|
    && (forall j: int :: j in idx <==> (id, k, j) in db.inner && db.inner[(id, k, j)].program in db.address.Values)
    && (forall i :: 0 <= i < |r| ==> (id, k, idx[i]) in db.inner && IsBase(db.address, db.inner[(id, k, idx[i])], r[i]))
  }

  ghost predicate IsInner(db: Db, id: int, k: int, r: seq<StoredBase>) {
    exists idx :: IsInnerAt(db, id, k, idx, r)
  }

  ghost predicate IsIxsAt(db: Db, id: int, idx: seq<int>, r: seq<StoredIx>) {
    && Increasing(idx) && |idx| == |r|
    && (forall k: int :: k in idx <==> (id, k) in db.instruction && db.instruction[(id, k)].program in db.address.Values)
    && (forall i :: 0 <= i < |r| ==>
          (id, idx[i]) in db.instruction && IsBase(db.address, db.instruction[(id, idx[i])], r[i].base)
          && IsInner(db, id, idx[i], r[i].inner))
  }

  ghost predicate IsIxs(db: Db, id: int, r: seq<StoredIx>) {
    exists idx :: IsIxsAt(db, id, idx, r)
  }

  /** The row `Get` returns for signature `x`. */
  ghost predicate IsTx(db: Db, x: string, r: StoredTx) {
    && x in db.signature && db.signature[x] in db.transaction
    && r.signature == x && r.signatureId == db.signature[x] && r.logs == db.transaction[db.signature[x]].logs
    && IsIxs(db, db.signature[x], r.ixs)
  }

  // ---- what it should give back ----

  /** Each account once, at its first occurrence, with its id and its position counted from 1. */
  ghost predicate AccountsRebuilt(address: map<string, int>, accounts: seq<string>, r: seq<Account>) {
    var pos := FirstPositions(accounts);
    |r| == |pos| &&
    forall i :: 0 <= i < |r| ==>
      HasRow(address, accounts[pos[i]], r[i].id) && r[i].address == accounts[pos[i]] && r[i].ord == pos[i] + 1
  }

  ghost predicate BaseRebuilt(address: map<string, int>, b: IxBase, r: StoredBase) {
    r.program == b.program && r.data == Shown(b.data) && AccountsRebuilt(address, b.accounts, r.accounts)
  }

  ghost predicate InnerRebuilt(address: map<string, int>, inner: seq<IxBase>, r: seq<StoredBase>) {
    |r| == |inner| && forall j :: 0 <= j < |r| ==> BaseRebuilt(address, inner[j], r[j])
  }

  ghost predicate IxsRebuilt(address: map<string, int>, ixs: seq<Ix>, r: seq<StoredIx>) {
    |r| == |ixs| &&
    forall k :: 0 <= k < |r| ==> BaseRebuilt(address, ixs[k].base, r[k].base) && InnerRebuilt(address, ixs[k].inner, r[k].inner)
  }

  /** The addresses read back are the saved ones without repeats. */
  lemma RebuiltAddresses(address: map<string, int>, accounts: seq<string>, r: seq<Account>)
    requires AccountsRebuilt(address, accounts, r)
    ensures var back := seq(|r|, i requires 0 <= i < |r| => r[i].address);
            back == Dedup(accounts) && (back == accounts <==> Distinct(accounts))
    ensures forall i :: 0 <= i < |r| ==> 1 <= r[i].ord <= |accounts| && accounts[r[i].ord - 1] == r[i].address
  {
    DedupPositions(accounts);
    DedupIdentity(accounts);
    assert seq(|r|, i requires 0 <= i < |r| => r[i].address) == Dedup(accounts);
  }

  // ---- accounts ----

  lemma FirstAtMapped(accounts: seq<string>, address: map<string, int>, p: int)
    requires Injective(address) && forall a :: a in accounts ==> a in address
    ensures FirstAt(IdsOf(accounts, address), p) <==> FirstAt(accounts, p)
  {
    var ids := IdsOf(accounts, address);
    if 0 <= p < |accounts| {
      assert accounts[p] in accounts;
      if accounts[p] in accounts[..p] {
        var q :| 0 <= q < p && accounts[q] == accounts[p];
        assert ids[..p][q] == ids[p];
      }
      if ids[p] in ids[..p] {
        var q :| 0 <= q < p && ids[..p][q] == ids[p];
        assert accounts[q] in accounts && accounts[q] == accounts[p];
        assert accounts[..p][q] == accounts[p];
      }
    }
  }

  lemma AccountsRoundTrip(address: map<string, int>, accounts: seq<string>, r: seq<Account>)
    requires Injective(address) && forall a :: a in accounts ==> a in address
    ensures IsAccounts(address, IdsOf(accounts, address), r) <==> AccountsRebuilt(address, accounts, r)
  {
    var ids, pos := IdsOf(accounts, address), FirstPositions(accounts);
    assert forall i :: 0 <= i < |accounts| ==> accounts[i] in accounts && ids[i] == address[accounts[i]] && ids[i] in address.Values;
    forall p: int
      ensures p in pos <==> FirstAt(ids, p) && ids[p] in address.Values
    {
      FirstAtMapped(accounts, address, p);
    }
    if IsAccounts(address, ids, r) {
      var other :| IsAccountsAt(address, ids, other, r);
      IncreasingUnique(other, pos);
    }
    if AccountsRebuilt(address, accounts, r) {
      assert IsAccountsAt(address, ids, pos, r);
    }
  }

  lemma BaseRoundTrip(address: map<string, int>, known: map<string, int>, b: IxBase, r: StoredBase)
    requires Injective(address) && BaseKnown(b, known) && Within(known, address)
    ensures IsBase(address, BaseRow(b, known), r) <==> BaseRebuilt(address, b, r)
  {
    hide IsAccounts, AccountsRebuilt;
    assert IdsOf(b.accounts, known) == IdsOf(b.accounts, address);
    AccountsRoundTrip(address, b.accounts, r.accounts);
  }

  lemma ProgramStored(address: map<string, int>, known: map<string, int>, b: IxBase)
    requires BaseKnown(b, known) && Within(known, address)
    ensures BaseRow(b, known).program in address.Values
  {
    assert address[b.program] in address.Values;
  }

  /** `known` is part of the address table. */
  ghost predicate Within(known: map<string, int>, address: map<string, int>) {
    forall a :: a in known ==> HasRow(address, a, known[a])
  }

  // ---- a stored transaction ----

  /** The tables hold exactly the rows of `tx` under signature id `id`. */
  ghost predicate TxStored(db: Db, id: int, tx: OnchainTx, known: map<string, int>)
    requires TxKnown(tx, known)
  {
    && id in db.transaction && db.transaction[id] == TxRowOf(tx, known)
    && IxsStored(db, id, tx.ixs, known)
    && (forall k: int, j: int :: (id, k, j) in db.inner ==> exists q :: 0 <= q < |tx.ixs| && Int16(q) == k)
    && forall q :: 0 <= q < |tx.ixs| ==> InnerStored(db, id, q, tx.ixs[q].inner, known)
  }

  ghost predicate IxsStored(db: Db, id: int, ixs: seq<Ix>, known: map<string, int>)
    requires OuterKnown(ixs, known)
  {
    && (forall k: int :: (id, k) in db.instruction ==> exists q :: 0 <= q < |ixs| && Int16(q) == k)
    && (forall q :: 0 <= q < |ixs| ==>
          (id, Int16(q)) in db.instruction && db.instruction[(id, Int16(q))] == BaseRow(ixs[q].base, known))
  }

  ghost predicate InnerStored(db: Db, id: int, q: int, inner: seq<IxBase>, known: map<string, int>)
    requires forall p :: 0 <= p < |inner| ==> BaseKnown(inner[p], known)
  {
    && (forall j: int :: (id, Int16(q), j) in db.inner ==> exists p :: 0 <= p < |inner| && Int16(p) == j)
    && (forall p :: 0 <= p < |inner| ==>
          (id, Int16(q), Int16(p)) in db.inner && db.inner[(id, Int16(q), Int16(p))] == BaseRow(inner[p], known))
  }

  /** At most 32768 instructions at each level: then int16 keeps their order. */
  predicate Ordered(tx: OnchainTx) {
    |tx.ixs| <= 0x8000 && forall q :: 0 <= q < |tx.ixs| ==> |tx.ixs[q].inner| <= 0x8000
  }

  function UpTo(n: nat): (s: seq<int>)
    ensures Increasing(s) && |s| == n
    ensures forall x: int :: x in s <==> 0 <= x < n
    ensures forall i :: 0 <= i < n ==> s[i] == i
  {
    if n == 0 then [] else UpTo(n - 1) + [n - 1]
  }

  lemma InnerRoundTrip(db: Db, id: int, q: nat, inner: seq<IxBase>, known: map<string, int>, r: seq<StoredBase>)
    requires Injective(db.address) && Within(known, db.address)
    requires forall p :: 0 <= p < |inner| ==> BaseKnown(inner[p], known)
    requires InnerStored(db, id, q, inner, known) && |inner| <= 0x8000 && q < 0x8000
    ensures IsInner(db, id, q, r) <==> InnerRebuilt(db.address, inner, r)
  {
    hide IsBase, BaseRebuilt, BaseRow, BaseKnown, Injective, Within;
    var idx := UpTo(|inner|);
    forall p, b | 0 <= p < |inner|
      ensures IsBase(db.address, BaseRow(inner[p], known), b) <==> BaseRebuilt(db.address, inner[p], b)
    {
      BaseRoundTrip(db.address, known, inner[p], b);
    }
    assert Int16(q) == q && forall p :: 0 <= p < |inner| ==> Int16(p) == p;
    forall j: int
      ensures j in idx <==> (id, q, j) in db.inner && db.inner[(id, q, j)].program in db.address.Values
    {
      if 0 <= j < |inner| {
        assert db.inner[(id, Int16(q), Int16(j))] == BaseRow(inner[j], known);
        ProgramStored(db.address, known, inner[j]);
      }
    }
    if IsInner(db, id, q, r) {
      var other :| IsInnerAt(db, id, q, other, r);
      IncreasingUnique(other, idx);
    }
    if InnerRebuilt(db.address, inner, r) {
      assert IsInnerAt(db, id, q, idx, r);
    }
  }

  /**
   * The query for a stored transaction with at most 32768 instructions a level gives back its
   * instruction tree, and only that: order, programs, data and nesting, accounts by first occurrence.
   */
  lemma StoredRoundTrip(db: Db, id: int, tx: OnchainTx, known: map<string, int>, r: seq<StoredIx>)
    requires Injective(db.address) && Within(known, db.address) && TxKnown(tx, known)
    requires TxStored(db, id, tx, known) && Ordered(tx)
    ensures IsIxs(db, id, r) <==> IxsRebuilt(db.address, tx.ixs, r)
  {
    hide IsBase, BaseRebuilt, BaseRow, BaseKnown, Injective, Within, IsInner, InnerRebuilt, InnerStored, TxRowOf;
    var idx := UpTo(|tx.ixs|);
    forall q, b | 0 <= q < |tx.ixs|
      ensures IsBase(db.address, BaseRow(tx.ixs[q].base, known), b) <==> BaseRebuilt(db.address, tx.ixs[q].base, b)
    {
      BaseRoundTrip(db.address, known, tx.ixs[q].base, b);
    }
    forall q: nat, s | q < |tx.ixs|
      ensures IsInner(db, id, q, s) <==> InnerRebuilt(db.address, tx.ixs[q].inner, s)
    {
      InnerRoundTrip(db, id, q, tx.ixs[q].inner, known, s);
    }
    assert forall q :: 0 <= q < |tx.ixs| ==> Int16(q) == q;
    forall k: int
      ensures k in idx <==> (id, k) in db.instruction && db.instruction[(id, k)].program in db.address.Values
    {
      if 0 <= k < |tx.ixs| {
        assert db.instruction[(id, Int16(k))] == BaseRow(tx.ixs[k].base, known);
        ProgramStored(db.address, known, tx.ixs[k].base);
      }
    }
    if IsIxs(db, id, r) {
      var other :| IsIxsAt(db, id, other, r);
      IncreasingUnique(other, idx);
    }
    if IxsRebuilt(db.address, tx.ixs, r) {
      assert IsIxsAt(db, id, idx, r);
    }
  }

  // ---- too many instructions ----

  /** Up to 65536 indexes the cast keeps their order exactly up to 32768. */
  lemma Int16OrderIff(n: nat)
    requires n <= 0x1_0000
    ensures Increasing(seq(n, k => Int16(k))) <==> n <= 0x8000
  {
    var s := seq(n, k => Int16(k));
    if n > 0x8000 {
      assert s[0] == 0 && s[0x8000] == -0x8000;
    }
  }

  /** Beyond 32768 instructions the first one read back is instruction 32768. */
  lemma LargeTransactionReordered(db: Db, id: int, tx: OnchainTx, known: map<string, int>, r: seq<StoredIx>)
    requires Injective(db.address) && Within(known, db.address) && TxKnown(tx, known)
    requires TxStored(db, id, tx, known) && 0x8000 < |tx.ixs| <= 0x1_0000
    requires IsIxs(db, id, r)
    ensures r != [] && BaseRebuilt(db.address, tx.ixs[0x8000].base, r[0].base)
  {
    hide IsBase, BaseRebuilt, BaseRow, BaseKnown, Injective, Within, IsInner, InnerStored, TxRowOf;
    var idx :| IsIxsAt(db, id, idx, r);
    assert Int16(0x8000) == -0x8000;
    forall b
      ensures IsBase(db.address, BaseRow(tx.ixs[0x8000].base, known), b) <==> BaseRebuilt(db.address, tx.ixs[0x8000].base, b)
    {
      BaseRoundTrip(db.address, known, tx.ixs[0x8000].base, b);
    }
    assert db.instruction[(id, Int16(0x8000))] == BaseRow(tx.ixs[0x8000].base, known);
    ProgramStored(db.address, known, tx.ixs[0x8000].base);
    assert -0x8000 in idx;
    assert idx[0] in idx;
    assert idx[0] >= -0x8000;
    assert idx[0] == -0x8000;
  }

  // ---- saving stores ----

  lemma {:induction false} RowsIn(txs: seq<OnchainTx>, sigs: map<string, int>, ids: map<string, int>, i: nat)
    requires AllKnown(txs, sigs, ids) && i < |txs|
    ensures var c, id := ComponentsOf(txs, sigs, ids), sigs[txs[i].signature];
            && (id, TxRowOf(txs[i], ids)) in c.txs
            && (forall r :: r in IxRows(id, txs[i].ixs, ids) ==> r in c.ixs)
            && (forall r :: r in InnerRows(id, txs[i].ixs, ids) ==> r in c.inner)
  {
    hide IxRows, InnerRows, TxRowOf, TxKnown;
    if i < |txs| - 1 {
      RowsIn(txs[..|txs| - 1], sigs, ids, i);
    }
  }

  /** A row under the id of transaction `i` is a row of transaction `i`. */
  lemma {:induction false} RowsOnly(txs: seq<OnchainTx>, sigs: map<string, int>, ids: map<string, int>, i: nat)
    requires AllKnown(txs, sigs, ids) && i < |txs| && Distinct(Signatures(txs)) && Injective(sigs)
    ensures var c, id := ComponentsOf(txs, sigs, ids), sigs[txs[i].signature];
            && (forall k :: k in Keys(c.ixs) && k.0 == id ==> k in Keys(IxRows(id, txs[i].ixs, ids)))
            && (forall k :: k in Keys(c.inner) && k.0 == id ==> k in Keys(InnerRows(id, txs[i].ixs, ids)))
  {
    hide IxRows, InnerRows, TxRowOf, TxKnown, Keys, BaseKnown, Int16, Injective;
    var n := |txs| - 1;
    var tx, front := txs[n], txs[..n];
    var c, last := ComponentsOf(front, sigs, ids), sigs[tx.signature];
    SignaturesFront(txs);
    KnownParts(tx, ids);
    KeysConcat(c.ixs, IxRows(last, tx.ixs, ids));
    KeysConcat(c.inner, InnerRows(last, tx.ixs, ids));
    OwnKeys(last, tx.ixs, ids);
    if i < n {
      RowsOnly(front, sigs, ids, i);
      InjectiveAt(sigs, txs[i].signature, tx.signature);
    } else {
      ComponentIds(front, sigs, ids);
      forall j | 0 <= j < n
        ensures sigs[front[j].signature] != last
      {
        InjectiveAt(sigs, front[j].signature, tx.signature);
      }
    }
  }

  lemma KnownParts(tx: OnchainTx, ids: map<string, int>)
    requires TxKnown(tx, ids)
    ensures OuterKnown(tx.ixs, ids) && InnerKnown(tx.ixs, ids)
  {
  }

  lemma InjectiveAt(m: map<string, int>, a: string, b: string)
    requires Injective(m) && a in m && b in m && a != b
    ensures m[a] != m[b]
  {
  }

  /** After an insert, a row that was inserted is found under its key. */
  lemma InsertedRow<K, V>(table: map<K, V>, rows: seq<(K, V)>, row: (K, V))
    requires Insert(table, rows).Some? && row in rows
    ensures row.0 in Insert(table, rows).value && Insert(table, rows).value[row.0] == row.1
  {
    InsertIff(table, rows);
    var i :| 0 <= i < |rows| && rows[i] == row;
  }

  lemma IxsSaved(db: Db, db': Db, txs: seq<OnchainTx>, sigs: map<string, int>, ids: map<string, int>, i: nat)
    requires AllKnown(txs, sigs, ids) && i < |txs| && Distinct(Signatures(txs)) && Injective(sigs)
    requires var c := ComponentsOf(txs, sigs, ids);
             Insert(db.instruction, c.ixs) == Some(db'.instruction)
    requires forall k: int :: (sigs[txs[i].signature], k) !in db.instruction
    ensures IxsStored(db', sigs[txs[i].signature], txs[i].ixs, ids)
  {
    hide IxRows, InnerRows, TxRowOf, ComponentsOf, Insert, BaseRow, BaseKnown, Int16, Injective, Distinct;
    var c, id, ixs := ComponentsOf(txs, sigs, ids), sigs[txs[i].signature], txs[i].ixs;
    RowsIn(txs, sigs, ids, i);
    RowsOnly(txs, sigs, ids, i);
    InsertIff(db.instruction, c.ixs);
    forall k: int | (id, k) in db'.instruction
      ensures exists q :: 0 <= q < |ixs| && Int16(q) == k
    {
      assert (id, k) in Keys(c.ixs);
      IxRowsKeys(id, ixs, ids, (id, k));
    }
    forall q | 0 <= q < |ixs|
      ensures (id, Int16(q)) in db'.instruction && db'.instruction[(id, Int16(q))] == BaseRow(ixs[q].base, ids)
    {
      IxRowIn(id, ixs, ids, q);
      InsertedRow(db.instruction, c.ixs, ((id, Int16(q)), BaseRow(ixs[q].base, ids)));
    }
  }

  lemma IxRowIn(id: int, ixs: seq<Ix>, ids: map<string, int>, q: nat)
    requires OuterKnown(ixs, ids) && q < |ixs|
    ensures ((id, Int16(q)), BaseRow(ixs[q].base, ids)) in IxRows(id, ixs, ids)
  {
    assert IxRows(id, ixs, ids)[q] == ((id, Int16(q)), BaseRow(ixs[q].base, ids));
  }

  lemma InnerSaved(db: Db, db': Db, txs: seq<OnchainTx>, sigs: map<string, int>, ids: map<string, int>, i: nat)
    requires AllKnown(txs, sigs, ids) && i < |txs| && Distinct(Signatures(txs)) && Injective(sigs)
    requires var c := ComponentsOf(txs, sigs, ids);
             Insert(db.inner, c.inner) == Some(db'.inner)
    requires |txs[i].ixs| <= 0x1_0000
    requires forall k: int, j: int :: (sigs[txs[i].signature], k, j) !in db.inner
    ensures var id, ixs := sigs[txs[i].signature], txs[i].ixs;
            && (forall k: int, j: int :: (id, k, j) in db'.inner ==> exists q :: 0 <= q < |ixs| && Int16(q) == k)
            && forall q :: 0 <= q < |ixs| ==> InnerStored(db', id, q, ixs[q].inner, ids)
  {
    hide IxRows, InnerRows, TxRowOf, ComponentsOf, Insert, BaseRow, BaseKnown, Int16, Injective, Distinct;
    var c, id, ixs := ComponentsOf(txs, sigs, ids), sigs[txs[i].signature], txs[i].ixs;
    RowsIn(txs, sigs, ids, i);
    RowsOnly(txs, sigs, ids, i);
    InsertIff(db.inner, c.inner);
    forall k: int, j: int | (id, k, j) in db'.inner
      ensures exists q, p :: 0 <= q < |ixs| && 0 <= p < |ixs[q].inner| && Int16(q) == k && Int16(p) == j
    {
      assert (id, k, j) in Keys(c.inner);
      InnerKeyFrom(id, ixs, ids, (id, k, j));
    }
    forall q: nat | q < |ixs|
      ensures InnerStored(db', id, q, ixs[q].inner, ids)
    {
      forall p | 0 <= p < |ixs[q].inner|
        ensures (id, Int16(q), Int16(p)) in db'.inner
        ensures db'.inner[(id, Int16(q), Int16(p))] == BaseRow(ixs[q].inner[p], ids)
      {
        InnerRowsComplete(id, ixs, ids, q, p);
        InsertedRow(db.inner, c.inner, ((id, Int16(q), Int16(p)), BaseRow(ixs[q].inner[p], ids)));
      }
      forall j: int | (id, Int16(q), j) in db'.inner
        ensures exists p :: 0 <= p < |ixs[q].inner| && Int16(p) == j
      {
        var q', p :| 0 <= q' < |ixs| && 0 <= p < |ixs[q'].inner| && Int16(q') == Int16(q) && Int16(p) == j;
        SmallWraps(q, q');
      }
    }
  }

  lemma SmallWraps(q: nat, p: nat)
    requires q < 0x1_0000 && p < 0x1_0000 && Int16(q) == Int16(p)
    ensures q == p
  {
    Int16Wraps(q, p);
  }

  lemma InnerKeyFrom(id: int, ixs: seq<Ix>, ids: map<string, int>, key: InnerKey)
    requires InnerKnown(ixs, ids) && key in Keys(InnerRows(id, ixs, ids))
    ensures exists q, p :: 0 <= q < |ixs| && 0 <= p < |ixs[q].inner| && Int16(q) == key.1 && Int16(p) == key.2
  {
    hide Int16, BaseRow, BaseKnown, InnerRows;
    var rows := InnerRows(id, ixs, ids);
    var i :| 0 <= i < |rows| && rows[i].0 == key;
    InnerRowsSound(id, ixs, ids, rows[i]);
    var q, p :| InnerRowAt(id, ixs, ids, q, p, rows[i]);
  }

  /** A committed save stores exactly the rows of each transaction of the batch, under its new id. */
  lemma SaveStores(db: Db, txs: seq<OnchainTx>, ids: seq<int>, address: map<string, int>, target: Target, i: nat)
    requires DbOk(db) && |ids| == |txs| && Distinct(ids) && i < |txs|
    requires forall id :: id in ids ==> id !in db.signature.Values
    requires SaveBatch(db, txs, ids, address, target).Ok?
    ensures var db', known := SaveBatch(db, txs, ids, address, target).value, Restrict(address, BatchAddresses(txs));
            && TxKnown(txs[i], known) && TxStored(db', ids[i], txs[i], known) && Within(known, address)
            && HasRow(db'.signature, txs[i].signature, ids[i]) && db'.address == address
  {
    hide Insert, BatchAddresses, Zip, ComponentsOf, RowRefs, TxStored, TxKnown, Injective, IxsFit, InnerFit, NoInner;
    var sigs, known := Zip(Signatures(txs), ids), Restrict(address, BatchAddresses(txs));
    var db', c := SaveBatch(db, txs, ids, address, target).value, ComponentsOf(txs, sigs, known);
    ZipInjective(Signatures(txs), ids);
    assert Signatures(txs)[i] == txs[i].signature;
    assert ids[i] in ids;
    RowsInsertIff(db, txs, ids, address);
    NoOldRows(db, ids[i]);
    if c.inner == [] {
      InsertNothing(db.inner);
    }
    assert Insert(db.inner, c.inner) == Some(db'.inner);
    assert IxsFit(txs);
    StoredFrom(db, db', txs, sigs, known, i);
  }

  lemma InsertNothing<K, V>(table: map<K, V>)
    ensures Insert(table, []) == Some(table)
  {
  }

  lemma NoOldRows(db: Db, id: int)
    requires DbOk(db) && id !in db.signature.Values
    ensures forall k: int :: (id, k) !in db.instruction
    ensures forall k: int, j: int :: (id, k, j) !in db.inner
  {
  }

  lemma StoredFrom(db: Db, db': Db, txs: seq<OnchainTx>, sigs: map<string, int>, known: map<string, int>, i: nat)
    requires AllKnown(txs, sigs, known) && i < |txs| && Distinct(Signatures(txs)) && Injective(sigs) && IxsFit(txs)
    requires var c := ComponentsOf(txs, sigs, known);
             && Insert(db.transaction, c.txs) == Some(db'.transaction)
             && Insert(db.instruction, c.ixs) == Some(db'.instruction)
             && Insert(db.inner, c.inner) == Some(db'.inner)
    requires forall k: int :: (sigs[txs[i].signature], k) !in db.instruction
    requires forall k: int, j: int :: (sigs[txs[i].signature], k, j) !in db.inner
    ensures TxStored(db', sigs[txs[i].signature], txs[i], known)
  {
    hide Insert, ComponentsOf, Injective, Distinct, TxRowOf, BaseRow, BaseKnown, Int16, IxRows, InnerRows, InnerStored, IxsStored;
    var c, id := ComponentsOf(txs, sigs, known), sigs[txs[i].signature];
    RowsIn(txs, sigs, known, i);
    InsertedRow(db.transaction, c.txs, (id, TxRowOf(txs[i], known)));
    IxsSaved(db, db', txs, sigs, known, i);
    InnerSaved(db, db', txs, sigs, known, i);
  }

  /** A transaction row holds each field of the transaction, and its account ids after as many zeros. */
  predicate TxRowHolds(address: map<string, int>, row: TxRow, tx: OnchainTx) {
    var n := |tx.accounts|;
    && row.slot == tx.slot && row.err == tx.err && row.fee == tx.fee && row.logs == tx.logs
    && row.timestamp == tx.timestamp && row.timestampGranularized == tx.timestampGranularized
    && |row.accountsIds| == 2 * n
    && forall p :: 0 <= p < n ==>
         tx.accounts[p] in address && row.accountsIds[p] == 0 && row.accountsIds[n + p] == address[tx.accounts[p]]
  }

  /** An instruction row holds the ids of its program and of every account, repeats included, in order. */
  predicate IxRowHolds(address: map<string, int>, row: IxRow, b: IxBase) {
    && b.program in address && row.program == address[b.program] && row.data == b.data
    && row.accountsIds.Some? && |row.accountsIds.value| == |b.accounts|
    && forall p :: 0 <= p < |b.accounts| ==>
         b.accounts[p] in address && row.accountsIds.value[p] == address[b.accounts[p]]
  }

  lemma TxRowHeld(address: map<string, int>, known: map<string, int>, tx: OnchainTx)
    requires TxKnown(tx, known) && Within(known, address)
    ensures TxRowHolds(address, TxRowOf(tx, known), tx)
  {
    var ids := TxRowOf(tx, known).accountsIds;
    forall p | 0 <= p < |tx.accounts|
      ensures tx.accounts[p] in address && ids[p] == 0 && ids[|tx.accounts| + p] == address[tx.accounts[p]]
    {
      assert tx.accounts[p] in tx.accounts;
      assert HasRow(address, tx.accounts[p], known[tx.accounts[p]]);
    }
  }

  lemma IxRowHeld(address: map<string, int>, known: map<string, int>, b: IxBase)
    requires BaseKnown(b, known) && Within(known, address) && BaseRow(b, known).accountsIds.Some?
    ensures IxRowHolds(address, BaseRow(b, known), b)
  {
    assert HasRow(address, b.program, known[b.program]);
    forall p | 0 <= p < |b.accounts|
      ensures b.accounts[p] in address && BaseRow(b, known).accountsIds.value[p] == address[b.accounts[p]]
    {
      assert b.accounts[p] in b.accounts;
      assert HasRow(address, b.accounts[p], known[b.accounts[p]]);
    }
  }

  /** What a committed save puts into the tables for transaction `i` of the batch, column by column. */
  lemma SavedRows(db: Db, txs: seq<OnchainTx>, ids: seq<int>, address: map<string, int>, target: Target, i: nat)
    requires DbOk(db) && |ids| == |txs| && Distinct(ids) && i < |txs|
    requires forall id :: id in ids ==> id !in db.signature.Values
    requires SaveBatch(db, txs, ids, address, target).Ok?
    ensures var db', ixs := SaveBatch(db, txs, ids, address, target).value, txs[i].ixs;
            && ids[i] in db'.transaction && TxRowHolds(address, db'.transaction[ids[i]], txs[i])
            && (forall k :: 0 <= k < |ixs| ==>
                  (ids[i], Int16(k)) in db'.instruction && IxRowHolds(address, db'.instruction[(ids[i], Int16(k))], ixs[k].base))
            && forall k, j :: 0 <= k < |ixs| && 0 <= j < |ixs[k].inner| ==>
                 && (ids[i], Int16(k), Int16(j)) in db'.inner
                 && IxRowHolds(address, db'.inner[(ids[i], Int16(k), Int16(j))], ixs[k].inner[j])
  {
    hide SaveBatch, DbOk, BatchAddresses, Restrict, Within, BaseRow, BaseKnown, TxRowOf, Int16, Distinct, TxRowHolds, IxRowHolds;
    SaveStores(db, txs, ids, address, target, i);
    SavedNotNull(db, txs, ids, address, target);
    var db', known, id, ixs := SaveBatch(db, txs, ids, address, target).value, Restrict(address, BatchAddresses(txs)), ids[i], txs[i].ixs;
    TxRowHeld(address, known, txs[i]);
    forall k | 0 <= k < |ixs|
      ensures (id, Int16(k)) in db'.instruction && IxRowHolds(address, db'.instruction[(id, Int16(k))], ixs[k].base)
    {
      assert db'.instruction[(id, Int16(k))] == BaseRow(ixs[k].base, known);
      IxRowHeld(address, known, ixs[k].base);
    }
    forall k, j | 0 <= k < |ixs| && 0 <= j < |ixs[k].inner|
      ensures (id, Int16(k), Int16(j)) in db'.inner && IxRowHolds(address, db'.inner[(id, Int16(k), Int16(j))], ixs[k].inner[j])
    {
      assert InnerStored(db', id, k, ixs[k].inner, known);
      assert db'.inner[(id, Int16(k), Int16(j))] == BaseRow(ixs[k].inner[j], known);
      IxRowHeld(address, known, ixs[k].inner[j]);
    }
  }

  /**
   * Save then `Get`: whatever the batch around it and whichever table the inner rows go to, a committed
   * transaction with at most 32768 instructions a level is read back as its own instruction tree.
   */
  lemma SaveThenGet(db: Db, txs: seq<OnchainTx>, ids: seq<int>, address: map<string, int>, target: Target, i: nat, r: StoredTx)
    requires DbOk(db) && |ids| == |txs| && Distinct(ids) && i < |txs| && Ordered(txs[i])
    requires forall id :: id in ids ==> id !in db.signature.Values
    requires AddressesSaved(db.address, address, BatchAddresses(txs))
    requires SaveBatch(db, txs, ids, address, target).Ok?
    ensures var db' := SaveBatch(db, txs, ids, address, target).value;
            IsTx(db', txs[i].signature, r) <==>
              && r.signature == txs[i].signature && r.signatureId == ids[i] && r.logs == txs[i].logs
              && IxsRebuilt(address, txs[i].ixs, r.ixs)
  {
    hide SaveBatch, DbOk, IsIxs, IxsRebuilt, BatchAddresses, Restrict, Within, TxKnown;
    SaveStores(db, txs, ids, address, target, i);
    var db', known := SaveBatch(db, txs, ids, address, target).value, Restrict(address, BatchAddresses(txs));
    StoredRoundTrip(db', ids[i], txs[i], known, r.ixs);
  }

  // ---- what a save leaves alone ----

  lemma RefsKept(before: map<string, int>, after: map<string, int>, wanted: set<string>, row: IxRow)
    requires Injective(before) && AddressesSaved(before, after, wanted) && RowRefs(before, row)
    ensures RowRefs(after, row)
    ensures forall r :: IsBase(after, row, r) <==> IsBase(before, row, r)
  {
    forall id | id in before.Values
      ensures id in after.Values
      ensures forall a :: HasRow(after, a, id) <==> HasRow(before, a, id)
    {
      var b :| b in before && before[b] == id;
      assert after[b] == id;
    }
    assert forall id, a :: id in before.Values ==> (HasRow(after, a, id) <==> HasRow(before, a, id));
    forall r
      ensures IsBase(after, row, r) <==> IsBase(before, row, r)
    {
      AccountsKept(before, after, row.Accounts(), r.accounts);
    }
  }

  lemma AccountsKept(before: map<string, int>, after: map<string, int>, ids: seq<int>, r: seq<Account>)
    requires forall p :: 0 <= p < |ids| ==> ids[p] in before.Values && ids[p] in after.Values
    requires forall id, a :: id in before.Values ==> (HasRow(after, a, id) <==> HasRow(before, a, id))
    ensures IsAccounts(after, ids, r) <==> IsAccounts(before, ids, r)
  {
    hide HasRow, Increasing, IsAccountsAt;
    forall pos
      ensures IsAccountsAt(after, ids, pos, r) <==> IsAccountsAt(before, ids, pos, r)
    {
      AccountsAtKept(before, after, ids, pos, r);
    }
  }

  lemma AccountsAtKept(before: map<string, int>, after: map<string, int>, ids: seq<int>, pos: seq<int>, r: seq<Account>)
    requires forall p :: 0 <= p < |ids| ==> ids[p] in before.Values && ids[p] in after.Values
    requires forall id, a :: id in before.Values ==> (HasRow(after, a, id) <==> HasRow(before, a, id))
    ensures IsAccountsAt(after, ids, pos, r) <==> IsAccountsAt(before, ids, pos, r)
  {
    hide HasRow, Increasing;
    forall p: int
      ensures FirstAt(ids, p) && ids[p] in after.Values <==> FirstAt(ids, p) && ids[p] in before.Values
    {
    }
    forall i | 0 <= i < |r| && |pos| == |r| && 0 <= pos[i] < |ids| && r[i].id == ids[pos[i]]
      ensures HasRow(after, r[i].address, r[i].id) <==> HasRow(before, r[i].address, r[i].id)
    {
      assert ids[pos[i]] in before.Values;
    }
  }

  /** What a committed save adds to each table. */
  lemma SaveAdds(db: Db, txs: seq<OnchainTx>, ids: seq<int>, address: map<string, int>, target: Target)
    requires DbOk(db) && |ids| == |txs| && Distinct(ids)
    requires forall id :: id in ids ==> id !in db.signature.Values
    requires SaveBatch(db, txs, ids, address, target).Ok?
    ensures var db' := SaveBatch(db, txs, ids, address, target).value;
            && (forall k :: k in db.transaction ==> k in db'.transaction && db'.transaction[k] == db.transaction[k])
            && (forall k :: k in db.instruction ==> k in db'.instruction && db'.instruction[k] == db.instruction[k])
            && (forall k :: k in db.inner ==> k in db'.inner && db'.inner[k] == db.inner[k])
            && (forall k :: k in db'.transaction && k !in db.transaction ==> k in ids)
            && (forall k :: k in db'.instruction && k !in db.instruction ==> k.0 in ids)
            && (forall k :: k in db'.inner && k !in db.inner ==> k.0 in ids)
            && (forall x :: x in db.signature ==> HasRow(db'.signature, x, db.signature[x]))
            && db'.address == address
  {
    hide Insert, BatchAddresses, Restrict, Zip, ComponentsOf, RowRefs, TxKnown, Injective, Keys, Distinct, AllKnown, IxsFit, InnerFit, NoInner;
    var sigs, known := Zip(Signatures(txs), ids), Restrict(address, BatchAddresses(txs));
    var c := ComponentsOf(txs, sigs, known);
    InsertIff(db.transaction, c.txs);
    InsertIff(db.instruction, c.ixs);
    InsertIff(db.inner, c.inner);
    NewKeysIn(db, txs, ids, known);
    assert forall i :: 0 <= i < |txs| ==> Signatures(txs)[i] == txs[i].signature;
  }

  lemma NewKeysIn(db: Db, txs: seq<OnchainTx>, ids: seq<int>, accounts: map<string, int>)
    requires DbOk(db) && |ids| == |txs| && Distinct(Signatures(txs))
    requires forall id :: id in ids ==> id !in db.signature.Values
    requires AllKnown(txs, Zip(Signatures(txs), ids), accounts)
    ensures var c := ComponentsOf(txs, Zip(Signatures(txs), ids), accounts);
            && (forall k :: k in Keys(c.txs) ==> k in ids)
            && (forall k :: k in Keys(c.ixs) ==> k.0 in ids)
            && (forall k :: k in Keys(c.inner) ==> k.0 in ids)
  {
    hide ComponentsOf, DbOk, AllKnown, Zip;
    NewKeys(db, txs, ids, accounts);
  }

  /** Reading back any transaction saved earlier gives the same answers as before. */
  lemma SaveKeepsOthers(db: Db, txs: seq<OnchainTx>, ids: seq<int>, address: map<string, int>, target: Target, x: string, r: StoredTx)
    requires DbOk(db) && |ids| == |txs| && Distinct(ids)
    requires forall id :: id in ids ==> id !in db.signature.Values
    requires AddressesSaved(db.address, address, BatchAddresses(txs))
    requires SaveBatch(db, txs, ids, address, target).Ok? && x in db.signature && db.signature[x] in db.transaction
    ensures IsTx(SaveBatch(db, txs, ids, address, target).value, x, r) <==> IsTx(db, x, r)
  {
    hide SaveBatch, BatchAddresses, AddressesSaved, IsIxs, RowRefs, Injective, Distinct;
    SaveAdds(db, txs, ids, address, target);
    var db', id := SaveBatch(db, txs, ids, address, target).value, db.signature[x];
    assert id in db.signature.Values;
    forall k: int
      ensures (id, k) in db'.instruction <==> (id, k) in db.instruction
    {
    }
    SameRows(db, db', BatchAddresses(txs), id, r.ixs);
  }

  lemma SameRows(db: Db, db': Db, wanted: set<string>, id: int, r: seq<StoredIx>)
    requires DbOk(db) && AddressesSaved(db.address, db'.address, wanted)
    requires forall k: int :: (id, k) in db'.instruction <==> (id, k) in db.instruction
    requires forall k: int :: (id, k) in db.instruction ==> db'.instruction[(id, k)] == db.instruction[(id, k)]
    requires forall k: int, j: int :: (id, k, j) in db'.inner <==> (id, k, j) in db.inner
    requires forall k: int, j: int :: (id, k, j) in db.inner ==> db'.inner[(id, k, j)] == db.inner[(id, k, j)]
    ensures IsIxs(db', id, r) <==> IsIxs(db, id, r)
  {
    hide IsBase, AddressesSaved, Injective, Increasing;
    forall k: int, s
      ensures IsInner(db', id, k, s) <==> IsInner(db, id, k, s)
    {
      SameInner(db, db', wanted, id, k, s);
    }
    forall k: int | (id, k) in db.instruction
      ensures db'.instruction[(id, k)].program in db'.address.Values
      ensures forall b :: IsBase(db'.address, db.instruction[(id, k)], b) <==> IsBase(db.address, db.instruction[(id, k)], b)
    {
      RefsKept(db.address, db'.address, wanted, db.instruction[(id, k)]);
    }
    hide IsInner, DbOk, RowRefs;
    forall idx
      ensures IsIxsAt(db', id, idx, r) <==> IsIxsAt(db, id, idx, r)
    {
      IxsAtSame(db, db', id, idx, r);
    }
  }

  lemma IxsAtSame(db: Db, db': Db, id: int, idx: seq<int>, r: seq<StoredIx>)
    requires forall k: int :: (id, k) in db'.instruction <==> (id, k) in db.instruction
    requires forall k: int :: (id, k) in db.instruction ==>
               && db'.instruction[(id, k)] == db.instruction[(id, k)]
               && db.instruction[(id, k)].program in db.address.Values
               && db'.instruction[(id, k)].program in db'.address.Values
               && forall b :: IsBase(db'.address, db.instruction[(id, k)], b) <==> IsBase(db.address, db.instruction[(id, k)], b)
    requires forall k: int, s :: IsInner(db', id, k, s) <==> IsInner(db, id, k, s)
    ensures IsIxsAt(db', id, idx, r) <==> IsIxsAt(db, id, idx, r)
  {
    hide IsBase, IsInner, Increasing;
  }

  lemma SameInner(db: Db, db': Db, wanted: set<string>, id: int, k: int, r: seq<StoredBase>)
    requires DbOk(db) && AddressesSaved(db.address, db'.address, wanted)
    requires forall k: int, j: int :: (id, k, j) in db'.inner <==> (id, k, j) in db.inner
    requires forall k: int, j: int :: (id, k, j) in db.inner ==> db'.inner[(id, k, j)] == db.inner[(id, k, j)]
    ensures IsInner(db', id, k, r) <==> IsInner(db, id, k, r)
  {
    hide IsBase, AddressesSaved, Injective, Increasing;
    forall j: int | (id, k, j) in db.inner
      ensures db.inner[(id, k, j)].program in db.address.Values
      ensures db'.inner[(id, k, j)].program in db'.address.Values
      ensures forall b :: IsBase(db'.address, db.inner[(id, k, j)], b) <==> IsBase(db.address, db.inner[(id, k, j)], b)
    {
      RefsKept(db.address, db'.address, wanted, db.inner[(id, k, j)]);
    }
    hide DbOk, RowRefs, IsInnerAt;
    forall idx
      ensures IsInnerAt(db', id, k, idx, r) <==> IsInnerAt(db, id, k, idx, r)
    {
      InnerAtSame(db, db', id, k, idx, r);
    }
  }

  lemma InnerAtSame(db: Db, db': Db, id: int, k: int, idx: seq<int>, r: seq<StoredBase>)
    requires forall j: int :: (id, k, j) in db'.inner <==> (id, k, j) in db.inner
    requires forall j: int :: (id, k, j) in db.inner ==>
               && db'.inner[(id, k, j)] == db.inner[(id, k, j)]
               && db.inner[(id, k, j)].program in db.address.Values
               && db'.inner[(id, k, j)].program in db'.address.Values
               && forall b :: IsBase(db'.address, db.inner[(id, k, j)], b) <==> IsBase(db.address, db.inner[(id, k, j)], b)
    ensures IsInnerAt(db', id, k, idx, r) <==> IsInnerAt(db, id, k, idx, r)
  {
    hide IsBase, Increasing;
    forall j: int
      ensures (id, k, j) in db'.inner && db'.inner[(id, k, j)].program in db'.address.Values <==>
              (id, k, j) in db.inner && db.inner[(id, k, j)].program in db.address.Values
    {
    }
    forall i | 0 <= i < |idx| && (id, k, idx[i]) in db.inner && |idx| == |r|
      ensures (id, k, idx[i]) in db'.inner
      ensures IsBase(db'.address, db'.inner[(id, k, idx[i])], r[i]) <==> IsBase(db.address, db.inner[(id, k, idx[i])], r[i])
    {
      var j := idx[i];
      assert (id, k, j) in db'.inner && db'.inner[(id, k, j)] == db.inner[(id, k, j)];
    }
    forall i | 0 <= i < |idx| && (id, k, idx[i]) in db'.inner
      ensures (id, k, idx[i]) in db.inner
    {
      var j := idx[i];
      assert (id, k, j) in db.inner;
    }
  }

  // ---- the schema is kept ----

  lemma {:induction false} ComponentRefs(txs: seq<OnchainTx>, sigs: map<string, int>, known: map<string, int>, address: map<string, int>)
    requires AllKnown(txs, sigs, known) && Within(known, address)
    ensures var c := ComponentsOf(txs, sigs, known);
            && (forall r :: r in c.ixs ==> RowRefs(address, r.1))
            && (forall r :: r in c.inner ==> RowRefs(address, r.1))
  {
    hide RowRefs, BaseRow, BaseKnown, Int16, TxRowOf, Within, InnerRows;
    if txs != [] {
      var tx := txs[|txs| - 1];
      var id := sigs[tx.signature];
      ComponentRefs(txs[..|txs| - 1], sigs, known, address);
      forall r | r in IxRows(id, tx.ixs, known)
        ensures RowRefs(address, r.1)
      {
        var q :| 0 <= q < |tx.ixs| && r == IxRows(id, tx.ixs, known)[q];
        BaseRefs(address, known, tx.ixs[q].base);
      }
      forall r | r in InnerRows(id, tx.ixs, known)
        ensures RowRefs(address, r.1)
      {
        InnerRowsSound(id, tx.ixs, known, r);
        var q, p :| InnerRowAt(id, tx.ixs, known, q, p, r);
        BaseRefs(address, known, tx.ixs[q].inner[p]);
      }
    }
  }

  lemma BaseRefs(address: map<string, int>, known: map<string, int>, b: IxBase)
    requires BaseKnown(b, known) && Within(known, address)
    ensures RowRefs(address, BaseRow(b, known))
  {
    var row := BaseRow(b, known);
    assert address[b.program] in address.Values;
    forall p | 0 <= p < |row.Accounts()|
      ensures row.Accounts()[p] in address.Values
    {
      assert b.accounts[p] in b.accounts;
      assert address[b.accounts[p]] == row.Accounts()[p];
    }
  }

  /** A committed save leaves every primary key one-to-one, every foreign key pointing at a row and no NULL list. */
  lemma SaveKeepsSchema(db: Db, txs: seq<OnchainTx>, ids: seq<int>, address: map<string, int>, target: Target)
    requires DbOk(db) && |ids| == |txs| && Distinct(ids)
    requires forall id :: id in ids ==> id !in db.signature.Values
    requires AddressesSaved(db.address, address, BatchAddresses(txs))
    requires SaveBatch(db, txs, ids, address, target).Ok?
    ensures DbOk(SaveBatch(db, txs, ids, address, target).value)
  {
    hide SaveBatch, BatchAddresses, RowRefs, Injective, Distinct;
    var db' := SaveBatch(db, txs, ids, address, target).value;
    SaveAdds(db, txs, ids, address, target);
    SavedIdsKnown(db, txs, ids, address, target);
    SavedInjective(db, txs, ids, address, target);
    SavedRefs(db, txs, ids, address, target);
    SavedNotNull(db, txs, ids, address, target);
    forall id | id in db.signature.Values
      ensures id in db'.signature.Values
    {
      var x :| x in db.signature && db.signature[x] == id;
      assert HasRow(db'.signature, x, id);
      assert db'.signature[x] in db'.signature.Values;
    }
    IdsKnown(db.instruction, db'.instruction, (k: IxKey) => k.0, ids, db.signature.Values, db'.signature.Values);
    IdsKnown(db.inner, db'.inner, (k: InnerKey) => k.0, ids, db.signature.Values, db'.signature.Values);
  }

  lemma IdsKnown<K, V>(before: map<K, V>, after: map<K, V>, idOf: K -> int, ids: seq<int>, earlier: set<int>, known: set<int>)
    requires forall k :: k in before ==> idOf(k) in earlier
    requires forall k :: k in after && k !in before ==> idOf(k) in ids
    requires earlier <= known && forall id :: id in ids ==> id in known
    ensures forall k :: k in after ==> idOf(k) in known
  {
    forall k | k in after
      ensures idOf(k) in known
    {
      if k !in before {
        var i :| 0 <= i < |ids| && ids[i] == idOf(k);
        assert ids[i] in ids;
      }
    }
  }

  lemma SavedIdsKnown(db: Db, txs: seq<OnchainTx>, ids: seq<int>, address: map<string, int>, target: Target)
    requires |ids| == |txs| && SaveBatch(db, txs, ids, address, target).Ok?
    ensures forall id :: id in ids ==> id in SaveBatch(db, txs, ids, address, target).value.signature.Values
  {
    hide ComponentsOf, Insert, AllKnown, Zip;
    var db', sigs := SaveBatch(db, txs, ids, address, target).value, Signatures(txs);
    forall id | id in ids
      ensures id in db'.signature.Values
    {
      var i :| 0 <= i < |ids| && ids[i] == id;
      assert sigs[i] in Zip(sigs, ids) && db'.signature[sigs[i]] == id;
    }
  }

  lemma SavedNotNull(db: Db, txs: seq<OnchainTx>, ids: seq<int>, address: map<string, int>, target: Target)
    requires DbOk(db) && |ids| == |txs| && SaveBatch(db, txs, ids, address, target).Ok?
    ensures var db' := SaveBatch(db, txs, ids, address, target).value;
            && (forall k :: k in db'.instruction ==> db'.instruction[k].accountsIds.Some?)
            && (forall k :: k in db'.inner ==> db'.inner[k].accountsIds.Some?)
  {
    hide Insert, InsertIxs, NoNull, BatchAddresses, Zip, ComponentsOf, RowRefs, Injective, Keys, Distinct, AllKnown, Restrict;
    var c := ComponentsOf(txs, Zip(Signatures(txs), ids), Restrict(address, BatchAddresses(txs)));
    InsertIxsIff(db.instruction, c.ixs);
    InsertIxsIff(db.inner, c.inner);
  }

  lemma SavedInjective(db: Db, txs: seq<OnchainTx>, ids: seq<int>, address: map<string, int>, target: Target)
    requires Injective(db.signature) && |ids| == |txs| && Distinct(ids)
    requires forall id :: id in ids ==> id !in db.signature.Values
    requires SaveBatch(db, txs, ids, address, target).Ok?
    ensures Injective(SaveBatch(db, txs, ids, address, target).value.signature)
  {
    hide ComponentsOf, Insert, AllKnown, Zip, Distinct;
    var m, added := SaveBatch(db, txs, ids, address, target).value.signature, Zip(Signatures(txs), ids);
    ZipInjective(Signatures(txs), ids);
    assert forall x :: x in db.signature ==> db.signature[x] in db.signature.Values;
    forall x | x in added
      ensures added[x] in ids
    {
      var i :| 0 <= i < |ids| && Signatures(txs)[i] == x;
      assert added[x] == ids[i];
    }
  }

  lemma SavedRefs(db: Db, txs: seq<OnchainTx>, ids: seq<int>, address: map<string, int>, target: Target)
    requires DbOk(db) && |ids| == |txs| && Distinct(ids)
    requires forall id :: id in ids ==> id !in db.signature.Values
    requires AddressesSaved(db.address, address, BatchAddresses(txs))
    requires SaveBatch(db, txs, ids, address, target).Ok?
    ensures var db' := SaveBatch(db, txs, ids, address, target).value;
            && (forall k :: k in db'.instruction ==> RowRefs(address, db'.instruction[k]))
            && (forall k :: k in db'.inner ==> RowRefs(address, db'.inner[k]) && (k.0, k.1) in db'.instruction)
  {
    hide Insert, BatchAddresses, Zip, ComponentsOf, RowRefs, TxKnown, Injective, Keys, Distinct, AllKnown, IxsFit, InnerFit, NoInner, AddressesSaved, Restrict;
    var sigs, known := Zip(Signatures(txs), ids), Restrict(address, BatchAddresses(txs));
    var db', c := SaveBatch(db, txs, ids, address, target).value, ComponentsOf(txs, sigs, known);
    RestrictWithin(address, BatchAddresses(txs));
    ComponentRefs(txs, sigs, known, address);
    InnerRefersToIx(txs, sigs, known);
    OldRefs(db, address, BatchAddresses(txs));
    InsertedRefs(db.instruction, c.ixs, address);
    InsertIff(db.instruction, c.ixs);
    if c.inner != [] {
      InsertedRefs(db.inner, c.inner, address);
      InsertIff(db.inner, c.inner);
    }
  }

  lemma RestrictWithin(address: map<string, int>, wanted: set<string>)
    ensures Within(Restrict(address, wanted), address)
  {
  }

  lemma OldRefs(db: Db, after: map<string, int>, wanted: set<string>)
    requires DbOk(db) && AddressesSaved(db.address, after, wanted)
    ensures forall k :: k in db.instruction ==> RowRefs(after, db.instruction[k])
    ensures forall k :: k in db.inner ==> RowRefs(after, db.inner[k])
  {
    hide RowRefs, Injective, IsBase, AddressesSaved;
    forall k | k in db.instruction
      ensures RowRefs(after, db.instruction[k])
    {
      RefsKept(db.address, after, wanted, db.instruction[k]);
    }
    forall k | k in db.inner
      ensures RowRefs(after, db.inner[k])
    {
      RefsKept(db.address, after, wanted, db.inner[k]);
    }
  }

  lemma InsertedRefs<K>(table: map<K, IxRow>, rows: seq<(K, IxRow)>, address: map<string, int>)
    requires Insert(table, rows).Some?
    requires forall k :: k in table ==> RowRefs(address, table[k])
    requires forall r :: r in rows ==> RowRefs(address, r.1)
    ensures var t' := Insert(table, rows).value;
            forall k :: k in t' ==> RowRefs(address, t'[k])
  {
    hide Insert, RowRefs;
    InsertIff(table, rows);
    var t' := Insert(table, rows).value;
    forall k | k in t'
      ensures RowRefs(address, t'[k])
    {
      if k !in table {
        assert k in Elements(Keys(rows));
        var i :| 0 <= i < |Keys(rows)| && Keys(rows)[i] == k;
        assert rows[i] in rows;
      }
    }
  }
}
