/** Transactions as the RPC returns them, and how `fetchTransaction` resolves their compiled indexes. */
module Ledger {
  import opened Common

  /** What an instruction parser reports about an account; its contents never matter here. */
  datatype AssociatedAccount = AssociatedAccount(kind: int, address: string)

  /** Data stays the hex text it is stored as. */
  datatype IxBase = IxBase(program: string, accounts: seq<string>, data: string)

  datatype Ix = Ix(base: IxBase, inner: seq<IxBase>)

  datatype OnchainTx = OnchainTx(
    signature: string,
    accounts: seq<string>,
    ixs: seq<Ix>,
    logs: seq<string>,
    slot: nat,
    err: bool,
    fee: nat,
    timestamp: int,
    timestampGranularized: int)

  /** Every address instruction `b` uses is in the account list of `tx`. */
  predicate BaseResolved(tx: OnchainTx, b: IxBase) {
    b.program in tx.accounts && forall a :: a in b.accounts ==> a in tx.accounts
  }

  predicate Resolved(tx: OnchainTx) {
    forall i :: 0 <= i < |tx.ixs| ==>
      BaseResolved(tx, tx.ixs[i].base) &&
      forall k :: 0 <= k < |tx.ixs[i].inner| ==> BaseResolved(tx, tx.ixs[i].inner[k])
  }

  /** What one transaction must satisfy for the batch insert to go through, as `Storage` proves. */
  predicate Storable(tx: OnchainTx) {
    && Resolved(tx)
    && |tx.ixs| <= 0x1_0000
    && forall i :: 0 <= i < |tx.ixs| ==> tx.ixs[i].base.accounts != [] && tx.ixs[i].inner == []
  }

  // ---- the compiled form ----

  datatype CompiledIx = CompiledIx(programIdIndex: nat, accounts: seq<nat>, data: string)

  datatype InnerSet = InnerSet(index: nat, ixs: seq<CompiledIx>)

  datatype RawTx = RawTx(
    signature: string,
    accountKeys: seq<string>,
    writable: seq<string>,
    readOnly: seq<string>,
    ixs: seq<CompiledIx>,
    inner: seq<InnerSet>,
    logs: seq<string>,
    slot: nat,
    err: bool,
    fee: nat,
    timestamp: int,
    timestampGranularized: int)

  /** An index past the end of a slice. */
  datatype Panic = IndexOutOfRange

  function AllAccounts(raw: RawTx): seq<string> {
    raw.accountKeys + raw.writable + raw.readOnly
  }

  /** The message keys come first, then the writable, then the read-only loaded addresses. */
  predicate InOrder(accounts: seq<string>, raw: RawTx) {
    var m, n := |raw.accountKeys|, |raw.accountKeys| + |raw.writable|;
    && |accounts| == n + |raw.readOnly|
    && (forall i :: 0 <= i < |raw.accountKeys| ==> accounts[i] == raw.accountKeys[i])
    && (forall i :: 0 <= i < |raw.writable| ==> accounts[m + i] == raw.writable[i])
    && forall i :: 0 <= i < |raw.readOnly| ==> accounts[n + i] == raw.readOnly[i]
  }

  method DecompileAccounts(raw: RawTx) returns (accounts: seq<string>)
    ensures accounts == AllAccounts(raw) && InOrder(accounts, raw)
  {
    accounts := raw.accountKeys;
    for i := 0 to |raw.writable|
      invariant accounts == raw.accountKeys + raw.writable[..i]
    {
      accounts := accounts + [raw.writable[i]];
    }
    for i := 0 to |raw.readOnly|
      invariant accounts == raw.accountKeys + raw.writable + raw.readOnly[..i]
    {
      accounts := accounts + [raw.readOnly[i]];
    }
  }

  predicate InRange(c: CompiledIx, n: nat) {
    c.programIdIndex < n && forall i :: 0 <= i < |c.accounts| ==> c.accounts[i] < n
  }

  /** `b` is `c` with every index replaced by the account it names. */
  predicate Names(b: IxBase, c: CompiledIx, accounts: seq<string>) {
    && InRange(c, |accounts|)
    && b.program == accounts[c.programIdIndex] && b.data == c.data && |b.accounts| == |c.accounts|
    && forall i :: 0 <= i < |c.accounts| ==> b.accounts[i] == accounts[c.accounts[i]]
  }

  method SetFromCompiled(c: CompiledIx, accounts: seq<string>) returns (r: Result<IxBase, Panic>)
    ensures r.Ok? <==> InRange(c, |accounts|)
    ensures r.Ok? ==> Names(r.value, c, accounts)
  {
    var resolved: seq<string> := [];
    for i := 0 to |c.accounts|
      invariant |resolved| == i
      invariant forall k :: 0 <= k < i ==> c.accounts[k] < |accounts| && resolved[k] == accounts[c.accounts[k]]
    {
      if c.accounts[i] >= |accounts| {
        return Err(IndexOutOfRange);
      }
      resolved := resolved + [accounts[c.accounts[i]]];
    }
    if c.programIdIndex >= |accounts| {
      return Err(IndexOutOfRange);
    }
    r := Ok(IxBase(accounts[c.programIdIndex], resolved, c.data));
  }

  predicate AllName(bs: seq<IxBase>, cs: seq<CompiledIx>, accounts: seq<string>) {
    |bs| == |cs| && forall i :: 0 <= i < |cs| ==> Names(bs[i], cs[i], accounts)
  }

  method SetAll(cs: seq<CompiledIx>, accounts: seq<string>) returns (r: Result<seq<IxBase>, Panic>)
    ensures r.Ok? <==> forall i :: 0 <= i < |cs| ==> InRange(cs[i], |accounts|)
    ensures r.Ok? ==> AllName(r.value, cs, accounts)
  {
    var bs: seq<IxBase> := [];
    for i := 0 to |cs|
      invariant AllName(bs, cs[..i], accounts)
    {
      var one := SetFromCompiled(cs[i], accounts);
      if one.Err? {
        return Err(one.error);
      }
      bs := bs + [one.value];
    }
    assert cs[..|cs|] == cs;
    r := Ok(bs);
  }

  /** The compiled inner instructions of instruction `k`: the last set that names it, none if none does. */
  function InnerOf(sets: seq<InnerSet>, k: nat): seq<CompiledIx> {
    if sets == [] then []
    else if sets[|sets| - 1].index == k then sets[|sets| - 1].ixs
    else InnerOf(sets[..|sets| - 1], k)
  }

  /** Every compiled index points at something. */
  predicate WellFormed(raw: RawTx) {
    var n := |AllAccounts(raw)|;
    && (forall i :: 0 <= i < |raw.ixs| ==> InRange(raw.ixs[i], n))
    && (forall i :: 0 <= i < |raw.inner| ==> SetOk(raw.inner[i], |raw.ixs|, n))
  }

  predicate SetOk(inner: InnerSet, ixs: nat, n: nat) {
    inner.index < ixs && forall k :: 0 <= k < |inner.ixs| ==> InRange(inner.ixs[k], n)
  }

  /** `tx` is `raw` with every index resolved and every inner set under the instruction it names. */
  predicate Decoded(tx: OnchainTx, raw: RawTx) {
    && tx.accounts == AllAccounts(raw) && |tx.ixs| == |raw.ixs|
    && tx.signature == raw.signature && tx.logs == raw.logs && tx.slot == raw.slot && tx.err == raw.err && tx.fee == raw.fee
    && tx.timestamp == raw.timestamp && tx.timestampGranularized == raw.timestampGranularized
    && forall k :: 0 <= k < |raw.ixs| ==>
         Names(tx.ixs[k].base, raw.ixs[k], tx.accounts) && AllName(tx.ixs[k].inner, InnerOf(raw.inner, k), tx.accounts)
  }

  /** The last inner set that names an instruction is the one attached to it; one that no set names has none. */
  predicate Attached(tx: OnchainTx, raw: RawTx) {
    && (forall i :: 0 <= i < |raw.inner| && LastSet(raw.inner, i) ==>
          raw.inner[i].index < |tx.ixs| && AllName(tx.ixs[raw.inner[i].index].inner, raw.inner[i].ixs, tx.accounts))
    && forall k :: 0 <= k < |tx.ixs| && (forall i :: 0 <= i < |raw.inner| ==> raw.inner[i].index != k) ==> tx.ixs[k].inner == []
  }

  predicate LastSet(sets: seq<InnerSet>, i: int) {
    0 <= i < |sets| && forall j :: i < j < |sets| ==> sets[j].index != sets[i].index
  }

  lemma {:induction false} InnerOfLast(sets: seq<InnerSet>, i: int)
    requires LastSet(sets, i)
    ensures InnerOf(sets, sets[i].index) == sets[i].ixs
  {
    var n := |sets| - 1;
    if i < n {
      assert sets[n].index != sets[i].index;
      InnerOfLast(sets[..n], i);
    }
  }

  lemma {:induction false} InnerOfNone(sets: seq<InnerSet>, k: nat)
    requires forall i :: 0 <= i < |sets| ==> sets[i].index != k
    ensures InnerOf(sets, k) == []
  {
    if sets != [] {
      InnerOfNone(sets[..|sets| - 1], k);
    }
  }

  lemma DecodedAttached(tx: OnchainTx, raw: RawTx)
    requires Decoded(tx, raw) && WellFormed(raw)
    ensures Attached(tx, raw)
  {
    forall i | 0 <= i < |raw.inner| && LastSet(raw.inner, i)
      ensures raw.inner[i].index < |tx.ixs| && AllName(tx.ixs[raw.inner[i].index].inner, raw.inner[i].ixs, tx.accounts)
    {
      assert SetOk(raw.inner[i], |raw.ixs|, |AllAccounts(raw)|);
      InnerOfLast(raw.inner, i);
    }
    forall k | 0 <= k < |tx.ixs| && forall i :: 0 <= i < |raw.inner| ==> raw.inner[i].index != k
      ensures tx.ixs[k].inner == []
    {
      InnerOfNone(raw.inner, k);
    }
  }

  /** The part of `fetchTransaction` after the RPC has answered. */
  method FetchTransaction(raw: RawTx) returns (r: Result<OnchainTx, Panic>)
    ensures r.Ok? <==> WellFormed(raw)
    ensures r.Ok? ==> Decoded(r.value, raw) && InOrder(r.value.accounts, raw) && Attached(r.value, raw)
  {
    var accounts := DecompileAccounts(raw);
    var bases := SetAll(raw.ixs, accounts);
    if bases.Err? {
      return Err(bases.error);
    }
    var ixs := seq(|bases.value|, i requires 0 <= i < |bases.value| => Ix(bases.value[i], []));
    for i := 0 to |raw.inner|
      invariant |ixs| == |raw.ixs|
      invariant forall k :: 0 <= k < |ixs| ==> ixs[k].base == bases.value[k]
      invariant forall k :: 0 <= k < |ixs| ==> AllName(ixs[k].inner, InnerOf(raw.inner[..i], k), accounts)
      invariant forall k :: 0 <= k < i ==> SetOk(raw.inner[k], |raw.ixs|, |accounts|)
    {
      var set_ := raw.inner[i];
      var inner := SetAll(set_.ixs, accounts);
      if inner.Err? {
        return Err(inner.error);
      }
      if set_.index >= |ixs| {
        return Err(IndexOutOfRange);
      }
      assert raw.inner[..i + 1][..i] == raw.inner[..i];
      ixs := ixs[set_.index := ixs[set_.index].(inner := inner.value)];
    }
    assert raw.inner[..|raw.inner|] == raw.inner;
    r := Ok(OnchainTx(raw.signature, accounts, ixs, raw.logs, raw.slot, raw.err, raw.fee,
                      raw.timestamp, raw.timestampGranularized));
    DecodedAttached(r.value, raw);
  }

  /** Whatever `fetchTransaction` returns uses only addresses of its own account list. */
  lemma DecodedResolved(tx: OnchainTx, raw: RawTx)
    requires Decoded(tx, raw)
    ensures Resolved(tx)
  {
    forall i | 0 <= i < |tx.ixs|
      ensures BaseResolved(tx, tx.ixs[i].base)
      ensures forall k :: 0 <= k < |tx.ixs[i].inner| ==> BaseResolved(tx, tx.ixs[i].inner[k])
    {
      NamesResolved(tx, tx.ixs[i].base, raw.ixs[i]);
      var cs := InnerOf(raw.inner, i);
      forall k | 0 <= k < |tx.ixs[i].inner|
        ensures BaseResolved(tx, tx.ixs[i].inner[k])
      {
        NamesResolved(tx, tx.ixs[i].inner[k], cs[k]);
      }
    }
  }

  lemma NamesResolved(tx: OnchainTx, b: IxBase, c: CompiledIx)
    requires Names(b, c, tx.accounts)
    ensures BaseResolved(tx, b)
  {
    forall a | a in b.accounts
      ensures a in tx.accounts
    {
      var i :| 0 <= i < |b.accounts| && b.accounts[i] == a;
    }
  }
}
