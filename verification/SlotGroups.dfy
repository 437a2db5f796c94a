/**
 * Positions inside a block for transactions that share a slot. The grouping loop of
 * `deduplicateTimestamps` reads `slots[-1]` on its first row, so what is modelled is the grouping it is
 * meant to do.
 */
module SlotGroups {
  import opened Common

  datatype Row = Row(slot: int, signature: string)

  datatype Group = Group(slot: int, signatures: seq<string>)

  datatype Deduped = Deduped(slot: int, signature: string, blockIndex: int)

  /** The assertion that stops the process when a signature is not in its block. */
  datatype Failure = NotInBlock

  predicate Sorted(txs: seq<Row>) {
    forall i, j :: 0 <= i < j < |txs| ==> txs[i].slot <= txs[j].slot
  }

  /** The rows of a group, and of a list of groups. */
  function RowsIn(g: Group): seq<Row> {
    seq(|g.signatures|, i requires 0 <= i < |g.signatures| => Row(g.slot, g.signatures[i]))
  }

  function Flatten(groups: seq<Group>): seq<Row> {
    if groups == [] then [] else Flatten(groups[..|groups| - 1]) + RowsIn(groups[|groups| - 1])
  }

  predicate Ascending(groups: seq<Group>) {
    && (forall i, j :: 0 <= i < j < |groups| ==> groups[i].slot < groups[j].slot)
    && forall i :: 0 <= i < |groups| ==> groups[i].signatures != []
  }

  /** The grouping the loop is for: it cuts the rows into runs of equal slots. */
  method GroupBySlot(txs: seq<Row>) returns (groups: seq<Group>)
    requires Sorted(txs)
    ensures Flatten(groups) == txs && Ascending(groups)
  {
    hide Flatten;
    groups := [];
    FlattenNone();
    for i := 0 to |txs|
      invariant Flatten(groups) == txs[..i] && Ascending(groups)
      invariant (groups == [] <==> i == 0) && (i > 0 ==> groups[|groups| - 1].slot == txs[i - 1].slot)
    {
      var tx, last := txs[i], |groups| - 1;
      if last >= 0 && groups[last].slot == tx.slot {
        AddToLast(groups, tx);
        groups := groups[last := Group(tx.slot, groups[last].signatures + [tx.signature])];
      } else {
        AddGroup(groups, tx);
        groups := groups + [Group(tx.slot, [tx.signature])];
      }
      assert txs[..i + 1] == txs[..i] + [tx];
    }
    assert txs[..|txs|] == txs;
  }

  lemma FlattenNone()
    ensures Flatten([]) == []
  {
  }

  lemma AddToLast(groups: seq<Group>, tx: Row)
    requires groups != [] && groups[|groups| - 1].slot == tx.slot
    ensures var last := |groups| - 1;
            Flatten(groups[last := Group(tx.slot, groups[last].signatures + [tx.signature])]) == Flatten(groups) + [tx]
  {
    var last := |groups| - 1;
    var more := groups[last := Group(tx.slot, groups[last].signatures + [tx.signature])];
    assert more[..last] == groups[..last];
    assert RowsIn(more[last]) == RowsIn(groups[last]) + [tx];
  }

  lemma AddGroup(groups: seq<Group>, tx: Row)
    ensures Flatten(groups + [Group(tx.slot, [tx.signature])]) == Flatten(groups) + [tx]
  {
    var more := groups + [Group(tx.slot, [tx.signature])];
    assert more[..|groups|] == groups;
    assert RowsIn(more[|groups|]) == [tx];
  }

  /** Every such cut of the rows is the same: the specification leaves no choice. */
  lemma {:induction false} GroupingUnique(a: seq<Group>, b: seq<Group>)
    requires Ascending(a) && Ascending(b) && Flatten(a) == Flatten(b)
    ensures a == b
    decreases |a|
  {
    if a == [] || b == [] {
      NonEmpty(a);
      NonEmpty(b);
    } else {
      var m, n := |a| - 1, |b| - 1;
      var rows := Flatten(a);
      SameTail(a, b);
      GroupingUnique(a[..m], b[..n]);
      assert a == a[..m] + [a[m]] && b == b[..n] + [b[n]];
    }
  }

  lemma NonEmpty(groups: seq<Group>)
    requires Ascending(groups)
    ensures Flatten(groups) == [] <==> groups == []
  {
  }

  /** Rows before the last group have smaller slots. */
  lemma {:induction false} FrontBelow(groups: seq<Group>, slot: int)
    requires Ascending(groups) && forall i :: 0 <= i < |groups| ==> groups[i].slot < slot
    ensures forall k :: 0 <= k < |Flatten(groups)| ==> Flatten(groups)[k].slot < slot
  {
    if groups != [] {
      FrontBelow(groups[..|groups| - 1], slot);
    }
  }

  lemma SplitUnique(a: seq<Row>, x: seq<Row>, b: seq<Row>, y: seq<Row>, slot: int)
    requires a + x == b + y && x != [] && y != []
    requires forall k :: 0 <= k < |a| ==> a[k].slot < slot
    requires forall k :: 0 <= k < |b| ==> b[k].slot < slot
    requires forall k :: 0 <= k < |x| ==> x[k].slot == slot
    requires forall k :: 0 <= k < |y| ==> y[k].slot == slot
    ensures a == b && x == y
  {
    var rows := a + x;
    assert forall k :: 0 <= k < |rows| ==> (rows[k].slot < slot <==> k < |a|);
    assert forall k :: 0 <= k < |rows| ==> (rows[k].slot < slot <==> k < |b|) by {
      assert rows == b + y;
    }
    assert rows[|a|].slot == slot && rows[|b|].slot == slot;
    assert a == rows[..|a|] && b == rows[..|b|] && x == rows[|a|..] && y == rows[|b|..];
  }

  lemma Tail(groups: seq<Group>)
    requires Ascending(groups) && groups != []
    ensures var n := |groups| - 1;
            var front, g := Flatten(groups[..n]), groups[n];
            && Flatten(groups) == front + RowsIn(g) && RowsIn(g) != []
            && (forall k :: 0 <= k < |front| ==> front[k].slot < g.slot)
            && (forall k :: 0 <= k < |RowsIn(g)| ==> RowsIn(g)[k].slot == g.slot)
  {
    FrontBelow(groups[..|groups| - 1], groups[|groups| - 1].slot);
  }

  lemma SameTail(a: seq<Group>, b: seq<Group>)
    requires Ascending(a) && Ascending(b) && Flatten(a) == Flatten(b) && a != [] && b != []
    ensures a[|a| - 1] == b[|b| - 1] && Flatten(a[..|a| - 1]) == Flatten(b[..|b| - 1])
  {
    hide Flatten, RowsIn, Ascending;
    var m, n := |a| - 1, |b| - 1;
    Tail(a);
    Tail(b);
    var rows := Flatten(a);
    assert rows[|rows| - 1].slot == a[m].slot;
    assert rows[|rows| - 1].slot == b[n].slot;
    SplitUnique(Flatten(a[..m]), RowsIn(a[m]), Flatten(b[..n]), RowsIn(b[n]), a[m].slot);
    RowsInjective(a[m], b[n]);
  }

  lemma RowsInjective(g: Group, h: Group)
    requires g.slot == h.slot && RowsIn(g) == RowsIn(h)
    ensures g == h
  {
    assert |RowsIn(g)| == |g.signatures| && |RowsIn(h)| == |h.signatures|;
    assert forall i :: 0 <= i < |g.signatures| ==> RowsIn(g)[i].signature == g.signatures[i];
    assert forall i :: 0 <= i < |h.signatures| ==> RowsIn(h)[i].signature == h.signatures[i];
  }

  // ---- block indexes ----

  /** The first position of `x`; -1 when it is not there. */
  method IndexFunc(block: seq<string>, x: string) returns (idx: int)
    ensures idx == -1 <==> x !in block
    ensures idx != -1 ==> FirstIn(block, x, idx)
  {
    for i := 0 to |block|
      invariant forall k :: 0 <= k < i ==> block[k] != x
    {
      if block[i] == x {
        return i;
      }
    }
    idx := -1;
  }

  predicate FirstIn(block: seq<string>, x: string, i: int) {
    0 <= i < |block| && block[i] == x && forall k :: 0 <= k < i ==> block[k] != x
  }

  /** `rows` with the index of each one's signature in the block of its slot. */
  predicate Indexed(ds: seq<Deduped>, rows: seq<Row>, block: map<int, seq<string>>) {
    |ds| == |rows| &&
    forall i :: 0 <= i < |ds| ==>
      && ds[i].slot == rows[i].slot && ds[i].signature == rows[i].signature
      && rows[i].slot in block
      && FirstIn(block[rows[i].slot], rows[i].signature, ds[i].blockIndex)
  }

  predicate InBlocks(rows: seq<Row>, block: map<int, seq<string>>) {
    forall i :: 0 <= i < |rows| ==> rows[i].slot in block && rows[i].signature in block[rows[i].slot]
  }

  /** The loops over groups and signatures: an index for every row, or an assertion that stops the process. */
  method AssignIndexes(groups: seq<Group>, block: map<int, seq<string>>) returns (r: Result<seq<Deduped>, Failure>)
    requires forall i :: 0 <= i < |groups| ==> groups[i].slot in block
    ensures r.Ok? <==> InBlocks(Flatten(groups), block)
    ensures r.Ok? ==> Indexed(r.value, Flatten(groups), block)
  {
    var ds: seq<Deduped> := [];
    assert groups[..0] == [];
    for i := 0 to |groups|
      invariant Indexed(ds, Flatten(groups[..i]), block) && InBlocks(Flatten(groups[..i]), block)
    {
      var g := groups[i];
      ghost var front := Flatten(groups[..i]);
      assert groups[..i + 1][..i] == groups[..i];
      assert Flatten(groups[..i + 1]) == front + RowsIn(g);
      for k := 0 to |g.signatures|
        invariant Indexed(ds, front + RowsIn(g)[..k], block) && InBlocks(front + RowsIn(g)[..k], block)
      {
        var idx := IndexFunc(block[g.slot], g.signatures[k]);
        if idx == -1 {
          FlattenFront(groups, i + 1);
          assert RowsIn(g)[k] == Row(g.slot, g.signatures[k]);
          assert (front + RowsIn(g))[|front| + k] == RowsIn(g)[k];
          return Err(NotInBlock);
        }
        ds := ds + [Deduped(g.slot, g.signatures[k], idx)];
        assert RowsIn(g)[..k + 1] == RowsIn(g)[..k] + [Row(g.slot, g.signatures[k])];
      }
      assert RowsIn(g)[..|g.signatures|] == RowsIn(g);
    }
    assert groups[..|groups|] == groups;
    r := Ok(ds);
  }

  lemma {:induction false} FlattenFront(groups: seq<Group>, n: nat)
    requires n <= |groups|
    ensures |Flatten(groups[..n])| <= |Flatten(groups)|
    ensures Flatten(groups)[..|Flatten(groups[..n])|] == Flatten(groups[..n])
    decreases |groups|
  {
    if n == |groups| {
      assert groups[..n] == groups;
    } else {
      var m := |groups| - 1;
      FlattenFront(groups[..m], n);
      assert groups[..m][..n] == groups[..n];
    }
  }

  /** The (slot, block index) pairs are distinct, and so order the rows strictly, exactly when the rows are. */
  lemma PositionsDistinct(ds: seq<Deduped>, rows: seq<Row>, block: map<int, seq<string>>)
    requires Indexed(ds, rows, block)
    ensures (forall i, j :: 0 <= i < j < |ds| ==> (ds[i].slot, ds[i].blockIndex) != (ds[j].slot, ds[j].blockIndex))
            <==> Distinct(rows)
  {
    forall i, j | 0 <= i < j < |ds|
      ensures (ds[i].slot, ds[i].blockIndex) == (ds[j].slot, ds[j].blockIndex) <==> rows[i] == rows[j]
    {
      if ds[i].slot == ds[j].slot && ds[i].signature == ds[j].signature {
        FirstUnique(block[ds[i].slot], ds[i].signature, ds[i].blockIndex, ds[j].blockIndex);
      }
    }
  }

  lemma FirstUnique(block: seq<string>, x: string, i: int, j: int)
    requires FirstIn(block, x, i) && FirstIn(block, x, j)
    ensures i == j
  {
  }
}
