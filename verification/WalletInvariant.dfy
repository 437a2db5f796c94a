/**
 * What holds of one wallet at every moment, stated over its history and its flow: the messages of the
 * batch being committed followed by its messages still queued. Taking a batch leaves the flow as it is,
 * so only appends, commits and a stop can disturb these facts.
 */
module WalletInvariant {
  import opened Common
  import opened Ledger
  import opened MsgQueue
  import opened Pipeline

  ghost predicate Linked(t: Tables, w: nat, x: string) {
    x in t.signature && w in t.links && t.signature[x] in t.links[w]
  }

  /** Committing `m` links `x`. */
  ghost predicate Covers(t: Tables, m: Msg, x: string) {
    match m
    case Saved(_, id, _) => HasId(t, x, id)
    case Onchain(_, tx, _) => tx.signature == x
    case Last(_, _) => false
  }

  /** `x` is linked, or one of the first `n` messages of the flow will link it. */
  ghost predicate Handled(t: Tables, w: nat, flow: seq<Msg>, n: nat, x: string)
    requires n <= |flow|
  {
    Linked(t, w, x) || exists i :: 0 <= i < n && Covers(t, flow[i], x)
  }

  ghost predicate HandledUpTo(t: Tables, w: nat, h: seq<string>, flow: seq<Msg>, n: nat, k: nat)
    requires n <= |flow| && k <= |h|
  {
    forall j {:trigger Handled(t, w, flow, n, h[j])} :: 0 <= j < k ==> Handled(t, w, flow, n, h[j])
  }

  ghost predicate KnownId(t: Tables, h: seq<string>, id: int) {
    exists x :: x in h && HasId(t, x, id)
  }

  predicate Marks(m: Msg) {
    m.Last? && m.signature != ""
  }

  predicate Blank(m: Msg) {
    m.Last? && m.signature == ""
  }

  ghost predicate MsgOk(t: Tables, w: nat, h: seq<string>, m: Msg) {
    m.wallet == w &&
    match m
    case Saved(_, id, _) => KnownId(t, h, id)
    case Onchain(_, tx, _) => tx.signature in h
    case Last(_, sig) => sig == "" || sig in h
  }

  /** How far the stored watermark reaches into the history. */
  ghost function Reached(t: Tables, w: nat, h: seq<string>): nat
    requires w in t.wallet
  {
    Rank(h, Watermark(t, w))
  }

  /** The row itself: the watermark resolves, lies in the history, and the counter counts the links. */
  ghost predicate RowOk(t: Tables, w: nat, h: seq<string>) {
    && w in t.wallet && w in t.links
    && (t.wallet[w].lastSignatureId.Some? <==> Watermark(t, w) != "")
    && (Watermark(t, w) != "" ==> Watermark(t, w) in h)
    && (forall id :: id in t.links[w] ==> KnownId(t, h, id))
    && t.wallet[w].signatures == |t.links[w]|
  }

  /** Everything up to the watermark is linked. */
  ghost predicate WatermarkSafe(t: Tables, w: nat, h: seq<string>)
    requires w in t.wallet
  {
    forall j {:trigger Linked(t, w, h[j])} :: 0 <= j < Reached(t, w, h) ==> Linked(t, w, h[j])
  }

  /** Everything a pending marker promises is linked or ahead of it in the flow. */
  ghost predicate MarkersBacked(t: Tables, w: nat, h: seq<string>, flow: seq<Msg>) {
    forall p {:trigger Marks(flow[p])} :: 0 <= p < |flow| && Marks(flow[p]) ==>
      HandledUpTo(t, w, h, flow, p, Rank(h, flow[p].signature))
  }

  /** Pending markers are in history order and none is older than the watermark. */
  ghost predicate MarkersOrdered(t: Tables, w: nat, h: seq<string>, flow: seq<Msg>)
    requires w in t.wallet
  {
    && (forall p {:trigger Marks(flow[p])} :: 0 <= p < |flow| && Marks(flow[p]) ==> Reached(t, w, h) <= Rank(h, flow[p].signature))
    && (forall p, q {:trigger Marks(flow[p]), Marks(flow[q])} :: 0 <= p < q < |flow| && Marks(flow[p]) && Marks(flow[q]) ==>
          Rank(h, flow[p].signature) <= Rank(h, flow[q].signature))
  }

  /** An empty marker only follows markers the watermark has already reached. */
  ghost predicate BlanksHarmless(t: Tables, w: nat, h: seq<string>, flow: seq<Msg>)
    requires w in t.wallet
  {
    forall p, q {:trigger Marks(flow[p]), Blank(flow[q])} :: 0 <= p < q < |flow| && Marks(flow[p]) && Blank(flow[q]) ==>
      Rank(h, flow[p].signature) <= Reached(t, w, h)
  }

  ghost predicate WalletInv(t: Tables, w: nat, h: seq<string>, flow: seq<Msg>) {
    && RowOk(t, w, h)
    && WatermarkSafe(t, w, h)
    && (forall p {:trigger MsgOk(t, w, h, flow[p])} :: 0 <= p < |flow| ==> MsgOk(t, w, h, flow[p]))
    && MarkersBacked(t, w, h, flow)
    && MarkersOrdered(t, w, h, flow)
    && BlanksHarmless(t, w, h, flow)
  }

  // ---- the watermark as a value ----

  lemma WatermarkIs(t: Tables, w: nat, x: string)
    requires Injective(t.signature) && w in t.wallet
    requires t.wallet[w].lastSignatureId.Some? && HasId(t, x, t.wallet[w].lastSignatureId.value)
    ensures Watermark(t, w) == x
  {
  }

  // ---- histories only grow ----

  lemma GrowKeeps(t: Tables, w: nat, h: seq<string>, flow: seq<Msg>, x: string)
    requires WalletInv(t, w, h, flow) && x != "" && x !in h
    ensures WalletInv(t, w, h + [x], flow)
    ensures Reached(t, w, h + [x]) == Reached(t, w, h)
  {
    var h' := h + [x];
    RankExtend(h, x, Watermark(t, w));
    forall p | 0 <= p < |flow| && flow[p].Last?
      ensures Rank(h', flow[p].signature) == Rank(h, flow[p].signature)
    {
      assert MsgOk(t, w, h, flow[p]);
      RankExtend(h, x, flow[p].signature);
    }
    forall id | KnownId(t, h, id)
      ensures KnownId(t, h', id)
    {
      var y :| y in h && HasId(t, y, id);
      assert y in h';
    }
    forall p | 0 <= p < |flow|
      ensures MsgOk(t, w, h', flow[p])
    {
      assert MsgOk(t, w, h, flow[p]);
    }
    forall p | 0 <= p < |flow| && Marks(flow[p])
      ensures HandledUpTo(t, w, h', flow, p, Rank(h', flow[p].signature))
    {
      assert HandledUpTo(t, w, h, flow, p, Rank(h, flow[p].signature));
    }
  }

  // ---- tables only grow ----

  /** `t'` keeps every signature row of `t`, the links and the watermark of `w`. */
  ghost predicate Extends(t: Tables, t': Tables, w: nat) {
    && Injective(t'.signature)
    && (forall x :: x in t.signature ==> HasId(t', x, t.signature[x]))
    && w in t.wallet && w in t'.wallet && w in t.links && w in t'.links
    && t.links[w] <= t'.links[w]
    && t'.wallet[w].lastSignatureId == t.wallet[w].lastSignatureId
    && t'.wallet[w].signatures - t.wallet[w].signatures == |t'.links[w]| - |t.links[w]|
  }

  lemma ExtendsWatermark(t: Tables, t': Tables, w: nat)
    requires Extends(t, t', w)
    requires t.wallet[w].lastSignatureId.Some? <==> Watermark(t, w) != ""
    ensures Watermark(t', w) == Watermark(t, w)
  {
    if t.wallet[w].lastSignatureId.Some? {
      var id := t.wallet[w].lastSignatureId.value;
      assert exists x :: HasId(t, x, id);
      assert HasId(t, Watermark(t, w), id);
      WatermarkIs(t', w, Watermark(t, w));
    }
  }

  lemma ExtendsKeeps(t: Tables, t': Tables, w: nat, h: seq<string>, flow: seq<Msg>)
    requires WalletInv(t, w, h, flow) && Extends(t, t', w)
    requires forall id :: id in t'.links[w] ==> KnownId(t', h, id)
    ensures WalletInv(t', w, h, flow)
    ensures Watermark(t', w) == Watermark(t, w)
  {
    ExtendsWatermark(t, t', w);
    forall p | 0 <= p < |flow|
      ensures MsgOk(t', w, h, flow[p])
    {
      assert MsgOk(t, w, h, flow[p]);
      if flow[p].Saved? {
        var x :| x in h && HasId(t, x, flow[p].signatureId);
        assert HasId(t', x, flow[p].signatureId);
      }
    }
    forall j | 0 <= j < Reached(t, w, h)
      ensures Linked(t', w, h[j])
    {
      assert Linked(t, w, h[j]);
    }
    forall p | 0 <= p < |flow| && Marks(flow[p])
      ensures HandledUpTo(t', w, h, flow, p, Rank(h, flow[p].signature))
    {
      assert HandledUpTo(t, w, h, flow, p, Rank(h, flow[p].signature));
      forall j | 0 <= j < Rank(h, flow[p].signature)
        ensures Handled(t', w, flow, p, h[j])
      {
        HandledExtends(t, t', w, flow, p, h[j]);
      }
    }
  }

  lemma HandledExtends(t: Tables, t': Tables, w: nat, flow: seq<Msg>, n: nat, x: string)
    requires Extends(t, t', w) && n <= |flow| && Handled(t, w, flow, n, x)
    ensures Handled(t', w, flow, n, x)
  {
    if !Linked(t, w, x) {
      var i :| 0 <= i < n && Covers(t, flow[i], x);
      assert Covers(t', flow[i], x);
    }
  }

  // ---- appending to the flow ----

  /** What an appended message must satisfy. */
  ghost predicate Appendable(t: Tables, w: nat, h: seq<string>, flow: seq<Msg>, m: Msg)
    requires w in t.wallet
  {
    && MsgOk(t, w, h, m)
    && (Marks(m) ==>
          && HandledUpTo(t, w, h, flow, |flow|, Rank(h, m.signature))
          && Reached(t, w, h) <= Rank(h, m.signature)
          && forall p :: 0 <= p < |flow| && Marks(flow[p]) ==>
               Rank(h, flow[p].signature) <= Rank(h, m.signature))
    && (Blank(m) ==>
          forall p :: 0 <= p < |flow| && Marks(flow[p]) ==> Rank(h, flow[p].signature) <= Reached(t, w, h))
  }

  lemma HandledAppend(t: Tables, w: nat, flow: seq<Msg>, m: Msg, n: nat, x: string)
    requires n <= |flow|
    ensures Handled(t, w, flow + [m], n, x) <==> Handled(t, w, flow, n, x)
    ensures Handled(t, w, flow + [m], |flow| + 1, x) <==> Handled(t, w, flow, |flow|, x) || Covers(t, m, x)
  {
    var f := flow + [m];
    assert forall i :: 0 <= i < |flow| ==> f[i] == flow[i];
    assert f[|flow|] == m;
    if Covers(t, m, x) {
      assert Covers(t, f[|flow|], x);
    }
    if i :| 0 <= i < n && Covers(t, flow[i], x) {
      assert Covers(t, f[i], x);
    }
    if i :| 0 <= i < |flow| && Covers(t, flow[i], x) {
      assert Covers(t, f[i], x);
    }
  }

  lemma AppendKeeps(t: Tables, w: nat, h: seq<string>, flow: seq<Msg>, m: Msg)
    requires WalletInv(t, w, h, flow) && Appendable(t, w, h, flow, m)
    ensures WalletInv(t, w, h, flow + [m])
  {
    var f := flow + [m];
    AppendBacked(t, w, h, flow, m);
    AppendOrdered(t, w, h, flow, m);
    forall p | 0 <= p < |f|
      ensures MsgOk(t, w, h, f[p])
    {
      if p < |flow| {
        assert f[p] == flow[p];
      }
    }
  }

  lemma AppendOrdered(t: Tables, w: nat, h: seq<string>, flow: seq<Msg>, m: Msg)
    requires w in t.wallet && Appendable(t, w, h, flow, m)
    requires MarkersOrdered(t, w, h, flow) && BlanksHarmless(t, w, h, flow)
    ensures MarkersOrdered(t, w, h, flow + [m])
    ensures BlanksHarmless(t, w, h, flow + [m])
  {
    var f := flow + [m];
    forall p | 0 <= p < |f| && Marks(f[p])
      ensures Reached(t, w, h) <= Rank(h, f[p].signature)
    {
      if p < |flow| {
        assert f[p] == flow[p];
      }
    }
    forall p, q | 0 <= p < q < |f| && Marks(f[p])
      ensures Marks(f[q]) ==> Rank(h, f[p].signature) <= Rank(h, f[q].signature)
      ensures Blank(f[q]) ==> Rank(h, f[p].signature) <= Reached(t, w, h)
    {
      assert f[p] == flow[p];
      if q < |flow| {
        assert f[q] == flow[q];
      }
    }
  }

  lemma AppendBacked(t: Tables, w: nat, h: seq<string>, flow: seq<Msg>, m: Msg)
    requires w in t.wallet && MarkersBacked(t, w, h, flow) && Appendable(t, w, h, flow, m)
    ensures MarkersBacked(t, w, h, flow + [m])
  {
    var f := flow + [m];
    forall p | 0 <= p < |f| && Marks(f[p])
      ensures HandledUpTo(t, w, h, f, p, Rank(h, f[p].signature))
    {
      if p < |flow| {
        assert f[p] == flow[p];
        assert HandledUpTo(t, w, h, flow, p, Rank(h, flow[p].signature));
      }
      forall j | 0 <= j < Rank(h, f[p].signature)
        ensures Handled(t, w, f, p, h[j])
      {
        HandledAppend(t, w, flow, m, p, h[j]);
      }
    }
  }

  // ---- leaving the flow ----

  /** A stop drops the whole flow. */
  lemma DropKeeps(t: Tables, w: nat, h: seq<string>, flow: seq<Msg>)
    requires WalletInv(t, w, h, flow)
    ensures WalletInv(t, w, h, [])
  {
  }

  /** Every signature the messages of `taken` cover is linked. */
  ghost predicate AllLinked(t: Tables, w: nat, taken: seq<Msg>) {
    forall i, x :: 0 <= i < |taken| && Covers(t, taken[i], x) ==> Linked(t, w, x)
  }

  /** The last non-empty marker of a batch, "" when it has none. */
  function LastMark(taken: seq<Msg>): string {
    if taken == [] then ""
    else
      var m := taken[|taken| - 1];
      if Marks(m) then m.signature else LastMark(taken[..|taken| - 1])
  }

  lemma {:induction false} LastMarkAt(taken: seq<Msg>)
    ensures LastMark(taken) == "" ==> forall i :: 0 <= i < |taken| ==> !Marks(taken[i])
    ensures LastMark(taken) != "" ==>
              exists p :: 0 <= p < |taken| && Marks(taken[p]) && taken[p].signature == LastMark(taken)
                && forall q :: p < q < |taken| ==> !Marks(taken[q])
    ensures LastSignature(taken) != "" ==> LastSignature(taken) == LastMark(taken)
    ensures LastSignature(taken) == "" && LastMark(taken) != "" ==>
              exists p, q :: 0 <= p < q < |taken| && Marks(taken[p]) && taken[p].signature == LastMark(taken) && Blank(taken[q])
  {
    if taken != [] {
      var n := |taken| - 1;
      var front, m := taken[..n], taken[n];
      LastMarkAt(front);
      assert forall i :: 0 <= i < n ==> taken[i] == front[i];
      if !Marks(m) && LastMark(front) != "" {
        var p :| 0 <= p < n && Marks(front[p]) && front[p].signature == LastMark(front)
          && forall q :: p < q < n ==> !Marks(front[q]);
        assert Marks(taken[p]);
        if Blank(m) {
          assert Marks(taken[p]) && Blank(taken[n]);
        } else if LastSignature(front) == "" {
          var p', q' :| 0 <= p' < q' < n && Marks(front[p']) && front[p'].signature == LastMark(front) && Blank(front[q']);
          assert Marks(taken[p']) && Blank(taken[q']);
        }
      }
      if Marks(m) {
        assert Marks(taken[n]);
      }
    }
  }

  /**
   * Committing the watermark of a batch whose links are committed. The sub-select finds a row, nothing
   * is lost when an empty marker comes last, and the watermark does not go back.
   */
  lemma MarkKeeps(t: Tables, w: nat, h: seq<string>, taken: seq<Msg>, rest: seq<Msg>)
    requires Injective(t.signature) && WalletInv(t, w, h, taken + rest) && AllLinked(t, w, taken)
    ensures var t' := MarkTables(t, w, LastSignature(taken));
            && WalletInv(t', w, h, rest)
            && Watermark(t', w) == (if LastMark(taken) == "" then Watermark(t, w) else LastMark(taken))
            && Reached(t, w, h) <= Reached(t', w, h)
    ensures LastSignature(taken) != "" ==> LastSignature(taken) in t.signature
  {
    hide WalletInv, AllLinked, MarkTables, Watermark, Reached;
    LastMarkAt(taken);
    if LastSignature(taken) == "" {
      MaskedKeeps(t, w, h, taken, rest);
    } else {
      MarkerKeeps(t, w, h, taken, rest);
    }
  }

  /** A batch whose last marker is empty: the non-empty one before it, if any, names the watermark already. */
  lemma MaskedKeeps(t: Tables, w: nat, h: seq<string>, taken: seq<Msg>, rest: seq<Msg>)
    requires Injective(t.signature) && WalletInv(t, w, h, taken + rest) && AllLinked(t, w, taken) && LastSignature(taken) == ""
    ensures MarkTables(t, w, "") == t && WalletInv(t, w, h, rest)
    ensures LastMark(taken) != "" ==> Watermark(t, w) == LastMark(taken)
  {
    var flow := taken + rest;
    LastMarkAt(taken);
    if LastMark(taken) != "" {
      var p, q :| 0 <= p < q < |taken| && Marks(taken[p]) && taken[p].signature == LastMark(taken) && Blank(taken[q]);
      assert Marks(flow[p]) && Blank(flow[q]);
      assert Rank(h, flow[p].signature) == Reached(t, w, h);
      assert MsgOk(t, w, h, flow[p]);
    }
    SuffixKeeps(t, t, w, h, taken, rest);
  }

  lemma MarkerKeeps(t: Tables, w: nat, h: seq<string>, taken: seq<Msg>, rest: seq<Msg>)
    requires Injective(t.signature) && WalletInv(t, w, h, taken + rest) && AllLinked(t, w, taken)
    requires LastSignature(taken) != ""
    ensures var sig, t' := LastSignature(taken), MarkTables(t, w, LastSignature(taken));
            && sig in t.signature && Watermark(t', w) == sig == LastMark(taken)
            && WalletInv(t', w, h, rest) && Reached(t, w, h) <= Reached(t', w, h)
  {
    var sig, t', flow := LastSignature(taken), MarkTables(t, w, LastSignature(taken)), taken + rest;
    LastMarkAt(taken);
    var p :| 0 <= p < |taken| && Marks(taken[p]) && taken[p].signature == sig
      && forall q :: p < q < |taken| ==> !Marks(taken[q]);
    assert flow[p] == taken[p] && MsgOk(t, w, h, flow[p]);
    var n := Rank(h, sig);
    forall j | 0 <= j < n
      ensures Linked(t, w, h[j])
    {
      assert Handled(t, w, flow, p, h[j]);
      assert forall i :: 0 <= i < p ==> flow[i] == taken[i];
    }
    assert Linked(t, w, h[n - 1]) && h[n - 1] == sig;
    WatermarkIs(t', w, sig);
    forall q | |taken| <= q < |flow| && Marks(flow[q])
      ensures n <= Rank(h, flow[q].signature)
    {
      assert Marks(flow[p]) && Marks(flow[q]);
    }
    SuffixKeeps(t, t', w, h, taken, rest);
  }

  /** Dropping a linked prefix of the flow while the watermark moves up to at most the next marker. */
  lemma SuffixKeeps(t: Tables, t': Tables, w: nat, h: seq<string>, taken: seq<Msg>, rest: seq<Msg>)
    requires WalletInv(t, w, h, taken + rest) && AllLinked(t, w, taken)
    requires t'.signature == t.signature && t'.links == t.links
    requires RowOk(t', w, h) && WatermarkSafe(t', w, h) && Reached(t, w, h) <= Reached(t', w, h)
    requires forall q :: |taken| <= q < |taken + rest| && Marks((taken + rest)[q]) ==>
               Reached(t', w, h) <= Rank(h, (taken + rest)[q].signature)
    ensures WalletInv(t', w, h, rest)
  {
    var flow := taken + rest;
    assert forall i :: 0 <= i < |rest| ==> rest[i] == flow[|taken| + i];
    forall p | 0 <= p < |rest|
      ensures MsgOk(t', w, h, rest[p])
      ensures Marks(rest[p]) ==> HandledUpTo(t', w, h, rest, p, Rank(h, rest[p].signature))
      ensures Marks(rest[p]) ==> Reached(t', w, h) <= Rank(h, rest[p].signature)
    {
      assert MsgOk(t, w, h, flow[|taken| + p]);
      if rest[p].Saved? {
        var x :| x in h && HasId(t, x, rest[p].signatureId);
        assert HasId(t', x, rest[p].signatureId);
      }
      if Marks(rest[p]) {
        assert HandledUpTo(t, w, h, flow, |taken| + p, Rank(h, rest[p].signature));
        forall j | 0 <= j < Rank(h, rest[p].signature)
          ensures Handled(t', w, rest, p, h[j])
        {
          HandledSuffix(t, t', w, taken, rest, p, h[j]);
        }
      }
    }
    forall p, q | 0 <= p < q < |rest| && Marks(rest[p]) && rest[q].Last?
      ensures Marks(rest[q]) ==> Rank(h, rest[p].signature) <= Rank(h, rest[q].signature)
      ensures Blank(rest[q]) ==> Rank(h, rest[p].signature) <= Reached(t', w, h)
    {
      assert Marks(flow[|taken| + p]);
      assert flow[|taken| + q] == rest[q];
    }
  }

  lemma HandledSuffix(t: Tables, t': Tables, w: nat, taken: seq<Msg>, rest: seq<Msg>, n: nat, x: string)
    requires n <= |rest| && AllLinked(t, w, taken)
    requires t'.signature == t.signature && t'.links == t.links
    ensures Handled(t, w, taken + rest, |taken| + n, x) <==> Handled(t', w, rest, n, x)
  {
    var flow := taken + rest;
    if Handled(t, w, flow, |taken| + n, x) && !Linked(t, w, x) {
      assert forall i :: 0 <= i < |taken| ==> flow[i] == taken[i];
      var i :| |taken| <= i < |taken| + n && Covers(t, flow[i], x);
      assert Covers(t', rest[i - |taken|], x);
    }
    if Handled(t', w, rest, n, x) && !Linked(t', w, x) {
      var i :| 0 <= i < n && Covers(t', rest[i], x);
      assert Covers(t, flow[|taken| + i], x);
    }
  }
}
