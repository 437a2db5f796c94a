/**
 * When an empty marker comes after a non-empty one of the same wallet that is still to be applied, so
 * that a batch may hold both: exactly when a sync starts while the non-empty one is pending although
 * the watermark is up to date.
 */
module Masking {
  import opened Common
  import opened Ledger
  import opened MsgQueue
  import opened Pipeline
  import opened WalletInvariant
  import opened ProducerInvariant
  import opened Safety
  import opened Theorems
  import opened Convergence
  import opened Recovery

  ghost predicate HasMark(ms: seq<Msg>) {
    exists p :: 0 <= p < |ms| && Marks(ms[p])
  }

  ghost predicate HasBlank(ms: seq<Msg>) {
    exists q :: 0 <= q < |ms| && Blank(ms[q])
  }

  /** A non-empty marker with an empty one after it. */
  ghost predicate MaskedIn(ms: seq<Msg>) {
    exists p, q :: 0 <= p < q < |ms| && Marks(ms[p]) && Blank(ms[q])
  }

  lemma MarksConcat(a: seq<Msg>, b: seq<Msg>)
    ensures HasMark(a + b) <==> HasMark(a) || HasMark(b)
    ensures MaskedIn(a + b) <==> MaskedIn(a) || MaskedIn(b) || (HasMark(a) && HasBlank(b))
  {
    hide HasMark, HasBlank, MaskedIn;
    HasMarkConcat(a, b);
    if MaskedIn(a) || MaskedIn(b) || (HasMark(a) && HasBlank(b)) {
      MaskedConcat(a, b);
    }
    if MaskedIn(a + b) {
      MaskedSplit(a, b);
    }
  }

  lemma HasMarkConcat(a: seq<Msg>, b: seq<Msg>)
    ensures HasMark(a + b) <==> HasMark(a) || HasMark(b)
  {
    var c := a + b;
    assert forall i :: 0 <= i < |a| ==> c[i] == a[i];
    assert forall i :: 0 <= i < |b| ==> c[|a| + i] == b[i];
    if HasMark(c) {
      var p :| 0 <= p < |c| && Marks(c[p]);
      assert p < |a| ==> Marks(a[p]);
      assert |a| <= p ==> Marks(b[p - |a|]);
    }
  }

  lemma MaskedConcat(a: seq<Msg>, b: seq<Msg>)
    requires MaskedIn(a) || MaskedIn(b) || (HasMark(a) && HasBlank(b))
    ensures MaskedIn(a + b)
  {
    var c := a + b;
    if MaskedIn(a) {
      var p, q :| 0 <= p < q < |a| && Marks(a[p]) && Blank(a[q]);
      assert Marks(c[p]) && Blank(c[q]);
    } else if MaskedIn(b) {
      var p, q :| 0 <= p < q < |b| && Marks(b[p]) && Blank(b[q]);
      assert Marks(c[|a| + p]) && Blank(c[|a| + q]);
    } else {
      var p :| 0 <= p < |a| && Marks(a[p]);
      var q :| 0 <= q < |b| && Blank(b[q]);
      assert Marks(c[p]) && Blank(c[|a| + q]);
    }
  }

  lemma MaskedSplit(a: seq<Msg>, b: seq<Msg>)
    requires MaskedIn(a + b)
    ensures MaskedIn(a) || MaskedIn(b) || (HasMark(a) && HasBlank(b))
  {
    var c := a + b;
    var p, q :| 0 <= p < q < |c| && Marks(c[p]) && Blank(c[q]);
    if |a| <= p {
      assert Marks(b[p - |a|]) && Blank(b[q - |a|]);
    } else if |a| <= q {
      assert Marks(a[p]) && Blank(b[q - |a|]);
    } else {
      assert Marks(a[p]) && Blank(a[q]);
    }
  }

  // ---- one step ----

  /** An empty marker of `w` is sent while a non-empty one is still to be applied. */
  ghost predicate SendsMask(s: State, e: Event, w: nat) {
    e.SendMarker? && s.producer.Finishing? && s.producer.wallet == w && s.producer.newLast == "" && HasMark(Flow(s, w))
  }

  /** What a step other than the marker sends holds no marker. */
  lemma SentMarkers(s: State, e: Event, w: nat)
    requires Enabled(s, e)
    ensures var sent := Of(Sent(s, e), w);
            && (HasMark(sent) <==> e.SendMarker? && s.producer.wallet == w && s.producer.newLast != "")
            && (HasBlank(sent) <==> e.SendMarker? && s.producer.wallet == w && s.producer.newLast == "")
            && !MaskedIn(sent)
  {
    OfMembers(Sent(s, e), w);
    if e.SendMarker? {
      var m := Last(s.producer.wallet, s.producer.newLast);
      OfOwn([m], m.wallet, w);
      assert m.wallet == w ==> Of(Sent(s, e), w)[0] == m;
    }
    assert forall i :: 0 <= i < |Of(Sent(s, e), w)| ==> Of(Sent(s, e), w)[i] in Sent(s, e);
  }

  /** A step makes a masked marker exactly when it sends an empty one over a pending one. */
  lemma MaskStep(s: State, e: Event, w: nat)
    requires Inv(s) && Enabled(s, e) && !MaskedIn(Flow(s, w))
    ensures MaskedIn(Flow(Apply(s, e), w)) <==> SendsMask(s, e, w)
    ensures HasMark(Flow(Apply(s, e), w)) ==> HasMark(Flow(s, w)) || (e.SendMarker? && s.producer.wallet == w && s.producer.newLast != "")
  {
    hide Inv, Apply, Of, MaskedIn, HasMark, HasBlank, Flow;
    if e.Restart? {
      RestartFlow(s, w);
    } else {
      var sent, done, after := Of(Sent(s, e), w), Of(Done(s, e), w), Flow(Apply(s, e), w);
      StepFifo(s, e, w);
      SentMarkers(s, e, w);
      MarksConcat(Flow(s, w), sent);
      MarksConcat(done, after);
      if e.SendMarker? {
        assert done == [] by { OfMembers([], w); }
        assert after == done + after;
      }
    }
  }

  lemma RestartFlow(s: State, w: nat)
    ensures Flow(Apply(s, Restart), w) == [] && !MaskedIn([]) && !HasMark([])
  {
  }

  // ---- runs ----

  /** Some state of the run has a masked marker of `w`. */
  ghost predicate MaskedAlong(s: State, es: seq<Event>, w: nat)
    requires Legal(s, es)
    decreases |es|
  {
    MaskedIn(Flow(s, w)) || (es != [] && MaskedAlong(Apply(s, es[0]), es[1..], w))
  }

  ghost predicate MaskSent(s: State, es: seq<Event>, w: nat)
    requires Legal(s, es)
    decreases |es|
  {
    es != [] && (SendsMask(s, es[0], w) || MaskSent(Apply(s, es[0]), es[1..], w))
  }

  /** A run meets a masked marker exactly when it sends an empty one over a pending one. */
  lemma {:induction false} MaskedAlongIff(s: State, es: seq<Event>, w: nat)
    requires Inv(s) && Legal(s, es) && !MaskedIn(Flow(s, w))
    ensures MaskedAlong(s, es, w) <==> MaskSent(s, es, w)
    decreases |es|
  {
    hide Inv, Apply, Enabled, Flow, MaskedIn, SendsMask;
    if es != [] {
      var s' := Apply(s, es[0]);
      StepInv(s, es[0]);
      MaskStep(s, es[0], w);
      if MaskedIn(Flow(s', w)) {
        assert MaskedAlong(s', es[1..], w);
      } else {
        MaskedAlongIff(s', es[1..], w);
      }
    }
  }

  /** A non-empty marker is pending, yet the watermark is the newest signature of the history. */
  ghost predicate MayMask(s: State, w: nat)
    requires w in s.chain && w in s.t.wallet
  {
    HasMark(Flow(s, w)) && Reached(s.t, w, s.chain[w]) == |s.chain[w]|
  }

  /** No sync of `w` starts in such a state. */
  ghost predicate StartsClean(s: State, es: seq<Event>, w: nat)
    requires Legal(s, es)
    decreases |es|
  {
    es != [] ==>
      && (es[0] == Start(w) && w in s.chain && w in s.t.wallet ==> !MayMask(s, w))
      && StartsClean(Apply(s, es[0]), es[1..], w)
  }

  /** A sync of `w` that has found nothing yet will find something, or no non-empty marker of `w` is pending. */
  ghost predicate SyncClean(s: State, w: nat) {
    var p := s.producer;
    !p.Idle? && p.wallet == w && p.newLast == "" ==>
      !HasMark(Flow(s, w)) || (p.Fetching? && w in s.chain && Rank(s.chain[w], p.until) < |s.chain[w]|)
  }

  lemma CleanStep(s: State, e: Event, w: nat)
    requires Inv(s) && Enabled(s, e) && !MaskedIn(Flow(s, w)) && SyncClean(s, w) && w in s.chain && w in s.t.wallet
    requires e == Start(w) ==> !MayMask(s, w)
    ensures w in Apply(s, e).chain && w in Apply(s, e).t.wallet
    ensures !MaskedIn(Flow(Apply(s, e), w)) && SyncClean(Apply(s, e), w)
  {
    MaskStep(s, e, w);
    SyncCleanStep(s, e, w);
  }

  lemma SyncCleanStep(s: State, e: Event, w: nat)
    requires Inv(s) && Enabled(s, e) && SyncClean(s, w) && w in s.chain && w in s.t.wallet
    requires e == Start(w) ==> !MayMask(s, w)
    requires HasMark(Flow(Apply(s, e), w)) ==> HasMark(Flow(s, w)) || (e.SendMarker? && s.producer.wallet == w && s.producer.newLast != "")
    ensures SyncClean(Apply(s, e), w) && w in Apply(s, e).chain && w in Apply(s, e).t.wallet
  {
    hide ProducerInv, WalletsInv, ConsumerInv, Flow, MaskedIn, HasMark, Of, Rank, Taken, Rest, Watermark;
    var p := s.producer;
    if e.Grow? && e.wallet == w && p.Fetching? && p.wallet == w {
      ProducerStrings(s.t, s.chain[w], Flow(s, w), p);
      RankExtend(s.chain[w], e.signature, p.until);
    }
    if e.Fetch? && p.wallet == w && Page(s.chain[w], p.until) != [] {
      PageContents(s.chain[w], p.until);
    }
  }

  /** Then no state of the run has a masked marker of `w`. */
  lemma {:induction false} CleanRun(s: State, es: seq<Event>, w: nat)
    requires Inv(s) && Legal(s, es) && StartsClean(s, es, w)
    requires w in s.chain && w in s.t.wallet && !MaskedIn(Flow(s, w)) && SyncClean(s, w)
    ensures !MaskedAlong(s, es, w) && !MaskedIn(Flow(Run(s, es), w))
    decreases |es|
  {
    hide Inv, Apply, Enabled, Flow, MaskedIn, SyncClean, MayMask;
    if es != [] {
      StepInv(s, es[0]);
      CleanStep(s, es[0], w);
      CleanRun(Apply(s, es[0]), es[1..], w);
    }
  }

  /**
   * In a program run that never loads a request of a wallet whose watermark is up to date while a marker
   * of it is pending, no batch of the wallet holds an empty marker after a non-empty one, and every
   * update applies its last non-empty marker.
   */
  lemma CleanBatches(init: State, es: seq<Event>, w: nat)
    requires Init(init) && Legal(init, es) && StartsClean(init, es, w) && w in init.chain
    requires Enabled(Run(init, es), Mark) && Run(init, es).consumer.taken[0].wallet == w
    ensures var taken := Run(init, es).consumer.taken;
            !MaskedIn(taken) && LastSignature(taken) == LastMark(taken)
  {
    hide Inv, Init, StartsClean, SyncClean, Flow, MaskedIn, MaskedAlong, LastMark, LastSignature, Legal, Run;
    InitInv(init);
    InitClean(init, w);
    CleanRun(init, es, w);
    UnmaskedBatch(Run(init, es), w);
  }

  lemma UnmaskedBatch(s: State, w: nat)
    requires !MaskedIn(Flow(s, w)) && !s.consumer.Free? && s.consumer.taken != [] && s.consumer.taken[0].wallet == w
    ensures !MaskedIn(s.consumer.taken) && LastSignature(s.consumer.taken) == LastMark(s.consumer.taken)
  {
    MarksConcat(s.consumer.taken, Of(s.queue, w));
    LastMarkAt(s.consumer.taken);
  }

  lemma InitClean(init: State, w: nat)
    requires Init(init) && w in init.chain
    ensures w in init.t.wallet && Flow(init, w) == [] && !MaskedIn([]) && SyncClean(init, w)
  {
  }

  /**
   * The guard is exact: from a state with an idle producer, a sync of `w` can leave a masked marker
   * before the next sync of `w` starts if and only if it starts in a state the guard rules out.
   */
  lemma SyncMasksIff(s: State, w: nat)
    requires Reachable(s) && s.producer.Idle? && w in s.chain && w in s.t.wallet && !MaskedIn(Flow(s, w))
    ensures (exists es :: Legal(s, es) && es != [] && es[0] == Start(w) && Start(w) !in es[1..] && MaskedAlong(s, es, w))
            <==> MayMask(s, w)
  {
    hide Reachable, Inv, MaskedIn, MayMask, Flow, Legal, Run, MaskedAlong, StartsClean;
    ReachableInv(s);
    if MayMask(s, w) {
      UpToDateSyncMasks(s, w);
      var es := [Start(w), Fetch, SendMarker];
      EndMasked(s, es, w);
      assert Legal(s, es) && es[0] == Start(w) && Start(w) !in es[1..] && MaskedAlong(s, es, w);
    } else {
      forall es | Legal(s, es) && es != [] && es[0] == Start(w) && Start(w) !in es[1..]
        ensures !MaskedAlong(s, es, w)
      {
        OneStartClean(s, es, w);
        CleanRun(s, es, w);
      }
    }
  }

  lemma OneStartClean(s: State, es: seq<Event>, w: nat)
    requires Legal(s, es) && es != [] && es[0] == Start(w) && Start(w) !in es[1..]
    requires w in s.chain && w in s.t.wallet && !MayMask(s, w)
    ensures StartsClean(s, es, w)
  {
    hide Apply, Enabled, MayMask;
    NoStartClean(Apply(s, es[0]), es[1..], w);
  }

  lemma {:induction false} NoStartClean(s: State, es: seq<Event>, w: nat)
    requires Legal(s, es) && Start(w) !in es
    ensures StartsClean(s, es, w)
    decreases |es|
  {
    hide Apply, Enabled;
    if es != [] {
      assert es[0] in es;
      NoStartClean(Apply(s, es[0]), es[1..], w);
    }
  }

  lemma {:induction false} EndMasked(s: State, es: seq<Event>, w: nat)
    requires Legal(s, es) && MaskedIn(Flow(Run(s, es), w))
    ensures MaskedAlong(s, es, w)
    decreases |es|
  {
    hide Apply, Enabled, Flow, MaskedIn;
    if es != [] {
      EndMasked(Apply(s, es[0]), es[1..], w);
    }
  }

  lemma UpToDateSyncMasks(s: State, w: nat)
    requires s.producer.Idle? && w in s.chain && w in s.t.wallet && MayMask(s, w)
    ensures var es := [Start(w), Fetch, SendMarker];
            Legal(s, es) && MaskedIn(Flow(Run(s, es), w))
  {
    hide MaskedIn, HasMark, Of, Watermark, Rank;
    var until, h := Watermark(s.t, w), s.chain[w];
    assert Page(h, until) == [];
    var s1 := s.(producer := Fetching(w, until, ""));
    var s2 := s.(producer := Finishing(w, until, ""));
    RunOne(s, Start(w));
    assert Apply(s, Start(w)) == s1 && Apply(s1, Fetch) == s2;
    ThenOne(s, [Start(w)], Fetch);
    assert [Start(w)] + [Fetch] == [Start(w), Fetch];
    ThenOne(s, [Start(w), Fetch], SendMarker);
    assert [Start(w), Fetch] + [SendMarker] == [Start(w), Fetch, SendMarker];
    BlankAppended(s2, w);
  }

  lemma BlankAppended(s: State, w: nat)
    requires s.producer.Finishing? && s.producer.wallet == w && s.producer.newLast == "" && w in s.chain
    requires HasMark(Flow(s, w))
    ensures MaskedIn(Flow(Apply(s, SendMarker), w))
  {
    var blank := [Last(w, "")];
    FlowAppend(s, Apply(s, SendMarker), blank, w, w);
    MarksConcat(Flow(s, w), blank);
    assert Blank(blank[0]);
  }
}
