/**
 * A call of `fetchAndParse` is a run of the step system: whatever histories its requests meet, some legal
 * run of the producer and of the environment sends the same messages, marker included.
 */
module Calls {
  import opened Common
  import opened Ledger
  import opened MsgQueue
  import opened Pipeline
  import opened Recovery
  import opened Rounds

  /** The histories the requests meet: each extends the one before. */
  ghost predicate Grows(h: seq<string>, hs: seq<seq<string>>, ledger: map<string, OnchainTx>) {
    forall k :: 0 <= k < |hs| ==>
      && (if k == 0 then h else hs[k - 1]) <= hs[k]
      && Distinct(hs[k]) && "" !in hs[k] && forall x :: x in hs[k] ==> x in ledger
  }

  /** Each answer is the page of the history its request met. */
  predicate Answered(answers: seq<seq<string>>, hs: seq<seq<string>>, until: string) {
    |hs| == |answers| && forall k :: 0 <= k < |hs| ==> answers[k] == Page(hs[k], until)
  }

  /** Nothing but the producer fetching and histories growing. */
  predicate Unmarked(es: seq<Event>) {
    Restart !in es && SendMarker !in es
  }

  lemma AnswersKnown(h: seq<string>, answers: seq<seq<string>>, hs: seq<seq<string>>, until: string, ledger: map<string, OnchainTx>)
    requires Grows(h, hs, ledger) && Answered(answers, hs, until)
    ensures AllIn(answers, ledger)
  {
    hide Page;
    forall k | 0 <= k < |answers|
      ensures forall x :: x in answers[k] ==> x in ledger
    {
      PageDistinct(hs[k], until);
    }
  }

  lemma {:induction false} GrowRun(s: State, w: nat, h: seq<string>) returns (es: seq<Event>)
    requires w in s.chain && s.chain[w] <= h && Distinct(h) && "" !in h && forall x :: x in h ==> x in s.ledger
    ensures Legal(s, es) && Unmarked(es) && Run(s, es) == s.(chain := s.chain[w := h])
    decreases |h|
  {
    hide Legal, Run;
    if |h| == |s.chain[w]| {
      es := [];
      RunNone(s);
      assert h == s.chain[w];
    } else {
      var n := |h| - 1;
      var front := GrowRun(s, w, h[..n]);
      assert h[n] in h && h[n] !in h[..n] && h == h[..n] + [h[n]];
      ThenOne(s, front, Grow(w, h[n]));
      es := front + [Grow(w, h[n])];
    }
  }

  /** One request whose answer is not empty, and the loop body over it. */
  lemma RequestRun(s: State, w: nat, h: seq<string>, order: seq<string>, parsed: string -> seq<AssociatedAccount>) returns (es: seq<Event>)
    requires s.producer.Fetching? && s.producer.wallet == w && w in s.chain && s.chain[w] <= h
    requires Distinct(h) && "" !in h && forall x :: x in h ==> x in s.ledger
    requires Page(h, s.producer.until) != [] && IsSavedQuery(s.t, Page(h, s.producer.until), order)
    ensures forall x :: x in Page(h, s.producer.until) ==> x in s.ledger
    ensures var p := s.producer;
            var page := Page(h, p.until);
            var newLast := if p.newLast == "" then page[0] else p.newLast;
            && Legal(s, es) && Unmarked(es)
            && Run(s, es) == s.(chain := s.chain[w := h],
                                queue := s.queue + PageMsgs(s.t, w, page, order, s.ledger, parsed),
                                producer := if |page| < 100 then Finishing(w, p.until, newLast) else Fetching(w, p.until, newLast))
  {
    hide Legal, Run, Page, IsSavedQuery, PageMsgs;
    var p, page := s.producer, Page(h, s.producer.until);
    PageDistinct(h, p.until);
    var front := GrowRun(s, w, h);
    var s1 := Run(s, front);
    ThenOne(s, front, Fetch);
    var newLast := if p.newLast == "" then page[0] else p.newLast;
    var s2 := s1.(producer := Reading(w, p.until, newLast, page));
    assert Apply(s1, Fetch) == s2;
    PageRuns(s2, order, parsed);
    var body := PageEvents(page, order, parsed);
    RunConcat(s, front + [Fetch], body);
    es := front + [Fetch] + body;
    assert Unmarked(body);
  }

  lemma FirstAnswer(h: seq<string>, answers: seq<seq<string>>, hs: seq<seq<string>>, until: string, ledger: map<string, OnchainTx>)
    requires Grows(h, hs, ledger) && Answered(answers, hs, until)
    ensures answers != [] && answers[0] != [] ==> answers[0][0] != ""
  {
    hide Page;
    if answers != [] && answers[0] != [] {
      PageDistinct(hs[0], until);
      assert answers[0][0] in answers[0];
    }
  }

  /** Full pages: the call goes on. */
  lemma {:induction false} FullRun(s: State, w: nat, hs: seq<seq<string>>, answers: seq<seq<string>>, orders: seq<seq<string>>, n: nat,
                                   parsed: string -> seq<AssociatedAccount>) returns (es: seq<Event>)
    requires s.producer.Fetching? && s.producer.wallet == w && s.producer.newLast == "" && w in s.chain
    requires Grows(s.chain[w], hs, s.ledger) && Answered(answers, hs, s.producer.until) && AllIn(answers, s.ledger)
    requires n <= |orders| && AreQueries(s.t, answers, orders)
    requires forall k :: 0 <= k < n ==> |answers[k]| >= 100
    ensures Legal(s, es) && Unmarked(es)
    ensures AreQueries(s.t, answers, orders[..n])
    ensures Run(s, es) == s.(chain := if n == 0 then s.chain else s.chain[w := hs[n - 1]],
                             queue := s.queue + PagesMsgs(s.t, w, answers, orders[..n], s.ledger, parsed),
                             producer := Fetching(w, s.producer.until, if n == 0 then "" else answers[0][0]))
    decreases n
  {
    hide Legal, Run, Page, IsSavedQuery, PageMsgs, PagesMsgs, Distinct, Grows, Answered, AllIn, AreQueries;
    if n == 0 {
      es := [];
      RunNone(s);
      NoPages(s.t, w, answers, s.ledger, parsed);
      assert orders[..0] == [];
    } else {
      var until, m := s.producer.until, n - 1;
      RequestAt(s.chain[w], answers, hs, until, s.ledger, s.t, orders, m);
      var front := FullRun(s, w, hs, answers, orders, m, parsed);
      var s1 := Run(s, front);
      var tail := RequestRun(s1, w, hs[m], orders[m], parsed);
      RunConcat(s, front, tail);
      es := front + tail;
      FirstAnswer(s.chain[w], answers, hs, until, s.ledger);
      assert s1.chain[w := hs[m]] == s.chain[w := hs[m]];
      assert orders[..n] == orders[..m] + [orders[m]];
      OneMorePage(s.t, w, answers, orders[..m], orders[m], s.ledger, parsed);
    }
  }

  /** What is known of request `m`. */
  lemma RequestAt(h: seq<string>, answers: seq<seq<string>>, hs: seq<seq<string>>, until: string, ledger: map<string, OnchainTx>,
                  t: Tables, orders: seq<seq<string>>, m: nat)
    requires Grows(h, hs, ledger) && Answered(answers, hs, until) && AreQueries(t, answers, orders) && m < |orders|
    ensures m < |hs| == |answers| && answers[m] == Page(hs[m], until) && IsSavedQuery(t, answers[m], orders[m])
    ensures (if m == 0 then h else hs[m - 1]) <= hs[m]
    ensures Distinct(hs[m]) && "" !in hs[m] && forall x :: x in hs[m] ==> x in ledger
  {
    hide Page, IsSavedQuery, Distinct;
  }

  /** The marker of a finished call. */
  function Marker(w: nat, answers: seq<seq<string>>): Msg
    requires answers != []
  {
    Last(w, if answers[0] == [] then "" else answers[0][0])
  }

  /** How far the last history has been seen, by the newest signature of the first answer. */
  function Seen(h: seq<string>, until: string, answers: seq<seq<string>>): nat
    requires answers != []
  {
    Rank(h, if answers[0] == [] then until else answers[0][0])
  }

  /**
   * A finished call. With what `FetchAndParse` ensures of its orders, some legal run that starts with the
   * first request and ends with sending the marker leads to the very queue the method leaves behind.
   */
  lemma CallRuns(s: State, w: nat, hs: seq<seq<string>>, answers: seq<seq<string>>, orders: seq<seq<string>>,
                 parsed: string -> seq<AssociatedAccount>) returns (es: seq<Event>)
    requires s.producer.Fetching? && s.producer.wallet == w && s.producer.newLast == "" && w in s.chain
    requires Grows(s.chain[w], hs, s.ledger) && Answered(answers, hs, s.producer.until) && AllIn(answers, s.ledger)
    requires AreQueries(s.t, answers, orders)
    requires var n := FullPages(answers);
             n < |answers| && |orders| == n + if answers[n] != [] then 1 else 0
    ensures es != [] && es[|es| - 1] == SendMarker && Unmarked(es[..|es| - 1])
    ensures Legal(s, es)
    ensures var h := hs[FullPages(answers)];
            Run(s, es) == s.(chain := s.chain[w := h],
                             queue := s.queue + PagesMsgs(s.t, w, answers, orders, s.ledger, parsed) + [Marker(w, answers)],
                             producer := Idle,
                             synced := s.synced[w := Seen(h, s.producer.until, answers)])
  {
    hide Legal, Run, Page, IsSavedQuery, PageMsgs, PagesMsgs, Distinct, FullPages, Grows, Rank, Answered, AllIn, AreQueries;
    var n, until := FullPages(answers), s.producer.until;
    HistoryAt(s.chain[w], answers, hs, until, s.ledger, n);
    var h := hs[n];
    FirstAnswer(s.chain[w], answers, hs, until, s.ledger);
    var front := FullRun(s, w, hs, answers, orders, n, parsed);
    var s1 := Run(s, front);
    var tail := LastRequest(s1, w, h, answers, orders, n, parsed);
    RunConcat(s, front, tail);
    var s2 := Run(s, front + tail);
    assert s1.chain[w := h] == s.chain[w := h];
    ThenOne(s, front + tail, SendMarker);
    es := front + tail + [SendMarker];
    assert es[..|es| - 1] == front + tail;
  }

  lemma HistoryAt(h: seq<string>, answers: seq<seq<string>>, hs: seq<seq<string>>, until: string, ledger: map<string, OnchainTx>, n: nat)
    requires Grows(h, hs, ledger) && Answered(answers, hs, until) && n < |answers|
    ensures |hs| == |answers| && answers[n] == Page(hs[n], until) && (if n == 0 then h else hs[n - 1]) <= hs[n]
    ensures Distinct(hs[n]) && "" !in hs[n] && forall x :: x in hs[n] ==> x in ledger
  {
    hide Page, Distinct;
  }

  /** The short answer, empty or not. */
  lemma LastRequest(s: State, w: nat, h: seq<string>, answers: seq<seq<string>>, orders: seq<seq<string>>, n: nat,
                    parsed: string -> seq<AssociatedAccount>) returns (es: seq<Event>)
    requires n < |answers| && |answers[n]| < 100 && w in s.chain && s.chain[w] <= h
    requires n > 0 ==> answers[0] != [] && answers[0][0] != ""
    requires s.producer.Fetching? && s.producer.wallet == w && s.producer.newLast == if n == 0 then "" else answers[0][0]
    requires Distinct(h) && "" !in h && forall x :: x in h ==> x in s.ledger
    requires answers[n] == Page(h, s.producer.until) && AllIn(answers, s.ledger)
    requires AreQueries(s.t, answers, orders) && |orders| == n + if answers[n] != [] then 1 else 0
    ensures AreQueries(s.t, answers, orders[..n])
    ensures Legal(s, es) && Unmarked(es)
    ensures var sent := if answers[n] == [] then [] else PageMsgs(s.t, w, answers[n], orders[n], s.ledger, parsed);
            && Run(s, es) == s.(chain := s.chain[w := h], queue := s.queue + sent,
                                producer := Finishing(w, s.producer.until, if answers[0] == [] then "" else answers[0][0]))
            && PagesMsgs(s.t, w, answers, orders, s.ledger, parsed)
               == PagesMsgs(s.t, w, answers, orders[..n], s.ledger, parsed) + sent
  {
    hide Legal, Run, Page, IsSavedQuery, PageMsgs, PagesMsgs, Distinct;
    if answers[n] == [] {
      var front := GrowRun(s, w, h);
      ThenOne(s, front, Fetch);
      es := front + [Fetch];
      assert orders[..n] == orders;
    } else {
      es := RequestRun(s, w, h, orders[n], parsed);
      assert orders == orders[..n] + [orders[n]];
      OneMorePage(s.t, w, answers, orders[..n], orders[n], s.ledger, parsed);
    }
  }
}
