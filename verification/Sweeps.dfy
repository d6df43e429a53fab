/** Reconnect sweeps from their first to their last turn (application.cpp: resendAllPendingDownstreamMessages,
    resendPendingUpstreamMessages): when they erase from the map they iterate over, and all that they do when not. */
module Sweeps {
  import opened Core
  import opened MessageManager
  import opened Delivery
  import opened Durability
  import opened Structure
  import opened Handlers
  import opened Reach

  // ---------------------------------------------------------------- one turn, on a manager

  /** The next retry exceeds the message's cap. */
  predicate Spent(m: Msg) { m.maxRetry != -1 && m.nRetry + 1 > m.maxRetry }

  /** The sweep over the queue of `k` looks at message q. */
  predicate Visits(m: Mgr, k: Key, q: SeqId) {
    q in m.messages && (m.messages[q].kind == Downstream) == k.Fcm?
  }

  predicate TurnSends(m: Mgr, k: Key, q: SeqId) {
    Visits(m, k, q) && CanSendOnReconnect(m, m.messages[q]) == Sendable
  }

  /** A BAL sweep counts a message that it sends while NEW. */
  predicate TurnCounts(m: Mgr, k: Key, q: SeqId) {
    k.Bal? && TurnSends(m, k, q) && m.messages[q].state != PendingAck
  }

  /** At the limit a message is put off, */
  predicate TurnPutsOff(m: Mgr, k: Key, q: SeqId) {
    Visits(m, k, q) && CanSendOnReconnect(m, m.messages[q]) == TooManyPending
  }

  /** or erased from the map under the sweep when it is out of retries. */
  predicate TurnErases(m: Mgr, k: Key, q: SeqId) {
    TurnPutsOff(m, k, q) && Spent(m.messages[q])
  }

  function TurnMgr(m: Mgr, k: Key, q: SeqId): Mgr {
    if !Visits(m, k, q) then m
    else
      var msg := m.messages[q];
      match CanSendOnReconnect(m, msg)
      case Sendable => if k.Bal? && msg.state != PendingAck then CountUp(m) else m
      case TooManyPending =>
        var p := Put(m, Retried(msg));
        if Spent(msg) then Remove(p, q).0 else p
      case BadState => if k.Bal? then Remove(m, q).0 else m
      case _ => m
  }

  function SweptMgr(m: Mgr, k: Key, rest: set<SeqId>): Mgr
    decreases rest
  {
    if rest == {} then m else SweptMgr(TurnMgr(m, k, Least(rest)), k, rest - {Least(rest)})
  }

  /** What a sweep sends, in order. */
  function SweptSends(m: Mgr, k: Key, rest: set<SeqId>): seq<SeqId>
    decreases rest
  {
    if rest == {} then []
    else
      (if TurnSends(m, k, Least(rest)) then [Least(rest)] else [])
      + SweptSends(TurnMgr(m, k, Least(rest)), k, rest - {Least(rest)})
  }

  // ---------------------------------------------------------------- what sweeps need of a manager

  ghost predicate Sane(m: Mgr) {
    Valid(m) && forall q :: q in m.messages ==> Unfinished(m.messages[q].state)
  }

  /** q heads its group when the messages in `gone` are left out. */
  ghost predicate HeadWithout(m: Mgr, gone: set<SeqId>, q: SeqId)
    requires q in m.messages
  {
    m.messages[q].group != "" ==>
      forall p :: p in m.messages && p !in gone && m.messages[p].group == m.messages[q].group ==> q <= p
  }

  lemma SendableIsHead(m: Mgr, q: SeqId)
    requires Sane(m) && q in m.messages
    ensures CanSendOnReconnect(m, m.messages[q]) ==
      if AtLimit(m) then TooManyPending else if HeadWithout(m, {}, q) then Sendable else BehindInGroup
  {
    GroupRuleIsHead(m, q);
    LookupsSucceed(m, q);
  }

  /** n is m except for retry counts and the pending counter. */
  ghost predicate SameShape(m: Mgr, n: Mgr) {
    && n.messages.Keys == m.messages.Keys && n.groups == m.groups && n.index == m.index
    && forall q :: q in m.messages ==> n.messages[q] == m.messages[q].(nRetry := n.messages[q].nRetry)
  }

  lemma ShapeKeepsSane(m: Mgr, n: Mgr)
    requires Sane(m) && SameShape(m, n)
    ensures Sane(n)
  {
    forall g, q | g in n.groups && q in n.groups[g] ensures InGroup(n, g, q) {
      assert InGroup(m, g, q);
    }
    forall q | q in n.messages ensures n.messages[q] == m.messages[q].(nRetry := n.messages[q].nRetry) { }
  }

  lemma PutShape(m: Mgr, q: SeqId)
    requires Valid(m) && q in m.messages
    ensures SameShape(m, Put(m, Retried(m.messages[q]))) && Put(m, Retried(m.messages[q])).pending == m.pending
  {
  }

  // ---------------------------------------------------------------- a sweep on a manager

  /** Visited, and first in its group. */
  predicate TakesPart(m: Mgr, k: Key, q: SeqId) {
    Visits(m, k, q) && GroupRule(m, m.messages[q]) == Sendable
  }

  /** Messages of `rest` before q that a sweep counts, as long as the limit lets it. */
  function CountedBefore(m: Mgr, k: Key, rest: set<SeqId>, q: SeqId): set<SeqId> {
    if k.Fcm? then {} else set p | p in rest && p < q && TakesPart(m, k, p) && m.messages[p].state == New
  }

  /** The sweep comes to q when the counter, with what it has counted itself, is at the limit. */
  predicate Late(m: Mgr, k: Key, rest: set<SeqId>, q: SeqId) {
    Visits(m, k, q) && m.pending + |CountedBefore(m, k, rest, q)| >= MAX_PENDING_MESSAGES
  }

  predicate GoesOut(m: Mgr, k: Key, rest: set<SeqId>, q: SeqId) {
    TakesPart(m, k, q) && !Late(m, k, rest, q)
  }

  /** Some message out of retries is met at the limit. */
  ghost predicate Erasing(m: Mgr, k: Key, rest: set<SeqId>) {
    exists q :: q in rest && Late(m, k, rest, q) && Spent(m.messages[q])
  }

  /** Messages that the sweep counts, and those that it puts off. */
  function Counted(m: Mgr, k: Key, rest: set<SeqId>): set<SeqId> {
    if k.Fcm? then {} else set q | q in rest && GoesOut(m, k, rest, q) && m.messages[q].state == New
  }

  function PutOffs(m: Mgr, k: Key, rest: set<SeqId>): set<SeqId> {
    set q | q in rest && Late(m, k, rest, q)
  }

  ghost predicate Ascending(s: seq<SeqId>) { forall i, j :: 0 <= i < j < |s| ==> s[i] < s[j] }

  lemma SendsWhen(m: Mgr, k: Key, q: SeqId)
    requires Sane(m) && q in m.messages
    ensures TurnSends(m, k, q) <==> TakesPart(m, k, q) && !AtLimit(m)
    ensures TurnPutsOff(m, k, q) <==> Visits(m, k, q) && AtLimit(m)
    ensures TurnCounts(m, k, q) <==> k.Bal? && TakesPart(m, k, q) && !AtLimit(m) && m.messages[q].state == New
  {
    SendableIsHead(m, q);
    GroupRuleIsHead(m, q);
    assert Unfinished(m.messages[q].state);
    hide CanSendOnReconnect, GroupRule, Sane, HeadWithout;
  }

  lemma TurnShape(m: Mgr, k: Key, q: SeqId)
    requires Sane(m) && q in m.messages && !TurnErases(m, k, q)
    ensures var n := TurnMgr(m, k, q);
      && SameShape(m, n) && Sane(n)
      && n.pending == m.pending + (if TurnCounts(m, k, q) then 1 else 0)
      && n.messages[q] == (if TurnPutsOff(m, k, q) then Retried(m.messages[q]) else m.messages[q])
      && forall p :: p != q && p in m.messages ==> n.messages[p] == m.messages[p]
  {
    SendableIsHead(m, q);
    PutShape(m, q);
    hide CanSendOnReconnect, GroupRule, Remove, HeadWithout;
    ShapeKeepsSane(m, TurnMgr(m, k, q));
  }

  /** An erasing turn takes its message out. */
  lemma TurnLoses(m: Mgr, k: Key, q: SeqId)
    requires Sane(m) && TurnErases(m, k, q)
    ensures Sane(TurnMgr(m, k, q)) && TurnMgr(m, k, q).messages.Keys == m.messages.Keys - {q}
  {
    PutShape(m, q);
    var p := Put(m, Retried(m.messages[q]));
    ShapeKeepsSane(m, p);
    RemoveKeepsValid(p, q);
  }

  lemma TurnKeys(m: Mgr, k: Key, q: SeqId)
    requires Sane(m) && q in m.messages
    ensures Sane(TurnMgr(m, k, q))
    ensures m.messages.Keys - {q} <= TurnMgr(m, k, q).messages.Keys <= m.messages.Keys
  {
    hide TurnMgr, TurnErases, Sane;
    if TurnErases(m, k, q) { TurnLoses(m, k, q); } else { TurnShape(m, k, q); }
  }

  lemma {:induction false} SweepOnlyLoses(m: Mgr, k: Key, rest: set<SeqId>)
    requires Sane(m) && rest <= m.messages.Keys
    ensures SweptMgr(m, k, rest).messages.Keys <= m.messages.Keys
    decreases |rest|
  {
    if rest != {} {
      TurnKeys(m, k, Least(rest));
      hide TurnMgr, Sane;
      SweepOnlyLoses(TurnMgr(m, k, Least(rest)), k, rest - {Least(rest)});
    }
  }

  lemma ShapeTakesPart(m: Mgr, n: Mgr, k: Key, q: SeqId)
    requires SameShape(m, n)
    ensures TakesPart(n, k, q) <==> TakesPart(m, k, q)
    ensures Visits(n, k, q) <==> Visits(m, k, q)
  {
  }

  lemma CountedSplit(m: Mgr, n: Mgr, k: Key, rest: set<SeqId>, q: SeqId)
    requires rest != {} && q in rest && q != Least(rest) && SameShape(m, n) && rest <= m.messages.Keys
    ensures var q0 := Least(rest);
      |CountedBefore(m, k, rest, q)| == |CountedBefore(n, k, rest - {q0}, q)|
        + (if k.Bal? && TakesPart(m, k, q0) && m.messages[q0].state == New then 1 else 0)
  {
    var q0 := Least(rest);
    var was, now := CountedBefore(m, k, rest, q), CountedBefore(n, k, rest - {q0}, q);
    forall p | p in rest ensures TakesPart(n, k, p) <==> TakesPart(m, k, p) { ShapeTakesPart(m, n, k, p); }
    hide TakesPart;
    if k.Bal? && TakesPart(m, k, q0) && m.messages[q0].state == New {
      assert was == now + {q0} && q0 !in now;
    } else {
      assert was == now;
    }
  }

  /** After a turn that erases nothing, later messages fare as they would have before it. */
  lemma LaterSame(m: Mgr, k: Key, rest: set<SeqId>, q: SeqId)
    requires Sane(m) && rest != {} && rest <= m.messages.Keys && q in rest && q != Least(rest)
    requires !TurnErases(m, k, Least(rest))
    ensures var n, less := TurnMgr(m, k, Least(rest)), rest - {Least(rest)};
      && (Late(n, k, less, q) <==> Late(m, k, rest, q)) && (GoesOut(n, k, less, q) <==> GoesOut(m, k, rest, q))
      && q in n.messages && n.messages[q] == m.messages[q]
  {
    var q0, n := Least(rest), TurnMgr(m, k, Least(rest));
    TurnShape(m, k, q0);
    SendsWhen(m, k, q0);
    CountedSplit(m, n, k, rest, q);
    ShapeTakesPart(m, n, k, q);
    hide TurnMgr, TurnSends, TurnCounts, TurnErases, TurnPutsOff, Sane, SameShape, CountedBefore, TakesPart, Visits;
  }

  lemma FirstNow(m: Mgr, k: Key, rest: set<SeqId>)
    requires Sane(m) && rest != {} && rest <= m.messages.Keys
    ensures var q := Least(rest);
      && (Late(m, k, rest, q) <==> TurnPutsOff(m, k, q)) && (GoesOut(m, k, rest, q) <==> TurnSends(m, k, q))
      && (TurnCounts(m, k, q) <==> k.Bal? && GoesOut(m, k, rest, q) && m.messages[q].state == New)
  {
    var q := Least(rest);
    SendsWhen(m, k, q);
    assert CountedBefore(m, k, rest, q) == {};
    hide TurnSends, TurnCounts, TurnPutsOff, Sane, TakesPart;
  }

  lemma ErasesNowOrLater(m: Mgr, k: Key, rest: set<SeqId>)
    requires Sane(m) && rest != {} && rest <= m.messages.Keys
    ensures TurnErases(m, k, Least(rest)) ==> Erasing(m, k, rest)
    ensures !TurnErases(m, k, Least(rest)) ==>
      (Erasing(m, k, rest) <==> Erasing(TurnMgr(m, k, Least(rest)), k, rest - {Least(rest)}))
  {
    var q0 := Least(rest);
    var n, less := TurnMgr(m, k, q0), rest - {q0};
    FirstNow(m, k, rest);
    hide TurnMgr, Late, TurnPutsOff, Sane, GoesOut;
    if TurnErases(m, k, q0) {
      assert Late(m, k, rest, q0);
    } else {
      forall q | q in less
        ensures Late(n, k, less, q) <==> Late(m, k, rest, q)
        ensures q in n.messages && n.messages[q] == m.messages[q]
      {
        LaterSame(m, k, rest, q);
      }
      assert Late(m, k, rest, q0) ==> !Spent(m.messages[q0]);
      if Erasing(m, k, rest) {
        var q :| q in rest && Late(m, k, rest, q) && Spent(m.messages[q]);
        assert q in less && Late(n, k, less, q);
      }
    }
  }

  /** A sweep that meets a message out of retries at the limit erases from its map. */
  lemma {:induction false} ErasingLoses(m: Mgr, k: Key, rest: set<SeqId>)
    requires Sane(m) && rest <= m.messages.Keys && Erasing(m, k, rest)
    ensures SweptMgr(m, k, rest).messages.Keys != m.messages.Keys
    decreases |rest|
  {
    var q0 := Least(rest);
    var n, less := TurnMgr(m, k, q0), rest - {q0};
    ErasesNowOrLater(m, k, rest);
    TurnKeys(m, k, q0);
    hide TurnMgr, Sane, Erasing, TurnErases;
    if TurnErases(m, k, q0) {
      TurnLoses(m, k, q0);
      SweepOnlyLoses(n, k, less);
      assert q0 in m.messages.Keys && q0 !in SweptMgr(n, k, less).messages.Keys;
    } else {
      TurnShape(m, k, q0);
      ErasingLoses(n, k, less);
    }
  }

  /** Sends are in ascending order, and of messages that were there. */
  lemma {:induction false} SweptRange(m: Mgr, k: Key, rest: set<SeqId>)
    ensures Ascending(SweptSends(m, k, rest)) && forall q :: q in SweptSends(m, k, rest) ==> q in rest
    decreases |rest|
  {
    if rest != {} {
      var q0 := Least(rest);
      hide TurnMgr, TurnSends;
      SweptRange(TurnMgr(m, k, q0), k, rest - {q0});
      var t := SweptSends(TurnMgr(m, k, q0), k, rest - {q0});
      forall i | 0 <= i < |t| ensures q0 < t[i] { assert t[i] in t; }
    }
  }

  /** Otherwise a message goes out exactly when it takes part and is not late. */
  lemma {:induction false} CalmSends(m: Mgr, k: Key, rest: set<SeqId>)
    requires Sane(m) && rest <= m.messages.Keys && !Erasing(m, k, rest)
    ensures forall q :: q in rest ==> (q in SweptSends(m, k, rest) <==> GoesOut(m, k, rest, q))
    decreases |rest|
  {
    if rest != {} {
      var q0 := Least(rest);
      var n, less := TurnMgr(m, k, q0), rest - {q0};
      ErasesNowOrLater(m, k, rest);
      TurnShape(m, k, q0);
      FirstNow(m, k, rest);
      SweptRange(n, k, less);
      assert n.messages.Keys == m.messages.Keys;
      hide TurnMgr, TurnSends, Sane, GoesOut, Late, Erasing, Ascending, TurnErases, SameShape;
      CalmSends(n, k, less);
      forall q | q in rest ensures q in SweptSends(m, k, rest) <==> GoesOut(m, k, rest, q) {
        if q != q0 { LaterSame(m, k, rest, q); }
      }
    }
  }

  lemma InCounted(m: Mgr, k: Key, rest: set<SeqId>, q: SeqId)
    requires rest <= m.messages.Keys
    ensures q in Counted(m, k, rest) <==>
      k.Bal? && q in rest && GoesOut(m, k, rest, q) && q in m.messages && m.messages[q].state == New
    ensures q in PutOffs(m, k, rest) <==> q in rest && Late(m, k, rest, q)
  {
    hide GoesOut, Late;
  }

  function Only(q: SeqId, b: bool): set<SeqId> { if b then {q} else {} }

  /** The next message is counted or put off now, the rest later. */
  lemma CountedNowOrLater(m: Mgr, k: Key, rest: set<SeqId>)
    requires Sane(m) && rest != {} && rest <= m.messages.Keys && !TurnErases(m, k, Least(rest))
    ensures var q := Least(rest); var n, less := TurnMgr(m, k, q), rest - {q};
      && Counted(m, k, rest) == Only(q, TurnCounts(m, k, q)) + Counted(n, k, less)
      && PutOffs(m, k, rest) == Only(q, TurnPutsOff(m, k, q)) + PutOffs(n, k, less)
      && q !in Counted(n, k, less) && q !in PutOffs(n, k, less)
  {
    var q0 := Least(rest);
    var n, less := TurnMgr(m, k, q0), rest - {q0};
    FirstNow(m, k, rest);
    TurnKeys(m, k, q0);
    hide TurnMgr, TurnSends, TurnCounts, TurnErases, TurnPutsOff, Sane, GoesOut, Late, Counted, PutOffs;
    forall q
      ensures q in Counted(m, k, rest) <==> (q == q0 && TurnCounts(m, k, q0)) || q in Counted(n, k, less)
      ensures q in PutOffs(m, k, rest) <==> (q == q0 && TurnPutsOff(m, k, q0)) || q in PutOffs(n, k, less)
      ensures q == q0 ==> q !in Counted(n, k, less) && q !in PutOffs(n, k, less)
    {
      InCounted(m, k, rest, q);
      InCounted(n, k, less, q);
      if q in less { LaterSame(m, k, rest, q); }
    }
  }

  /** n is what a sweep that counts a and puts off b makes of m. */
  ghost predicate Outcome(m: Mgr, n: Mgr, a: set<SeqId>, b: set<SeqId>) {
    && n.messages.Keys == m.messages.Keys && n.groups == m.groups && n.index == m.index
    && n.pending == m.pending + |a|
    && forall q :: q in m.messages ==> n.messages[q] == if q in b then Retried(m.messages[q]) else m.messages[q]
  }

  lemma OutcomeTrans(m: Mgr, n: Mgr, r: Mgr, a: set<SeqId>, b: set<SeqId>, c: set<SeqId>, d: set<SeqId>)
    requires Outcome(m, n, a, b) && Outcome(n, r, c, d) && a !! c && b !! d
    ensures Outcome(m, r, a + c, b + d)
  {
  }

  lemma TurnOutcomeIs(m: Mgr, k: Key, q: SeqId)
    requires Sane(m) && q in m.messages && !TurnErases(m, k, q)
    ensures Outcome(m, TurnMgr(m, k, q), Only(q, TurnCounts(m, k, q)), Only(q, TurnPutsOff(m, k, q)))
  {
    TurnShape(m, k, q);
    hide TurnMgr, TurnCounts, TurnErases, TurnPutsOff, Sane;
  }

  /** Every message stays and is visited once; those put off have one retry more, and the counter has gone up by
      those counted. */
  lemma {:induction false} CalmSweep(m: Mgr, k: Key, rest: set<SeqId>)
    requires Sane(m) && rest <= m.messages.Keys && !Erasing(m, k, rest)
    ensures Outcome(m, SweptMgr(m, k, rest), Counted(m, k, rest), PutOffs(m, k, rest))
    decreases |rest|
  {
    if rest == {} {
      assert Counted(m, k, rest) == {} && PutOffs(m, k, rest) == {};
    } else {
      hide TurnMgr, TurnCounts, Sane, Erasing, TurnErases, TurnPutsOff, Counted, PutOffs, Outcome, SweptMgr;
      var q0 := Least(rest);
      var n, less := TurnMgr(m, k, q0), rest - {q0};
      ErasesNowOrLater(m, k, rest);
      TurnKeys(m, k, q0);
      CalmSweep(n, k, less);
      OutcomeJoined(m, k, rest);
    }
  }

  lemma OutcomeJoined(m: Mgr, k: Key, rest: set<SeqId>)
    requires Sane(m) && rest != {} && rest <= m.messages.Keys && !TurnErases(m, k, Least(rest))
    requires var n, less := TurnMgr(m, k, Least(rest)), rest - {Least(rest)};
      Outcome(n, SweptMgr(n, k, less), Counted(n, k, less), PutOffs(n, k, less))
    ensures Outcome(m, SweptMgr(m, k, rest), Counted(m, k, rest), PutOffs(m, k, rest))
  {
    hide TurnMgr, TurnCounts, Sane, TurnErases, TurnPutsOff, Counted, PutOffs, Outcome;
    var q0 := Least(rest);
    var n, less := TurnMgr(m, k, q0), rest - {q0};
    TurnOutcomeIs(m, k, q0);
    CountedNowOrLater(m, k, rest);
    var a, b := Only(q0, TurnCounts(m, k, q0)), Only(q0, TurnPutsOff(m, k, q0));
    OutcomeTrans(m, n, SweptMgr(n, k, less), a, b, Counted(n, k, less), PutOffs(n, k, less));
  }

  // ---------------------------------------------------------------- a turn, statement by statement

  function Marked(rows: map<SeqId, Row>, qs: set<SeqId>): map<SeqId, Row> {
    map q | q in rows :: if q in qs then rows[q].(state := PendingAck) else rows[q]
  }

  function Timers(k: Key, qs: set<SeqId>): multiset<Timer> { multiset(set q | q in qs :: Timer(k, q)) }

  lemma MarkedOne(s: State, q: SeqId)
    ensures SetRow(s, q, PendingAck).rows == Marked(s.rows, {q}) && s.rows == Marked(s.rows, {})
  {
  }

  lemma TimersOne(k: Key, q: SeqId)
    ensures Timers(k, {q}) == multiset{Timer(k, q)} && Timers(k, {}) == multiset{}
  {
    assert (set p | p in {q} :: Timer(k, p)) == {Timer(k, q)};
  }

  lemma MarkedTwice(rows: map<SeqId, Row>, a: set<SeqId>, b: set<SeqId>)
    ensures Marked(Marked(rows, a), b) == Marked(rows, a + b)
  {
  }

  lemma TimersSplit(k: Key, a: set<SeqId>, b: set<SeqId>)
    requires a !! b
    ensures Timers(k, a + b) == Timers(k, a) + Timers(k, b)
  {
    var x, y := set q | q in a :: Timer(k, q), set q | q in b :: Timer(k, q);
    assert (set q | q in a + b :: Timer(k, q)) == x + y;
  }

  /** Counter, reports, acks and history are the same. */
  ghost predicate Elsewhere(s: State, t: State) {
    && t.ctr == s.ctr && t.epoch == s.epoch && t.acked == s.acked
    && t.notices == s.notices && t.interrupted == s.interrupted
  }

  /** The table and the timers after a turn that erases nothing. */
  ghost predicate CalmTurn(s: State, t: State)
    requires s.loop.Sweeping? && s.loop.rest != {} && Has(s, s.loop.k)
  {
    var k, q := s.loop.k, Least(s.loop.rest);
    && t.rows == Marked(s.rows, Only(q, TurnCounts(MgrAt(s, k), k, q)))
    && t.timers == s.timers + Timers(k, Only(q, TurnPutsOff(MgrAt(s, k), k, q)))
    && Elsewhere(s, t)
  }

  /** t continues the sweep of s with one message less to visit. */
  ghost predicate Turned(s: State, t: State)
    requires s.loop.Sweeping? && s.loop.rest != {} && Has(s, s.loop.k)
  {
    var k, q := s.loop.k, Least(s.loop.rest);
    var m := MgrAt(s, k);
    && t.pc == Idle && t.loop == Sweeping(k, s.loop.rest - {q})
    && Base(t) && (Steady(s) ==> Steady(t)) && Drain(t) == Drain(s)
    && t.sent == (if TurnSends(m, k, q) then s.sent + [Sent(k, q)] else s.sent)
    && Has(t, k) && MgrAt(t, k) == TurnMgr(m, k, q)
    && t.bals.Keys == s.bals.Keys
    && (forall j :: j != k && Has(s, j) ==> MgrAt(t, j) == MgrAt(s, j))
    && (!TurnErases(m, k, q) ==> CalmTurn(s, t))
  }

  /** A sweep between two turns. Only an erasing one needs more than what every run keeps. */
  ghost predicate Sweepable(s: State) {
    && Base(s) && s.pc == Idle && s.loop.Sweeping? && Has(s, s.loop.k)
    && s.loop.rest <= MgrAt(s, s.loop.k).messages.Keys
    && (Erasing(MgrAt(s, s.loop.k), s.loop.k, s.loop.rest) ==> Steady(s))
  }

  lemma BaseSane(s: State, k: Key)
    requires Base(s) && Has(s, k)
    ensures Sane(MgrAt(s, k))
  {
    BaseMgr(s, k);
  }

  lemma Onwards(s: State)
    requires Base(s) && !Boundary(s) && !s.pc.AddNew?
    ensures Base(Exec(s)) && (Steady(s) ==> Steady(Exec(s))) && Drain(Exec(s)) == Drain(s)
  {
    Ran(s, Exec(s));
    hide Exec, Base, Steady, Drain;
    ExecBase(s);
    if Steady(s) { ExecKeepsBoth(s); }
  }

  /** The state right after a turn: what a turn does before its own statements run. */
  lemma TurnOutcome(s: State)
    requires Sweepable(s) && s.loop.rest != {}
    ensures var k, q, t := s.loop.k, Least(s.loop.rest), SweepTurn(s);
      var u := s.(loop := Sweeping(k, s.loop.rest - {q}));
      var m := MgrAt(s, k);
      && q in m.messages
      && t == (if !Visits(m, k, q) then u
            else match CanSendOnReconnect(m, m.messages[q])
              case Sendable =>
                if k.Fcm? then Emitted(u, k, q)
                else if m.messages[q].state != PendingAck then u.(pc := ResendRow(k, q))
                else u.(pc := Emit(k, q))
              case TooManyPending => Retry(u, k, m.messages[q])
              case _ => u)
      && CanSendOnReconnect(m, m.messages[q]) in {Sendable, TooManyPending, BehindInGroup}
  {
    BaseSane(s, s.loop.k);
    hide Base, Steady;
    var k, q := s.loop.k, Least(s.loop.rest);
    assert q in s.loop.rest;
    SendableIsHead(MgrAt(s, k), q);
    hide CanSendOnReconnect, Retry, Sane, Erasing;
  }

  lemma StartTurn(s: State)
    requires Sweepable(s)
    ensures var t := SweepTurn(s); Base(t) && (Steady(s) ==> Steady(t)) && Drain(t) == Drain(s)
  {
    assert Exec(s) == SweepTurn(s);
    hide Exec, Steady, Drain, SweepTurn, Base, Erasing;
    Onwards(s);
  }

  /** ResendRow, ResendCount and Emit. */
  lemma BalCountRuns(u: State) returns (t: State)
    requires Base(u) && u.pc.ResendRow? && Has(u, u.pc.k)
    ensures t == WithMgr(u, u.pc.k, CountUp(MgrAt(u, u.pc.k))).(
      rows := Marked(u.rows, {u.pc.q}), sent := u.sent + [Sent(u.pc.k, u.pc.q)], pc := Idle)
    ensures Base(t) && (Steady(u) ==> Steady(t)) && Drain(t) == Drain(u)
  {
    MarkedOne(u, u.pc.q);
    var v := SetRow(u, u.pc.q, PendingAck).(pc := ResendCount(u.pc.k, u.pc.q));
    assert Exec(u) == v;
    var w := WithMgr(v, u.pc.k, CountUp(MgrAt(v, u.pc.k))).(pc := Emit(u.pc.k, u.pc.q));
    assert Exec(v) == w;
    hide Exec, Steady, Drain, CountUp, Base;
    Onwards(u);
    Onwards(v);
    t := BalEmitRuns(w);
  }

  lemma BalEmitRuns(u: State) returns (t: State)
    requires Base(u) && u.pc.Emit?
    ensures t == u.(sent := u.sent + [Sent(u.pc.k, u.pc.q)], pc := Idle)
    ensures Base(t) && (Steady(u) ==> Steady(t)) && Drain(t) == Drain(u)
  {
    t := u.(sent := u.sent + [Sent(u.pc.k, u.pc.q)], pc := Idle);
    assert Exec(u) == t;
    hide Exec, Steady, Drain, Base;
    Onwards(u);
  }

  /** The four statements of giving a message up. */
  lemma GiveUpRuns(u: State) returns (t: State)
    requires Steady(u) && u.pc.FinishRow? && u.pc.how == GaveUp && Has(u, u.pc.k)
    ensures t.pc == Idle && t.loop == u.loop && t.sent == u.sent && Steady(t) && Drain(t) == Drain(u)
    ensures Has(t, u.pc.k) && MgrAt(t, u.pc.k) == Remove(MgrAt(u, u.pc.k), u.pc.m.id).0
    ensures t.bals.Keys == u.bals.Keys && forall j :: j != u.pc.k && Has(u, j) ==> MgrAt(t, j) == MgrAt(u, j)
  {
    var k, m := u.pc.k, u.pc.m;
    var a := SetRow(u, m.id, u.pc.st).(pc := Drop(k, m, GaveUp));
    assert Exec(u) == a;
    ExecKeepsBoth(u);
    var b := Exec(a);
    ExecKeepsBoth(a);
    DropRemoves(a);
    hide Remove, NoticeMsg;
    if k.Bal? {
      t := b;
    } else {
      t := NoticeRuns(b);
    }
  }

  lemma NoticeRuns(b: State) returns (t: State)
    requires Steady(b) && b.pc.Notice? && b.pc.how == GaveUp
    ensures t.pc == Idle && t.loop == b.loop && t.sent == b.sent && t.fcm == b.fcm && t.bals == b.bals
    ensures Steady(t) && Drain(t) == Drain(b)
  {
    var c, d := Exec(b), Exec(Exec(b));
    ExecKeepsBoth(b);
    ExecKeepsBoth(c);
    assert c.pc.SaveReject? && c.pc.n.id !in c.rows;
    t := d;
  }

  /** The turn is over. */
  lemma TurnDone(s: State, t: State)
    requires Sweepable(s) && s.loop.rest != {} && Base(t) && (Steady(s) ==> Steady(t)) && Drain(t) == Drain(s)
    requires t.pc == Idle && t.loop == Sweeping(s.loop.k, s.loop.rest - {Least(s.loop.rest)}) && Has(t, s.loop.k)
    requires t.bals.Keys == s.bals.Keys && forall j :: j != s.loop.k && Has(s, j) ==> MgrAt(t, j) == MgrAt(s, j)
    requires var m, k, q := MgrAt(s, s.loop.k), s.loop.k, Least(s.loop.rest);
      && MgrAt(t, k) == TurnMgr(m, k, q)
      && t.sent == (if TurnSends(m, k, q) then s.sent + [Sent(k, q)] else s.sent)
      && (!TurnErases(m, k, q) ==> CalmTurn(s, t))
    ensures Turned(s, t)
  {
    hide Base, Steady, Drain, TurnMgr, TurnSends, TurnErases, CalmTurn, Erasing;
  }

  /** What a turn does to its manager, to the sends and to the timers, by the verdict on its message. */
  lemma TurnByVerdict(m: Mgr, k: Key, q: SeqId)
    requires q in m.messages && CanSendOnReconnect(m, m.messages[q]) in {Sendable, TooManyPending, BehindInGroup}
    ensures var v, msg := if Visits(m, k, q) then CanSendOnReconnect(m, m.messages[q])
      else BehindInGroup, m.messages[q];
      && (TurnSends(m, k, q) <==> v == Sendable) && (TurnPutsOff(m, k, q) <==> v == TooManyPending)
      && (TurnCounts(m, k, q) <==> v == Sendable && k.Bal? && msg.state != PendingAck)
      && (TurnErases(m, k, q) <==> v == TooManyPending && Spent(msg))
      && TurnMgr(m, k, q) == match v
        case Sendable => if k.Bal? && msg.state != PendingAck then CountUp(m) else m
        case TooManyPending => if Spent(msg) then Remove(Put(m, Retried(msg)), q).0 else Put(m, Retried(msg))
        case _ => m
  {
    hide CanSendOnReconnect, Remove, Put, CountUp, Spent;
  }

  lemma TurnSendsBal(s: State) returns (t: State)
    requires Sweepable(s) && s.loop.rest != {} && s.loop.k.Bal?
    requires TurnSends(MgrAt(s, s.loop.k), s.loop.k, Least(s.loop.rest))
    ensures Turned(s, t)
  {
    hide SweepTurn, Steady, Drain, CanSendOnReconnect, Remove, CountUp, Retry, Base, Marked, Timers, Erasing, Turned;
    hide TurnMgr, TurnSends, TurnCounts, TurnPutsOff, TurnErases, Put, Spent;
    TurnOutcome(s);
    StartTurn(s);
    var k, q, u := s.loop.k, Least(s.loop.rest), SweepTurn(s);
    var m := MgrAt(s, k);
    TurnByVerdict(m, k, q);
    TimersOne(k, q);
    MarkedOne(s, q);
    if m.messages[q].state != PendingAck {
      t := BalCountRuns(u);
    } else {
      t := BalEmitRuns(u);
    }
    TurnDone(s, t);
  }

  lemma RetryGivesUp(u: State, k: Key, msg: Msg)
    requires Has(u, k) && u.pc == Idle && Spent(msg)
    ensures Retry(u, k, msg) ==
      WithMgr(u, k, Put(MgrAt(u, k), Retried(msg))).(pc := FinishRow(k, Retried(msg), DeliveryFailed, GaveUp))
  {
  }

  lemma TurnGivesUp(s: State) returns (t: State)
    requires Sweepable(s) && s.loop.rest != {} && TurnErases(MgrAt(s, s.loop.k), s.loop.k, Least(s.loop.rest))
    requires Steady(s)
    ensures Turned(s, t)
  {
    hide SweepTurn, Steady, Drain, CanSendOnReconnect, Remove, Put, Retry, Spent, CalmTurn, Erasing, Base, Turned;
    hide TurnMgr, TurnSends, TurnCounts, TurnPutsOff, TurnErases, CountUp;
    TurnOutcome(s);
    StartTurn(s);
    var k, q := s.loop.k, Least(s.loop.rest);
    var m := MgrAt(s, k);
    TurnByVerdict(m, k, q);
    LiveId(s, k, q);
    var v := s.(loop := Sweeping(k, s.loop.rest - {q}));
    RetryGivesUp(v, k, m.messages[q]);
    var u := SweepTurn(s);
    t := GiveUpRuns(u);
    SteadyBase(t);
    forall j | j != k && Has(s, j) ensures MgrAt(t, j) == MgrAt(s, j) {
      assert Has(u, j) && MgrAt(u, j) == MgrAt(v, j);
    }
    TurnDone(s, t);
  }

  lemma LiveId(s: State, k: Key, q: SeqId)
    requires Base(s) && Has(s, k) && q in MgrAt(s, k).messages
    ensures MgrAt(s, k).messages[q].id == q
  {
    BaseMgr(s, k);
  }

  lemma SteadyBase(s: State)
    requires Steady(s)
    ensures Base(s)
  {
  }

  lemma TurnQuiet(s: State) returns (t: State)
    requires Sweepable(s) && s.loop.rest != {}
    requires var m, k, q := MgrAt(s, s.loop.k), s.loop.k, Least(s.loop.rest);
      !TurnErases(m, k, q) && !(TurnSends(m, k, q) && k.Bal?)
    ensures t == SweepTurn(s) && Turned(s, t)
  {
    hide SweepTurn, Steady, Drain, CanSendOnReconnect, Remove, Put, Base, Erasing, Marked, Timers, Turned, CountUp;
    hide TurnMgr, TurnSends, TurnCounts, TurnPutsOff, TurnErases;
    TurnOutcome(s);
    StartTurn(s);
    t := SweepTurn(s);
    var k, q := s.loop.k, Least(s.loop.rest);
    LiveId(s, k, q);
    TurnByVerdict(MgrAt(s, k), k, q);
    TimersOne(k, q);
    MarkedOne(s, q);
    TurnDone(s, t);
  }

  /** Every turn, run to its end, is the turn on the manager. */
  lemma TurnRuns(s: State) returns (t: State)
    requires Sweepable(s) && s.loop.rest != {}
    ensures Turned(s, t)
  {
    var m, k, q := MgrAt(s, s.loop.k), s.loop.k, Least(s.loop.rest);
    BaseSane(s, k);
    ErasesNowOrLater(m, k, s.loop.rest);
    hide Steady, Turned, Base, Erasing, TurnErases, TurnSends, Sane;
    if TurnErases(m, k, q) {
      t := TurnGivesUp(s);
    } else if TurnSends(m, k, q) && k.Bal? {
      t := TurnSendsBal(s);
    } else {
      t := TurnQuiet(s);
    }
  }

  // ---------------------------------------------------------------- a sweep, statement by statement

  function Sends(k: Key, qs: seq<SeqId>): seq<Send> { seq(|qs|, i requires 0 <= i < |qs| => Sent(k, qs[i])) }

  lemma SendsSplit(k: Key, a: seq<SeqId>, b: seq<SeqId>)
    ensures Sends(k, a + b) == Sends(k, a) + Sends(k, b)
  {
  }

  ghost predicate CalmSwept(s: State, t: State)
    requires s.loop.Sweeping? && Has(s, s.loop.k)
  {
    var k, rest := s.loop.k, s.loop.rest;
    && t.rows == Marked(s.rows, Counted(MgrAt(s, k), k, rest))
    && t.timers == s.timers + Timers(k, PutOffs(MgrAt(s, k), k, rest))
    && Elsewhere(s, t)
  }

  /** What a sweep leaves: sends, its own manager, and nothing else in memory; table and timers if it erases nothing. */
  ghost predicate Swept(s: State, t: State)
    requires s.loop.Sweeping? && Has(s, s.loop.k)
  {
    var k, rest := s.loop.k, s.loop.rest;
    && t.sent == s.sent + Sends(k, SweptSends(MgrAt(s, k), k, rest))
    && Has(t, k) && MgrAt(t, k) == SweptMgr(MgrAt(s, k), k, rest)
    && t.bals.Keys == s.bals.Keys
    && (forall j :: j != k && Has(s, j) ==> MgrAt(t, j) == MgrAt(s, j))
    && (!Erasing(MgrAt(s, k), k, rest) ==> CalmSwept(s, t))
  }

  /** A sweep run to its end is the sweep on the manager. */
  lemma {:induction false} SweepRuns(s: State)
    requires Sweepable(s)
    ensures Swept(s, Drain(s))
    decreases |s.loop.rest|
  {
    if s.loop.rest == {} {
      StartTurn(s);
      SweepEnds(s);
      hide Steady, Drain, SweepTurn, Base, Sweepable;
      assert Sends(s.loop.k, []) == [];
      NothingSwept(s);
    } else {
      var t := TurnRuns(s);
      StillSweepable(s, t);
      hide Drain, Turned, Swept, Sweepable;
      SweepRuns(t);
      Compose(s, t, Drain(s));
    }
  }

  lemma NothingSwept(s: State)
    requires s.loop.Sweeping? && Has(s, s.loop.k) && s.loop.rest == {}
    ensures CalmSwept(s, s.(loop := NoLoop))
  {
    var k, m := s.loop.k, MgrAt(s, s.loop.k);
    assert Counted(m, k, {}) == {} && PutOffs(m, k, {}) == {};
    MarkedOne(s, 0);
    TimersOne(k, 0);
  }

  lemma StillSweepable(s: State, t: State)
    requires Sweepable(s) && s.loop.rest != {} && Turned(s, t)
    ensures Sweepable(t) && Drain(t) == Drain(s) && |t.loop.rest| < |s.loop.rest|
  {
    var m, k, q := MgrAt(s, s.loop.k), s.loop.k, Least(s.loop.rest);
    BaseSane(s, k);
    ErasesNowOrLater(m, k, s.loop.rest);
    TurnKeys(m, k, q);
    hide Steady, Drain, Base, Erasing, TurnErases, TurnSends, Sane, TurnMgr, CalmTurn;
    assert s.loop.rest - {q} < s.loop.rest;
  }

  /** A turn and the rest of the sweep. */
  lemma Compose(s: State, t: State, v: State)
    requires Sweepable(s) && s.loop.rest != {} && Turned(s, t) && Swept(t, v)
    ensures Swept(s, v)
  {
    hide Steady, Drain, TurnMgr, TurnSends, Base, TurnErases, CalmTurn, CalmSwept, Erasing;
    var k, q, rest := s.loop.k, Least(s.loop.rest), s.loop.rest;
    var m := MgrAt(s, k);
    var first, more := if TurnSends(m, k, q) then [q] else [], SweptSends(TurnMgr(m, k, q), k, rest - {q});
    SendsSplit(k, first, more);
    assert t.sent == s.sent + Sends(k, first);
    assert SweptSends(m, k, rest) == first + more;
    assert s.sent + (Sends(k, first) + Sends(k, more)) == s.sent + Sends(k, first) + Sends(k, more);
    forall j | j != k && Has(s, j) ensures MgrAt(v, j) == MgrAt(s, j) {
      assert Has(t, j);
    }
    BaseSane(s, k);
    ErasesNowOrLater(m, k, rest);
    if !Erasing(m, k, rest) { ComposeCalm(s, t, v); }
  }

  lemma ComposeCalm(s: State, t: State, v: State)
    requires Base(s) && s.loop.Sweeping? && Has(s, s.loop.k) && s.loop.rest <= MgrAt(s, s.loop.k).messages.Keys
    requires s.loop.rest != {} && !TurnErases(MgrAt(s, s.loop.k), s.loop.k, Least(s.loop.rest))
    requires t.loop == Sweeping(s.loop.k, s.loop.rest - {Least(s.loop.rest)}) && Has(t, s.loop.k)
    requires MgrAt(t, s.loop.k) == TurnMgr(MgrAt(s, s.loop.k), s.loop.k, Least(s.loop.rest))
    requires CalmTurn(s, t) && CalmSwept(t, v)
    ensures CalmSwept(s, v)
  {
    var k, q, rest := s.loop.k, Least(s.loop.rest), s.loop.rest;
    var m, n := MgrAt(s, k), MgrAt(t, k);
    BaseSane(s, k);
    CountedNowOrLater(m, k, rest);
    hide Base, TurnMgr, TurnErases, TurnCounts, TurnPutsOff, Sane, Counted, PutOffs, Marked, Timers;
    MarkedTwice(s.rows, Only(q, TurnCounts(m, k, q)), Counted(n, k, rest - {q}));
    TimersSplit(k, Only(q, TurnPutsOff(m, k, q)), PutOffs(n, k, rest - {q}));
  }

  lemma SweepEnds(s: State)
    requires s.pc == Idle && s.loop.Sweeping? && Has(s, s.loop.k) && s.loop.rest == {}
    ensures SweepTurn(s) == s.(loop := NoLoop) && Drain(SweepTurn(s)) == s.(loop := NoLoop)
  {
    NothingToRun(s.(loop := NoLoop));
  }

  // ---------------------------------------------------------------- whole sweeps

  /** The event that starts a sweep over the queue of `k`. */
  function Up(k: Key): Event { match k case Fcm => FcmUp case Bal(b) => BalUp(b) }

  lemma UpSweeps(s: State, k: Key)
    requires Base(s) && Boundary(s) && Has(s, k) && (Erasing(MgrAt(s, k), k, MgrAt(s, k).messages.Keys) ==> Steady(s))
    ensures var u := s.(loop := Sweeping(k, MgrAt(s, k).messages.Keys));
      Allowed(s, Up(k)) && Swept(u, Handled(s, Up(k)))
  {
    var u := s.(loop := Sweeping(k, MgrAt(s, k).messages.Keys));
    assert Allowed(s, Up(k)) && Begin(s, Up(k)) == u;
    hide Begin, Drain, Steady, Swept, Base, Erasing;
    BeginBase(s, Up(k));
    if Steady(s) { BeginSteady(s, Up(k)); }
    SweepRuns(u);
  }

  /** A sweep changes the keys of the map it iterates over if and only if it meets, at the limit, a message that is
      out of retries. For the C++ loops that is the erasure of the element under the iterator. */
  lemma SweepErasesExactly(s: State, k: Key)
    requires Steady(s) && Boundary(s) && Has(s, k)
    ensures Allowed(s, Up(k)) && Has(Handled(s, Up(k)), k)
    ensures MgrAt(Handled(s, Up(k)), k).messages.Keys != MgrAt(s, k).messages.Keys <==>
      Erasing(MgrAt(s, k), k, MgrAt(s, k).messages.Keys)
  {
    SteadyBase(s);
    var m := MgrAt(s, k);
    BaseSane(s, k);
    hide Steady, Base, Handled, Erasing, Sane;
    UpSweeps(s, k);
    if Erasing(m, k, m.messages.Keys) { ErasingLoses(m, k, m.messages.Keys); }
      else { CalmSweep(m, k, m.messages.Keys); }
  }

  ghost predicate NoneSpent(m: Mgr, k: Key) {
    forall q :: Visits(m, k, q) ==> !Spent(m.messages[q])
  }

  /** For the FCM queue: the counter is at the limit and some downstream message is out of retries. */
  lemma FcmErasing(m: Mgr)
    ensures Erasing(m, Fcm, m.messages.Keys) <==> AtLimit(m) && !NoneSpent(m, Fcm)
  {
    var keys := m.messages.Keys;
    forall q ensures q in keys && Late(m, Fcm, keys, q) <==> Visits(m, Fcm, q) && AtLimit(m) {
      assert CountedBefore(m, Fcm, keys, q) == {};
    }
    hide Late;
    if AtLimit(m) && !NoneSpent(m, Fcm) {
      var q :| Visits(m, Fcm, q) && Spent(m.messages[q]);
      assert Late(m, Fcm, keys, q);
    }
  }

  /** Every sweep that erases nothing: each message is kept and visited once. It is sent, in ascending order, if it
      heads its group and comes before the sweep's own counting reaches the limit; a NEW one is counted and its row
      marked, though not the message; one that comes later has one retry more and a timer. */
  lemma SweepExactly(s: State, k: Key)
    requires Base(s) && Boundary(s) && Has(s, k) && !Erasing(MgrAt(s, k), k, MgrAt(s, k).messages.Keys)
    ensures Allowed(s, Up(k)) && Has(Handled(s, Up(k)), k)
    ensures var t, m := Handled(s, Up(k)), MgrAt(s, k); var n, keys := MgrAt(t, k), m.messages.Keys;
      var qs := SweptSends(m, k, keys);
      && Outcome(m, n, Counted(m, k, keys), PutOffs(m, k, keys))
      && t.rows == Marked(s.rows, Counted(m, k, keys)) && t.timers == s.timers + Timers(k, PutOffs(m, k, keys))
      && Elsewhere(s, t)
      && t.sent == s.sent + Sends(k, qs) && Ascending(qs)
      && forall q :: q in qs <==>
        && q in m.messages && (m.messages[q].kind == Downstream) == k.Fcm? && HeadWithout(m, {}, q)
        && m.pending + |CountedBefore(m, k, keys, q)| < MAX_PENDING_MESSAGES
    ensures forall j :: j != k && Has(s, j) ==>
      Has(Handled(s, Up(k)), j) && MgrAt(Handled(s, Up(k)), j) == MgrAt(s, j)
  {
    var m, keys := MgrAt(s, k), MgrAt(s, k).messages.Keys;
    BaseSane(s, k);
    hide Base, Handled, Erasing;
    UpSweeps(s, k);
    SweptRange(m, k, keys);
    CalmSweep(m, k, keys);
    CalmSends(m, k, keys);
    forall q | q in keys
      ensures TakesPart(m, k, q) <==> (m.messages[q].kind == Downstream) == k.Fcm? && HeadWithout(m, {}, q)
    {
      GroupRuleIsHead(m, q);
    }
    hide Sane, SweptSends, SweptMgr, Ascending, TakesPart, CountedBefore;
    hide Outcome, Counted, PutOffs, Marked, Timers, HeadWithout;
  }

  function PutOff(msg: Msg, full: bool): Msg { if full && msg.kind == Downstream then Retried(msg) else msg }

  /** For the FCM queue: exactly what canSendMessageOnReconnect lets through is sent, and at the limit every
      downstream message has one retry more instead. */
  lemma FcmSweepExactly(s: State)
    requires Base(s) && Boundary(s) && (AtLimit(s.fcm) ==> NoneSpent(s.fcm, Fcm))
    ensures var t, m := Handled(s, FcmUp), s.fcm; var qs := SweptSends(m, Fcm, m.messages.Keys);
      && t.fcm.messages.Keys == m.messages.Keys && t.fcm.pending == m.pending && t.rows == s.rows
      && (forall q :: q in m.messages ==> t.fcm.messages[q] == PutOff(m.messages[q], AtLimit(m)))
      && t.sent == s.sent + Sends(Fcm, qs) && Ascending(qs)
      && forall q :: q in qs <==>
        q in m.messages && m.messages[q].kind == Downstream && !AtLimit(m) && HeadOfGroup(m, q)
  {
    var m, keys := s.fcm, s.fcm.messages.Keys;
    FcmErasing(m);
    assert Has(s, Fcm) && MgrAt(s, Fcm) == m;
    hide Base, Handled, Erasing, NoneSpent;
    SweepExactly(s, Fcm);
    MarkedOne(s, 0);
    forall q | q in keys ensures q in PutOffs(m, Fcm, keys) <==> m.messages[q].kind == Downstream && AtLimit(m) {
      assert CountedBefore(m, Fcm, keys, q) == {};
    }
    forall q | q in keys ensures CountedBefore(m, Fcm, keys, q) == {} && (HeadWithout(m, {}, q) <==>
      HeadOfGroup(m, q)) { }
    assert Counted(m, Fcm, keys) == {};
    hide SweptSends, Ascending, PutOffs, Counted, CountedBefore, Marked, Timers, HeadWithout, HeadOfGroup, Sends;
  }
}
