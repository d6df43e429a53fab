/** The pending-ack counter of a BAL session. The sweep at a logon counts a NEW message, marks its row and leaves the
    message itself NEW (application.cpp: resendPendingUpstreamMessages), so the next logon counts it again and its ack
    takes nothing off the counter. */
module Recount {
  import opened Core
  import opened MessageManager
  import opened Delivery
  import opened Durability
  import opened Structure
  import opened FlowControl
  import opened Handlers
  import opened Reach
  import opened Sweeps

  // ---------------------------------------------------------------- the counter against the messages that await an ack

  function BeingCounted(pc: Pc, k: Key): nat { if pc.CountOne? && pc.k == k then 1 else 0 }

  /** The counter of `k` is ahead of the messages that await an ack by at most r. */
  ghost predicate AheadBy(s: State, k: Key, r: nat) {
    Has(s, k) ==> MgrAt(s, k).pending + BeingCounted(s.pc, k) <= |Awaiting(MgrAt(s, k))| + r
  }

  lemma RemoveAhead(m: Mgr, q: SeqId, r: nat)
    requires Valid(m) && m.pending <= |Awaiting(m)| + r
    ensures var n := Remove(m, q).0; n.pending <= |Awaiting(n)| + r
  {
    if q in m.messages {
      RemoveKeepsValid(m, q);
      var n := Remove(m, q).0;
      if m.messages[q].state == PendingAck {
        assert Awaiting(n) == Awaiting(m) - {q};
      } else {
        assert Awaiting(n) == Awaiting(m);
      }
    }
  }

  lemma SameAhead(s: State, t: State, k: Key, r: nat)
    requires AheadBy(s, k, r) && BeingCounted(t.pc, k) <= BeingCounted(s.pc, k)
    requires Has(t, k) ==> Has(s, k) && MgrAt(t, k) == MgrAt(s, k)
    ensures AheadBy(t, k, r)
  {
  }

  lemma RetryAhead(s: State, j: Key, q: SeqId, k: Key, r: nat)
    requires Base(s) && AheadBy(s, k, r) && s.pc == Idle && Has(s, j) && q in MgrAt(s, j).messages
    ensures AheadBy(Retry(s, j, MgrAt(s, j).messages[q]), k, r)
  {
    BaseMgr(s, j);
    hide Base;
    AwaitingAfterRetry(MgrAt(s, j), q, MgrAt(s, j).messages[q].nRetry + 1);
  }

  lemma RemovalAhead(s: State, t: State, j: Key, q: SeqId, k: Key, r: nat)
    requires Base(s) && AheadBy(s, k, r) && Has(s, j) && BeingCounted(s.pc, k) == 0 == BeingCounted(t.pc, k)
    requires var u := WithMgr(s, j, Remove(MgrAt(s, j), q).0); t.fcm == u.fcm && t.bals == u.bals
    ensures AheadBy(t, k, r)
  {
    BaseMgr(s, j);
    hide Base, Remove, Awaiting;
    if j == k {
      RemoveAhead(MgrAt(s, j), q, r);
    } else {
      SameAhead(s, t, k, r);
    }
  }

  lemma TurnAhead(s: State, k: Key, r: nat)
    requires Base(s) && AheadBy(s, k, r) && s.pc == Idle && s.loop.Sweeping? && Has(s, s.loop.k)
    ensures AheadBy(SweepTurn(s), k, r)
  {
    hide Base, CanSendOnReconnect, Retry, Remove, AheadBy, Awaiting;
    var j, t, m := s.loop.k, SweepTurn(s), MgrAt(s, s.loop.k);
    if s.loop.rest != {} && Visits(m, j, Least(s.loop.rest)) {
      var q := Least(s.loop.rest);
      var u := s.(loop := Sweeping(j, s.loop.rest - {q}));
      LoopBase(s, u.loop);
      SameAhead(s, u, k, r);
      var v := CanSendOnReconnect(m, m.messages[q]);
      if v == TooManyPending {
        RetryAhead(u, j, q, k, r);
      } else if v == BadState && j.Bal? {
        RemovalAhead(u, t, j, q, k, r);
      } else {
        SameAhead(u, t, k, r);
      }
    } else {
      SameAhead(s, t, k, r);
    }
  }

  lemma StoreAhead(s: State, k: Key, r: nat)
    requires Base(s) && MarksNew(s) && AheadBy(s, k, r) && !s.pc.Idle? && !EndsMessage(s.pc)
    ensures AheadBy(StoreAndSend(s), k, r + if s.pc.ResendCount? && s.pc.k == k then 1 else 0)
  {
    if TouchesManager(s.pc) && Has(s, s.pc.k) {
      BaseMgr(s, s.pc.k);
      var m := MgrAt(s, s.pc.k);
      if s.pc.AddNew? { AwaitingAfterAdd(m, s.pc.m); }
      if s.pc.MarkMem? && s.pc.q in m.messages { AwaitingAfterMark(m, s.pc.q); }
      if s.pc.CountOne? || s.pc.ResendCount? { assert Awaiting(CountUp(m)) == Awaiting(m); }
      hide Base, Add, Put, Awaiting;
    } else {
      hide Base, CanSend;
      SameAhead(s, StoreAndSend(s), k, r);
    }
  }

  lemma DropAhead(s: State, k: Key, r: nat)
    requires Base(s) && AheadBy(s, k, r) && s.pc.Drop?
    ensures AheadBy(EndAndNotify(s), k, r)
  {
    var j, f := s.pc.k, s.pc.m.fcmId;
    if Has(s, j) && (s.pc.how == ByBalAck || f in MgrAt(s, j).index) {
      var q := if s.pc.how == ByBalAck then s.pc.m.id else MgrAt(s, j).index[f];
      hide Base, Remove, AheadBy;
      RemovalAhead(s, EndAndNotify(s), j, q, k, r);
    } else {
      hide Base, Remove, AheadBy;
      SameAhead(s, EndAndNotify(s), k, r);
    }
  }

  lemma ExecAhead(s: State, k: Key, r: nat)
    requires Base(s) && MarksNew(s) && AheadBy(s, k, r) && !Boundary(s)
    ensures AheadBy(Exec(s), k, r + if s.pc.ResendCount? && s.pc.k == k then 1 else 0)
  {
    if EndsMessage(s.pc) && !s.pc.Drop? {
      hide StoreAndSend, SweepTurn, Next, NoticeMsg, Base;
      SameAhead(s, Exec(s), k, r);
    } else {
      hide StoreAndSend, EndAndNotify, SweepTurn, Base, MarksNew;
      if s.pc.Drop? { DropAhead(s, k, r); }
      else if !s.pc.Idle? { StoreAhead(s, k, r); }
      else if Has(s, s.loop.k) { TurnAhead(s, k, r); }
      else { SameAhead(s, Abort(s), k, r); }
    }
  }

  lemma BeginAhead(s: State, e: Event, k: Key, r: nat)
    requires Base(s) && AheadBy(s, k, r) && Boundary(s) && Allowed(s, e)
    ensures AheadBy(Begin(s, e), k, r)
  {
    BeginCases(s, e);
    hide Begin, FindByFcmId;
    if Retries(s, e) {
      BaseMgr(s, Fcm);
      FoundIn(s.fcm, e.fcmId);
      hide Base, AheadBy, Retry;
      RetryAhead(s, Fcm, s.fcm.index[e.fcmId], k, r);
    } else {
      hide Base;
      SameAhead(s, Begin(s, e), k, r);
    }
  }

  /** How often a sweep has counted a message of `k` since the last start. */
  function Recounts(ss: seq<State>, ls: seq<Label>, i: nat, k: Key): nat
    requires |ss| == |ls| + 1 && i <= |ls|
  {
    if i == 0 || ls[i - 1] == Crash then 0
    else Recounts(ss, ls, i - 1, k) + CountsNow(ss[i - 1], ls[i - 1], k)
  }

  function CountsNow(s: State, l: Label, k: Key): nat { if l == Run && s.pc.ResendCount? && s.pc.k == k then 1 else 0 }

  lemma StepAhead(s: State, l: Label, s': State, k: Key, r: nat)
    requires Base(s) && MarksNew(s) && AheadBy(s, k, r) && Step(s, l, s')
    ensures AheadBy(s', k, if l == Crash then 0 else r + CountsNow(s, l, k))
  {
    match l
    case Handle(e) => hide Begin, Base, AheadBy; BeginAhead(s, e, k, r);
    case Run => hide Exec, Base, AheadBy, MarksNew; ExecAhead(s, k, r);
    case DbFailure => SameAhead(s, s', k, r);
    case Crash => hide Base, MarksNew, LoadedFrom; StartedAhead(s', k);
  }

  lemma StartedAhead(s: State, k: Key)
    requires Started(s)
    ensures AheadBy(s, k, 0)
  {
    if Has(s, k) { assert LoadedFrom(s.rows, SessionOf(k), MgrAt(s, k)); }
  }

  lemma RunMarksNew(ss: seq<State>, ls: seq<Label>, i: nat)
    requires IsRun(ss, ls) && i < |ss|
    ensures MarksNew(ss[i])
  {
    RunFlow(ss, ls, i);
  }

  /** In every run the counter of a manager exceeds the messages that await an ack by no more than its sweeps have
      counted since the last start; so it is sound as long as no logon sweep has met a NEW message. */
  lemma {:induction false} CounterAheadByRecounts(ss: seq<State>, ls: seq<Label>, i: nat, k: Key)
    requires IsRun(ss, ls) && i <= |ls|
    ensures AheadBy(ss[i], k, Recounts(ss, ls, i, k))
  {
    hide Step, Base, Started, AheadBy, MarksNew;
    if i == 0 {
      StartedAhead(ss[0], k);
    } else {
      CounterAheadByRecounts(ss, ls, i - 1, k);
      RunBase(ss, ls, i - 1);
      RunMarksNew(ss, ls, i - 1);
      assert Step(ss[i - 1], ls[i - 1], ss[i]);
      StepAhead(ss[i - 1], ls[i - 1], ss[i], k, Recounts(ss, ls, i - 1, k));
    }
  }

  lemma OutcomeAwaiting(m: Mgr, n: Mgr, a: set<SeqId>, b: set<SeqId>)
    requires Outcome(m, n, a, b)
    ensures Awaiting(n) == Awaiting(m) && n.pending == m.pending + |a|
  {
    forall q ensures q in Awaiting(n) <==> q in Awaiting(m) {
      assert q in n.messages.Keys <==> q in m.messages.Keys;
    }
  }

  /** A whole logon: the counter goes up by the messages counted, and no message awaits an ack that did not before. */
  lemma LogonCounts(s: State, b: SessionId)
    requires Base(s) && Boundary(s) && b in s.bals && !Erasing(s.bals[b], Bal(b), s.bals[b].messages.Keys)
    ensures var t, m := Handled(s, BalUp(b)), s.bals[b];
      && b in t.bals && Awaiting(t.bals[b]) == Awaiting(m)
      && t.bals[b].pending == m.pending + |Counted(m, Bal(b), m.messages.Keys)|
  {
    assert Has(s, Bal(b)) && MgrAt(s, Bal(b)) == s.bals[b];
    hide Base, Handled, Erasing, Counted, PutOffs, Marked, Timers, SweptSends, Sends, Ascending, Outcome, Awaiting;
    hide HeadWithout, CountedBefore;
    SweepExactly(s, Bal(b));
    var t, m, keys := Handled(s, BalUp(b)), s.bals[b], s.bals[b].messages.Keys;
    assert Has(t, Bal(b)) && MgrAt(t, Bal(b)) == t.bals[b];
    OutcomeAwaiting(m, t.bals[b], Counted(m, Bal(b), keys), PutOffs(m, Bal(b), keys));
  }

  // ---------------------------------------------------------------- a counter at the limit over an empty queue

  const B: SessionId := "s"

  /** One NEW message, without group and retry cap. */
  ghost predicate OneNew(m: Mgr, n: nat) {
    && m.messages.Keys == {1} && m.groups == map[] && m.index == map["u" := 1] && m.pending == n
    && var msg := m.messages[1];
      msg.id == 1 && msg.fcmId == "u" && msg.state == New && msg.kind == Upstream && msg.group == ""
        && msg.maxRetry == -1
  }

  lemma OneNewCounts(m: Mgr, n: nat)
    requires OneNew(m, n) && n < MAX_PENDING_MESSAGES
    ensures !Erasing(m, Bal(B), {1}) && Counted(m, Bal(B), {1}) == {1} && PutOffs(m, Bal(B), {1}) == {}
  {
    assert CountedBefore(m, Bal(B), {1}, 1) == {};
    assert TakesPart(m, Bal(B), 1) && !Late(m, Bal(B), {1}, 1);
    assert GoesOut(m, Bal(B), {1}, 1);
  }

  lemma OneNewAfter(m: Mgr, t: Mgr, n: nat)
    requires OneNew(m, n) && Outcome(m, t, {1}, {})
    ensures OneNew(t, n + 1)
  {
  }

  /** One logon below the limit counts the message and leaves it NEW. */
  lemma OneLogon(s: State, n: nat)
    requires Base(s) && Boundary(s) && B in s.bals && OneNew(s.bals[B], n) && n < MAX_PENDING_MESSAGES
    ensures var t := Handled(s, BalUp(B)); B in t.bals && OneNew(t.bals[B], n + 1)
  {
    var m := s.bals[B];
    assert Has(s, Bal(B)) && MgrAt(s, Bal(B)) == m;
    hide Base, Handled, Erasing, Counted, PutOffs, Marked, Timers, SweptSends, Sends, Ascending, Outcome;
    hide HeadWithout, CountedBefore;
    OneNewCounts(m, n);
    SweepExactly(s, Bal(B));
    var t := Handled(s, BalUp(B));
    assert Has(t, Bal(B)) && MgrAt(t, Bal(B)) == t.bals[B];
    OneNewAfter(m, t.bals[B], n);
  }

  /** A run that ends between handlers with the message still NEW after n logons. */
  ghost predicate After(ss: seq<State>, ls: seq<Label>, n: nat) {
    IsRun(ss, ls) && Boundary(ss[|ls|]) && B in ss[|ls|].bals && OneNew(ss[|ls|].bals[B], n)
  }

  lemma OneMoreLogon(ss: seq<State>, ls: seq<Label>, n: nat) returns (ss': seq<State>, ls': seq<Label>)
    requires After(ss, ls, n) && n < MAX_PENDING_MESSAGES
    ensures After(ss', ls', n + 1)
  {
    hide OneNew, Handled, Step, Init, Base, AllProper, Proper;
    RunBase(ss, ls, |ls|);
    OneLogon(ss[|ls|], n);
    ss', ls' := ExtendRun(ss, ls, BalUp(B));
  }

  lemma {:induction false} Logons(ss: seq<State>, ls: seq<Label>, n: nat, more: nat)
    returns (ss': seq<State>, ls': seq<Label>)
    requires After(ss, ls, n) && n + more <= MAX_PENDING_MESSAGES
    ensures After(ss', ls', n + more)
    decreases more
  {
    hide After;
    if more == 0 {
      ss', ls' := ss, ls;
    } else {
      ss', ls' := OneMoreLogon(ss, ls, n);
      ss', ls' := Logons(ss', ls', n + 1, more - 1);
    }
  }

  lemma FourStates(s: State, e: Event, b: State, c: State, t: State)
    requires Init(s) && Step(s, Handle(e), b) && Step(b, Run, c) && Step(c, Crash, t)
    ensures IsRun([s, b, c, t], [Handle(e), Run, Crash])
  {
    hide Step, Init;
    var ss, ls := [s, b, c, t], [Handle(e), Run, Crash];
    forall i | 0 <= i < |ls| ensures Step(ss[i], ls[i], ss[i + 1]) {
      if i == 0 { } else if i == 1 { } else { assert i == 2; }
    }
  }

  lemma OneSession() returns (s: State)
    ensures Init(s) && s == State(map[], 0, EMPTY, map[B := EMPTY], multiset{}, Idle, NoLoop, [], 0, {}, map[], {})
  {
    s := State(map[], 0, EMPTY, map[B := EMPTY], multiset{}, Idle, NoLoop, [], 0, {}, map[], {});
    assert PendingFor(s.rows, FCM) == {} && PendingFor(s.rows, B) == {};
    assert LoadedFrom(s.rows, FCM, s.fcm) && forall b :: b in s.bals ==> LoadedFrom(s.rows, b, s.bals[b]);
  }

  /** The message is stored, and the daemon dies before it is sent: it comes back NEW. */
  lemma StoredThenCrash() returns (ss: seq<State>, ls: seq<Label>)
    ensures After(ss, ls, 0)
  {
    hide Init, OneNew, Restarted;
    var e := FcmUpstream(B, "u", "");
    var m := Msg(1, Upstream, "u", "", FCM, B, "", New, 0, -1);
    var s := OneSession();
    var b := s.(ctr := 1, pc := SaveNew(Bal(B), m, None));
    assert Begin(s, e) == b;
    var c := b.(rows := map[1 := RowOf(m)], pc := AckUpstream(Bal(B), m));
    assert Exec(b) == c;
    var t := Reloaded1(c, m);
    assert Step(s, Handle(e), b) && Step(b, Run, c) && Step(c, Crash, t);
    hide Step;
    ss, ls := [s, b, c, t], [Handle(e), Run, Crash];
    FourStates(s, e, b, c, t);
  }

  lemma LoadedOne(rows: map<SeqId, Row>, m: Msg, n: Mgr)
    requires m == Msg(1, Upstream, "u", "", FCM, B, "", New, 0, -1) && rows == map[1 := RowOf(m)]
    requires LoadedFrom(rows, B, n) && forall q :: q in n.messages ==> n.messages[q].maxRetry == -1
    ensures OneNew(n, 0)
  {
    assert PendingFor(rows, B) == {1};
    assert FromRow(n.messages[1], 1, rows[1]);
    assert n.messages.Keys == {1};
    assert forall q :: q in n.messages ==> q == 1;
    forall f | f in n.index ensures f == "u" && n.index[f] == 1 { assert n.index[f] in n.messages; }
    assert n.messages[1].fcmId in n.index;
    assert n.index == map["u" := 1];
  }

  lemma Reloaded1(c: State, m: Msg) returns (t: State)
    requires c.rows == map[1 := RowOf(m)] && c.bals.Keys == {B}
    requires m == Msg(1, Upstream, "u", "", FCM, B, "", New, 0, -1)
    ensures Restarted(c, t) && Boundary(t) && B in t.bals && OneNew(t.bals[B], 0)
  {
    hide Loaded, LoadedFrom, OneNew;
    t := RestartPossible(c);
    LoadedIsLoaded(c.rows, B);
    assert B in t.bals.Keys;
    LoadedOne(c.rows, m, t.bals[B]);
  }

  /** The ack of a message that the sweeps have counted takes nothing off the counter. */
  lemma AckedAtLast(s: State)
    requires Boundary(s) && B in s.bals && OneNew(s.bals[B], MAX_PENDING_MESSAGES)
    ensures var t := Handled(s, BalAck(B, 1));
      B in t.bals && t.bals[B].messages == map[] && t.bals[B].pending == MAX_PENDING_MESSAGES && t.sent == s.sent
  {
    var k, m := Bal(B), s.bals[B].messages[1];
    var s1 := s.(pc := FinishRow(k, m, Delivered, ByBalAck));
    assert Begin(s, BalAck(B, 1)) == s1;
    var n := Remove(s.bals[B], 1).0;
    assert n.messages == map[] && n.pending == MAX_PENDING_MESSAGES && Remove(s.bals[B], 1).1;
    assert Next(n) == None;
    hide Begin, Drain, Remove, Next, Exec;
    RunFinishRow(s1);
    var s2 := SetRow(s1, 1, Delivered).(pc := Drop(k, m, ByBalAck));
    RunDrop(s2);
    var s3 := WithMgr(s2, k, n).(pc := SendNext(k, m, ByBalAck));
    RunSendNext(s3);
    NothingToRun(s3.(pc := Idle));
  }

  /** An upstream message, a crash before it is sent, 100 logons of its session and its ack: the queue is empty and
      the counter is at 100, so that no upstream message is sent when it arrives, until the next restart. */
  lemma CounterStuck() returns (ss: seq<State>, ls: seq<Label>)
    ensures IsRun(ss, ls) && Boundary(ss[|ls|]) && B in ss[|ls|].bals
    ensures ss[|ls|].bals[B].messages == map[] && AtLimit(ss[|ls|].bals[B])
    ensures forall msg: Msg :: msg.state == New ==> CanSend(Add(ss[|ls|].bals[B], msg), msg) == TooManyPending
  {
    ss, ls := StoredThenCrash();
    ss, ls := Logons(ss, ls, 0, 100);
    hide OneNew, Handled, Step, Init;
    AckedAtLast(ss[|ls|]);
    ss, ls := ExtendRun(ss, ls, BalAck(B, 1));
  }
}
