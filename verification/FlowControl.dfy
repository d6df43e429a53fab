/** Flow control: the pending-ack counter over whole runs. */
module FlowControl {
  import opened Core
  import opened MessageManager
  import opened Delivery
  import opened Structure
  import Reach

  /** Live messages that await an acknowledgement. */
  function Awaiting(m: Mgr): set<SeqId> {
    set q | q in m.messages && m.messages[q].state == PendingAck
  }

  /** The handler has marked a message and is about to count it. */
  function Uncounted(s: State): nat {
    if s.pc.CountOne? && s.pc.k == Fcm then 1 else 0
  }

  /** The handler is on its way to an increment of the counter of `k`. */
  predicate WillCount(pc: Pc, k: Key) {
    (pc.MarkRow? || pc.MarkMem? || pc.CountOne? || pc.ResendRow? || pc.ResendCount?) && pc.k == k
  }

  ghost predicate Capped(s: State) {
    forall k :: Has(s, k) ==>
      && MgrAt(s, k).pending <= MAX_PENDING_MESSAGES
      && (WillCount(s.pc, k) ==> MgrAt(s, k).pending < MAX_PENDING_MESSAGES)
  }

  /** Only a NEW message is marked, so marking raises the number awaiting by one. */
  ghost predicate MarksNew(s: State) {
    (s.pc.MarkRow? || s.pc.MarkMem?) && Has(s, s.pc.k) && s.pc.q in MgrAt(s, s.pc.k).messages ==>
      MgrAt(s, s.pc.k).messages[s.pc.q].state == New
  }

  ghost predicate Sound(s: State) {
    s.fcm.pending + Uncounted(s) <= |Awaiting(s.fcm)|
  }

  ghost predicate Exact(s: State) {
    s.fcm.pending + Uncounted(s) == |Awaiting(s.fcm)|
  }

  ghost predicate Flow(s: State) {
    Capped(s) && MarksNew(s) && Sound(s)
  }

  // ---------------------------------------------------------------- how edits change the count

  lemma AwaitingAfterAdd(m: Mgr, msg: Msg)
    requires Valid(m) && msg.id !in m.messages && msg.state == New
    ensures Awaiting(Add(m, msg)) == Awaiting(m)
  {
    AddKeepsValid(m, msg);
  }

  lemma AwaitingAfterMark(m: Mgr, q: SeqId)
    requires q in m.messages && m.messages[q].id == q && m.messages[q].state == New
    ensures |Awaiting(Put(m, m.messages[q].(state := PendingAck)))| == |Awaiting(m)| + 1
  {
    assert Awaiting(Put(m, m.messages[q].(state := PendingAck))) == Awaiting(m) + {q};
  }

  lemma AwaitingAfterRetry(m: Mgr, q: SeqId, n: int)
    requires q in m.messages && m.messages[q].id == q
    ensures Awaiting(Put(m, m.messages[q].(nRetry := n))) == Awaiting(m)
  {
  }

  /** Removing a counted message lowers both sides; the counter stays at 0 once there. */
  lemma RemoveKeepsCount(m: Mgr, q: SeqId)
    requires Valid(m) && q in m.messages
    ensures var n := Remove(m, q).0;
      && n.pending <= m.pending
      && (m.pending <= |Awaiting(m)| ==> n.pending <= |Awaiting(n)|)
      && (m.pending == |Awaiting(m)| ==> n.pending == |Awaiting(n)|)
  {
    RemoveKeepsValid(m, q);
    var n := Remove(m, q).0;
    if m.messages[q].state == PendingAck {
      assert q in Awaiting(m);
      assert Awaiting(n) == Awaiting(m) - {q};
    } else {
      assert Awaiting(n) == Awaiting(m);
    }
  }

  // ---------------------------------------------------------------- preservation

  /** A step that leaves every manager alone. */
  lemma SameManagers(s: State, t: State)
    requires Flow(s) && t.fcm == s.fcm && t.bals == s.bals
    requires forall k :: Has(t, k) && WillCount(t.pc, k) ==> MgrAt(t, k).pending < MAX_PENDING_MESSAGES
    requires MarksNew(t) && Uncounted(t) == Uncounted(s)
    ensures Flow(t) && (Exact(s) ==> Exact(t))
  {
    forall k | Has(t, k) ensures MgrAt(t, k).pending <= MAX_PENDING_MESSAGES {
      assert Has(s, k) && MgrAt(t, k) == MgrAt(s, k);
    }
  }

  lemma RetryFlow(s: State, k: Key, q: SeqId)
    requires Base(s) && Flow(s) && s.pc == Idle && Has(s, k) && q in MgrAt(s, k).messages
    ensures var t := Retry(s, k, MgrAt(s, k).messages[q]); Flow(t) && (Exact(s) ==> Exact(t))
  {
    BaseMgr(s, k);
    hide Base;
    var was := MgrAt(s, k).messages[q];
    AwaitingAfterRetry(MgrAt(s, k), q, was.nRetry + 1);
    var t := Retry(s, k, was);
    forall j | Has(t, j) ensures MgrAt(t, j).pending <= MAX_PENDING_MESSAGES {
      assert Has(s, j);
    }
  }

  /** One manager loses a message, or none. */
  lemma RemovalFlow(s: State, t: State, k: Key, q: SeqId)
    requires Base(s) && Flow(s) && Has(s, k) && Uncounted(s) == 0 == Uncounted(t)
    requires var u := WithMgr(s, k, Remove(MgrAt(s, k), q).0); t.fcm == u.fcm && t.bals == u.bals
    requires !t.pc.MarkRow? && !t.pc.MarkMem? && forall j :: !WillCount(t.pc, j)
    ensures Flow(t) && (Exact(s) ==> Exact(t))
  {
    BaseMgr(s, k);
    hide Base;
    if q in MgrAt(s, k).messages { RemoveKeepsCount(MgrAt(s, k), q); }
    hide Remove;
    forall j | Has(t, j) ensures MgrAt(t, j).pending <= MAX_PENDING_MESSAGES {
      assert Has(s, j);
      assert j != k ==> MgrAt(t, j) == MgrAt(s, j);
    }
  }

  lemma SweepFlow(s: State)
    requires Base(s) && Flow(s) && s.pc == Idle && s.loop.Sweeping? && Has(s, s.loop.k)
    ensures Flow(SweepTurn(s)) && (Exact(s) ==> Exact(SweepTurn(s)))
  {
    var k, t := s.loop.k, SweepTurn(s);
    if s.loop.rest == {} {
      SameManagers(s, t);
    } else {
      var q := Least(s.loop.rest);
      var u := s.(loop := Sweeping(k, s.loop.rest - {q}));
      QuietBase(s, u);
      SameManagers(s, u);
      hide Base, Flow, Exact, Remove;
      var m := MgrAt(s, k);
      if q in m.messages && (m.messages[q].kind == Downstream) == k.Fcm? {
        var v := CanSendOnReconnect(m, m.messages[q]);
        assert v == Sendable ==> m.pending < MAX_PENDING_MESSAGES;
        hide CanSendOnReconnect, Retry;
        if v == TooManyPending {
          RetryFlow(u, k, q);
        } else if v == BadState && !k.Fcm? {
          RemovalFlow(u, t, k, q);
        } else {
          SameManagers(u, t);
        }
      } else {
        SameManagers(u, t);
      }
    }
  }

  lemma AddNewFlow(s: State)
    requires Base(s) && Flow(s) && s.pc.AddNew?
    ensures Flow(StoreAndSend(s)) && (Exact(s) ==> Exact(StoreAndSend(s)))
  {
    var t := StoreAndSend(s);
    if Has(s, s.pc.k) {
      BaseMgr(s, s.pc.k);
      AwaitingAfterAdd(MgrAt(s, s.pc.k), s.pc.m);
      forall k | Has(t, k) ensures MgrAt(t, k).pending <= MAX_PENDING_MESSAGES {
        assert Has(s, k);
      }
    } else {
      SameManagers(s, t);
    }
  }

  lemma MarkMemFlow(s: State)
    requires Base(s) && Flow(s) && s.pc.MarkMem?
    ensures Flow(StoreAndSend(s)) && (Exact(s) ==> Exact(StoreAndSend(s)))
  {
    var t := StoreAndSend(s);
    var k := s.pc.k;
    if Has(s, k) && s.pc.q in MgrAt(s, k).messages {
      BaseMgr(s, k);
      hide Base;
      AwaitingAfterMark(MgrAt(s, k), s.pc.q);
      forall j | Has(t, j)
        ensures MgrAt(t, j).pending <= MAX_PENDING_MESSAGES
        ensures WillCount(t.pc, j) ==> MgrAt(t, j).pending < MAX_PENDING_MESSAGES
      {
        assert Has(s, j);
      }
    } else {
      SameManagers(s, t);
    }
  }

  lemma CountFlow(s: State)
    requires Flow(s) && (s.pc.CountOne? || s.pc.ResendCount?) && Has(s, s.pc.k) && (s.pc.ResendCount? ==> s.pc.k != Fcm)
    ensures Flow(StoreAndSend(s)) && (Exact(s) ==> Exact(StoreAndSend(s)))
  {
    var t := StoreAndSend(s);
    forall k | Has(t, k) ensures MgrAt(t, k).pending <= MAX_PENDING_MESSAGES {
      assert Has(s, k);
    }
  }

  lemma DropFlow(s: State)
    requires Base(s) && Flow(s) && s.pc.Drop?
    ensures Flow(EndAndNotify(s)) && (Exact(s) ==> Exact(EndAndNotify(s)))
  {
    var k, m, t := s.pc.k, s.pc.m, EndAndNotify(s);
    if Has(s, k) {
      var q := if s.pc.how == ByBalAck || m.fcmId !in MgrAt(s, k).index then m.id else MgrAt(s, k).index[m.fcmId];
      if s.pc.how != ByBalAck && m.fcmId !in MgrAt(s, k).index {
        WithSame(s, k);
        hide Remove;
        SameManagers(s, t);
      } else {
        hide Remove, Base, Flow, Exact;
        RemovalFlow(s, t, k, q);
      }
    } else {
      SameManagers(s, t);
    }
  }

  lemma WithSame(s: State, k: Key)
    requires Has(s, k)
    ensures WithMgr(s, k, MgrAt(s, k)) == s
  {
    if k.Bal? { assert s.bals[k.session := s.bals[k.session]] == s.bals; }
  }

  lemma StoreFlow(s: State)
    requires Flow(s)
    requires s.pc.SaveNew? || s.pc.AckUpstream? || s.pc.TrySend? || s.pc.MarkRow? || s.pc.Emit? || s.pc.ResendRow?
    ensures Flow(StoreAndSend(s)) && (Exact(s) ==> Exact(StoreAndSend(s)))
  {
    hide GroupRule;
    var t := StoreAndSend(s);
    forall k | Has(t, k) && WillCount(t.pc, k) ensures MgrAt(t, k).pending < MAX_PENDING_MESSAGES {
      assert Has(s, k) && MgrAt(t, k) == MgrAt(s, k);
    }
    SameManagers(s, t);
  }

  lemma EndFlow(s: State)
    requires Flow(s) && EndsMessage(s.pc) && !s.pc.Drop?
    ensures Flow(EndAndNotify(s)) && (Exact(s) ==> Exact(EndAndNotify(s)))
  {
    hide Next, NoticeMsg;
    SameManagers(s, EndAndNotify(s));
  }

  /** The sweep that counts is never the one over the FCM queue. */
  ghost predicate CountsBal(s: State) {
    s.pc.ResendRow? || s.pc.ResendCount? ==> s.pc.k != Fcm
  }

  lemma ExecFlow(s: State)
    requires Base(s) && Flow(s) && CountsBal(s) && !Boundary(s)
    ensures Flow(Exec(s)) && (Exact(s) ==> Exact(Exec(s)))
  {
    hide StoreAndSend, EndAndNotify, SweepTurn, Flow, Exact;
    match s.pc
    case Idle => if Has(s, s.loop.k) { SweepFlow(s); } else { AbortFlow(s); }
    case AddNew(_, _) => AddNewFlow(s);
    case MarkMem(_, _) => MarkMemFlow(s);
    case CountOne(k, _) => if Has(s, k) { CountFlow(s); } else { CountAborts(s); AbortFlow(s); }
    case ResendCount(k, _) => if Has(s, k) { CountFlow(s); } else { CountAborts(s); AbortFlow(s); }
    case Drop(_, _, _) => DropFlow(s);
    case _ => if EndsMessage(s.pc) { EndFlow(s); } else { StoreFlow(s); }
  }

  lemma AbortFlow(s: State)
    requires Flow(s) && (s.pc.CountOne? ==> s.pc.k != Fcm)
    ensures Flow(Abort(s)) && (Exact(s) ==> Exact(Abort(s)))
  {
    SameManagers(s, Abort(s));
  }

  lemma CountAborts(s: State)
    requires (s.pc.CountOne? || s.pc.ResendCount?) && !Has(s, s.pc.k)
    ensures StoreAndSend(s) == Abort(s)
  {
  }

  lemma ExecCountsBal(s: State)
    requires !Boundary(s) && CountsBal(s)
    ensures CountsBal(Exec(s))
  {
    hide StoreAndSend, EndAndNotify, SweepTurn;
    if EndsMessage(s.pc) { EndCountsBal(s); }
    else if !s.pc.Idle? { StoreCountsBal(s); }
    else if Has(s, s.loop.k) { TurnCountsBal(s); }
  }

  lemma EndCountsBal(s: State)
    requires EndsMessage(s.pc)
    ensures CountsBal(EndAndNotify(s))
  {
    hide Next, NoticeMsg, Remove, RemoveByFcmId;
  }

  lemma StoreCountsBal(s: State)
    requires !s.pc.Idle? && !EndsMessage(s.pc) && CountsBal(s)
    ensures CountsBal(StoreAndSend(s))
  {
    hide CanSend, Add, Put, CountUp;
  }

  lemma TurnCountsBal(s: State)
    requires s.pc.Idle? && s.loop.Sweeping? && Has(s, s.loop.k)
    ensures CountsBal(SweepTurn(s))
  {
    hide CanSendOnReconnect, Remove, Put;
  }

  lemma BeginFlow(s: State, e: Event)
    requires Base(s) && Flow(s) && Boundary(s) && Allowed(s, e)
    ensures Flow(Begin(s, e)) && (Exact(s) ==> Exact(Begin(s, e)))
  {
    hide Begin, Base, Exact, FindByFcmId;
    BeginCases(s, e);
    if Retries(s, e) {
      hide Flow, Retry;
      BaseMgr(s, Fcm);
      FoundIn(s.fcm, e.fcmId);
      RetryFlow(s, Fcm, s.fcm.index[e.fcmId]);
    } else {
      SameManagers(s, Begin(s, e));
    }
  }

  lemma StartedFlow(s: State)
    requires Started(s)
    ensures Flow(s)
    ensures Awaiting(s.fcm) == {} ==> Exact(s)
  {
    hide Exec, Begin;
    forall k | Has(s, k) ensures MgrAt(s, k).pending == 0 {
      assert LoadedFrom(s.rows, SessionOf(k), MgrAt(s, k));
    }
  }

  lemma StepFlow(s: State, l: Label, s': State)
    requires Base(s) && Flow(s) && CountsBal(s) && Step(s, l, s')
    ensures Flow(s') && CountsBal(s')
    ensures l != Crash && Exact(s) ==> Exact(s')
  {
    hide Exec, Begin, Base, Flow, Exact, Started;
    match l
    case Handle(e) => BeginFlow(s, e); BeginCountsBal(s, e);
    case Run => ExecFlow(s); ExecCountsBal(s);
    case DbFailure => FailureFlow(s);
    case Crash => StartedFlow(s'); StartedCountsBal(s');
  }

  lemma BeginCountsBal(s: State, e: Event)
    requires Boundary(s) && Allowed(s, e)
    ensures CountsBal(Begin(s, e))
  {
    hide Begin;
    BeginCases(s, e);
  }

  lemma FailureFlow(s: State)
    requires Flow(s) && WritesDb(s.pc)
    ensures Flow(DbFailed(s)) && CountsBal(DbFailed(s)) && (Exact(s) ==> Exact(DbFailed(s)))
  {
    SameManagers(s, DbFailed(s));
  }

  lemma StartedCountsBal(s: State)
    requires Started(s)
    ensures CountsBal(s)
  {
  }

  lemma {:induction false} RunFlow(ss: seq<State>, ls: seq<Label>, i: nat)
    requires IsRun(ss, ls) && i < |ss|
    ensures Flow(ss[i]) && CountsBal(ss[i])
  {
    hide Step, Flow, Base, Started;
    if i == 0 {
      StartedFlow(ss[0]);
      StartedCountsBal(ss[0]);
    } else {
      RunFlow(ss, ls, i - 1);
      RunBase(ss, ls, i - 1);
      assert Step(ss[i - 1], ls[i - 1], ss[i]);
      StepFlow(ss[i - 1], ls[i - 1], ss[i]);
    }
  }

  // ---------------------------------------------------------------- results

  /** In every state of every run, statement by statement, no manager counts more than 100. */
  lemma NeverAboveLimit(ss: seq<State>, ls: seq<Label>, i: nat, k: Key)
    requires IsRun(ss, ls) && i < |ss| && Has(ss[i], k)
    ensures MgrAt(ss[i], k).pending <= MAX_PENDING_MESSAGES
  {
    RunFlow(ss, ls, i);
  }

  /** The FCM counter never claims more messages than await an acknowledgement. */
  lemma FcmCounterIsSound(ss: seq<State>, ls: seq<Label>, i: nat)
    requires IsRun(ss, ls) && i < |ss|
    ensures ss[i].fcm.pending <= |Awaiting(ss[i].fcm)|
  {
    RunFlow(ss, ls, i);
  }

  lemma ExactStep(ss: seq<State>, ls: seq<Label>, j: nat)
    requires IsRun(ss, ls) && j < |ls| && ls[j] != Crash && Exact(ss[j])
    ensures Exact(ss[j + 1])
  {
    hide Step, Flow, Base, Exact, Started;
    RunFlow(ss, ls, j);
    RunBase(ss, ls, j);
    assert Step(ss[j], ls[j], ss[j + 1]);
    StepFlow(ss[j], ls[j], ss[j + 1]);
  }

  lemma {:induction false} ExactSinceStart(ss: seq<State>, ls: seq<Label>, i: nat, j: nat)
    requires IsRun(ss, ls) && i <= j < |ss|
    requires Exact(ss[i]) && forall n :: i <= n < j ==> ls[n] != Crash
    ensures Exact(ss[j])
    decreases j - i
  {
    hide Exact, Step, Init;
    if i < j {
      ExactSinceStart(ss, ls, i, j - 1);
      ExactStep(ss, ls, j - 1);
    }
  }

  /** After a start that reloads no PENDING_ACK row the FCM counter is exact, until the next restart. */
  lemma FcmCounterIsExact(ss: seq<State>, ls: seq<Label>, i: nat, j: nat)
    requires IsRun(ss, ls) && i <= j < |ss|
    requires Started(ss[i]) && Awaiting(ss[i].fcm) == {}
    requires forall n :: i <= n < j ==> ls[n] != Crash
    requires Boundary(ss[j])
    ensures ss[j].fcm.pending == |Awaiting(ss[j].fcm)|
  {
    StartedFlow(ss[i]);
    ExactSinceStart(ss, ls, i, j);
  }

  /** No manager counts more than 100, and the FCM counter claims no more messages than await an ack. */
  ghost predicate WithinLimits(s: State) {
    && (forall k :: Has(s, k) ==> MgrAt(s, k).pending <= MAX_PENDING_MESSAGES)
    && s.fcm.pending <= |Awaiting(s.fcm)|
  }

  lemma ReachedWithinLimits(s: State)
    requires Reach.Reached(s)
    ensures WithinLimits(s)
  {
    var ss, ls :| IsRun(ss, ls) && ss[|ss| - 1] == s;
    FcmCounterIsSound(ss, ls, |ss| - 1);
    forall k | Has(s, k) ensures MgrAt(s, k).pending <= MAX_PENDING_MESSAGES { NeverAboveLimit(ss, ls, |ss| - 1, k); }
  }
}
