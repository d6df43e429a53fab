/** In every run, with no assumption, whatever FCM was or will be sent has a row that names it. */
module Filing {
  import opened Core
  import opened MessageManager
  import opened Delivery
  import opened Durability
  import opened Structure
  import opened Handlers

  predicate InTable(rows: map<SeqId, Row>, q: SeqId, f: FcmId) { q in rows && rows[q].fcmId == f }

  predicate PcFiled(s: State) {
    match s.pc
    case AckUpstream(k, m) => k == Fcm ==> InTable(s.rows, m.id, m.fcmId)
    case AddNew(k, m) => k == Fcm ==> InTable(s.rows, m.id, m.fcmId)
    case TrySend(k, q) => k == Fcm ==> q in s.rows
    case MarkRow(k, q) => k == Fcm ==> q in s.rows
    case MarkMem(k, q) => k == Fcm ==> q in s.rows
    case CountOne(k, q) => k == Fcm ==> q in s.rows
    case Emit(k, q) => k == Fcm ==> q in s.rows
    case ResendRow(k, _) => k != Fcm
    case ResendCount(k, _) => k != Fcm
    case _ => true
  }

  /** The FCM queue, the sends to FCM and the timers of the FCM queue are in the table. */
  ghost predicate Filed(s: State) {
    && (forall q :: q in s.fcm.messages ==> InTable(s.rows, q, s.fcm.messages[q].fcmId))
    && (forall x :: x in s.sent && x.k == Fcm ==> x.q in s.rows)
    && (forall x :: x in s.timers && x.k == Fcm ==> x.q in s.rows)
    && PcFiled(s)
  }

  /** What is new in t is in its table. */
  lemma StillFiled(s: State, t: State)
    requires Filed(s) && RowsStay(s.rows, t.rows) && PcFiled(t)
    requires forall q :: q in t.fcm.messages ==>
      (q in s.fcm.messages && t.fcm.messages[q].fcmId == s.fcm.messages[q].fcmId) ||
      InTable(t.rows, q, t.fcm.messages[q].fcmId)
    requires forall x :: x in t.sent && x.k == Fcm ==> x in s.sent || x.q in t.rows
    requires forall x :: x in t.timers && x.k == Fcm ==> x in s.timers || x.q in t.rows
    ensures Filed(t)
  {
  }

  lemma RetryFiled(s: State, k: Key, q: SeqId)
    requires Base(s) && Filed(s) && s.pc == Idle && Has(s, k) && q in MgrAt(s, k).messages
    ensures Filed(Retry(s, k, MgrAt(s, k).messages[q]))
  {
    BaseMgr(s, k);
    hide Base;
    StillFiled(s, Retry(s, k, MgrAt(s, k).messages[q]));
  }

  lemma TurnFiled(s: State)
    requires Base(s) && Filed(s) && s.pc == Idle && s.loop.Sweeping? && Has(s, s.loop.k)
    ensures Filed(SweepTurn(s))
  {
    hide Base, CanSendOnReconnect, Retry, Put;
    var k, m := s.loop.k, MgrAt(s, s.loop.k);
    if s.loop.rest != {} && Visited(s) && CanSendOnReconnect(m, m.messages[Least(s.loop.rest)]) == TooManyPending {
      var u := s.(loop := Sweeping(k, s.loop.rest - {Least(s.loop.rest)}));
      LoopBase(s, u.loop);
      StillFiled(s, u);
      hide Filed;
      RetryFiled(u, k, Least(s.loop.rest));
    } else {
      if s.loop.rest != {} { RemoveOnly(m, Least(s.loop.rest)); }
      hide Remove;
      StillFiled(s, SweepTurn(s));
    }
  }

  predicate Visited(s: State)
    requires s.loop.Sweeping? && s.loop.rest != {} && Has(s, s.loop.k)
  {
    var k, q := s.loop.k, Least(s.loop.rest);
    q in MgrAt(s, k).messages && (MgrAt(s, k).messages[q].kind == Downstream) == k.Fcm?
  }

  /** Managers untouched. */
  lemma StoreFiled(s: State)
    requires Base(s) && Filed(s) && !s.pc.Idle? && !EndsMessage(s.pc) && !TouchesManager(s.pc)
    ensures Filed(StoreAndSend(s))
  {
    hide Base, CanSend;
    StillFiled(s, StoreAndSend(s));
  }

  lemma QueueFiled(s: State)
    requires Base(s) && Filed(s) && !EndsMessage(s.pc) && TouchesManager(s.pc) && !s.pc.Idle?
    ensures Filed(StoreAndSend(s))
  {
    if s.pc.MarkMem? && Has(s, s.pc.k) { BaseMgr(s, s.pc.k); }
    hide Base;
    StillFiled(s, StoreAndSend(s));
  }

  lemma RemoveOnly(m: Mgr, q: SeqId)
    ensures forall p :: p in Remove(m, q).0.messages ==> p in m.messages && Remove(m, q).0.messages[p] == m.messages[p]
  {
  }

  lemma DropQueue(s: State)
    requires s.pc.Drop?
    ensures var t := EndAndNotify(s);
      PcFiled(t) && forall q :: q in t.fcm.messages ==> q in s.fcm.messages && t.fcm.messages[q] == s.fcm.messages[q]
  {
    hide Next, NoticeMsg, Remove;
    var f := s.pc.m.fcmId;
    RemoveOnly(s.fcm, s.pc.m.id);
    if f in s.fcm.index { RemoveOnly(s.fcm, s.fcm.index[f]); }
  }

  lemma DropFiled(s: State)
    requires Filed(s) && s.pc.Drop?
    ensures Filed(EndAndNotify(s))
  {
    hide EndAndNotify;
    DropQueue(s);
    StillFiled(s, EndAndNotify(s));
  }

  lemma EndFiled(s: State)
    requires Filed(s) && EndsMessage(s.pc) && !s.pc.Drop?
    ensures Filed(EndAndNotify(s))
  {
    if s.pc.SendNext? && Has(s, s.pc.k) && Next(MgrAt(s, s.pc.k)).Some? {
      NextIsLive(MgrAt(s, s.pc.k), Next(MgrAt(s, s.pc.k)).value);
    }
    hide Next, NoticeMsg, Remove, RemoveByFcmId;
    StillFiled(s, EndAndNotify(s));
  }

  lemma ExecFiled(s: State)
    requires Base(s) && Filed(s) && !Boundary(s)
    ensures Filed(Exec(s))
  {
    hide StoreAndSend, EndAndNotify, SweepTurn, Base;
    if s.pc.Drop? { DropFiled(s); }
    else if EndsMessage(s.pc) { EndFiled(s); }
    else if !TouchesManager(s.pc) { StoreFiled(s); }
    else if !s.pc.Idle? { QueueFiled(s); }
    else if Has(s, s.loop.k) { TurnFiled(s); }
    else { StillFiled(s, Abort(s)); }
  }

  lemma BeginFiled(s: State, e: Event)
    requires Base(s) && Filed(s) && Boundary(s) && Allowed(s, e)
    ensures Filed(Begin(s, e))
  {
    BeginCases(s, e);
    if Retries(s, e) {
      BaseMgr(s, Fcm);
      FoundIn(s.fcm, e.fcmId);
      hide Begin, Base, Filed, Retry, FindByFcmId;
      RetryFiled(s, Fcm, s.fcm.index[e.fcmId]);
    } else {
      hide Base, FindByFcmId, Retry;
      StillFiled(s, Begin(s, e));
    }
  }

  lemma StartedFiled(s: State)
    requires Started(s)
    ensures Filed(s)
  {
    assert LoadedFrom(s.rows, FCM, s.fcm);
    forall q | q in s.fcm.messages ensures InTable(s.rows, q, s.fcm.messages[q].fcmId) {
      assert FromRow(s.fcm.messages[q], q, s.rows[q]);
      assert q in PendingFor(s.rows, FCM);
    }
  }

  lemma StepFiled(s: State, l: Label, s': State)
    requires Base(s) && Filed(s) && Step(s, l, s')
    ensures Filed(s')
  {
    hide Exec, Begin, Base, Started;
    match l
    case Handle(e) => BeginFiled(s, e);
    case Run => ExecFiled(s);
    case DbFailure => StillFiled(s, s');
    case Crash => StartedFiled(s');
  }

  /** Every message that FCM was sent, is to be sent again or may yet be sent is a row of the table. */
  lemma {:induction false} RunFiled(ss: seq<State>, ls: seq<Label>, i: nat)
    requires IsRun(ss, ls) && i < |ss|
    ensures Filed(ss[i])
  {
    hide Step, Base, Filed, Started;
    if i == 0 {
      StartedFiled(ss[0]);
    } else {
      RunFiled(ss, ls, i - 1);
      RunBase(ss, ls, i - 1);
      assert Step(ss[i - 1], ls[i - 1], ss[i]);
      StepFiled(ss[i - 1], ls[i - 1], ss[i]);
    }
  }
}
