/** What the step system keeps with no assumption at all: representation invariants and unused ids. */
module Structure {
  import opened Core
  import opened MessageManager
  import opened Delivery

  /** A manager whose maps agree and whose messages are all numbered and not finished. */
  ghost predicate Kept(m: Mgr, ctr: SeqId) {
    Valid(m) && forall q :: q in m.messages ==> q <= ctr && Unfinished(m.messages[q].state)
  }

  ghost predicate AllKept(s: State) {
    forall k :: Has(s, k) ==> Kept(MgrAt(s, k), s.ctr)
  }

  /** The message that a handler has built and not yet added is NEW and in no manager. */
  ghost predicate Unborn(s: State, m: Msg) {
    m.id <= s.ctr && m.state == New && forall k :: Has(s, k) ==> m.id !in MgrAt(s, k).messages
  }

  ghost predicate PcBase(s: State) {
    match s.pc
    case SaveNew(_, m, _) => Unborn(s, m)
    case AckUpstream(_, m) => Unborn(s, m)
    case AddNew(_, m) => Unborn(s, m)
    case SaveReject(n, _) => n.id <= s.ctr
    case TrySend(_, q) => q <= s.ctr
    case MarkRow(_, q) => q <= s.ctr
    case MarkMem(_, q) => q <= s.ctr
    case CountOne(_, q) => q <= s.ctr
    case Emit(_, q) => q <= s.ctr
    case ResendRow(_, q) => q <= s.ctr
    case ResendCount(_, q) => q <= s.ctr
    case _ => true
  }

  /** Only numbered messages were sent or have timers. */
  ghost predicate Numbered(s: State) {
    (forall x :: x in s.sent ==> x.q <= s.ctr) && (forall t :: t in s.timers ==> t.q <= s.ctr)
  }

  ghost predicate Base(s: State) {
    && (forall q :: q in s.rows ==> q <= s.ctr)
    && AllKept(s)
    && PcBase(s)
    && Numbered(s)
  }

  lemma BaseMgr(s: State, k: Key)
    requires Base(s) && Has(s, k)
    ensures Kept(MgrAt(s, k), s.ctr)
  {
  }

  /** A step that leaves the managers alone. */
  lemma QuietBase(s: State, t: State)
    requires Base(s) && t.fcm == s.fcm && t.bals == s.bals && s.ctr <= t.ctr && PcBase(t) && Numbered(t)
    requires forall q :: q in t.rows ==> q <= t.ctr
    ensures Base(t)
  {
    forall k | Has(t, k) ensures Kept(MgrAt(t, k), t.ctr) {
      assert Has(s, k) && MgrAt(t, k) == MgrAt(s, k);
      BaseMgr(s, k);
    }
  }

  /** A step that changes one manager. */
  lemma OneBase(s: State, t: State, k: Key, m: Mgr)
    requires Base(s) && Has(s, k) && Kept(m, s.ctr) && PcBase(t) && Numbered(t) && t.ctr == s.ctr && t.rows == s.rows
    requires var u := WithMgr(s, k, m); t.fcm == u.fcm && t.bals == u.bals
    ensures Base(t)
  {
    forall j | Has(t, j) ensures Kept(MgrAt(t, j), t.ctr) {
      assert Has(s, j);
      if j != k { assert MgrAt(t, j) == MgrAt(s, j); BaseMgr(s, j); }
    }
  }

  lemma RemoveKept(m: Mgr, q: SeqId, ctr: SeqId)
    requires Kept(m, ctr)
    ensures Kept(Remove(m, q).0, ctr)
  {
    if q in m.messages { RemoveKeepsValid(m, q); }
  }

  lemma PutKept(m: Mgr, q: SeqId, msg: Msg, ctr: SeqId)
    requires Kept(m, ctr) && q in m.messages
    requires msg.id == q && msg.fcmId == m.messages[q].fcmId && msg.group == m.messages[q].group
    requires Unfinished(msg.state)
    ensures Kept(Put(m, msg), ctr)
  {
    PutKeepsValid(m, msg);
  }

  lemma RetryBase(s: State, k: Key, q: SeqId)
    requires Base(s) && s.pc == Idle && Has(s, k) && q in MgrAt(s, k).messages
    ensures Base(Retry(s, k, MgrAt(s, k).messages[q]))
  {
    BaseMgr(s, k);
    var msg := MgrAt(s, k).messages[q];
    PutKept(MgrAt(s, k), q, Retried(msg), s.ctr);
    hide Base, Put;
    OneBase(s, Retry(s, k, msg), k, Put(MgrAt(s, k), Retried(msg)));
  }

  /** Between two statements only the loop moves on. */
  lemma LoopBase(s: State, l: Loop)
    requires Base(s) && s.pc == Idle
    ensures Base(s.(loop := l))
  {
    QuietBase(s, s.(loop := l));
  }

  lemma EmittedBase(s: State, k: Key, q: SeqId)
    requires Base(s) && s.pc == Idle && Has(s, k) && q in MgrAt(s, k).messages
    ensures q <= s.ctr && Base(Emitted(s, k, q)) && Base(s.(pc := ResendRow(k, q))) && Base(s.(pc := Emit(k, q)))
  {
    BaseMgr(s, k);
    QuietBase(s, Emitted(s, k, q));
    QuietBase(s, s.(pc := ResendRow(k, q)));
    QuietBase(s, s.(pc := Emit(k, q)));
  }

  /** One manager loses a message, or none. */
  lemma ErasedBase(s: State, t: State, k: Key, q: SeqId)
    requires Base(s) && Has(s, k) && PcBase(t) && t.sent == s.sent && t.timers == s.timers && t.ctr == s.ctr
    requires t.rows == s.rows
    requires var u := WithMgr(s, k, Remove(MgrAt(s, k), q).0); t.fcm == u.fcm && t.bals == u.bals
    ensures Base(t)
  {
    BaseMgr(s, k);
    RemoveKept(MgrAt(s, k), q, s.ctr);
    BaseParts(s);
    hide Base, Remove, PcBase;
    OneBase(s, t, k, Remove(MgrAt(s, k), q).0);
  }

  lemma BaseParts(s: State)
    requires Base(s)
    ensures PcBase(s) && Numbered(s)
  {
  }

  lemma TurnBase(s: State)
    requires Base(s) && s.pc == Idle && s.loop.Sweeping? && Has(s, s.loop.k)
    ensures Base(SweepTurn(s))
  {
    hide Base, CanSendOnReconnect, Retry, Remove;
    var k := s.loop.k;
    if s.loop.rest == {} {
      LoopBase(s, NoLoop);
    } else {
      var q := Least(s.loop.rest);
      var u := s.(loop := Sweeping(k, s.loop.rest - {q}));
      LoopBase(s, u.loop);
      LoopBase(s, NoLoop);
      assert Abort(u) == s.(loop := NoLoop);
      if q in MgrAt(s, k).messages {
        EmittedBase(u, k, q);
        RetryBase(u, k, q);
        ErasedBase(u, WithMgr(u, k, Remove(MgrAt(u, k), q).0), k, q);
      }
    }
  }

  lemma AddBase(s: State)
    requires Base(s) && s.pc.AddNew?
    ensures Base(StoreAndSend(s))
  {
    var k, m, t := s.pc.k, s.pc.m, StoreAndSend(s);
    if Has(s, k) {
      BaseMgr(s, k);
      AddKeepsValid(MgrAt(s, k), m);
      hide Base, Add;
      OneBase(s, t, k, Add(MgrAt(s, k), m));
    } else {
      QuietBase(s, t);
    }
  }

  lemma MarkBase(s: State)
    requires Base(s) && (s.pc.MarkMem? || s.pc.CountOne? || s.pc.ResendCount?)
    ensures Base(StoreAndSend(s))
  {
    var k, q, t := s.pc.k, s.pc.q, StoreAndSend(s);
    if !Has(s, k) || (s.pc.MarkMem? && q !in MgrAt(s, k).messages) {
      QuietBase(s, t);
    } else {
      BaseMgr(s, k);
      var m := MgrAt(s, k);
      if s.pc.MarkMem? {
        PutKept(m, q, m.messages[q].(state := PendingAck), s.ctr);
        hide Base, Put;
        OneBase(s, t, k, Put(m, m.messages[q].(state := PendingAck)));
      } else {
        assert Kept(CountUp(m), s.ctr) by { CountKept(m, s.ctr); }
        hide Base, CountUp;
        OneBase(s, t, k, CountUp(m));
      }
    }
  }

  lemma CountKept(m: Mgr, ctr: SeqId)
    requires Kept(m, ctr)
    ensures Kept(CountUp(m), ctr)
  {
    forall g, q | g in m.groups && q in m.groups[g] ensures InGroup(CountUp(m), g, q) {
      assert InGroup(m, g, q);
    }
  }

  lemma StoreBase(s: State)
    requires Base(s) && !s.pc.Idle? && !EndsMessage(s.pc)
    requires !s.pc.AddNew? && !s.pc.MarkMem? && !s.pc.CountOne? && !s.pc.ResendCount?
    ensures Base(StoreAndSend(s))
  {
    hide CanSend;
    var t := StoreAndSend(s);
    if s.pc.SaveNew? || s.pc.AckUpstream? {
      forall k | Has(t, k) ensures s.pc.m.id !in MgrAt(t, k).messages {
        assert Has(s, k) && MgrAt(t, k) == MgrAt(s, k);
      }
    }
    QuietBase(s, t);
  }

  lemma DropBase(s: State)
    requires Base(s) && s.pc.Drop?
    ensures Base(EndAndNotify(s))
  {
    var k, f, t := s.pc.k, s.pc.m.fcmId, EndAndNotify(s);
    if Has(s, k) && (s.pc.how == ByBalAck || f in MgrAt(s, k).index) {
      hide Base, Remove;
      ErasedBase(s, t, k, if s.pc.how == ByBalAck then s.pc.m.id else MgrAt(s, k).index[f]);
    } else {
      hide Remove;
      QuietBase(s, t);
    }
  }

  lemma NextIsLive(m: Mgr, q: SeqId)
    requires Next(m) == Some(q)
    ensures q in m.messages
  {
  }

  lemma SendNextBase(s: State)
    requires Base(s) && s.pc.SendNext?
    ensures Base(EndAndNotify(s))
  {
    hide Next;
    var k, t := s.pc.k, EndAndNotify(s);
    if Has(s, k) {
      BaseMgr(s, k);
      if Next(MgrAt(s, k)).Some? { NextIsLive(MgrAt(s, k), Next(MgrAt(s, k)).value); }
      hide AllKept, Valid;
      assert forall x :: x in t.sent ==> x in s.sent || x.q <= s.ctr;
    }
    QuietBase(s, t);
  }

  lemma NoticeBase(s: State)
    requires Base(s) && s.pc.Notice?
    ensures Base(EndAndNotify(s))
  {
    var t := EndAndNotify(s);
    forall k | Has(t, k) ensures s.ctr + 1 !in MgrAt(t, k).messages {
      assert Has(s, k) && MgrAt(t, k) == MgrAt(s, k);
      BaseMgr(s, k);
    }
    QuietBase(s, t);
  }

  lemma EndBase(s: State)
    requires Base(s) && (s.pc.FinishRow? || s.pc.SaveReject?)
    ensures Base(EndAndNotify(s))
  {
    QuietBase(s, EndAndNotify(s));
  }

  lemma ExecBase(s: State)
    requires Base(s) && !Boundary(s)
    ensures Base(Exec(s))
  {
    hide StoreAndSend, EndAndNotify, SweepTurn;
    match s.pc
    case Idle => if Has(s, s.loop.k) { TurnBase(s); } else { QuietBase(s, Abort(s)); }
    case AddNew(_, _) => AddBase(s);
    case MarkMem(_, _) => MarkBase(s);
    case CountOne(_, _) => MarkBase(s);
    case ResendCount(_, _) => MarkBase(s);
    case Drop(_, _, _) => DropBase(s);
    case SendNext(_, _, _) => SendNextBase(s);
    case Notice(_, _) => NoticeBase(s);
    case _ => if EndsMessage(s.pc) { EndBase(s); } else { StoreBase(s); }
  }

  predicate Retries(s: State, e: Event) {
    e.FcmNack? && e.retryable && FindByFcmId(s.fcm, e.fcmId).Some?
  }

  /** A retryable nack of a known message is a retry; every other handler leaves the managers alone at first. */
  lemma BeginCases(s: State, e: Event)
    requires Boundary(s) && Allowed(s, e)
    ensures Retries(s, e) ==> Begin(s, e) == Retry(s, Fcm, FindByFcmId(s.fcm, e.fcmId).value)
    ensures !Retries(s, e) ==>
      && Begin(s, e).fcm == s.fcm && Begin(s, e).bals == s.bals
      && (Begin(s, e).pc.Idle? || Begin(s, e).pc.SaveNew? || Begin(s, e).pc.FinishRow?)
  {
    hide FindByFcmId;
  }

  lemma FoundIn(m: Mgr, f: FcmId)
    requires Valid(m) && FindByFcmId(m, f).Some?
    ensures var q := m.index[f];
      f in m.index && q in m.messages && m.messages[q].id == q && FindByFcmId(m, f).value == m.messages[q]
  {
  }

  predicate Creates(e: Event) { e.Upload? || e.FcmUpstream? || e.FcmReceipt? }

  /** A handler that builds a message numbers it. */
  lemma BeginCreates(s: State, e: Event)
    requires Boundary(s) && Allowed(s, e) && Creates(e)
    ensures var t := Begin(s, e);
      t.pc.SaveNew? && t.pc.m.id == s.ctr + 1 == t.ctr && t.pc.m.state == New && t.sent == s.sent
        && t.timers == s.timers
  {
  }

  lemma BeginOthers(s: State, e: Event)
    requires Boundary(s) && Allowed(s, e) && !Creates(e) && !Retries(s, e)
    ensures var t := Begin(s, e);
      && t.ctr == s.ctr && !t.pc.SaveNew?
      && (if e.TimerFires? then t.sent == s.sent + [Sent(e.t.k, e.t.q)] && t.timers == s.timers - multiset{e.t}
        else t.sent == s.sent && t.timers == s.timers)
  {
    hide FindByFcmId;
  }

  lemma BeginBase(s: State, e: Event)
    requires Base(s) && Boundary(s) && Allowed(s, e)
    ensures Base(Begin(s, e))
  {
    hide Begin, Retry, FindByFcmId, AllKept;
    BeginCases(s, e);
    var t := Begin(s, e);
    if Retries(s, e) {
      hide Base;
      BaseMgr(s, Fcm);
      FoundIn(s.fcm, e.fcmId);
      RetryBase(s, Fcm, s.fcm.index[e.fcmId]);
    } else if Creates(e) {
      BeginCreates(s, e);
      forall k | Has(t, k) ensures s.ctr + 1 !in MgrAt(t, k).messages {
        assert Has(s, k) && MgrAt(t, k) == MgrAt(s, k);
        BaseMgr(s, k);
      }
      QuietBase(s, t);
    } else {
      BeginOthers(s, e);
      assert forall x :: x in t.timers ==> x in s.timers;
      QuietBase(s, t);
    }
  }

  lemma LoadedKept(rows: map<SeqId, Row>, b: SessionId, m: Mgr, ctr: SeqId)
    requires LoadedFrom(rows, b, m) && forall q :: q in rows ==> q <= ctr
    ensures Kept(m, ctr)
  {
    forall q | q in m.messages ensures q in rows && m.messages[q].id == q && m.messages[q].group == "" {
      assert q in PendingFor(rows, b);
      assert FromRow(m.messages[q], q, rows[q]);
    }
  }

  lemma StartedBase(s: State)
    requires Started(s)
    ensures Base(s)
  {
    hide LoadedFrom;
    forall k | Has(s, k) ensures Kept(MgrAt(s, k), s.ctr) {
      assert LoadedFrom(s.rows, SessionOf(k), MgrAt(s, k));
      LoadedKept(s.rows, SessionOf(k), MgrAt(s, k), s.ctr);
    }
  }

  lemma StepBase(s: State, l: Label, s': State)
    requires Base(s) && Step(s, l, s')
    ensures Base(s')
  {
    hide Exec, Begin, Started;
    match l
    case Handle(e) => BeginBase(s, e);
    case Run => ExecBase(s);
    case DbFailure => QuietBase(s, s');
    case Crash => StartedBase(s');
  }

  /** In every run, whatever the events, every manager keeps its representation invariant. */
  lemma {:induction false} RunBase(ss: seq<State>, ls: seq<Label>, i: nat)
    requires IsRun(ss, ls) && i < |ss|
    ensures Base(ss[i])
  {
    hide Step, Base, Started;
    if i == 0 {
      StartedBase(ss[0]);
    } else {
      RunBase(ss, ls, i - 1);
      assert Step(ss[i - 1], ls[i - 1], ss[i]);
      StepBase(ss[i - 1], ls[i - 1], ss[i]);
    }
  }
}
