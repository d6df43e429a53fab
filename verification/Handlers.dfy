/** One lemma per statement of a handler: what remains to be done after it (application.cpp). */
module Handlers {
  import opened Core
  import opened MessageManager
  import opened Delivery
  import opened Durability

  lemma Ran(s: State, t: State)
    requires !Boundary(s) && Exec(s) == t
    ensures Drain(s) == Drain(t)
  {
  }

  /** The next statement leads from s to x. */
  ghost predicate Becomes(s: State, x: State) { !Boundary(s) && Exec(s) == x && Drain(s) == Drain(x) }

  lemma RanStore(s: State)
    requires !s.pc.Idle? && !EndsMessage(s.pc)
    ensures Becomes(s, StoreAndSend(s))
  {
    hide StoreAndSend;
    Ran(s, StoreAndSend(s));
  }

  lemma RanEnd(s: State)
    requires EndsMessage(s.pc)
    ensures Becomes(s, EndAndNotify(s))
  {
    hide EndAndNotify;
    Ran(s, EndAndNotify(s));
  }

  lemma NothingToRun(s: State)
    requires Boundary(s)
    ensures Drain(s) == s
  {
  }

  lemma RunSave(s: State)
    requires s.pc.SaveNew?
    ensures Becomes(s, if s.pc.m.id in s.rows then Abort(s)
      else SaveRow(s, s.pc.m, s.pc.about).(pc := if s.pc.m.kind == Upstream then AckUpstream(s.pc.k, s.pc.m)
        else AddNew(s.pc.k, s.pc.m)))
  {
    hide Drain, Exec;
    RanStore(s);
  }

  lemma RunAckUpstream(s: State)
    requires s.pc.AckUpstream?
    ensures Becomes(s, s.(acked := s.acked + {s.pc.m.fcmId}, pc := AddNew(s.pc.k, s.pc.m)))
  {
    hide Drain, Exec;
    RanStore(s);
  }

  lemma RunAdd(s: State)
    requires s.pc.AddNew?
    ensures Becomes(s,
      if Has(s, s.pc.k) then WithMgr(s, s.pc.k, Add(MgrAt(s, s.pc.k), s.pc.m)).(pc := TrySend(s.pc.k, s.pc.m.id))
        else Abort(s))
  {
    hide Drain, Exec, Add;
    RanStore(s);
  }

  lemma RunTry(s: State)
    requires s.pc.TrySend? && Has(s, s.pc.k) && s.pc.q in MgrAt(s, s.pc.k).messages
    ensures Becomes(s, s.(pc :=
      if CanSend(MgrAt(s, s.pc.k), MgrAt(s, s.pc.k).messages[s.pc.q]) == Sendable then MarkRow(s.pc.k, s.pc.q)
        else Idle))
  {
    hide Drain, Exec, CanSend;
    RanStore(s);
  }

  lemma RunMarkRow(s: State)
    requires s.pc.MarkRow?
    ensures Becomes(s, SetRow(s, s.pc.q, PendingAck).(pc := MarkMem(s.pc.k, s.pc.q)))
  {
    hide Drain, Exec;
    RanStore(s);
  }

  lemma RunMarkMem(s: State)
    requires s.pc.MarkMem? && Has(s, s.pc.k) && s.pc.q in MgrAt(s, s.pc.k).messages
    ensures Becomes(s,
      WithMgr(s, s.pc.k, Put(MgrAt(s, s.pc.k), MgrAt(s, s.pc.k).messages[s.pc.q].(state := PendingAck)))
      .(pc := CountOne(s.pc.k, s.pc.q)))
  {
    hide Drain, Exec, Put;
    RanStore(s);
  }

  lemma RunCount(s: State)
    requires s.pc.CountOne? && Has(s, s.pc.k)
    ensures Becomes(s, WithMgr(s, s.pc.k, CountUp(MgrAt(s, s.pc.k))).(pc := Emit(s.pc.k, s.pc.q)))
  {
    hide Drain, Exec, CountUp;
    RanStore(s);
  }

  lemma RunEmit(s: State)
    requires s.pc.Emit?
    ensures Becomes(s, Emitted(s, s.pc.k, s.pc.q).(pc := Idle))
  {
    hide Drain, Exec;
    RanStore(s);
  }

  lemma RunResendRow(s: State)
    requires s.pc.ResendRow?
    ensures Becomes(s, SetRow(s, s.pc.q, PendingAck).(pc := ResendCount(s.pc.k, s.pc.q)))
  {
    hide Drain, Exec;
    RanStore(s);
  }

  lemma RunResendCount(s: State)
    requires s.pc.ResendCount? && Has(s, s.pc.k)
    ensures Becomes(s, WithMgr(s, s.pc.k, CountUp(MgrAt(s, s.pc.k))).(pc := Emit(s.pc.k, s.pc.q)))
  {
    hide Drain, Exec, CountUp;
    RanStore(s);
  }

  lemma RunFinishRow(s: State)
    requires s.pc.FinishRow?
    ensures Becomes(s, SetRow(s, s.pc.m.id, s.pc.st).(pc := Drop(s.pc.k, s.pc.m, s.pc.how)))
  {
    hide Drain, Exec;
    RanEnd(s);
  }

  function Removed(m: Mgr, msg: Msg, how: How): (Mgr, bool) {
    if how == ByBalAck then Remove(m, msg.id) else RemoveByFcmId(m, msg.fcmId)
  }

  lemma RunDrop(s: State)
    requires s.pc.Drop? && Has(s, s.pc.k)
    ensures var r := Removed(MgrAt(s, s.pc.k), s.pc.m, s.pc.how);
      Becomes(s, if r.1 then WithMgr(s, s.pc.k, r.0).(pc := AfterDrop(s.pc.k, s.pc.m, s.pc.how))
        else Abort(WithMgr(s, s.pc.k, r.0)))
  {
    hide Drain, Exec, Remove, RemoveByFcmId, AfterDrop;
    RanEnd(s);
  }

  lemma RunSendNext(s: State)
    requires s.pc.SendNext? && Has(s, s.pc.k)
    ensures var t := s.(pc := if s.pc.how == ByBalAck then Idle else Notice(s.pc.m, s.pc.how));
      Becomes(s, match Next(MgrAt(s, s.pc.k)) case None => t case Some(q) => Emitted(t, s.pc.k, q))
  {
    hide Drain, Exec, Next;
    RanEnd(s);
  }

  lemma RunNotice(s: State)
    requires s.pc.Notice?
    ensures var n := NoticeMsg(s.ctr + 1, s.pc.m, s.pc.how);
      Becomes(s, s.(ctr := s.ctr + 1,
        pc := if s.pc.how.ByAck? then SaveNew(Bal(s.pc.m.source), n, Some(s.pc.m.id)) else SaveReject(n, s.pc.m.id)))
  {
    hide Drain, Exec, NoticeMsg;
    RanEnd(s);
  }

  lemma RunSaveReject(s: State)
    requires s.pc.SaveReject?
    ensures Becomes(s, if s.pc.n.id in s.rows then s.(pc := Idle, interrupted := s.interrupted + {s.pc.d})
      else SaveRow(s, s.pc.n, Some(s.pc.d)).(pc := Idle))
  {
    hide Drain, Exec;
    RanEnd(s);
  }

  lemma RunTurn(s: State)
    requires s.pc.Idle? && s.loop.Sweeping? && Has(s, s.loop.k)
    ensures Becomes(s, SweepTurn(s))
  {
    hide SweepTurn;
    Ran(s, SweepTurn(s));
  }
}
