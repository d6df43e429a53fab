/** What each handler sends to FCM, as a set that can be read off the state before it. */
module Traffic {
  import opened Core
  import opened MessageManager
  import opened Delivery
  import opened Durability
  import opened Structure
  import opened Handlers
  import opened Reach
  import opened Sweeps
  import opened GroupOrder

  // ---------------------------------------------------------------- sends are only added

  predicate Grows(s: State, t: State) { s.sent <= t.sent }

  /** What t has sent and s had not. */
  function News(s: State, t: State): seq<Send>
    requires Grows(s, t)
  {
    t.sent[|s.sent|..]
  }

  function ToFcm(xs: seq<Send>): set<SeqId> { set x | x in xs && x.k == Fcm :: x.q }

  lemma ToFcmSplit(a: seq<Send>, b: seq<Send>)
    ensures ToFcm(a + b) == ToFcm(a) + ToFcm(b)
  {
  }

  lemma NewsTrans(a: State, b: State, c: State)
    requires Grows(a, b) && Grows(b, c)
    ensures Grows(a, c) && News(a, c) == News(a, b) + News(b, c)
    ensures ToFcm(News(a, c)) == ToFcm(News(a, b)) + ToFcm(News(b, c))
  {
    assert News(a, c) == News(a, b) + News(b, c);
    ToFcmSplit(News(a, b), News(b, c));
  }

  /** At most one send. */
  ghost predicate SendsOne(s: State, t: State, k: Key, q: SeqId) { t.sent == s.sent + [Sent(k, q)] }

  lemma OneNews(s: State, t: State, k: Key, q: SeqId)
    requires SendsOne(s, t, k, q)
    ensures Grows(s, t) && News(s, t) == [Sent(k, q)] && ToFcm(News(s, t)) == if k == Fcm then {q} else {}
  {
    assert News(s, t) == [Sent(k, q)];
    assert forall x :: x in [Sent(k, q)] ==> x == Sent(k, q);
    assert Sent(k, q) in [Sent(k, q)];
  }

  lemma NoNews(s: State, t: State)
    requires t.sent == s.sent
    ensures Grows(s, t) && News(s, t) == [] && ToFcm(News(s, t)) == {}
  {
    assert ToFcm([]) == {};
  }

  lemma StoreGrows(s: State)
    requires !s.pc.Idle? && !EndsMessage(s.pc)
    ensures Grows(s, StoreAndSend(s))
  {
    hide CanSend, Add, Put, CountUp;
  }

  lemma EndGrows(s: State)
    requires EndsMessage(s.pc)
    ensures Grows(s, EndAndNotify(s))
  {
    hide Next, NoticeMsg, Remove, RemoveByFcmId;
  }

  lemma TurnGrows(s: State)
    requires s.pc.Idle? && s.loop.Sweeping? && Has(s, s.loop.k)
    ensures Grows(s, SweepTurn(s))
  {
    hide CanSendOnReconnect, Put, Remove;
  }

  lemma ExecGrows(s: State)
    requires !Boundary(s)
    ensures Grows(s, Exec(s)) && RowsStay(s.rows, Exec(s).rows)
  {
    ExecKeepsRows(s);
    hide StoreAndSend, EndAndNotify, SweepTurn, RowsStay;
    if EndsMessage(s.pc) { EndGrows(s); }
    else if !s.pc.Idle? { StoreGrows(s); }
    else if Has(s, s.loop.k) { TurnGrows(s); }
  }

  lemma RowsStayTrans(a: map<SeqId, Row>, b: map<SeqId, Row>, c: map<SeqId, Row>)
    requires RowsStay(a, b) && RowsStay(b, c)
    ensures RowsStay(a, c)
  {
  }

  lemma {:induction false} DrainGrows(s: State)
    ensures Grows(s, Drain(s)) && RowsStay(s.rows, Drain(s).rows)
    decreases Work(s)
  {
    if Boundary(s) {
      NothingToRun(s);
    } else {
      HandlersEnd(s);
      ExecGrows(s);
      Ran(s, Exec(s));
      hide Exec, Drain, Work, RowsStay;
      DrainGrows(Exec(s));
      RowsStayTrans(s.rows, Exec(s).rows, Drain(s).rows);
    }
  }

  // ---------------------------------------------------------------- statements that send nothing to FCM

  /** Statements on a BAL's queue, those that tell a BAL something, and those that give up a message. */
  predicate SilentPc(pc: Pc) {
    match pc
    case Idle => true
    case Notice(_, _) => true
    case SaveReject(_, _) => true
    case SaveNew(k, _, _) => k.Bal?
    case AckUpstream(k, _) => k.Bal?
    case AddNew(k, _) => k.Bal?
    case TrySend(k, _) => k.Bal?
    case MarkRow(k, _) => k.Bal?
    case MarkMem(k, _) => k.Bal?
    case CountOne(k, _) => k.Bal?
    case Emit(k, _) => k.Bal?
    case ResendRow(k, _) => k.Bal?
    case ResendCount(k, _) => k.Bal?
    case FinishRow(k, _, _, how) => k.Bal? || how == GaveUp
    case Drop(k, _, how) => k.Bal? || how == GaveUp
    case SendNext(k, _, _) => k.Bal?
  }

  predicate Silent(s: State) { SilentPc(s.pc) && (s.loop.Sweeping? ==> s.loop.k.Bal?) }

  /** Of these, only giving up touches the FCM queue. */
  predicate EndsInFcm(pc: Pc) { (pc.FinishRow? || pc.Drop?) && pc.k == Fcm }

  ghost predicate SilentOn(s: State, t: State) {
    && Silent(t) && Grows(s, t) && ToFcm(News(s, t)) == {}
    && (!EndsInFcm(s.pc) ==> !EndsInFcm(t.pc) && t.fcm == s.fcm)
  }

  lemma SilentNews(s: State, t: State)
    requires t.sent == s.sent || exists k: Key, q: SeqId :: k.Bal? && SendsOne(s, t, k, q)
    ensures Grows(s, t) && ToFcm(News(s, t)) == {}
  {
    if t.sent == s.sent {
      NoNews(s, t);
    } else {
      var k: Key, q: SeqId :| k.Bal? && SendsOne(s, t, k, q);
      OneNews(s, t, k, q);
    }
  }

  lemma SilentStore(s: State)
    requires Silent(s) && !s.pc.Idle? && !EndsMessage(s.pc)
    ensures SilentOn(s, StoreAndSend(s))
  {
    hide CanSend, Put, Add, CountUp, ToFcm;
    var t := StoreAndSend(s);
    assert s.pc.Emit? ==> SendsOne(s, t, s.pc.k, s.pc.q);
    SilentNews(s, t);
  }

  lemma SilentEnd(s: State)
    requires Silent(s) && EndsMessage(s.pc)
    ensures SilentOn(s, EndAndNotify(s))
  {
    hide Next, NoticeMsg, Remove, RemoveByFcmId, ToFcm;
    var t := EndAndNotify(s);
    if s.pc.SendNext? && Has(s, s.pc.k) && Next(MgrAt(s, s.pc.k)).Some? {
      assert SendsOne(s, t, s.pc.k, Next(MgrAt(s, s.pc.k)).value);
    }
    SilentNews(s, t);
  }

  lemma SilentTurn(s: State)
    requires Silent(s) && s.pc.Idle? && s.loop.Sweeping? && Has(s, s.loop.k)
    ensures SilentOn(s, SweepTurn(s))
  {
    hide CanSendOnReconnect, Remove, Put, ToFcm;
    SilentNews(s, SweepTurn(s));
  }

  lemma SilentStep(s: State)
    requires Silent(s) && !Boundary(s)
    ensures SilentOn(s, Exec(s))
  {
    hide StoreAndSend, EndAndNotify, SweepTurn, SilentOn;
    if EndsMessage(s.pc) { SilentEnd(s); }
    else if !s.pc.Idle? { SilentStore(s); }
    else if Has(s, s.loop.k) { SilentTurn(s); }
    else { SilentAbort(s); }
  }

  lemma SilentAbort(s: State)
    requires Silent(s)
    ensures SilentOn(s, Abort(s))
  {
    NoNews(s, Abort(s));
  }

  lemma {:induction false} SilentDrain(s: State)
    requires Silent(s)
    ensures SilentOn(s, Drain(s))
    decreases Work(s)
  {
    if Boundary(s) {
      NothingToRun(s);
      NoNews(s, s);
    } else {
      HandlersEnd(s);
      SilentStep(s);
      Ran(s, Exec(s));
      hide Exec, Drain, Work, SilentPc, ToFcm, News;
      SilentDrain(Exec(s));
      NewsTrans(s, Exec(s), Drain(s));
    }
  }

  // ---------------------------------------------------------------- an ack or a final nack

  function ToSet(q: Option<SeqId>): set<SeqId> { if q.None? then {} else {q.value} }

  /** The statements that end a message of the FCM queue, run from the first of them. */
  lemma EndingRuns(s: State, m: Msg, st: MsgState, how: How)
    requires s.pc == FinishRow(Fcm, m, st, how) && s.loop == NoLoop && (how.ByAck? || how.ByNack?)
    requires RemoveByFcmId(s.fcm, m.fcmId) == (Remove(s.fcm, m.id).0, true)
    ensures var n := Remove(s.fcm, m.id).0;
      Drain(s).fcm == n && Grows(s, Drain(s)) && ToFcm(News(s, Drain(s))) == ToSet(Next(n))
  {
    hide Exec, Drain, Remove, RemoveByFcmId, Next, ToFcm, News, Becomes;
    RunFinishRow(s);
    var s2 := SetRow(s, m.id, st).(pc := Drop(Fcm, m, how));
    RunDrop(s2);
    var s3 := s2.(fcm := Remove(s.fcm, m.id).0, pc := SendNext(Fcm, m, how));
    RunSendNext(s3);
    var s4 := s3.(pc := Notice(m, how));
    var s5 := match Next(s3.fcm) case None => s4 case Some(p) => Emitted(s4, Fcm, p);
    if Next(s3.fcm).Some? { OneNews(s, s5, Fcm, Next(s3.fcm).value); } else { NoNews(s, s5); }
    SilentDrain(s5);
    NewsTrans(s, s5, Drain(s5));
    BecomesDrains(s, s2);
    BecomesDrains(s2, s3);
    BecomesDrains(s3, s5);
  }

  lemma BecomesDrains(s: State, x: State)
    requires Becomes(s, x)
    ensures Drain(s) == Drain(x)
  {
  }

  lemma FoundIsIndexed(m: Mgr, f: FcmId)
    requires Valid(m) && FindByFcmId(m, f).Some?
    ensures var msg := FindByFcmId(m, f).value;
      && f in m.index && m.index[f] == msg.id && msg.id in m.messages && m.messages[msg.id] == msg && msg.fcmId == f
      && RemoveByFcmId(m, f) == (Remove(m, msg.id).0, true)
  {
    RemoveKeepsValid(m, m.index[f]);
  }

  /** Events that end a message of the FCM queue. */
  predicate Ends(e: Event) { e.FcmAck? || (e.FcmNack? && !e.retryable) }

  /** Such an event removes its message and sends the next sendable one, if there is one. */
  lemma EndingEffect(s: State, e: Event)
    requires Valid(s.fcm) && Boundary(s) && Ends(e) && FindByFcmId(s.fcm, e.fcmId).Some?
    ensures var q := FindByFcmId(s.fcm, e.fcmId).value.id; var t := Handled(s, e);
      && q in s.fcm.messages && t.fcm == Remove(s.fcm, q).0
      && Grows(s, t) && ToFcm(News(s, t)) == ToSet(Next(t.fcm))
  {
    FoundIsIndexed(s.fcm, e.fcmId);
    var m := FindByFcmId(s.fcm, e.fcmId).value;
    var how := if e.FcmAck? then ByAck(e.data) else ByNack;
    var st := if e.FcmAck? then Delivered else DeliveryFailed;
    var s1 := s.(pc := FinishRow(Fcm, m, st, how));
    assert Begin(s, e) == s1;
    hide Exec, Begin, Drain, Remove, Next, FindByFcmId, RemoveByFcmId, ToFcm;
    EndingRuns(s1, m, st, how);
  }

  /** The counter after the removal of q. */
  function PendingWithout(m: Mgr, q: SeqId): nat
    requires q in m.messages
  {
    if m.messages[q].state == PendingAck && m.pending != 0 then m.pending - 1 else m.pending
  }

  /** p is the least NEW message that heads its group once q is gone, and the limit lets it out. */
  ghost predicate ComesNext(m: Mgr, q: SeqId, p: SeqId)
    requires q in m.messages
  {
    && PendingWithout(m, q) < MAX_PENDING_MESSAGES
    && p in m.messages && p != q && m.messages[p].state == New && HeadWithout(m, {q}, p)
    && forall r :: r in m.messages && r != q && m.messages[r].state == New && HeadWithout(m, {q}, r) ==> p <= r
  }

  lemma NextAfterRemoval(m: Mgr, q: SeqId, p: SeqId)
    requires Valid(m) && q in m.messages
    ensures Next(Remove(m, q).0) == Some(p) <==> ComesNext(m, q, p)
  {
    RemoveKeepsValid(m, q);
    var n := Remove(m, q).0;
    assert n.pending == PendingWithout(m, q);
    hide Remove, Valid;
    forall r | r in n.messages ensures HeadOfGroup(n, r) <==> HeadWithout(m, {q}, r) { }
    if Next(n).Some? { NextIsLeast(n, Next(n).value); }
    NextIsNone(n);
    hide Next;
    if ComesNext(m, q, p) {
      assert p in n.messages && HeadOfGroup(n, p);
      assert Next(n).Some?;
      var r := Next(n).value;
      assert ComesNext(m, q, r);
    }
  }

  /** What the end of the message with FCM id f lets out: at most one message. */
  ghost function Replacement(m: Mgr, f: FcmId): set<SeqId> {
    if FindByFcmId(m, f).None? then {}
    else
      var q := FindByFcmId(m, f).value.id;
      set p | p in m.messages && q in m.messages && ComesNext(m, q, p)
  }

  lemma EndingSends(s: State, e: Event)
    requires Valid(s.fcm) && Boundary(s) && Ends(e)
    ensures var t := Handled(s, e); Grows(s, t) && ToFcm(News(s, t)) == Replacement(s.fcm, e.fcmId)
  {
    if FindByFcmId(s.fcm, e.fcmId).None? {
      assert Begin(s, e) == s;
      NothingToRun(s);
      NoNews(s, s);
    } else {
      EndingEffect(s, e);
      var q := FindByFcmId(s.fcm, e.fcmId).value.id;
      hide Handled, FindByFcmId, ComesNext, Next, Remove, Valid, ToFcm, News;
      forall p ensures p in Replacement(s.fcm, e.fcmId) <==> Next(Remove(s.fcm, q).0) == Some(p) {
        NextAfterRemoval(s.fcm, q, p);
        InReplacement(s.fcm, e.fcmId, p);
      }
    }
  }

  lemma InReplacement(m: Mgr, f: FcmId, p: SeqId)
    requires FindByFcmId(m, f).Some? && FindByFcmId(m, f).value.id in m.messages
    ensures p in Replacement(m, f) <==> ComesNext(m, FindByFcmId(m, f).value.id, p)
  {
  }

  // ---------------------------------------------------------------- every handler

  /** The sweep that e starts erases from its map. */
  ghost predicate Erases(s: State, e: Event) {
    match e
    case FcmUp => Erasing(s.fcm, Fcm, s.fcm.messages.Keys)
    case BalUp(b) => b in s.bals && Erasing(s.bals[b], Bal(b), s.bals[b].messages.Keys)
    case _ => false
  }

  /** The downstream messages that head their group. */
  ghost function Heads(m: Mgr): set<SeqId> {
    set q | q in m.messages && m.messages[q].kind == Downstream && HeadOfGroup(m, q)
  }

  /** What the handler of e sends to FCM, in terms of the state before it. */
  ghost function SentBy(s: State, e: Event): set<SeqId> {
    match e
    case Upload(_, group, _, _) => if !AtLimit(s.fcm) && GroupFree(s.fcm, group) then {s.ctr + 1} else {}
    case FcmAck(f, _) => Replacement(s.fcm, f)
    case FcmNack(f, retryable) => if retryable then {} else Replacement(s.fcm, f)
    case FcmUp => if AtLimit(s.fcm) then {} else Heads(s.fcm)
    case TimerFires(t) => if t.k == Fcm then {t.q} else {}
    case _ => {}
  }

  ghost predicate SendsAsSaid(s: State, e: Event)
    requires Boundary(s) && Allowed(s, e)
  {
    Grows(s, Handled(s, e)) && ToFcm(News(s, Handled(s, e))) == SentBy(s, e)
  }

  lemma UploadSends(s: State, e: Event)
    requires Base(s) && Boundary(s) && Allowed(s, e) && e.Upload?
    ensures SendsAsSaid(s, e)
  {
    hide Begin, Drain, Add, CanSend, Put, CountUp, Valid, GroupFree, Base, ToFcm, News;
    BaseNextIsFree(s);
    UploadExact(s, e);
    AddedCanSend(s.fcm, UploadMsg(s, e));
    if Handled(s, e).sent == s.sent {
      NoNews(s, Handled(s, e));
    } else {
      OneNews(s, Handled(s, e), Fcm, s.ctr + 1);
    }
  }

  lemma ToFcmSweep(qs: seq<SeqId>)
    ensures forall q :: q in ToFcm(Sends(Fcm, qs)) <==> q in qs
  {
    var x := Sends(Fcm, qs);
    assert forall i :: 0 <= i < |qs| ==> x[i] == Sent(Fcm, qs[i]);
    forall q | q in qs ensures q in ToFcm(x) {
      var i :| 0 <= i < |qs| && qs[i] == q;
      assert x[i] == Sent(Fcm, q) && x[i] in x;
    }
  }

  lemma FcmUpSends(s: State)
    requires Base(s) && Boundary(s) && !Erases(s, FcmUp)
    ensures SendsAsSaid(s, FcmUp)
  {
    FcmErasing(s.fcm);
    hide Base, Handled, Erasing, NoneSpent, ToFcm;
    FcmSweepExactly(s);
    var t, qs := Handled(s, FcmUp), SweptSends(s.fcm, Fcm, s.fcm.messages.Keys);
    assert News(s, t) == Sends(Fcm, qs);
    ToFcmSweep(qs);
    hide SweptSends, Sends, Ascending, HeadOfGroup, News;
    assert forall q :: q in ToFcm(News(s, t)) <==> q in SentBy(s, FcmUp);
  }

  lemma SilentHandler(s: State, e: Event)
    requires Boundary(s) && Allowed(s, e) && Silent(Begin(s, e)) && Begin(s, e).sent == s.sent && SentBy(s, e) == {}
    ensures SendsAsSaid(s, e)
  {
    hide Begin, Silent, ToFcm, News, Drain, SentBy;
    SilentDrain(Begin(s, e));
    NoNews(s, Begin(s, e));
    NewsTrans(s, Begin(s, e), Handled(s, e));
  }

  lemma RetrySends(s: State, e: Event)
    requires Boundary(s) && e.FcmNack? && e.retryable
    ensures SendsAsSaid(s, e)
  {
    assert Silent(Begin(s, e)) && Begin(s, e).sent == s.sent by { hide FindByFcmId, Put; }
    SilentHandler(s, e);
  }

  lemma TimerSends(s: State, e: Event)
    requires Boundary(s) && Allowed(s, e) && e.TimerFires?
    ensures SendsAsSaid(s, e)
  {
    NothingToRun(Begin(s, e));
    OneNews(s, Handled(s, e), e.t.k, e.t.q);
  }

  /** For every handler but a sweep that erases under its iterator: exactly what it sends to FCM. */
  lemma SendsExactly(s: State, e: Event)
    requires Base(s) && Boundary(s) && Allowed(s, e) && !Erases(s, e)
    ensures Grows(s, Handled(s, e)) && ToFcm(News(s, Handled(s, e))) == SentBy(s, e)
  {
    BaseMgr(s, Fcm);
    hide Base, Erases, Valid;
    match e
    case Upload(_, _, _, _) => UploadSends(s, e);
    case FcmAck(_, _) => EndingSends(s, e);
    case FcmNack(_, retryable) => if retryable { RetrySends(s, e); } else { EndingSends(s, e); }
    case FcmUp => FcmUpSends(s);
    case TimerFires(_) => TimerSends(s, e);
    case _ => SilentHandler(s, e);
  }

  // ---------------------------------------------------------------- the same message again

  lemma NotYetSent(s: State)
    requires Base(s)
    ensures !WasSent(s, s.ctr + 1)
  {
  }

  /** Between reconnects a message that was sent goes out again exactly by its retry timer, or when the end of
      another message lets it out because it is still NEW: sendNextPending does not mark what it sends. */
  lemma SentAgainExactly(s: State, e: Event, q: SeqId)
    requires Base(s) && Boundary(s) && Allowed(s, e) && e != FcmUp && !Erases(s, e) && WasSent(s, q)
    ensures Grows(s, Handled(s, e))
    ensures q in ToFcm(News(s, Handled(s, e))) <==>
      e == TimerFires(Timer(Fcm, q)) || (Ends(e) && q in Replacement(s.fcm, e.fcmId))
  {
    NotYetSent(s);
    hide Base, Handled, Replacement, GroupFree, Erases, WasSent, ToFcm, News;
    SendsExactly(s, e);
  }

  /** What one end let out, the end of another message p lets out again, unless that frees an older one of p's group. */
  lemma LetOutAgain(m: Mgr, p: SeqId, q: SeqId)
    requires Valid(m) && Next(m) == Some(q) && p in m.messages && p != q
    ensures Next(Remove(m, p).0) == Some(q) <==>
      !exists r :: r in m.messages && r != p && r < q && m.messages[r].state == New && HeadWithout(m, {p}, r)
  {
    NextIsLeast(m, q);
    NextAfterRemoval(m, p, q);
    hide Next, Remove, Valid;
  }
}
