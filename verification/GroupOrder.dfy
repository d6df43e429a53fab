/** Strict order inside a group, from one start of the daemon to the next. */
module GroupOrder {
  import opened Core
  import opened MessageManager
  import opened Delivery
  import opened Durability
  import opened Structure
  import opened Handlers

  ghost predicate WasSent(s: State, q: SeqId) {
    Sent(Fcm, q) in s.sent
  }

  /** Accepted since the last start, and so with its group in memory. */
  predicate Recent(s: State, q: SeqId) {
    q > s.epoch
  }

  // ---------------------------------------------------------------- what FCM and the load are assumed to do

  /** FCM nacks only what it was sent, and a sweep over the FCM queue does not meet the pending limit. */
  ghost predicate Orderly(s: State, l: Label) {
    && (l.Handle? && l.e.FcmNack? && l.e.fcmId in s.fcm.index ==>
          Recent(s, s.fcm.index[l.e.fcmId]) ==> WasSent(s, s.fcm.index[l.e.fcmId]))
    && (l == Run && s.pc.Idle? && s.loop.Sweeping? && s.loop.k == Fcm && s.loop.rest != {} ==>
          s.fcm.pending < MAX_PENDING_MESSAGES)
  }

  // ---------------------------------------------------------------- invariant

  predicate Sending(pc: Pc) {
    (pc.MarkRow? || pc.MarkMem? || pc.CountOne? || pc.Emit?) && pc.k == Fcm
  }

  /** A message on its way out is the head of its group; a retry timer belongs to a message that was sent. */
  ghost predicate Order(s: State) {
    && (Sending(s.pc) ==> Live(s, Fcm, s.pc.q) && HeadOfGroup(s.fcm, s.pc.q))
    && (forall q :: Timer(Fcm, q) in s.timers && Recent(s, q) ==> WasSent(s, q))
  }

  /** Memory and table agree on the group of what was accepted since the start; reloaded messages have none. */
  ghost predicate GroupsKnown(s: State) {
    && s.epoch <= s.ctr
    && (s.pc.SaveNew? || s.pc.AckUpstream? || s.pc.AddNew? ==> Recent(s, s.pc.m.id))
    && (forall q :: q in s.fcm.messages && q in s.rows ==>
          s.fcm.messages[q].group == if Recent(s, q) then s.rows[q].group else "")
  }

  // ---------------------------------------------------------------- sends of one statement

  lemma RetryOrder(s: State, q: SeqId)
    requires Inv(s) && Order(s) && s.pc == Idle && Live(s, Fcm, q)
    requires Recent(s, q) ==> WasSent(s, q)
    ensures Order(Retry(s, Fcm, s.fcm.messages[q]))
  {
    LiveIsRow(s, Fcm, q);
  }

  lemma FcmValid(s: State)
    requires Inv(s)
    ensures Valid(s.fcm)
  {
    assert MgrInv(s, Fcm);
  }

  lemma NackedWasSent(s: State, e: Event)
    requires Orderly(s, Handle(e)) && Retries(s, e) && Valid(s.fcm)
    ensures Recent(s, s.fcm.index[e.fcmId]) ==> WasSent(s, s.fcm.index[e.fcmId])
  {
  }

  lemma TimerOrder(s: State, e: Event)
    requires Order(s) && Boundary(s) && Allowed(s, e) && e.TimerFires?
    ensures Order(Begin(s, e))
    ensures forall q :: WasSent(Begin(s, e), q) && !WasSent(s, q) ==> !Recent(s, q)
  {
    var t := Begin(s, e);
    assert t.sent == s.sent + [Sent(e.t.k, e.t.q)] && t.fcm == s.fcm && t.timers == s.timers - multiset{e.t};
    hide Begin;
    forall q | Timer(Fcm, q) in t.timers && Recent(t, q) ensures WasSent(t, q) {
      assert Timer(Fcm, q) in s.timers;
    }
    assert e.t.k == Fcm ==> e.t == Timer(Fcm, e.t.q);
  }

  lemma BeginOrder(s: State, e: Event)
    requires Inv(s) && Order(s) && Boundary(s) && Allowed(s, e) && Orderly(s, Handle(e))
    ensures Order(Begin(s, e))
    ensures forall q :: WasSent(Begin(s, e), q) && !WasSent(s, q) ==> !Recent(s, q)
  {
    hide Begin, Inv, FindByFcmId;
    BeginCases(s, e);
    if Retries(s, e) {
      hide Order, Retry;
      FcmValid(s);
      FoundIn(s.fcm, e.fcmId);
      assert Live(s, Fcm, s.fcm.index[e.fcmId]);
      NackedWasSent(s, e);
      RetryOrder(s, s.fcm.index[e.fcmId]);
    } else if e.TimerFires? {
      TimerOrder(s, e);
    } else if Creates(e) {
      BeginCreates(s, e);
    } else {
      BeginOthers(s, e);
    }
  }

  /** Either nothing new goes to FCM, or one message that is live and heads its group. */
  ghost predicate SendsHead(s: State, t: State) {
    forall q :: WasSent(t, q) && !WasSent(s, q) ==> Live(s, Fcm, q) && HeadOfGroup(s.fcm, q)
  }

  lemma FcmTurnOrder(s: State)
    requires Inv(s) && Order(s) && s.pc == Idle && s.loop.Sweeping? && s.loop.k == Fcm && Orderly(s, Run)
    ensures Order(SweepTurn(s)) && SendsHead(s, SweepTurn(s))
  {
    assert MgrInv(s, Fcm);
    if s.loop.rest != {} {
      var q := Least(s.loop.rest);
      LookupsSucceed(s.fcm, q);
      LiveIsRow(s, Fcm, q);
      GroupRuleIsHead(s.fcm, q);
    }
  }

  lemma BalTurnOrder(s: State)
    requires Inv(s) && Order(s) && s.pc == Idle && s.loop.Sweeping? && s.loop.k != Fcm
    ensures Order(SweepTurn(s)) && SendsHead(s, SweepTurn(s))
  {
    var k := s.loop.k;
    assert MgrInv(s, k);
    if s.loop.rest != {} {
      var q := Least(s.loop.rest);
      LookupsSucceed(MgrAt(s, k), q);
      LiveIsRow(s, k, q);
    }
  }

  lemma TrySendOrder(s: State)
    requires Inv(s) && Order(s) && s.pc.TrySend?
    ensures Order(Exec(s)) && SendsHead(s, Exec(s))
  {
    assert MgrInv(s, s.pc.k);
    GroupRuleIsHead(MgrAt(s, s.pc.k), s.pc.q);
  }

  lemma SendNextOrder(s: State)
    requires Inv(s) && Order(s) && s.pc.SendNext?
    ensures Order(Exec(s)) && SendsHead(s, Exec(s))
  {
    var m := MgrAt(s, s.pc.k);
    assert MgrInv(s, s.pc.k);
    if Next(m).Some? {
      NextIsLeast(m, Next(m).value);
    }
  }

  /** On the way to a send the message stays where it is. */
  lemma MarkingOrder(s: State)
    requires Inv(s) && Order(s) && (s.pc.MarkRow? || s.pc.MarkMem? || s.pc.CountOne?)
    ensures Order(Exec(s)) && Exec(s).sent == s.sent
  {
    if s.pc.MarkMem? {
      LiveIsRow(s, s.pc.k, s.pc.q);
    }
  }

  lemma SilentOrder(s: State)
    requires Inv(s) && Order(s) && !Boundary(s)
    requires !s.pc.Idle? && !s.pc.TrySend? && !s.pc.SendNext? && !s.pc.Emit?
    requires !s.pc.MarkRow? && !s.pc.MarkMem? && !s.pc.CountOne?
    ensures Order(Exec(s)) && Exec(s).sent == s.sent
  {
    assert !Sending(Exec(s).pc);
    hide Exec;
  }

  lemma EmitOrder(s: State)
    requires Inv(s) && Order(s) && s.pc.Emit?
    ensures Order(Exec(s)) && SendsHead(s, Exec(s))
  {
  }

  lemma ExecOrder(s: State)
    requires Inv(s) && Order(s) && !Boundary(s) && Orderly(s, Run)
    ensures Order(Exec(s)) && SendsHead(s, Exec(s))
  {
    hide HeadOfGroup, MgrInv;
    if s.pc.Idle? {
      if s.loop.k == Fcm { FcmTurnOrder(s); } else { BalTurnOrder(s); }
      assert Exec(s) == SweepTurn(s);
    } else {
      hide Exec, PcInv, LoopInv, Order;
      if s.pc.TrySend? {
        TrySendOrder(s);
      } else if s.pc.SendNext? {
        SendNextOrder(s);
      } else if s.pc.Emit? {
        EmitOrder(s);
      } else if s.pc.MarkRow? || s.pc.MarkMem? || s.pc.CountOne? {
        MarkingOrder(s);
      } else {
        SilentOrder(s);
      }
    }
  }

  // ---------------------------------------------------------------- groups in memory and in the table

  /** A sweep turn keeps every message of the FCM manager and its group. */
  lemma TurnKeepsGroups(s: State, q: SeqId)
    requires Inv(s) && s.pc.Idle? && s.loop.Sweeping? && q in SweepTurn(s).fcm.messages
    ensures q in s.fcm.messages && s.fcm.messages[q].group == SweepTurn(s).fcm.messages[q].group
  {
    assert MgrInv(s, Fcm);
    hide Exec, Begin, SweepTurn, Retry;
  }

  /** Any other statement keeps them too, unless it adds the message in hand. */
  lemma StatementKeepsGroups(s: State, q: SeqId)
    requires Inv(s) && !s.pc.Idle? && q in Exec(s).fcm.messages
    ensures s.pc == AddNew(Fcm, Exec(s).fcm.messages[q]) ||
      (q in s.fcm.messages && s.fcm.messages[q].group == Exec(s).fcm.messages[q].group)
  {
    if s.pc.Drop? {
      DropRemoves(s);
    } else if s.pc.MarkMem? {
      LiveIsRow(s, s.pc.k, s.pc.q);
    } else if !s.pc.AddNew? && !s.pc.CountOne? && !s.pc.ResendCount? {
      hide Exec;
    }
  }

  lemma ExecKnowsGroups(s: State)
    requires Inv(s) && GroupsKnown(s) && !Boundary(s)
    ensures GroupsKnown(Exec(s))
  {
    var t := Exec(s);
    assert s.pc.Idle? ==> t == SweepTurn(s);
    ExecAdvancesRows(s);
    hide Exec, Proper;
    forall q | q in t.fcm.messages && q in t.rows
      ensures t.fcm.messages[q].group == if Recent(t, q) then t.rows[q].group else ""
    {
      if s.pc.Idle? { TurnKeepsGroups(s, q); } else { StatementKeepsGroups(s, q); }
      if q in s.fcm.messages {
        assert Live(s, Fcm, q);
        LiveIsRow(s, Fcm, q);
      }
    }
  }

  lemma BeginKnowsGroups(s: State, e: Event)
    requires Inv(s) && GroupsKnown(s) && Boundary(s) && Allowed(s, e)
    ensures GroupsKnown(Begin(s, e))
  {
    hide Begin, Inv, Valid;
    FcmValid(s);
    BeginKeepsGroups(s, e);
    BeginCounts(s, e);
    var t := Begin(s, e);
    forall q | q in t.fcm.messages && q in t.rows
      ensures t.fcm.messages[q].group == if Recent(t, q) then t.rows[q].group else ""
    {
      assert s.fcm.messages[q].group == if Recent(s, q) then s.rows[q].group else "";
    }
  }

  lemma BeginCounts(s: State, e: Event)
    requires Boundary(s) && Allowed(s, e) && s.epoch <= s.ctr
    ensures var t := Begin(s, e); t.epoch <= t.ctr && !t.pc.AckUpstream? && !t.pc.AddNew? && (t.pc.SaveNew? ==>
      Recent(t, t.pc.m.id))
  {
  }

  lemma BeginKeepsGroups(s: State, e: Event)
    requires Valid(s.fcm) && Boundary(s) && Allowed(s, e)
    ensures forall q :: q in Begin(s, e).fcm.messages ==>
      q in s.fcm.messages && Begin(s, e).fcm.messages[q].group == s.fcm.messages[q].group
  {
    if e.FcmNack? && FindByFcmId(s.fcm, e.fcmId).Some? {
      FoundIsLive(s.fcm, e.fcmId);
      hide Valid;
    } else {
      assert Begin(s, e).fcm == s.fcm;
    }
  }

  // ---------------------------------------------------------------- results

  lemma StepOrder(s: State, l: Label, s': State)
    requires Inv(s) && Order(s) && GroupsKnown(s) && Step(s, l, s') && Orderly(s, l)
    ensures Order(s') && GroupsKnown(s')
    ensures l != Crash ==>
      forall q :: WasSent(s', q) && !WasSent(s, q) && Recent(s, q) ==> Live(s, Fcm, q) && HeadOfGroup(s.fcm, q)
  {
    hide Exec, Begin, HeadOfGroup, Inv;
    match l
    case Handle(e) => BeginOrder(s, e); BeginKnowsGroups(s, e);
    case Run => ExecOrder(s); ExecKnowsGroups(s);
    case DbFailure =>
    case Crash =>
      assert LoadedFrom(s'.rows, FCM, s'.fcm);
      forall q | q in s'.fcm.messages ensures !Recent(s', q) && s'.fcm.messages[q].group == "" {
        assert FromRow(s'.fcm.messages[q], q, s'.rows[q]);
        assert q in PendingFor(s'.rows, FCM);
      }
  }

  ghost predicate OrderlyRun(ss: seq<State>, ls: seq<Label>) {
    && IsRun(ss, ls)
    && (forall n :: 0 <= n < |ss| ==> Proper(ss[n]))
    && (forall n {:trigger ls[n]} :: 0 <= n < |ls| ==> Orderly(ss[n], ls[n]))
  }

  lemma {:induction false} RunOrder(ss: seq<State>, ls: seq<Label>, i: nat)
    requires OrderlyRun(ss, ls) && i < |ss|
    ensures Order(ss[i]) && GroupsKnown(ss[i])
  {
    hide Exec, Begin, Inv, Proper, Step, Orderly;
    if i > 0 {
      RunOrder(ss, ls, i - 1);
      RunKeeps(ss, ls, i - 1);
      assert ls[i - 1] == ls[i - 1];
      StepOrder(ss[i - 1], ls[i - 1], ss[i]);
    }
  }

  /** A message accepted since the last start is sent for the first time only while no older message
      of its group that was also accepted since then is still live. The group is the stored one. */
  lemma FirstSendInOrder(ss: seq<State>, ls: seq<Label>, i: nat, q: SeqId, p: SeqId)
    requires OrderlyRun(ss, ls) && i < |ls| && ls[i] != Crash
    requires !WasSent(ss[i], q) && WasSent(ss[i + 1], q) && Recent(ss[i], q)
    requires Live(ss[i], Fcm, p) && p < q && p in ss[i].rows && q in ss[i].rows
    requires ss[i].rows[p].group == ss[i].rows[q].group != ""
    ensures !Recent(ss[i], p)
  {
    hide Exec, Begin, Step;
    RunOrder(ss, ls, i);
    RunKeeps(ss, ls, i);
    StepOrder(ss[i], ls[i], ss[i + 1]);
  }

  /** Hence, when the start reloaded no message of the group, its first sends follow the order of receipt. */
  lemma StrictOrderWhenNothingReloaded(ss: seq<State>, ls: seq<Label>, i: nat, q: SeqId)
    requires OrderlyRun(ss, ls) && i < |ls| && ls[i] != Crash
    requires !WasSent(ss[i], q) && WasSent(ss[i + 1], q) && Recent(ss[i], q)
    requires q in ss[i].rows && ss[i].rows[q].group != ""
    requires forall p :: Live(ss[i], Fcm, p) && p in ss[i].rows && ss[i].rows[p].group == ss[i].rows[q].group ==>
      Recent(ss[i], p)
    ensures forall p :: Live(ss[i], Fcm, p) && p in ss[i].rows && ss[i].rows[p].group == ss[i].rows[q].group ==> q <= p
  {
    hide Exec, Begin, Step, Proper, Orderly;
    forall p | Live(ss[i], Fcm, p) && p in ss[i].rows && ss[i].rows[p].group == ss[i].rows[q].group
      ensures q <= p
    {
      if p < q {
        FirstSendInOrder(ss, ls, i, q, p);
        assert false;
      }
    }
  }

  /** The exact condition for strict order: when a message accepted since the start is sent for the first time, no
      live message of its stored group is older if and only if no live message of that group was reloaded. */
  lemma StrictOrderExactly(ss: seq<State>, ls: seq<Label>, i: nat, q: SeqId)
    requires OrderlyRun(ss, ls) && i < |ls| && ls[i] != Crash
    requires !WasSent(ss[i], q) && WasSent(ss[i + 1], q) && Recent(ss[i], q)
    requires q in ss[i].rows && ss[i].rows[q].group != ""
    ensures (forall p :: Live(ss[i], Fcm, p) && p in ss[i].rows && ss[i].rows[p].group == ss[i].rows[q].group ==>
      q <= p) <==>
      (forall p :: Live(ss[i], Fcm, p) && p in ss[i].rows && ss[i].rows[p].group == ss[i].rows[q].group ==>
        Recent(ss[i], p))
  {
    hide Exec, Begin, Step, Proper, Orderly, Init;
    if forall p :: Live(ss[i], Fcm, p) && p in ss[i].rows && ss[i].rows[p].group == ss[i].rows[q].group ==>
      Recent(ss[i], p) {
      StrictOrderWhenNothingReloaded(ss, ls, i, q);
    }
  }

  // ---------------------------------------------------------------- where strict order stops

  /** The next sequence id is free. */
  ghost predicate NextIsFree(s: State) {
    Kept(s.fcm, s.ctr) && forall q :: q in s.rows ==> q <= s.ctr
  }

  lemma BaseNextIsFree(s: State)
    requires Base(s)
    ensures NextIsFree(s)
  {
    BaseMgr(s, Fcm);
  }

  lemma InvNextIsFree(s: State)
    requires Inv(s)
    ensures NextIsFree(s)
  {
    forall p | p in s.fcm.messages ensures p <= s.ctr && Unfinished(s.fcm.messages[p].state) {
      assert Live(s, Fcm, p);
      LiveIsRow(s, Fcm, p);
    }
    FcmValid(s);
  }

  /** Upload handler, first half: the message is stored and queued. */
  lemma UploadIsQueued(s: State, e: Event)
    requires NextIsFree(s) && Boundary(s) && Allowed(s, e) && e.Upload?
    ensures var m := Msg(s.ctr + 1, Downstream, e.fcmId, e.group, e.session, FCM, e.payload, New, 0, -1);
      && m.id !in s.fcm.messages && Valid(Add(s.fcm, m)) && Add(s.fcm, m).messages == s.fcm.messages[m.id := m]
      && Drain(Begin(s, e)) ==
        Drain(s.(ctr := m.id, rows := s.rows[m.id := RowOf(m)], fcm := Add(s.fcm, m), pc := TrySend(Fcm, m.id)))
  {
    hide Exec, Drain;
    var m := Msg(s.ctr + 1, Downstream, e.fcmId, e.group, e.session, FCM, e.payload, New, 0, -1);
    assert m.id !in s.rows;
    AddKeepsValid(s.fcm, m);
    var s1 := s.(ctr := m.id, pc := SaveNew(Fcm, m, None));
    assert Begin(s, e) == s1;
    hide Begin, Add;
    RunSave(s1);
    RunAdd(SaveRow(s1, m, None).(pc := AddNew(Fcm, m)));
  }

  /** Upload handler, second half: it sends the message exactly when the rules allow it. */
  lemma QueuedIsTried(s: State, q: SeqId)
    requires s.pc == TrySend(Fcm, q) && s.loop == NoLoop && q in s.fcm.messages && s.fcm.messages[q].id == q
    ensures var ok := CanSend(s.fcm, s.fcm.messages[q]) == Sendable;
      && Drain(s).sent == (if ok then s.sent + [Sent(Fcm, q)] else s.sent)
      && Drain(s).fcm == (if ok then CountUp(Put(s.fcm, s.fcm.messages[q].(state := PendingAck))) else s.fcm)
      && Drain(s).fcm.messages.Keys == s.fcm.messages.Keys
      && Drain(s).rows == (if ok then SetRow(s, q, PendingAck).rows else s.rows)
      && Drain(s) == s.(rows := Drain(s).rows, fcm := Drain(s).fcm, sent := Drain(s).sent, pc := Idle)
  {
    hide Exec, Drain, CanSend;
    RunTry(s);
    if CanSend(s.fcm, s.fcm.messages[q]) == Sendable {
      var s1 := s.(pc := MarkRow(Fcm, q));
      RunMarkRow(s1);
      var s2 := SetRow(s1, q, PendingAck).(pc := MarkMem(Fcm, q));
      RunMarkMem(s2);
      var s3 := s2.(fcm := Put(s2.fcm, s2.fcm.messages[q].(state := PendingAck)), pc := CountOne(Fcm, q));
      RunCount(s3);
      var s4 := s3.(fcm := CountUp(s3.fcm), pc := Emit(Fcm, q));
      RunEmit(s4);
      NothingToRun(Emitted(s4, Fcm, q).(pc := Idle));
    } else {
      NothingToRun(s.(pc := Idle));
    }
  }

  function UploadMsg(s: State, e: Event): Msg
    requires e.Upload?
  {
    Msg(s.ctr + 1, Downstream, e.fcmId, e.group, e.session, FCM, e.payload, New, 0, -1)
  }

  /** All that an upload does to the FCM manager and to what was sent. */
  lemma UploadExact(s: State, e: Event)
    requires NextIsFree(s) && Boundary(s) && Allowed(s, e) && e.Upload?
    ensures var m := UploadMsg(s, e); var a := Add(s.fcm, m); var u := Drain(Begin(s, e));
      && m.id !in s.fcm.messages
      && u.fcm == (if CanSend(a, m) == Sendable then CountUp(Put(a, m.(state := PendingAck))) else a)
      && u.fcm.messages.Keys == s.fcm.messages.Keys + {m.id}
      && u.sent == (if CanSend(a, m) == Sendable then s.sent + [Sent(Fcm, m.id)] else s.sent)
      && u.rows == s.rows[m.id := RowOf(m.(state := if CanSend(a, m) == Sendable then PendingAck else New))]
      && u == s.(ctr := m.id, rows := u.rows, fcm := u.fcm, sent := u.sent)
  {
    hide Exec, Begin, Drain, Add, Valid, CanSend;
    UploadIsQueued(s, e);
    var m := UploadMsg(s, e);
    QueuedIsTried(s.(ctr := m.id, rows := s.rows[m.id := RowOf(m)], fcm := Add(s.fcm, m), pc := TrySend(Fcm, m.id)),
      m.id);
  }

  ghost predicate GroupFree(m: Mgr, group: GroupId) {
    group != "" ==> forall p :: p in m.messages ==> m.messages[p].group != group
  }

  lemma AddedCanSend(m: Mgr, msg: Msg)
    requires Valid(m) && msg.id !in m.messages && msg.state == New && forall p :: p in m.messages ==> p < msg.id
    ensures CanSend(Add(m, msg), msg) == Sendable <==> m.pending < MAX_PENDING_MESSAGES && GroupFree(m, msg.group)
  {
    AddKeepsValid(m, msg);
    GroupRuleIsHead(Add(m, msg), msg.id);
  }

  /** An uploaded message is sent at once if and only if the counter is below the limit and no live
      message in memory carries its group. */
  lemma UploadSentAtOnce(s: State, e: Event)
    requires Inv(s) && Boundary(s) && Allowed(s, e) && e.Upload? && !WasSent(s, s.ctr + 1)
    ensures s.fcm.messages.Keys <= Drain(Begin(s, e)).fcm.messages.Keys
    ensures WasSent(Drain(Begin(s, e)), s.ctr + 1) <==>
      s.fcm.pending < MAX_PENDING_MESSAGES && GroupFree(s.fcm, e.group)
  {
    hide Begin, Drain, GroupFree, CanSend, Add, Put, CountUp, Valid;
    InvNextIsFree(s);
    UploadExact(s, e);
    AddedCanSend(s.fcm, UploadMsg(s, e));
  }

  /** The family that breaks strict order: a group whose messages were all reloaded. Its next message
      goes out at once, with every reloaded message of the stored group still live before it. */
  lemma ReloadedGroupIsOvertaken(s: State, e: Event, p: SeqId)
    requires Inv(s) && GroupsKnown(s) && Boundary(s) && Allowed(s, e) && e.Upload? && !WasSent(s, s.ctr + 1)
    requires s.fcm.pending < MAX_PENDING_MESSAGES
    requires p in s.fcm.messages && p in s.rows && s.rows[p].group == e.group != ""
    requires forall r :: r in s.fcm.messages && r in s.rows && s.rows[r].group == e.group ==> !Recent(s, r)
    ensures WasSent(Drain(Begin(s, e)), s.ctr + 1) && p in Drain(Begin(s, e)).fcm.messages && p < s.ctr + 1
  {
    hide Exec, Begin, Drain;
    forall r | r in s.fcm.messages ensures s.fcm.messages[r].group != e.group && r <= s.ctr {
      assert Live(s, Fcm, r);
      LiveIsRow(s, Fcm, r);
    }
    UploadSentAtOnce(s, e);
  }
}
