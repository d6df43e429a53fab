/** What each handler leaves when nothing interrupts it, column by column: the rows it adds and changes, the queues, the
    sends, and that nothing else moves (application.cpp). */
module Effects {
  import opened Core
  import opened MessageManager
  import opened Delivery
  import opened Durability
  import opened Structure
  import opened Handlers
  import opened Reach
  import opened GroupOrder
  import opened Traffic
  import opened Filing

  // ---------------------------------------------------------------- a message for a BAL session

  /** The session is known and its counter lets a message out. */
  predicate GoesToBal(s: State, b: SessionId) { b in s.bals && !AtLimit(s.bals[b]) }

  /** The queue of b with the message m, which was sent or not. */
  ghost predicate Queued(was: Mgr, now: Mgr, m: Msg, sent: bool) {
    && now.messages == was.messages[m.id := m.(state := if sent then PendingAck else New)]
    && now.groups == was.groups && now.pending == was.pending + (if sent then 1 else 0)
    && now.index == if m.fcmId in was.index then was.index else was.index[m.fcmId := m.id]
  }

  /** The queues of t: only b's has changed, by m; none has when b is unknown. */
  ghost predicate OnlyQueued(s: State, t: State, b: SessionId, m: Msg) {
    && t.bals.Keys == s.bals.Keys
    && (forall a :: a in s.bals && a != b ==> t.bals[a] == s.bals[a])
    && (b in s.bals ==> Queued(s.bals[b], t.bals[b], m, GoesToBal(s, b)))
  }

  /** The row of a message for b is PENDING_ACK exactly when the message was sent. */
  function Stored(s: State, b: SessionId, m: Msg): Row {
    RowOf(m.(state := if GoesToBal(s, b) then PendingAck else New))
  }

  function SentOn(s: State, b: SessionId, q: SeqId): seq<Send> { if GoesToBal(s, b) then [Sent(Bal(b), q)] else [] }

  lemma UngroupedGoes(m: Mgr, msg: Msg)
    requires msg.group == "" && msg.state == New
    ensures CanSend(Add(m, msg), msg) == Sendable <==> !AtLimit(m)
    ensures Add(m, msg).pending == m.pending && Add(m, msg).groups == m.groups
    ensures Add(m, msg).index == if msg.fcmId in m.index then m.index else m.index[msg.fcmId := msg.id]
    ensures msg.id !in m.messages ==> Add(m, msg).messages == m.messages[msg.id := msg]
  {
  }

  /** Storing a message for a session and sending it on, from the first statement. */
  lemma ForwardRuns(s: State, b: SessionId, m: Msg, about: Option<SeqId>)
    requires s.pc == SaveNew(Bal(b), m, about) && s.loop == NoLoop && m.id !in s.rows
    requires m.group == "" && m.state == New && (b in s.bals ==> m.id !in s.bals[b].messages)
    ensures var t := Drain(s);
      && t == s.(rows := s.rows[m.id := Stored(s, b, m)], bals := t.bals, sent := s.sent + SentOn(s, b, m.id),
        pc := Idle, acked := if m.kind == Upstream then s.acked + {m.fcmId} else s.acked,
        notices := if about.Some? then s.notices[m.id := about.value] else s.notices)
      && OnlyQueued(s, t, b, m)
  {
    hide Exec, Drain, Becomes, OnlyQueued, Stored, SentOn;
    var k := Bal(b);
    RunSave(s);
    var s1 := SaveRow(s, m, about).(pc := if m.kind == Upstream then AckUpstream(k, m) else AddNew(k, m));
    BecomesDrains(s, s1);
    var s2 := s1.(pc := AddNew(k, m), acked := if m.kind == Upstream then s.acked + {m.fcmId} else s.acked);
    if m.kind == Upstream {
      RunAckUpstream(s1);
      BecomesDrains(s1, s2);
    }
    ForwardAdded(s2, b, m);
    SameQueues(s, s2, Drain(s2), b, m);
    assert s.rows[m.id := RowOf(m)][m.id := Stored(s, b, m)] == s.rows[m.id := Stored(s, b, m)];
  }

  /** The queue after the message was added, and after it was marked and counted. */
  lemma QueuedBoth(was: Mgr, m: Msg)
    requires m.group == "" && m.state == New && m.id !in was.messages
    ensures Queued(was, Add(was, m), m, false)
    ensures Queued(was, CountUp(Put(Add(was, m), m.(state := PendingAck))), m, true)
    ensures m.id in Add(was, m).messages && Add(was, m).messages[m.id] == m
  {
  }

  lemma ForwardAdded(s: State, b: SessionId, m: Msg)
    requires s.pc == AddNew(Bal(b), m) && s.loop == NoLoop && m.id in s.rows && s.rows[m.id] == RowOf(m)
    requires m.group == "" && m.state == New && (b in s.bals ==> m.id !in s.bals[b].messages)
    ensures var t := Drain(s);
      && t == s.(rows := s.rows[m.id := Stored(s, b, m)], bals := t.bals, sent := s.sent + SentOn(s, b, m.id),
        pc := Idle)
      && OnlyQueued(s, t, b, m)
  {
    hide Exec, Drain, Becomes, Add, CanSend, Put, CountUp, Queued;
    var k := Bal(b);
    RunAdd(s);
    assert s.rows[m.id := s.rows[m.id]] == s.rows && s.sent + [] == s.sent;
    if b in s.bals {
      var a := Add(s.bals[b], m);
      UngroupedGoes(s.bals[b], m);
      QueuedBoth(s.bals[b], m);
      var s1 := s.(bals := s.bals[b := a], pc := TrySend(k, m.id));
      assert Has(s, k) && MgrAt(s, k) == s.bals[b];
      BecomesDrains(s, s1);
      ForwardTried(s1, b, m);
    } else {
      assert s.interrupted + {} == s.interrupted;
      BecomesDrains(s, Abort(s));
      NothingToRun(Abort(s));
    }
  }

  lemma ForwardTried(s: State, b: SessionId, m: Msg)
    requires s.pc == TrySend(Bal(b), m.id) && s.loop == NoLoop && b in s.bals && m.id in s.bals[b].messages
    requires s.bals[b].messages[m.id] == m && m.id in s.rows
    ensures var t := Drain(s); var ok := CanSend(s.bals[b], m) == Sendable;
      t == if ok then s.(rows := s.rows[m.id := s.rows[m.id].(state := PendingAck)],
          bals := s.bals[b := CountUp(Put(s.bals[b], m.(state := PendingAck)))],
          sent := s.sent + [Sent(Bal(b), m.id)], pc := Idle)
        else s.(pc := Idle)
  {
    hide Exec, Drain, CanSend, Put, CountUp, Becomes;
    var k, q := Bal(b), m.id;
    assert Has(s, k) && MgrAt(s, k) == s.bals[b];
    RunTry(s);
    if CanSend(s.bals[b], m) == Sendable {
      var s1 := s.(pc := MarkRow(k, q));
      BecomesDrains(s, s1);
      RunMarkRow(s1);
      var s2 := SetRow(s1, q, PendingAck).(pc := MarkMem(k, q));
      BecomesDrains(s1, s2);
      RunMarkMem(s2);
      var p := Put(s.bals[b], m.(state := PendingAck));
      var s3 := s2.(bals := s.bals[b := p], pc := CountOne(k, q));
      BecomesDrains(s2, s3);
      RunCount(s3);
      var s4 := s3.(bals := s.bals[b := CountUp(p)], pc := Emit(k, q));
      assert s.bals[b := p][b := CountUp(p)] == s.bals[b := CountUp(p)];
      BecomesDrains(s3, s4);
      RunEmit(s4);
      var s5 := s4.(sent := s.sent + [Sent(k, q)], pc := Idle);
      BecomesDrains(s4, s5);
      NothingToRun(s5);
    } else {
      BecomesDrains(s, s.(pc := Idle));
      NothingToRun(s.(pc := Idle));
    }
  }

  lemma NextIsFreeEverywhere(s: State)
    requires Base(s)
    ensures s.ctr + 1 !in s.rows && forall b :: b in s.bals ==> s.ctr + 1 !in s.bals[b].messages
  {
    forall b | b in s.bals ensures s.ctr + 1 !in s.bals[b].messages {
      assert Has(s, Bal(b)) && MgrAt(s, Bal(b)) == s.bals[b];
      BaseMgr(s, Bal(b));
    }
  }

  /** A message from FCM: it is stored with all its columns and acknowledged to FCM, and goes to the queue of its
      category; it is sent, and its row PENDING_ACK, exactly when that session is known and below the limit. */
  lemma UpstreamExactly(s: State, c: SessionId, f: FcmId, p: string)
    requires Base(s) && Boundary(s)
    ensures var t := Handled(s, FcmUpstream(c, f, p)); var id, sent := s.ctr + 1, c in s.bals && !AtLimit(s.bals[c]);
      && t == s.(ctr := id, bals := t.bals, acked := s.acked + {f},
        rows := s.rows[id := Row(Upstream, f, "", "fcm", c, p, if sent then PendingAck else New)],
        sent := s.sent + if sent then [Sent(Bal(c), id)] else [])
      && OnlyQueued(s, t, c, Msg(id, Upstream, f, "", "fcm", c, p, New, 0, -1))
  {
    var m := Msg(s.ctr + 1, Upstream, f, "", "fcm", c, p, New, 0, -1);
    var s1 := s.(ctr := m.id, pc := SaveNew(Bal(c), m, None));
    assert Begin(s, FcmUpstream(c, f, p)) == s1;
    NextIsFreeEverywhere(s);
    hide Begin, Drain, Base, OnlyQueued;
    ForwardRuns(s1, c, m, None);
    SameQueues(s, s1, Drain(s1), c, m);
  }

  lemma SameQueues(s: State, u: State, t: State, b: SessionId, m: Msg)
    requires OnlyQueued(u, t, b, m) && u.bals == s.bals
    ensures OnlyQueued(s, t, b, m) && Stored(u, b, m) == Stored(s, b, m) && SentOn(u, b, m.id) == SentOn(s, b, m.id)
  {
  }

  /** A receipt likewise, without the ack; its retry fields are whatever they were. */
  lemma ReceiptExactly(s: State, c: SessionId, f: FcmId, p: string, n: int, x: int)
    requires Base(s) && Boundary(s)
    ensures var t := Handled(s, FcmReceipt(c, f, p, n, x));
      var id, sent := s.ctr + 1, c in s.bals && !AtLimit(s.bals[c]);
      && t == s.(ctr := id, bals := t.bals,
        rows := s.rows[id := Row(DownstreamReceipt, f, "", "fcm", c, p, if sent then PendingAck else New)],
        sent := s.sent + if sent then [Sent(Bal(c), id)] else [])
      && OnlyQueued(s, t, c, Msg(id, DownstreamReceipt, f, "", "fcm", c, p, New, n, x))
  {
    var m := Msg(s.ctr + 1, DownstreamReceipt, f, "", "fcm", c, p, New, n, x);
    var s1 := s.(ctr := m.id, pc := SaveNew(Bal(c), m, None));
    assert Begin(s, FcmReceipt(c, f, p, n, x)) == s1;
    NextIsFreeEverywhere(s);
    hide Begin, Drain, Base, OnlyQueued;
    ForwardRuns(s1, c, m, None);
    SameQueues(s, s1, Drain(s1), c, m);
  }

  // ---------------------------------------------------------------- the next message of a queue

  /** What sendNextPending sends: the least NEW head of a group, unless the counter is at the limit. */
  function NextSends(k: Key, m: Mgr): (xs: seq<Send>)
    ensures Valid(m) && (AtLimit(m) || forall q :: !Waits(m, q)) ==> xs == []
    ensures forall q :: Valid(m) && !AtLimit(m) && LeastWaiting(m, q) ==> xs == [Sent(k, q)]
  {
    assert Valid(m) ==> (Next(m) == None <==> AtLimit(m) || forall q :: !Waits(m, q)) by {
      if Valid(m) { NextIsLeastWaiting(m); }
    }
    assert Valid(m) ==> forall q :: Next(m) == Some(q) <==> !AtLimit(m) && LeastWaiting(m, q) by {
      if Valid(m) { NextIsLeastWaiting(m); }
    }
    match Next(m)
    case None => []
    case Some(q) => [Sent(k, q)]
  }

  // ---------------------------------------------------------------- an answer from FCM

  /** The statements that end a message of the FCM queue, up to the report. */
  lemma EndRuns(s: State, m: Msg, st: MsgState, how: How)
    requires s.pc == FinishRow(Fcm, m, st, how) && s.loop == NoLoop && (how.ByAck? || how.ByNack?) && m.id in s.rows
    requires RemoveByFcmId(s.fcm, m.fcmId) == (Remove(s.fcm, m.id).0, true)
    ensures var rest := Remove(s.fcm, m.id).0;
      Drain(s) == Drain(s.(rows := s.rows[m.id := s.rows[m.id].(state := st)], fcm := rest,
        sent := s.sent + NextSends(Fcm, rest), pc := Notice(m, how)))
  {
    hide Exec, Drain, Remove, RemoveByFcmId, Becomes;
    RunFinishRow(s);
    var s2 := SetRow(s, m.id, st).(pc := Drop(Fcm, m, how));
    BecomesDrains(s, s2);
    RunDrop(s2);
    var s3 := s2.(fcm := Remove(s.fcm, m.id).0, pc := SendNext(Fcm, m, how));
    BecomesDrains(s2, s3);
    RunSendNext(s3);
    var s4 := s3.(pc := Notice(m, how), sent := s.sent + NextSends(Fcm, s3.fcm));
    assert s.sent + [] == s.sent;
    BecomesDrains(s3, s4);
  }

  /** The report of a failure: a row for the session, nothing more. */
  lemma RejectRuns(s: State, m: Msg, how: How)
    requires s.pc == Notice(m, how) && s.loop == NoLoop && !how.ByAck? && s.ctr + 1 !in s.rows
    ensures Drain(s) == s.(ctr := s.ctr + 1, pc := Idle, notices := s.notices[s.ctr + 1 := m.id],
      rows := s.rows[s.ctr + 1 := Row(DownstreamReject, m.fcmId, "", "", m.source, m.payload, PendingAck)])
  {
    hide Exec, Drain, Becomes;
    RunNotice(s);
    var n := NoticeMsg(s.ctr + 1, m, how);
    var s1 := s.(ctr := s.ctr + 1, pc := SaveReject(n, m.id));
    BecomesDrains(s, s1);
    RunSaveReject(s1);
    var s2 := SaveRow(s1, n, Some(m.id)).(pc := Idle);
    BecomesDrains(s1, s2);
    NothingToRun(s2);
  }

  lemma Found(s: State, f: FcmId)
    requires Base(s) && FindByFcmId(s.fcm, f).Some?
    ensures var m := FindByFcmId(s.fcm, f).value;
      && m.id in s.fcm.messages && s.fcm.messages[m.id] == m && m.fcmId == f && m.id <= s.ctr
      && f in s.fcm.index && s.fcm.index[f] == m.id
      && RemoveByFcmId(s.fcm, f) == (Remove(s.fcm, m.id).0, true)
      && Remove(s.fcm, m.id).0.messages == s.fcm.messages - {m.id}
  {
    BaseMgr(s, Fcm);
    FoundIsIndexed(s.fcm, f);
    RemoveKeepsValid(s.fcm, FindByFcmId(s.fcm, f).value.id);
  }

  /** How the handlers of an answer begin. */
  lemma AnswerBegins(s: State, f: FcmId, d: string)
    requires Boundary(s) && FindByFcmId(s.fcm, f).Some?
    ensures var m := FindByFcmId(s.fcm, f).value;
      && Begin(s, FcmAck(f, d)) == s.(pc := FinishRow(Fcm, m, Delivered, ByAck(d)))
      && Begin(s, FcmNack(f, false)) == s.(pc := FinishRow(Fcm, m, DeliveryFailed, ByNack))
      && (OutOfRetries(m) ==> var r := m.(nRetry := m.nRetry + 1);
        Begin(s, FcmNack(f, true)) == s.(fcm := Put(s.fcm, r), pc := FinishRow(Fcm, r, DeliveryFailed, GaveUp)))
  {
    hide FindByFcmId, Put;
  }

  /** An answer for an id that no live message has changes nothing. */
  lemma UnknownAnswer(s: State, e: Event)
    requires Boundary(s) && (e.FcmAck? || e.FcmNack?) && FindByFcmId(s.fcm, e.fcmId).None?
    ensures Handled(s, e) == s
  {
    assert Begin(s, e) == s;
    NothingToRun(s);
  }

  /** An ack: the message's row is DELIVERED and the message gone, the next one of the queue is sent, and a new row
      carries the data of the ack to the session that sent the message, which gets it at once if the limit allows. */
  lemma AckExactly(s: State, f: FcmId, d: string)
    requires Base(s) && Boundary(s) && FindByFcmId(s.fcm, f).Some? && FindByFcmId(s.fcm, f).value.id in s.rows
    ensures var t, m, id := Handled(s, FcmAck(f, d)), FindByFcmId(s.fcm, f).value, s.ctr + 1;
      var sent := m.source in s.bals && !AtLimit(s.bals[m.source]);
      && t == s.(ctr := id, fcm := Remove(s.fcm, m.id).0, bals := t.bals, notices := s.notices[id := m.id],
        rows := s.rows[m.id := s.rows[m.id].(state := Delivered)]
          [id := Row(DownstreamAck, f, "", "fcm", m.source, d, if sent then PendingAck else New)],
        sent := s.sent + NextSends(Fcm, Remove(s.fcm, m.id).0) + if sent then [Sent(Bal(m.source), id)] else [])
      && t.fcm.messages == s.fcm.messages - {m.id}
      && OnlyQueued(s, t, m.source, Msg(id, DownstreamAck, f, "", "fcm", m.source, d, New, 0, -1))
  {
    hide Begin, Drain, Base, OnlyQueued, Remove, RemoveByFcmId, FindByFcmId, NextSends, Becomes;
    var m, id := FindByFcmId(s.fcm, f).value, s.ctr + 1;
    var s1 := s.(pc := FinishRow(Fcm, m, Delivered, ByAck(d)));
    AnswerBegins(s, f, d);
    Found(s, f);
    NextIsFreeEverywhere(s);
    var rest := Remove(s.fcm, m.id).0;
    var n := Msg(id, DownstreamAck, f, "", "fcm", m.source, d, New, 0, -1);
    assert NoticeMsg(id, m, ByAck(d)) == n;
    EndRuns(s1, m, Delivered, ByAck(d));
    var s2 := s.(rows := s.rows[m.id := s.rows[m.id].(state := Delivered)], fcm := rest,
      sent := s.sent + NextSends(Fcm, rest), pc := Notice(m, ByAck(d)));
    RunNotice(s2);
    var s3 := s2.(ctr := id, pc := SaveNew(Bal(m.source), n, Some(m.id)));
    BecomesDrains(s2, s3);
    ForwardRuns(s3, m.source, n, Some(m.id));
    SameQueues(s, s3, Drain(s3), m.source, n);
  }

  /** A final nack: the row is DELIVERY_FAILED and the message gone, the next one of the queue is sent, and a new row
      reports the failure, with the payload of the message. */
  lemma FinalNackExactly(s: State, f: FcmId)
    requires Base(s) && Boundary(s) && FindByFcmId(s.fcm, f).Some? && FindByFcmId(s.fcm, f).value.id in s.rows
    ensures var t, m, id := Handled(s, FcmNack(f, false)), FindByFcmId(s.fcm, f).value, s.ctr + 1;
      && t == s.(ctr := id, fcm := Remove(s.fcm, m.id).0, notices := s.notices[id := m.id],
        rows := s.rows[m.id := s.rows[m.id].(state := DeliveryFailed)]
          [id := Row(DownstreamReject, f, "", "", m.source, m.payload, PendingAck)],
        sent := s.sent + NextSends(Fcm, Remove(s.fcm, m.id).0))
      && t.fcm.messages == s.fcm.messages - {m.id}
  {
    hide Begin, Drain, Base, Remove, RemoveByFcmId, FindByFcmId, NextSends;
    var m, id := FindByFcmId(s.fcm, f).value, s.ctr + 1;
    var s1 := s.(pc := FinishRow(Fcm, m, DeliveryFailed, ByNack));
    AnswerBegins(s, f, "");
    Found(s, f);
    NextIsFreeEverywhere(s);
    var rest := Remove(s.fcm, m.id).0;
    EndRuns(s1, m, DeliveryFailed, ByNack);
    RejectRuns(s.(rows := s.rows[m.id := s.rows[m.id].(state := DeliveryFailed)], fcm := rest,
      sent := s.sent + NextSends(Fcm, rest), pc := Notice(m, ByNack)), m, ByNack);
  }

  /** The message has no retry left. */
  predicate OutOfRetries(m: Msg) { m.maxRetry != -1 && m.nRetry + 1 > m.maxRetry }

  /** A retryable nack of a message with retries left: one retry more, and a timer. */
  lemma RetryExactly(s: State, f: FcmId)
    requires Base(s) && Boundary(s) && FindByFcmId(s.fcm, f).Some? && !OutOfRetries(FindByFcmId(s.fcm, f).value)
    ensures var m := FindByFcmId(s.fcm, f).value;
      Handled(s, FcmNack(f, true)) == s.(timers := s.timers + multiset{Timer(Fcm, m.id)},
        fcm := s.fcm.(messages := s.fcm.messages[m.id := m.(nRetry := m.nRetry + 1)]))
  {
    NothingToRun(Begin(s, FcmNack(f, true)));
  }

  /** Otherwise the message is given up: its row DELIVERY_FAILED, a report of the failure, and nothing sent. */
  lemma GiveUpExactly(s: State, f: FcmId)
    requires Base(s) && Boundary(s) && FindByFcmId(s.fcm, f).Some? && FindByFcmId(s.fcm, f).value.id in s.rows
    requires OutOfRetries(FindByFcmId(s.fcm, f).value)
    ensures var t, m, id := Handled(s, FcmNack(f, true)), FindByFcmId(s.fcm, f).value, s.ctr + 1;
      && t == s.(ctr := id, fcm := Remove(s.fcm, m.id).0, notices := s.notices[id := m.id],
        rows := s.rows[m.id := s.rows[m.id].(state := DeliveryFailed)]
          [id := Row(DownstreamReject, f, "", "", m.source, m.payload, PendingAck)])
      && t.fcm.messages == s.fcm.messages - {m.id}
  {
    hide Begin, Drain, Base, Remove, FindByFcmId, Valid, Put, RemoveByFcmId;
    var m := FindByFcmId(s.fcm, f).value;
    var r := m.(nRetry := m.nRetry + 1);
    AnswerBegins(s, f, "");
    Found(s, f);
    NextIsFreeEverywhere(s);
    BaseMgr(s, Fcm);
    RemovePut(s.fcm, r);
    GivenUp(s.(fcm := Put(s.fcm, r), pc := FinishRow(Fcm, r, DeliveryFailed, GaveUp)), r, Remove(s.fcm, m.id).0);
  }

  /** The statements that give up a message of the FCM queue. */
  lemma GivenUp(s: State, r: Msg, rest: Mgr)
    requires s.pc == FinishRow(Fcm, r, DeliveryFailed, GaveUp) && s.loop == NoLoop
    requires r.id in s.rows && s.ctr + 1 !in s.rows
    requires RemoveByFcmId(s.fcm, r.fcmId) == (rest, true)
    ensures Drain(s) == s.(ctr := s.ctr + 1, fcm := rest, notices := s.notices[s.ctr + 1 := r.id], pc := Idle,
      rows := s.rows[r.id := s.rows[r.id].(state := DeliveryFailed)]
        [s.ctr + 1 := Row(DownstreamReject, r.fcmId, "", "", r.source, r.payload, PendingAck)])
  {
    hide Drain, Becomes, Exec, RemoveByFcmId;
    RunFinishRow(s);
    var s2 := SetRow(s, r.id, DeliveryFailed).(pc := Drop(Fcm, r, GaveUp));
    BecomesDrains(s, s2);
    RunDrop(s2);
    var s3 := s2.(fcm := rest, pc := Notice(r, GaveUp));
    BecomesDrains(s2, s3);
    RejectRuns(s3, r, GaveUp);
  }

  lemma RemovePut(m: Mgr, r: Msg)
    requires Valid(m) && r.id in m.messages && r == m.messages[r.id].(nRetry := r.nRetry)
    requires r.fcmId in m.index && m.index[r.fcmId] == r.id
    ensures RemoveByFcmId(Put(m, r), r.fcmId) == (Remove(m, r.id).0, true)
  {
    RemoveKeepsValid(m, r.id);
    assert Put(m, r).messages - {r.id} == m.messages - {r.id};
  }

  // ---------------------------------------------------------------- an answer from a BAL

  /** An ack from a BAL: the row of that very message is DELIVERED and it alone leaves the queue of the session, whose
      next message is sent. */
  lemma BalAckExactly(s: State, b: SessionId, q: SeqId)
    requires Base(s) && Boundary(s) && b in s.bals && q in s.bals[b].messages && q in s.rows
    ensures var t := Handled(s, BalAck(b, q)); var rest := Remove(s.bals[b], q).0;
      && t == s.(rows := s.rows[q := s.rows[q].(state := Delivered)], bals := s.bals[b := rest],
        sent := s.sent + NextSends(Bal(b), rest))
      && rest.messages == s.bals[b].messages - {q}
  {
    var k, m := Bal(b), s.bals[b].messages[q];
    var s1 := s.(pc := FinishRow(k, m, Delivered, ByBalAck));
    assert Begin(s, BalAck(b, q)) == s1;
    assert Has(s, k) && MgrAt(s, k) == s.bals[b];
    BaseMgr(s, k);
    RemoveKeepsValid(s.bals[b], q);
    assert m.id == q;
    var rest := Remove(s.bals[b], q).0;
    hide Begin, Drain, Base, Remove, Becomes, Exec;
    RunFinishRow(s1);
    var s2 := SetRow(s1, q, Delivered).(pc := Drop(k, m, ByBalAck));
    BecomesDrains(s1, s2);
    RunDrop(s2);
    var s3 := s2.(bals := s.bals[b := rest], pc := SendNext(k, m, ByBalAck));
    BecomesDrains(s2, s3);
    RunSendNext(s3);
    var s4 := s3.(pc := Idle, sent := s.sent + NextSends(k, rest));
    assert s.sent + [] == s.sent;
    BecomesDrains(s3, s4);
    NothingToRun(s4);
  }

  lemma UnknownBalAck(s: State, b: SessionId, q: SeqId)
    requires Boundary(s) && (b in s.bals ==> q !in s.bals[b].messages)
    ensures Handled(s, BalAck(b, q)) == s
  {
    assert Begin(s, BalAck(b, q)) == s;
    NothingToRun(s);
  }

  // ---------------------------------------------------------------- an upload

  lemma UploadedQueue(was: Mgr, m: Msg)
    requires m.id !in was.messages
    ensures var a := Add(was, m); var p := CountUp(Put(a, m.(state := PendingAck)));
      && a.messages == was.messages[m.id := m] && a.pending == was.pending
      && p.messages == was.messages[m.id := m.(state := PendingAck)] && p.pending == was.pending + 1
  {
  }

  /** An upload: a row with all its columns, the message in the FCM queue, counted and sent exactly when the counter is
      below the limit and no live message in memory has its group. Nothing else changes. */
  lemma UploadExactly(s: State, b: SessionId, g: GroupId, f: FcmId, p: string)
    requires Base(s) && Boundary(s) && (b == "" || b in s.bals)
    ensures var t, id, sent := Handled(s, Upload(b, g, f, p)), s.ctr + 1, !AtLimit(s.fcm) && GroupFree(s.fcm, g);
      var st := if sent then PendingAck else New;
      && t == s.(ctr := id, fcm := t.fcm, rows := s.rows[id := Row(Downstream, f, g, b, "fcm", p, st)],
        sent := s.sent + if sent then [Sent(Fcm, id)] else [])
      && t.fcm.messages == s.fcm.messages[id := Msg(id, Downstream, f, g, b, "fcm", p, st, 0, -1)]
      && t.fcm.pending == s.fcm.pending + if sent then 1 else 0
  {
    var e, m := Upload(b, g, f, p), Msg(s.ctr + 1, Downstream, f, g, b, "fcm", p, New, 0, -1);
    hide Begin, Drain, Base, CanSend, GroupFree, Valid, Add, Put, CountUp;
    BaseNextIsFree(s);
    UploadedQueue(s.fcm, m);
    UploadExact(s, e);
    AddedCanSend(s.fcm, m);
    assert s.sent + [] == s.sent;
  }

  /** A retry timer: its message goes out to its own session, and the timer is used up. */
  lemma TimerExactly(s: State, k: Key, q: SeqId)
    requires Boundary(s) && Timer(k, q) in s.timers
    ensures Handled(s, TimerFires(Timer(k, q))) ==
      s.(timers := s.timers - multiset{Timer(k, q)}, sent := s.sent + [Sent(k, q)])
  {
    NothingToRun(Begin(s, TimerFires(Timer(k, q))));
  }
}
