/** Where rows come from and why they end, over whole runs: every column of every row is that of the event that brought
    it, and every end has its answer or its spent retries. */
module Provenance {
  import opened Core
  import opened MessageManager
  import opened Delivery
  import opened Durability
  import opened Structure

  // ---------------------------------------------------------------- what has happened

  /** The events handled so far, and the messages whose retries were used up; `mixed` when a BAL session may have the
      name of FCM, and so end its messages. */
  datatype Past = Past(events: set<Event>, spent: set<SeqId>, mixed: bool)

  /** A message is about to be given up, with more retries than its cap allows. */
  function Spending(s: State): set<SeqId> {
    if s.pc.FinishRow? && s.pc.how == GaveUp && s.pc.m.maxRetry != -1 && s.pc.m.nRetry > s.pc.m.maxRetry
    then {s.pc.m.id} else {}
  }

  function Later(p: Past, l: Label, t: State): Past {
    Past(if l.Handle? then p.events + {l.e} else p.events, p.spent + Spending(t), p.mixed)
  }

  function PastOf(ss: seq<State>, ls: seq<Label>, i: nat, mixed: bool): (p: Past)
    requires |ss| == |ls| + 1 && i <= |ls|
    ensures p.mixed == mixed
  {
    if i == 0 then Past({}, {}, mixed) else Later(PastOf(ss, ls, i - 1, mixed), ls[i - 1], ss[i])
  }

  // ---------------------------------------------------------------- origins and ends

  /** The event, or the message, that a row comes from. */
  ghost predicate Origin(p: Past, rows: map<SeqId, Row>, r: Row) {
    match r.kind
    case Downstream => r.target == "fcm" && Upload(r.source, r.group, r.fcmId, r.payload) in p.events
    case Upstream => r.source == "fcm" && r.group == "" && FcmUpstream(r.target, r.fcmId, r.payload) in p.events
    case DownstreamReceipt =>
      && r.source == "fcm" && r.group == ""
      && exists n, x :: FcmReceipt(r.target, r.fcmId, r.payload, n, x) in p.events
    case DownstreamAck => r.source == "fcm" && r.group == "" && FcmAck(r.fcmId, r.payload) in p.events
    case DownstreamReject =>
      && r.source == "" && r.group == ""
      && exists d :: d in rows && rows[d].fcmId == r.fcmId && rows[d].payload == r.payload && rows[d].source == r.target
  }

  /** Why a row is finished. */
  ghost predicate EndKnown(p: Past, q: SeqId, r: Row) {
    && (r.state == Delivered ==>
          if r.target == "fcm" then p.mixed || exists d :: FcmAck(r.fcmId, d) in p.events
          else BalAck(r.target, q) in p.events)
    && (r.state == DeliveryFailed ==> (r.target == "fcm" && FcmNack(r.fcmId, false) in p.events) || q in p.spent)
  }

  ghost predicate RowsKnown(p: Past, rows: map<SeqId, Row>) {
    forall q :: q in rows ==> Origin(p, rows, rows[q]) && EndKnown(p, q, rows[q])
  }

  /** Message m of queue k has its row, with the same columns. */
  predicate Held(rows: map<SeqId, Row>, k: Key, m: Msg) {
    && m.id in rows && m.target == SessionOf(k)
    && var r := rows[m.id];
      r.kind == m.kind && r.fcmId == m.fcmId && r.source == m.source && r.target == m.target && r.payload == m.payload
  }

  ghost predicate QueuesHeld(s: State) {
    forall k, q :: Has(s, k) && q in MgrAt(s, k).messages ==> Held(s.rows, k, MgrAt(s, k).messages[q])
  }

  predicate HowKnown(p: Past, k: Key, m: Msg, how: How) {
    match how
    case ByAck(d) => k == Fcm && FcmAck(m.fcmId, d) in p.events
    case ByNack => k == Fcm && FcmNack(m.fcmId, false) in p.events
    case GaveUp => m.id in p.spent
    case ByBalAck => k.Bal? && (p.mixed || k.session != "fcm") && BalAck(k.session, m.id) in p.events
  }

  predicate EndOf(how: How, st: MsgState) { st == if how.ByAck? || how.ByBalAck? then Delivered else DeliveryFailed }

  ghost predicate PcKnown(p: Past, s: State) {
    match s.pc
    case SaveNew(k, m, _) => m.target == SessionOf(k) && m.state == New && Origin(p, s.rows, RowOf(m))
    case AckUpstream(k, m) => Held(s.rows, k, m)
    case AddNew(k, m) => Held(s.rows, k, m)
    case FinishRow(k, m, st, how) => Held(s.rows, k, m) && HowKnown(p, k, m, how) && EndOf(how, st)
    case Drop(k, m, how) => Held(s.rows, k, m) && HowKnown(p, k, m, how)
    case SendNext(k, m, how) => Held(s.rows, k, m) && HowKnown(p, k, m, how) && how != GaveUp
    case Notice(m, how) => Held(s.rows, Fcm, m) && HowKnown(p, Fcm, m, how)
    case SaveReject(n, _) => n.state == PendingAck && Origin(p, s.rows, RowOf(n))
    case _ => true
  }

  ghost predicate Known(p: Past, s: State) {
    RowsKnown(p, s.rows) && QueuesHeld(s) && PcKnown(p, s)
  }

  // ---------------------------------------------------------------- what more events and rows keep

  ghost predicate Grown(p: Past, p': Past) { p.events <= p'.events && p.spent <= p'.spent && p'.mixed == p.mixed }

  lemma OriginStays(p: Past, p': Past, rows: map<SeqId, Row>, rows': map<SeqId, Row>, r: Row)
    requires Origin(p, rows, r) && Grown(p, p') && RowsStay(rows, rows')
    ensures Origin(p', rows', r)
  {
    if r.kind == DownstreamReceipt {
      var n, x :| FcmReceipt(r.target, r.fcmId, r.payload, n, x) in p.events;
      assert FcmReceipt(r.target, r.fcmId, r.payload, n, x) in p'.events;
    }
    if r.kind == DownstreamReject {
      var d :| d in rows && rows[d].fcmId == r.fcmId && rows[d].payload == r.payload && rows[d].source == r.target;
      assert d in rows' && rows'[d].fcmId == r.fcmId && rows'[d].payload == r.payload && rows'[d].source == r.target;
    }
  }

  lemma EndStays(p: Past, p': Past, q: SeqId, r: Row)
    requires EndKnown(p, q, r) && Grown(p, p')
    ensures EndKnown(p', q, r)
  {
    if r.state == Delivered && r.target == "fcm" && !p.mixed {
      var d :| FcmAck(r.fcmId, d) in p.events;
      assert FcmAck(r.fcmId, d) in p'.events;
    }
  }

  lemma RowsKnownStay(p: Past, p': Past, rows: map<SeqId, Row>)
    requires RowsKnown(p, rows) && Grown(p, p')
    ensures RowsKnown(p', rows)
  {
    forall q | q in rows ensures Origin(p', rows, rows[q]) && EndKnown(p', q, rows[q]) {
      OriginStays(p, p', rows, rows, rows[q]);
      EndStays(p, p', q, rows[q]);
    }
  }

  /** One row gets a state that is accounted for. */
  lemma RowSet(p: Past, s: State, q: SeqId, st: MsgState)
    requires RowsKnown(p, s.rows) && (q in s.rows ==> EndKnown(p, q, s.rows[q].(state := st)))
    ensures RowsKnown(p, SetRow(s, q, st).rows) && RowsStay(s.rows, SetRow(s, q, st).rows)
  {
    var rows := SetRow(s, q, st).rows;
    forall x | x in rows ensures Origin(p, rows, rows[x]) && EndKnown(p, x, rows[x]) {
      OriginStays(p, p, s.rows, rows, s.rows[x]);
      SameOrigin(p, rows, s.rows[x], rows[x]);
    }
  }

  lemma SameOrigin(p: Past, rows: map<SeqId, Row>, r: Row, r': Row)
    requires Origin(p, rows, r) && r == r'.(state := r.state)
    ensures Origin(p, rows, r')
  {
  }

  /** A new row, not finished. */
  lemma RowAdded(p: Past, rows: map<SeqId, Row>, q: SeqId, r: Row)
    requires RowsKnown(p, rows) && q !in rows && Origin(p, rows, r) && Unfinished(r.state)
    ensures RowsKnown(p, rows[q := r]) && RowsStay(rows, rows[q := r])
  {
    var rows' := rows[q := r];
    forall x | x in rows' ensures Origin(p, rows', rows'[x]) && EndKnown(p, x, rows'[x]) {
      OriginStays(p, p, rows, rows', rows'[x]);
    }
  }

  lemma HeldStays(rows: map<SeqId, Row>, rows': map<SeqId, Row>, k: Key, m: Msg)
    requires Held(rows, k, m) && RowsStay(rows, rows')
    ensures Held(rows', k, m)
  {
  }

  /** The queues lose messages or change their retry counts and states only. */
  lemma QueuesStay(s: State, t: State)
    requires QueuesHeld(s) && RowsStay(s.rows, t.rows) && t.fcm == s.fcm && t.bals == s.bals
    ensures QueuesHeld(t)
  {
    forall k, q | Has(t, k) && q in MgrAt(t, k).messages ensures Held(t.rows, k, MgrAt(t, k).messages[q]) {
      assert Has(s, k) && MgrAt(t, k) == MgrAt(s, k);
      HeldStays(s.rows, t.rows, k, MgrAt(t, k).messages[q]);
    }
  }

  ghost predicate SameColumns(m: Msg, n: Msg) { n == m.(state := n.state, nRetry := n.nRetry) }

  lemma QueueChanged(s: State, t: State, k: Key, n: Mgr)
    requires QueuesHeld(s) && Has(s, k) && t.rows == s.rows
    requires var u := WithMgr(s, k, n); t.fcm == u.fcm && t.bals == u.bals
    requires forall q :: q in n.messages ==>
      (q in MgrAt(s, k).messages && SameColumns(MgrAt(s, k).messages[q], n.messages[q])) ||
      Held(s.rows, k, n.messages[q])
    ensures QueuesHeld(t)
  {
    forall j, q | Has(t, j) && q in MgrAt(t, j).messages ensures Held(t.rows, j, MgrAt(t, j).messages[q]) {
      assert Has(s, j);
      if j == k { assert MgrAt(t, j) == n; } else { assert MgrAt(t, j) == MgrAt(s, j); }
    }
  }

  // ---------------------------------------------------------------- statements

  lemma SaveKnown(p: Past, s: State)
    requires Known(p, s) && s.pc.SaveNew?
    ensures Known(p, StoreAndSend(s))
  {
    var m, t := s.pc.m, StoreAndSend(s);
    if m.id !in s.rows {
      RowAdded(p, s.rows, m.id, RowOf(m));
      QueuesStay(s, t);
    } else {
      QueuesStay(s, t);
    }
  }

  lemma AddKnown(p: Past, s: State)
    requires Known(p, s) && s.pc.AddNew?
    ensures Known(p, StoreAndSend(s))
  {
    var k, t := s.pc.k, StoreAndSend(s);
    if Has(s, k) {
      QueueChanged(s, t, k, Add(MgrAt(s, k), s.pc.m));
    } else {
      QueuesStay(s, t);
    }
  }

  lemma MarkKnown(p: Past, s: State)
    requires Known(p, s) && Base(s) && (s.pc.MarkMem? || s.pc.CountOne? || s.pc.ResendCount?)
    ensures Known(p, StoreAndSend(s))
  {
    var k, t := s.pc.k, StoreAndSend(s);
    if Has(s, k) {
      BaseMgr(s, k);
      hide Base;
      QueueChanged(s, t, k, MgrAt(t, k));
    } else {
      QueuesStay(s, t);
    }
  }

  lemma StoreKnown(p: Past, s: State)
    requires Known(p, s) && !s.pc.Idle? && !EndsMessage(s.pc) && !s.pc.SaveNew? && !TouchesManager(s.pc)
    ensures Known(p, StoreAndSend(s))
  {
    hide CanSend, Origin, Held;
    if s.pc.MarkRow? || s.pc.ResendRow? { RowSet(p, s, s.pc.q, PendingAck); }
    QueuesStay(s, StoreAndSend(s));
  }

  lemma FinishKnown(p: Past, s: State)
    requires Known(p, s) && s.pc.FinishRow?
    ensures Known(p, EndAndNotify(s))
  {
    var k, m, st := s.pc.k, s.pc.m, s.pc.st;
    assert EndKnown(p, m.id, s.rows[m.id].(state := st));
    RowSet(p, s, m.id, st);
    hide RowsKnown;
    QueuesStay(s, EndAndNotify(s));
  }

  lemma RemovedOnly(m: Mgr, q: SeqId)
    ensures forall x :: x in Remove(m, q).0.messages ==> x in m.messages && Remove(m, q).0.messages[x] == m.messages[x]
  {
  }

  lemma DropKnown(p: Past, s: State)
    requires Known(p, s) && s.pc.Drop?
    ensures Known(p, EndAndNotify(s))
  {
    hide RowsKnown, Remove, Held;
    var k, f, t := s.pc.k, s.pc.m.fcmId, EndAndNotify(s);
    if Has(s, k) {
      RemovedOnly(MgrAt(s, k), s.pc.m.id);
      if f in MgrAt(s, k).index { RemovedOnly(MgrAt(s, k), MgrAt(s, k).index[f]); }
      QueueChanged(s, t, k, MgrAt(t, k));
    } else {
      QueuesStay(s, t);
    }
  }

  lemma ReportKnown(p: Past, s: State)
    requires Known(p, s) && (s.pc.SendNext? || s.pc.SaveReject?)
    ensures Known(p, EndAndNotify(s))
  {
    hide Next;
    if s.pc.SaveReject? && s.pc.n.id !in s.rows { RowAdded(p, s.rows, s.pc.n.id, RowOf(s.pc.n)); }
    hide RowsKnown;
    QueuesStay(s, EndAndNotify(s));
  }

  lemma NoticeKnown(p: Past, s: State)
    requires Known(p, s) && s.pc.Notice?
    ensures Known(p, EndAndNotify(s))
  {
    var m, d := s.pc.m, s.pc.m.id;
    var n := NoticeMsg(s.ctr + 1, m, s.pc.how);
    assert d in s.rows && s.rows[d].fcmId == m.fcmId && s.rows[d].payload == m.payload && s.rows[d].source == m.source;
    assert Origin(p, s.rows, RowOf(n));
    hide RowsKnown;
    QueuesStay(s, EndAndNotify(s));
  }

  lemma QuietKnown(p: Past, s: State, t: State)
    requires Known(p, s) && t.rows == s.rows && t.fcm == s.fcm && t.bals == s.bals && PcKnown(p, t)
    ensures Known(p, t)
  {
    QueuesStay(s, t);
  }

  lemma PastKnown(p: Past, p': Past, s: State)
    requires Known(p, s) && Grown(p, p') && s.pc == Idle
    ensures Known(p', s)
  {
    RowsKnownStay(p, p', s.rows);
  }

  lemma RetryKnown(p: Past, s: State, k: Key, q: SeqId)
    requires Known(p, s) && Base(s) && s.pc == Idle && Has(s, k) && q in MgrAt(s, k).messages
    ensures var t := Retry(s, k, MgrAt(s, k).messages[q]); Known(p.(spent := p.spent + Spending(t)), t)
  {
    BaseMgr(s, k);
    hide Base;
    var t := Retry(s, k, MgrAt(s, k).messages[q]);
    PastKnown(p, p.(spent := p.spent + Spending(t)), s);
    hide RowsKnown;
    QueueChanged(s, t, k, MgrAt(t, k));
  }

  /** The turns that only send or move on. */
  lemma TurnSendsKnown(p: Past, u: State, k: Key, q: SeqId)
    requires Known(p, u) && u.pc == Idle && k != Fcm
    ensures Known(p, u.(pc := ResendRow(k, q))) && Known(p, u.(pc := Emit(k, q)))
  {
    QuietKnown(p, u, u.(pc := ResendRow(k, q)));
    QuietKnown(p, u, u.(pc := Emit(k, q)));
  }

  lemma TurnMovesKnown(p: Past, s: State, t: State)
    requires Known(p, s) && t.rows == s.rows && t.fcm == s.fcm && t.bals == s.bals && t.pc == Idle
    ensures Known(p, t)
  {
    QuietKnown(p, s, t);
  }

  lemma TurnErasesKnown(p: Past, u: State, k: Key, q: SeqId)
    requires Known(p, u) && u.pc == Idle && Has(u, k)
    ensures Known(p, WithMgr(u, k, Remove(MgrAt(u, k), q).0))
  {
    RemovedOnly(MgrAt(u, k), q);
    hide Remove, RowsKnown, Held;
    QueueChanged(u, WithMgr(u, k, Remove(MgrAt(u, k), q).0), k, Remove(MgrAt(u, k), q).0);
  }

  lemma TurnKnown(p: Past, s: State)
    requires Known(p, s) && Base(s) && s.pc == Idle && s.loop.Sweeping? && Has(s, s.loop.k)
    ensures Known(p.(spent := p.spent + Spending(SweepTurn(s))), SweepTurn(s))
  {
    hide Base, CanSendOnReconnect, Retry, Remove, Known;
    var k, t, m := s.loop.k, SweepTurn(s), MgrAt(s, s.loop.k);
    assert p.(spent := p.spent + {}) == p by { assert p.spent + {} == p.spent; }
    if s.loop.rest == {} {
      TurnMovesKnown(p, s, t);
    } else {
      var q := Least(s.loop.rest);
      var u := s.(loop := Sweeping(k, s.loop.rest - {q}));
      LoopBase(s, u.loop);
      TurnMovesKnown(p, s, u);
      if q in m.messages {
        RetryKnown(p, u, k, q);
        TurnErasesKnown(p, u, k, q);
        TurnMovesKnown(p, u, Emitted(u, k, q));
        TurnMovesKnown(p, u, Abort(u));
        if k != Fcm { TurnSendsKnown(p, u, k, q); }
      }
    }
  }

  lemma ExecKnown(p: Past, s: State)
    requires Known(p, s) && Base(s) && !Boundary(s)
    ensures Known(p.(spent := p.spent + Spending(Exec(s))), Exec(s))
  {
    if s.pc.Idle? && Has(s, s.loop.k) {
      assert Exec(s) == SweepTurn(s);
      hide Exec, Base, Known, SweepTurn;
      TurnKnown(p, s);
    } else {
      NoSpending(s);
      assert p.spent + {} == p.spent;
      hide StoreAndSend, EndAndNotify, SweepTurn, Base, Known;
      match s.pc
      case Idle => IdleKnown(p, s);
      case SaveNew(_, _, _) => SaveKnown(p, s);
      case AddNew(_, _) => AddKnown(p, s);
      case FinishRow(_, _, _, _) => FinishKnown(p, s);
      case Drop(_, _, _) => DropKnown(p, s);
      case Notice(_, _) => NoticeKnown(p, s);
      case _ =>
        if EndsMessage(s.pc) { ReportKnown(p, s); }
        else if TouchesManager(s.pc) { MarkKnown(p, s); }
        else { StoreKnown(p, s); }
    }
  }

  lemma IdleKnown(p: Past, s: State)
    requires Known(p, s) && s.pc.Idle?
    ensures Known(p, Abort(s))
  {
    QuietKnown(p, s, Abort(s));
  }

  /** Only a retry gives a message up. */
  lemma NoSpending(s: State)
    requires !Boundary(s) && (s.pc.Idle? ==> !Has(s, s.loop.k))
    ensures Spending(Exec(s)) == {}
  {
    hide CanSend, Next, NoticeMsg, Remove, RemoveByFcmId, Add, Put, CountUp;
  }

  // ---------------------------------------------------------------- handlers and runs

  lemma StartsKnown(p: Past, s: State, e: Event)
    requires Known(p, s) && Boundary(s) && Allowed(s, e) && Creates(e)
    ensures Known(p.(events := p.events + {e}), Begin(s, e))
  {
    var p' := p.(events := p.events + {e});
    PastKnown(p, p', s);
    hide RowsKnown;
    var m := Begin(s, e).pc.m;
    if e.FcmReceipt? { assert FcmReceipt(m.target, m.fcmId, m.payload, e.nUnset, e.maxUnset) in p'.events; }
    QuietKnown(p', s, Begin(s, e));
  }

  lemma EndsKnown(p: Past, s: State, e: Event)
    requires Known(p, s) && Base(s) && Boundary(s) && Allowed(s, e) && !Creates(e) && !Retries(s, e)
    requires p.mixed || FCM !in s.bals
    ensures Known(p.(events := p.events + {e}), Begin(s, e))
  {
    var p' := p.(events := p.events + {e});
    PastKnown(p, p', s);
    BaseMgr(s, Fcm);
    if (e.FcmAck? || e.FcmNack?) && FindByFcmId(s.fcm, e.fcmId).Some? {
      FoundIn(s.fcm, e.fcmId);
      assert Has(s, Fcm) && Held(s.rows, Fcm, MgrAt(s, Fcm).messages[s.fcm.index[e.fcmId]]);
      assert s.fcm.messages[s.fcm.index[e.fcmId]].fcmId == e.fcmId;
    }
    if e.BalAck? && e.session in s.bals && e.q in s.bals[e.session].messages {
      var k := Bal(e.session);
      assert Has(s, k) && MgrAt(s, k) == s.bals[e.session];
      BaseMgr(s, k);
      assert Held(s.rows, k, MgrAt(s, k).messages[e.q]);
    }
    hide Base, FindByFcmId, RowsKnown, QueuesHeld;
    QuietKnown(p', s, Begin(s, e));
  }

  lemma BeginKnown(p: Past, s: State, e: Event)
    requires Known(p, s) && Base(s) && Boundary(s) && Allowed(s, e) && (p.mixed || FCM !in s.bals)
    ensures Known(Later(p, Handle(e), Begin(s, e)), Begin(s, e))
  {
    hide Base, Known, FindByFcmId;
    var p' := p.(events := p.events + {e});
    if Retries(s, e) {
      BeginCases(s, e);
      hide Begin, Retry;
      BaseMgr(s, Fcm);
      FoundIn(s.fcm, e.fcmId);
      MoreKnown(p, p', s);
      RetryKnown(p', s, Fcm, s.fcm.index[e.fcmId]);
    } else {
      BeginSpends(s, e);
      assert p.spent + {} == p.spent;
      if Creates(e) { StartsKnown(p, s, e); } else { EndsKnown(p, s, e); }
    }
  }

  lemma MoreKnown(p: Past, p': Past, s: State)
    requires Known(p, s) && Grown(p, p') && Boundary(s)
    ensures Known(p', s)
  {
    PastKnown(p, p', s);
  }

  lemma BeginSpends(s: State, e: Event)
    requires Boundary(s) && Allowed(s, e) && !Retries(s, e)
    ensures Spending(Begin(s, e)) == {}
  {
    hide FindByFcmId;
  }

  lemma LoadedHeld(s: State)
    requires Started(s)
    ensures QueuesHeld(s)
  {
    forall k, q | Has(s, k) && q in MgrAt(s, k).messages ensures Held(s.rows, k, MgrAt(s, k).messages[q]) {
      assert LoadedFrom(s.rows, SessionOf(k), MgrAt(s, k));
      assert FromRow(MgrAt(s, k).messages[q], q, s.rows[q]);
      assert q in PendingFor(s.rows, SessionOf(k));
    }
  }

  lemma StepKnown(p: Past, s: State, l: Label, t: State)
    requires Known(p, s) && Base(s) && Step(s, l, t) && (p.mixed || FCM !in s.bals)
    ensures Known(Later(p, l, t), t)
  {
    match l
    case Handle(e) => hide Begin, Known, Base; BeginKnown(p, s, e);
    case Run => hide Exec, Known, Base; ExecKnown(p, s);
    case DbFailure => assert p.spent + {} == p.spent; hide Base; QuietKnown(p, s, t);
    case Crash => assert p.spent + {} == p.spent; hide Base, LoadedFrom, RowsKnown; LoadedHeld(t);
  }

  /** No session is configured under the name of FCM. */
  ghost predicate NoFcmSession(ss: seq<State>) { forall j :: 0 <= j < |ss| ==> FCM !in ss[j].bals }

  lemma {:induction false} RunKnown(ss: seq<State>, ls: seq<Label>, i: nat, mixed: bool)
    requires IsRun(ss, ls) && i <= |ls| && (mixed || NoFcmSession(ss))
    ensures Known(PastOf(ss, ls, i, mixed), ss[i])
  {
    hide Step, Known, Base, Started;
    if i == 0 {
      FirstKnown(ss[0], mixed);
    } else {
      RunKnown(ss, ls, i - 1, mixed);
      RunBase(ss, ls, i - 1);
      assert Step(ss[i - 1], ls[i - 1], ss[i]);
      StepKnown(PastOf(ss, ls, i - 1, mixed), ss[i - 1], ls[i - 1], ss[i]);
    }
  }

  lemma FirstKnown(s: State, mixed: bool)
    requires Init(s)
    ensures Known(Past({}, {}, mixed), s)
  {
    LoadedHeld(s);
  }

  /** Event e was handled before the i-th state. */
  ghost predicate Happened(ls: seq<Label>, i: nat, e: Event)
    requires i <= |ls|
  {
    exists j :: 0 <= j < i && ls[j] == Handle(e)
  }

  /** By the i-th state message q was given up with more retries than its cap. */
  ghost predicate RanOut(ss: seq<State>, i: nat, q: SeqId)
    requires i < |ss|
  {
    exists j :: 0 < j <= i && q in Spending(ss[j])
  }

  lemma {:induction false} PastMeans(ss: seq<State>, ls: seq<Label>, i: nat, mixed: bool)
    requires |ss| == |ls| + 1 && i <= |ls|
    ensures forall e :: e in PastOf(ss, ls, i, mixed).events <==> Happened(ls, i, e)
    ensures forall q :: q in PastOf(ss, ls, i, mixed).spent <==> RanOut(ss, i, q)
  {
    hide Spending;
    if i > 0 {
      PastMeans(ss, ls, i - 1, mixed);
      forall e ensures e in PastOf(ss, ls, i, mixed).events <==> Happened(ls, i, e) {
        if Happened(ls, i - 1, e) { var j :| 0 <= j < i - 1 && ls[j] == Handle(e); }
        if Happened(ls, i, e) { var j :| 0 <= j < i && ls[j] == Handle(e); }
      }
      forall q ensures q in PastOf(ss, ls, i, mixed).spent <==> RanOut(ss, i, q) {
        if RanOut(ss, i - 1, q) { var j :| 0 < j <= i - 1 && q in Spending(ss[j]); }
        if RanOut(ss, i, q) { var j :| 0 < j <= i && q in Spending(ss[j]); }
      }
    }
  }

  // ---------------------------------------------------------------- results

  /** A row is DELIVERED only if its receiver said so: FCM by an ack of its FCM id, a BAL session by an ack of that very
      sequence id. It is DELIVERY_FAILED only after a final nack of its FCM id, or when its retries ran out. */
  lemma EndsAreAnswered(ss: seq<State>, ls: seq<Label>, i: nat, q: SeqId)
    requires IsRun(ss, ls) && i <= |ls| && NoFcmSession(ss) && q in ss[i].rows
    ensures var r := ss[i].rows[q];
      && (r.state == Delivered && r.target == "fcm" ==> exists d :: Happened(ls, i, FcmAck(r.fcmId, d)))
      && (r.state == Delivered && r.target != "fcm" ==> Happened(ls, i, BalAck(r.target, q)))
      && (r.state == DeliveryFailed ==>
            (r.target == "fcm" && Happened(ls, i, FcmNack(r.fcmId, false))) || RanOut(ss, i, q))
  {
    RunKnown(ss, ls, i, false);
    PastMeans(ss, ls, i, false);
    hide Step, Init, PastOf, Happened, RanOut;
    var p, r := PastOf(ss, ls, i, false), ss[i].rows[q];
    assert EndKnown(p, q, r);
    if r.state == Delivered && r.target == "fcm" {
      var d :| FcmAck(r.fcmId, d) in p.events;
      assert Happened(ls, i, FcmAck(r.fcmId, d));
    }
  }

  /** Every row has the columns of the event that brought it: an upload, a message or a receipt from FCM, the ack that
      it passes on, or, for a report of failure, those of the message that failed. */
  lemma RowsComeFromEvents(ss: seq<State>, ls: seq<Label>, i: nat, q: SeqId)
    requires IsRun(ss, ls) && i <= |ls| && q in ss[i].rows
    ensures var r, rows := ss[i].rows[q], ss[i].rows;
      match r.kind
      case Downstream => r.target == "fcm" && Happened(ls, i, Upload(r.source, r.group, r.fcmId, r.payload))
      case Upstream => r.source == "fcm" && r.group == "" && Happened(ls, i, FcmUpstream(r.target, r.fcmId, r.payload))
      case DownstreamReceipt =>
        && r.source == "fcm" && r.group == ""
        && exists n, x :: Happened(ls, i, FcmReceipt(r.target, r.fcmId, r.payload, n, x))
      case DownstreamAck => r.source == "fcm" && r.group == "" && Happened(ls, i, FcmAck(r.fcmId, r.payload))
      case DownstreamReject =>
        && r.source == "" && r.group == ""
        && exists d ::
          d in rows && rows[d].fcmId == r.fcmId && rows[d].payload == r.payload && rows[d].source == r.target
  {
    RunKnown(ss, ls, i, true);
    PastMeans(ss, ls, i, true);
    hide Step, Init, PastOf, Happened, RanOut;
    var p, r := PastOf(ss, ls, i, true), ss[i].rows[q];
    assert Origin(p, ss[i].rows, r);
    if r.kind == DownstreamReceipt {
      var n, x :| FcmReceipt(r.target, r.fcmId, r.payload, n, x) in p.events;
      assert Happened(ls, i, FcmReceipt(r.target, r.fcmId, r.payload, n, x));
    }
  }

  /** A live message, reloaded ones included, has the columns of its row. */
  lemma LiveHasItsColumns(ss: seq<State>, ls: seq<Label>, i: nat, k: Key, q: SeqId)
    requires IsRun(ss, ls) && i <= |ls| && Has(ss[i], k) && q in MgrAt(ss[i], k).messages
    ensures var m := MgrAt(ss[i], k).messages[q];
      && m.id == q && q in ss[i].rows
      && var r := ss[i].rows[q];
        && r.kind == m.kind && r.fcmId == m.fcmId && r.source == m.source && r.payload == m.payload
        && r.target == m.target == SessionOf(k)
  {
    RunKnown(ss, ls, i, true);
    RunBase(ss, ls, i);
    hide Step, Init;
    BaseMgr(ss[i], k);
    hide Base;
    assert Held(ss[i].rows, k, MgrAt(ss[i], k).messages[q]);
  }

  lemma StepKeepsColumns(s: State, l: Label, t: State)
    requires Step(s, l, t)
    ensures RowsStay(s.rows, t.rows)
  {
    if l == Run { ExecKeepsRows(s); }
    hide Exec, Begin;
  }

  /** No column but the state ever changes, and no row disappears, crashes and restarts included. */
  lemma {:induction false} ColumnsNeverChange(ss: seq<State>, ls: seq<Label>, i: nat, j: nat, q: SeqId)
    requires IsRun(ss, ls) && i <= j <= |ls| && q in ss[i].rows
    ensures q in ss[j].rows && ss[j].rows[q].(state := ss[i].rows[q].state) == ss[i].rows[q]
    decreases j - i
  {
    hide Step, Init;
    if i < j {
      ColumnsNeverChange(ss, ls, i, j - 1, q);
      assert Step(ss[j - 1], ls[j - 1], ss[j]);
      StepKeepsColumns(ss[j - 1], ls[j - 1], ss[j]);
    }
  }
}
