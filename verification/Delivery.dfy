/** The daemon as a step system (application.cpp, dbconnection.cpp): a table of rows, the message
    managers, outstanding retry timers, and the handler that is running. A handler is a chain of
    statements; `pc` is its next statement, so a crash can fall between any two of them. */
module Delivery {
  import opened Core
  import opened MessageManager

  // ---------------------------------------------------------------- state

  /** One row of table `messages`. */
  datatype Row = Row(
    kind: MsgKind, fcmId: FcmId, group: GroupId, source: SessionId, target: SessionId,
    payload: string, state: MsgState)

  /** Names a manager: `__fcmMsgManager`, or that of a BAL session. */
  datatype Key = Fcm | Bal(session: SessionId)

  /** Why a message comes to its end. */
  datatype How = ByAck(data: string) | ByNack | GaveUp | ByBalAck

  /** The next statement of the running handler. */
  datatype Pc =
    | Idle
    | SaveNew(k: Key, m: Msg, about: Option<SeqId>)  // saveMsg; `about` is the message an ack row reports on
    | AckUpstream(k: Key, m: Msg)                    // sendFcmAckMessage
    | AddNew(k: Key, m: Msg)                         // addMessage
    | TrySend(k: Key, q: SeqId)                      // canSendMessage
    | MarkRow(k: Key, q: SeqId)                      // updateMsgState(PENDING_ACK)
    | MarkMem(k: Key, q: SeqId)                      // setState(PENDING_ACK)
    | CountOne(k: Key, q: SeqId)                     // incrementPendingAckCount
    | Emit(k: Key, q: SeqId)                         // uploadToFcm, forwardMsg
    | FinishRow(k: Key, m: Msg, st: MsgState, how: How)  // updateMsgState(DELIVERED or DELIVERY_FAILED)
    | Drop(k: Key, m: Msg, how: How)                 // removeMessage, removeMessageWithFcmMsgId
    | SendNext(k: Key, m: Msg, how: How)             // sendNextPending{Down,Up}streamMessage
    | Notice(m: Msg, how: How)                       // builds the ack or reject for the BAL
    | SaveReject(n: Msg, d: SeqId)                   // saveMsg in notifyDownstreamUploadFailure
    | ResendRow(k: Key, q: SeqId)                    // updateMsgState in the upstream sweep
    | ResendCount(k: Key, q: SeqId)                  // incrementPendingAckCount in the upstream sweep

  /** A reconnect sweep that is under way, with the keys it has not visited. */
  datatype Loop = NoLoop | Sweeping(k: Key, rest: set<SeqId>)

  datatype Timer = Timer(k: Key, q: SeqId)

  datatype Send = Sent(k: Key, q: SeqId)

  /** `sent` and `epoch` (the counter at the last start) belong to the running process; `acked` (upstream
      messages acknowledged to FCM), `notices` (ack or reject row -> the downstream message it reports)
      and `interrupted` (messages whose ending was cut short) are history the daemon does not store. */
  datatype State = State(
    rows: map<SeqId, Row>,
    ctr: SeqId,
    fcm: Mgr,
    bals: map<SessionId, Mgr>,
    timers: multiset<Timer>,
    pc: Pc,
    loop: Loop,
    sent: seq<Send>,
    epoch: SeqId,
    acked: set<FcmId>,
    notices: map<SeqId, SeqId>,
    interrupted: set<SeqId>)

  predicate Boundary(s: State) {
    s.pc == Idle && s.loop == NoLoop
  }

  function SessionOf(k: Key): SessionId {
    match k
    case Fcm => FCM
    case Bal(b) => b
  }

  predicate Has(s: State, k: Key) {
    k.Bal? ==> k.session in s.bals
  }

  function MgrAt(s: State, k: Key): Mgr
    requires Has(s, k)
  {
    match k
    case Fcm => s.fcm
    case Bal(b) => s.bals[b]
  }

  function WithMgr(s: State, k: Key, m: Mgr): (t: State)
    ensures t == s.(fcm := t.fcm, bals := t.bals)
    ensures Has(t, k) && MgrAt(t, k) == m
    ensures forall j :: j != k && Has(s, j) ==> Has(t, j) && MgrAt(t, j) == MgrAt(s, j)
  {
    match k
    case Fcm => s.(fcm := m)
    case Bal(b) => s.(bals := s.bals[b := m])
  }

  function RowOf(m: Msg): Row {
    Row(m.kind, m.fcmId, m.group, m.source, m.target, m.payload, m.state)
  }

  /** UPDATE ... WHERE sequence_id = q: no effect, and no error, when the row is missing. */
  function SetRow(s: State, q: SeqId, st: MsgState): (t: State)
    ensures t == s.(rows := t.rows)
  {
    if q in s.rows then s.(rows := s.rows[q := s.rows[q].(state := st)]) else s
  }

  // ---------------------------------------------------------------- statements

  /** Messages whose row is finished while the BAL's notice of it is still to be saved. */
  function Owing(pc: Pc): set<SeqId> {
    match pc
    case Drop(k, m, how) => if k.Fcm? then {m.id} else {}
    case SendNext(k, m, how) => if k.Fcm? then {m.id} else {}
    case Notice(m, how) => {m.id}
    case SaveNew(k, m, about) => if about.Some? then {about.value} else {}
    case SaveReject(n, d) => {d}
    case _ => {}
  }

  /** An exception that reaches the handler's catch clause. */
  function Abort(s: State): State {
    s.(pc := Idle, loop := NoLoop, interrupted := s.interrupted + Owing(s.pc))
  }

  function SaveRow(s: State, m: Msg, about: Option<SeqId>): State {
    s.(rows := s.rows[m.id := RowOf(m)],
       notices := if about.Some? then s.notices[m.id := about.value] else s.notices)
  }

  function Retried(m: Msg): Msg {
    m.(nRetry := m.nRetry + 1)
  }

  /** retryDownstreamWithExponentialBackoff and retryUpstreamWithExponentialBackoff. */
  function Retry(s: State, k: Key, msg: Msg): (t: State)
    requires Has(s, k)
    ensures t == s.(fcm := t.fcm, bals := t.bals, timers := t.timers, pc := t.pc)
    ensures t.fcm == if k == Fcm then Put(s.fcm, Retried(msg)) else s.fcm
  {
    var m := Retried(msg);
    var t := WithMgr(s, k, Put(MgrAt(s, k), m));
    if m.maxRetry != -1 && m.nRetry > m.maxRetry then t.(pc := FinishRow(k, m, DeliveryFailed, GaveUp))
    else t.(timers := t.timers + multiset{Timer(k, m.id)})
  }

  function Emitted(s: State, k: Key, q: SeqId): State {
    s.(sent := s.sent + [Sent(k, q)])
  }

  /** One turn of the loop in resendAllPendingDownstreamMessages or resendPendingUpstreamMessages. */
  function SweepTurn(s: State): (t: State)
    requires s.pc.Idle? && s.loop.Sweeping? && Has(s, s.loop.k)
    ensures t.rows == s.rows && t.ctr == s.ctr && t.epoch == s.epoch && t.acked == s.acked && t.notices == s.notices
    ensures !t.pc.SaveNew? && !t.pc.AckUpstream? && !t.pc.AddNew?
    ensures s.loop.k != Fcm ==> t.fcm == s.fcm
    ensures t.fcm != s.fcm ==> s.loop.rest != {} && Least(s.loop.rest) in s.fcm.messages
    ensures t.fcm != s.fcm ==> t.fcm == Put(s.fcm, Retried(s.fcm.messages[Least(s.loop.rest)]))
  {
    var k := s.loop.k;
    if s.loop.rest == {} then s.(loop := NoLoop)
    else
      var q := Least(s.loop.rest);
      var t := s.(loop := Sweeping(k, s.loop.rest - {q}));
      var m := MgrAt(s, k);
      if q !in m.messages then t
      else
        var msg := m.messages[q];
        if (msg.kind == Downstream) != k.Fcm? then t
        else
          match CanSendOnReconnect(m, msg)
          case Sendable =>
            if k.Fcm? then Emitted(t, k, q)
            else if msg.state != PendingAck then t.(pc := ResendRow(k, q))
            else t.(pc := Emit(k, q))
          case TooManyPending => Retry(t, k, msg)
          case BehindInGroup => t
          case BadState => if k.Fcm? then t else WithMgr(t, k, Remove(m, q).0)
          case Throws => Abort(t)
  }

  function AfterDrop(k: Key, m: Msg, how: How): Pc {
    if how != GaveUp then SendNext(k, m, how)
    else if k.Fcm? then Notice(m, how)
    else Idle
  }

  function NoticeMsg(id: SeqId, m: Msg, how: How): Msg {
    if how.ByAck? then Msg(id, DownstreamAck, m.fcmId, "", FCM, m.source, how.data, New, 0, -1)
    else Msg(id, DownstreamReject, m.fcmId, "", "", m.source, m.payload, PendingAck, 0, -1)
  }

  predicate TouchesManager(pc: Pc) {
    pc.Idle? || pc.AddNew? || pc.MarkMem? || pc.CountOne? || pc.Drop? || pc.ResendCount?
  }

  predicate EndsMessage(pc: Pc) {
    pc.FinishRow? || pc.Drop? || pc.SendNext? || pc.Notice? || pc.SaveReject?
  }

  /** The statements that store a message and send it on. */
  function StoreAndSend(s: State): (t: State)
    requires !s.pc.Idle? && !EndsMessage(s.pc)
    ensures !WritesDb(s.pc) ==> t.rows == s.rows && t.notices == s.notices
    ensures !s.pc.AckUpstream? ==> t.acked == s.acked
    ensures t.pc.AckUpstream? ==> t.pc.m.kind == Upstream
    ensures t.epoch == s.epoch && s.ctr == t.ctr
    ensures !TouchesManager(s.pc) ==> t.fcm == s.fcm && t.bals == s.bals
    ensures t.timers == s.timers
    ensures !s.pc.Emit? ==> t.sent == s.sent
    ensures !t.pc.SaveNew?
    ensures t.pc.AckUpstream? || t.pc.AddNew? ==> (s.pc.SaveNew? || s.pc.AckUpstream?) && t.pc.m == s.pc.m
  {
    match s.pc
    case SaveNew(k, m, about) =>
      if m.id in s.rows then Abort(s)
      else SaveRow(s, m, about).(pc := if m.kind == Upstream then AckUpstream(k, m) else AddNew(k, m))
    case AckUpstream(k, m) =>
      s.(acked := s.acked + {m.fcmId}, pc := AddNew(k, m))
    case AddNew(k, m) =>
      if !Has(s, k) then Abort(s)
      else WithMgr(s, k, Add(MgrAt(s, k), m)).(pc := TrySend(k, m.id))
    case TrySend(k, q) =>
      if Has(s, k) && q in MgrAt(s, k).messages && CanSend(MgrAt(s, k), MgrAt(s, k).messages[q]) == Sendable
      then s.(pc := MarkRow(k, q))
      else s.(pc := Idle)
    case MarkRow(k, q) =>
      SetRow(s, q, PendingAck).(pc := MarkMem(k, q))
    case MarkMem(k, q) =>
      if Has(s, k) && q in MgrAt(s, k).messages
      then WithMgr(s, k, Put(MgrAt(s, k), MgrAt(s, k).messages[q].(state := PendingAck))).(pc := CountOne(k, q))
      else Abort(s)
    case CountOne(k, q) =>
      if Has(s, k) then WithMgr(s, k, CountUp(MgrAt(s, k))).(pc := Emit(k, q)) else Abort(s)
    case Emit(k, q) =>
      Emitted(s, k, q).(pc := Idle)
    case ResendRow(k, q) =>
      SetRow(s, q, PendingAck).(pc := ResendCount(k, q))
    case ResendCount(k, q) =>
      if Has(s, k) then WithMgr(s, k, CountUp(MgrAt(s, k))).(pc := Emit(k, q)) else Abort(s)
  }

  /** The statements that bring a message to its end and tell the BAL. */
  function EndAndNotify(s: State): (t: State)
    requires EndsMessage(s.pc)
    ensures !WritesDb(s.pc) ==> t.rows == s.rows && t.notices == s.notices
    ensures t.acked == s.acked
    ensures !t.pc.AckUpstream? && !t.pc.AddNew?
    ensures t.epoch == s.epoch && s.ctr <= t.ctr
    ensures !TouchesManager(s.pc) ==> t.fcm == s.fcm && t.bals == s.bals
    ensures t.timers == s.timers
    ensures !s.pc.SendNext? ==> t.sent == s.sent
    ensures t.pc.SaveNew? ==> s.pc.Notice? && t.pc.m.id == s.ctr + 1
  {
    match s.pc
    case FinishRow(k, m, st, how) =>
      SetRow(s, m.id, st).(pc := Drop(k, m, how))
    case Drop(k, m, how) =>
      if !Has(s, k) then Abort(s)
      else
        var (n, ok) := if how == ByBalAck then Remove(MgrAt(s, k), m.id) else RemoveByFcmId(MgrAt(s, k), m.fcmId);
        var t := WithMgr(s, k, n);
        if ok then t.(pc := AfterDrop(k, m, how)) else Abort(t)
    case SendNext(k, m, how) =>
      var t := s.(pc := if how == ByBalAck then Idle else Notice(m, how));
      if !Has(s, k) then Abort(s)
      else
        (match Next(MgrAt(s, k))
         case None => t
         case Some(q) => Emitted(t, k, q))
    case Notice(m, how) =>
      var n := NoticeMsg(s.ctr + 1, m, how);
      s.(ctr := s.ctr + 1, pc := if how.ByAck? then SaveNew(Bal(m.source), n, Some(m.id)) else SaveReject(n, m.id))
    case SaveReject(n, d) =>
      if n.id in s.rows then s.(pc := Idle, interrupted := s.interrupted + Owing(s.pc))
      else SaveRow(s, n, Some(d)).(pc := Idle)
  }

  /** Runs the next statement of the handler, or the next turn of its loop. */
  function Exec(s: State): (t: State)
    requires !Boundary(s)
    ensures !WritesDb(s.pc) ==> t.rows == s.rows && t.notices == s.notices
    ensures !s.pc.AckUpstream? ==> t.acked == s.acked
    ensures t.pc.AckUpstream? ==> t.pc.m.kind == Upstream
    ensures t.epoch == s.epoch && s.ctr <= t.ctr
    ensures !TouchesManager(s.pc) ==> t.fcm == s.fcm && t.bals == s.bals
    ensures !s.pc.Idle? ==> t.timers == s.timers
    ensures !s.pc.Idle? && !s.pc.Emit? && !s.pc.SendNext? ==> t.sent == s.sent
    ensures t.pc.SaveNew? ==> s.pc.Notice? && t.pc.m.id == s.ctr + 1
    ensures t.pc.AckUpstream? || t.pc.AddNew? ==> (s.pc.SaveNew? || s.pc.AckUpstream?) && t.pc.m == s.pc.m
  {
    if EndsMessage(s.pc) then EndAndNotify(s)
    else if !s.pc.Idle? then StoreAndSend(s)
    else if Has(s, s.loop.k) then SweepTurn(s)
    else Abort(s)
  }

  predicate WritesDb(pc: Pc) {
    pc.SaveNew? || pc.MarkRow? || pc.FinishRow? || pc.SaveReject? || pc.ResendRow?
  }

  /** The database call throws; only notifyDownstreamUploadFailure has a catch clause of its own. */
  function DbFailed(s: State): State {
    if s.pc.SaveReject? then s.(pc := Idle, interrupted := s.interrupted + Owing(s.pc)) else Abort(s)
  }

  // ---------------------------------------------------------------- events

  /** The retry fields of a receipt are left unset by its constructor, so they may be anything. */
  datatype Event =
    | Upload(session: SessionId, group: GroupId, fcmId: FcmId, payload: string)
    | FcmUpstream(category: SessionId, fcmId: FcmId, payload: string)
    | FcmReceipt(category: SessionId, fcmId: FcmId, payload: string, nUnset: int, maxUnset: int)
    | FcmAck(fcmId: FcmId, data: string)
    | FcmNack(fcmId: FcmId, retryable: bool)
    | BalAck(session: SessionId, q: SeqId)
    | FcmUp
    | BalUp(session: SessionId)
    | TimerFires(t: Timer)

  /** A socket carries the session id of a successful logon, or none. */
  predicate Allowed(s: State, e: Event) {
    match e
    case Upload(session, _, _, _) => session == "" || session in s.bals
    case BalUp(session) => session in s.bals
    case TimerFires(t) => t in s.timers
    case _ => true
  }

  /** What a handler does before its first statement that can be interrupted. */
  function Begin(s: State, e: Event): (t: State)
    requires Boundary(s) && Allowed(s, e)
    ensures t.rows == s.rows && t.epoch == s.epoch && t.acked == s.acked && t.notices == s.notices
    ensures t.interrupted == s.interrupted && !t.pc.AckUpstream?
  {
    match e
    case Upload(session, group, fcmId, payload) =>
      var m := Msg(s.ctr + 1, Downstream, fcmId, group, session, FCM, payload, New, 0, -1);
      s.(ctr := m.id, pc := SaveNew(Fcm, m, None))
    case FcmUpstream(category, fcmId, payload) =>
      var m := Msg(s.ctr + 1, Upstream, fcmId, "", FCM, category, payload, New, 0, -1);
      s.(ctr := m.id, pc := SaveNew(Bal(category), m, None))
    case FcmReceipt(category, fcmId, payload, nUnset, maxUnset) =>
      var m := Msg(s.ctr + 1, DownstreamReceipt, fcmId, "", FCM, category, payload, New, nUnset, maxUnset);
      s.(ctr := m.id, pc := SaveNew(Bal(category), m, None))
    case FcmAck(fcmId, data) =>
      (match FindByFcmId(s.fcm, fcmId)
       case None => s
       case Some(m) => s.(pc := FinishRow(Fcm, m, Delivered, ByAck(data))))
    case FcmNack(fcmId, retryable) =>
      (match FindByFcmId(s.fcm, fcmId)
       case None => s
       case Some(m) =>
         if retryable then Retry(s, Fcm, m) else s.(pc := FinishRow(Fcm, m, DeliveryFailed, ByNack)))
    case BalAck(session, q) =>
      if session in s.bals && q in s.bals[session].messages
      then s.(pc := FinishRow(Bal(session), s.bals[session].messages[q], Delivered, ByBalAck))
      else s
    case FcmUp => s.(loop := Sweeping(Fcm, s.fcm.messages.Keys))
    case BalUp(session) => s.(loop := Sweeping(Bal(session), s.bals[session].messages.Keys))
    case TimerFires(t) => Emitted(s.(timers := s.timers - multiset{t}), t.k, t.q)
  }

  // ---------------------------------------------------------------- restart

  /** Rows that `SELECT ... WHERE state in (1, 2) AND target_session = b` returns. */
  function PendingFor(rows: map<SeqId, Row>, b: SessionId): set<SeqId> {
    set q | q in rows && Unfinished(rows[q].state) && rows[q].target == b
  }

  /** The message built from a row: the group column is read and dropped, the retry fields stay unset. */
  ghost predicate FromRow(m: Msg, q: SeqId, r: Row) {
    && m.id == q && m.group == ""
    && RowOf(m) == r.(group := "")
  }

  /** A manager filled from the table, whatever the order in which the rows come. */
  ghost predicate LoadedFrom(rows: map<SeqId, Row>, b: SessionId, m: Mgr) {
    && m.messages.Keys == PendingFor(rows, b)
    && (forall q :: q in m.messages ==> FromRow(m.messages[q], q, rows[q]))
    && m.groups == map[]
    && m.pending == 0
    && (forall f :: f in m.index ==> m.index[f] in m.messages && m.messages[m.index[f]].fcmId == f)
    && (forall q :: q in m.messages ==> m.messages[q].fcmId in m.index)
  }

  /** SELECT MAX(sequence_id), 0 for an empty table. */
  predicate IsMaxKey(rows: map<SeqId, Row>, c: SeqId) {
    if rows == map[] then c == 0 else c in rows && forall q :: q in rows ==> q <= c
  }

  ghost predicate Started(s: State) {
    && IsMaxKey(s.rows, s.ctr)
    && LoadedFrom(s.rows, FCM, s.fcm)
    && (forall b :: b in s.bals ==> LoadedFrom(s.rows, b, s.bals[b]))
    && s.timers == multiset{}
    && Boundary(s)
    && s.sent == []
    && s.epoch == s.ctr
  }

  ghost predicate Restarted(s: State, s': State) {
    && Started(s')
    && s'.rows == s.rows
    && s'.acked == s.acked
    && s'.notices == s.notices
    && s'.interrupted == s.interrupted + Owing(s.pc)
  }

  ghost predicate Init(s: State) {
    Started(s) && s.rows == map[] && s.acked == {} && s.notices == map[] && s.interrupted == {}
  }

  // ---------------------------------------------------------------- runs

  datatype Label = Handle(e: Event) | Run | DbFailure | Crash

  ghost predicate Step(s: State, l: Label, s': State) {
    match l
    case Handle(e) => Boundary(s) && Allowed(s, e) && s' == Begin(s, e)
    case Run => !Boundary(s) && s' == Exec(s)
    case DbFailure => WritesDb(s.pc) && s' == DbFailed(s)
    case Crash => Restarted(s, s')
  }

  /** A run from an empty table: one more state than labels. */
  ghost predicate IsRun(ss: seq<State>, ls: seq<Label>) {
    && |ss| == |ls| + 1
    && Init(ss[0])
    && forall i {:trigger ls[i]} :: 0 <= i < |ls| ==> Step(ss[i], ls[i], ss[i + 1])
  }
}
