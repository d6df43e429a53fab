/** The daemon's objects: the database connection with its table and counter (dbconnection.cpp), and the
    application whose handlers update rows, managers and timers statement by statement (application.cpp). */
module Application {
  import opened Core
  import opened MessageManager
  import opened Delivery
  import opened Durability
  import opened Structure
  import opened FlowControl
  import opened Handlers
  import opened Reach

  // ---------------------------------------------------------------- the database

  function Greatest(s: set<SeqId>): (m: SeqId)
    requires s != {}
    ensures m in s && forall y :: y in s ==> y <= m
  {
    Negated(s);
    -Least(Negatives(s))
  }

  function Negatives(s: set<SeqId>): set<SeqId> { set x | x in s :: -x }

  lemma Negated(s: set<SeqId>)
    ensures s != {} ==> Negatives(s) != {}
    ensures forall y :: y in s ==> -y in Negatives(s)
  {
    if |s| > 0 {
      var a := AnyOf(s);
      assert -a in Negatives(s);
    }
  }

  /** A manager into which the rows `done` have been loaded. */
  ghost predicate Loading(rows: map<SeqId, Row>, done: set<SeqId>, m: Mgr) {
    && m.messages.Keys == done
    && done <= rows.Keys
    && (forall q :: q in m.messages ==> FromRow(m.messages[q], q, rows[q]))
    && m.groups == map[] && m.pending == 0
    && (forall q :: q in m.messages ==> m.messages[q].fcmId in m.index)
  }

  lemma LoadOne(rows: map<SeqId, Row>, done: set<SeqId>, m: Mgr, msg: Msg)
    requires Loading(rows, done, m) && Valid(m) && msg.id in rows && msg.id !in done
    requires FromRow(msg, msg.id, rows[msg.id])
    ensures msg.id !in m.messages && Loading(rows, done + {msg.id}, Add(m, msg))
  {
    AddKeepsValid(m, msg);
  }

  lemma LoadNone(rows: map<SeqId, Row>)
    ensures Loading(rows, {}, EMPTY) && Valid(EMPTY)
  {
  }

  lemma LoadAll(rows: map<SeqId, Row>, b: SessionId, m: Mgr)
    requires Loading(rows, PendingFor(rows, b), m) && Valid(m)
    ensures LoadedFrom(rows, b, m)
  {
  }

  class DbConnection {
    var rows: map<SeqId, Row>
    var sequenceId: SeqId

    /** Opens a table with whatever rows it has. */
    constructor (rows: map<SeqId, Row>)
      ensures this.rows == rows && IsMaxKey(rows, sequenceId)
    {
      this.rows := rows;
      sequenceId := 0;
      new;
      InitSequenceId();
    }

    method InitSequenceId()
      modifies this`sequenceId
      ensures IsMaxKey(rows, sequenceId)
    {
      sequenceId := 0;
      if rows != map[] {
        SomeKey(rows);
        sequenceId := Greatest(rows.Keys);
      }
    }

    method GetNextSequenceId() returns (next: SeqId)
      modifies this`sequenceId
      ensures next == sequenceId == old(sequenceId) + 1
    {
      sequenceId := sequenceId + 1;
      next := sequenceId;
    }

    /** INSERT: false is the exception, when the sequence id is taken. */
    method SaveMsg(m: Msg) returns (ok: bool)
      modifies this`rows
      ensures ok == (m.id !in old(rows))
      ensures rows == if ok then old(rows)[m.id := RowOf(m)] else old(rows)
    {
      ok := m.id !in rows;
      if ok { rows := rows[m.id := RowOf(m)]; }
    }

    /** UPDATE: a missing row is not an error. */
    method UpdateMsgState(q: SeqId, st: MsgState)
      modifies this`rows
      ensures rows == if q in old(rows) then old(rows)[q := old(rows)[q].(state := st)] else old(rows)
    {
      if q in rows { rows := rows[q := rows[q].(state := st)]; }
    }

    /** The reload: the rows come in any order, and each becomes a message without its group. */
    method LoadPendingMessages(mgr: Manager)
      requires mgr.Model() == EMPTY
      modifies mgr
      ensures LoadedFrom(rows, mgr.sessionId, mgr.Model()) && Valid(mgr.Model())
    {
      hide Add, Valid, Loading, LoadedFrom, PendingFor;
      var all := PendingFor(rows, mgr.sessionId);
      PendingAreRows(rows, mgr.sessionId);
      var todo := all;
      LoadNone(rows);
      assert all - todo == {};
      while todo != {}
        invariant todo <= all && Valid(mgr.Model()) && Loading(rows, all - todo, mgr.Model())
        decreases |todo|
      {
        ghost var any := AnyOf(todo);
        var q :| q in todo;
        var msg := FromColumns(q, rows[q]);
        LoadOne(rows, all - todo, mgr.Model(), msg);
        mgr.AddMessage(msg);
        assert all - todo + {q} == all - (todo - {q});
        todo := todo - {q};
      }
      assert all - todo == all;
      LoadAll(rows, mgr.sessionId, mgr.Model());
    }
  }

  lemma PendingAreRows(rows: map<SeqId, Row>, b: SessionId)
    ensures forall q :: q in PendingFor(rows, b) ==> q in rows
  {
  }

  /** The message that the callback builds; its retry fields are not set by anyone. */
  method FromColumns(q: SeqId, r: Row) returns (msg: Msg)
    ensures FromRow(msg, q, r)
  {
    var nRetry: int, maxRetry: int := *, *;
    msg := Msg(q, r.kind, r.fcmId, "", r.source, r.target, r.payload, r.state, nRetry, maxRetry);
  }

  method LoadManager(db: DbConnection, b: SessionId) returns (mgr: Manager)
    ensures fresh(mgr) && LoadedFrom(db.rows, b, mgr.Model()) && Valid(mgr.Model())
  {
    hide LoadedFrom, Valid;
    mgr := new Manager(b);
    db.LoadPendingMessages(mgr);
  }

  ghost predicate Distinct(bals: map<SessionId, Manager>) {
    forall a, b :: a in bals && b in bals && bals[a] == bals[b] ==> a == b
  }

  method LoadManagers(db: DbConnection, sessions: set<SessionId>) returns (bals: map<SessionId, Manager>)
    ensures bals.Keys == sessions && Distinct(bals)
    ensures forall b :: b in bals ==> fresh(bals[b]) && LoadedFrom(db.rows, b, bals[b].Model())
  {
    hide LoadedFrom, Valid;
    bals := map[];
    var todo := sessions;
    while todo != {}
      invariant todo <= sessions && bals.Keys == sessions - todo && Distinct(bals)
      invariant forall b :: b in bals ==> fresh(bals[b]) && LoadedFrom(db.rows, b, bals[b].Model())
      decreases |todo|
    {
      var b :| b in todo;
      var m := LoadManager(db, b);
      bals := bals[b := m];
      todo := todo - {b};
    }
  }

  lemma SomeKey(rows: map<SeqId, Row>)
    requires rows != map[]
    ensures rows.Keys != {}
  {
    assert rows.Keys == {} ==> rows == map[];
  }

  // ---------------------------------------------------------------- what handlers carry from state to state

  /** A crash now would lose no live message: each is an unfinished row of its session. */
  ghost predicate AllStored(s: State) {
    forall k, q :: Live(s, k, q) ==> q in PendingFor(s.rows, SessionOf(k))
  }

  /** The results about runs, from one handler to the next: a state that a run reaches leads to one that a run
      reaches, within the limits; and where the standing assumption still holds, so does the linking invariant. */
  ghost predicate Carries(s: State, t: State) {
    && (Reached(s) ==> Reached(t) && WithinLimits(t))
    && (ReachedProperly(s) && Proper(t) ==> ReachedProperly(t) && Inv(t) && AllStored(t))
  }

  lemma ReachedIsStored(s: State)
    requires ReachedProperly(s) && Boundary(s)
    ensures Inv(s) && AllStored(s)
  {
    ReachedIsSteady(s);
    forall k, q | Live(s, k, q) ensures q in PendingFor(s.rows, SessionOf(k)) { LiveIsRow(s, k, q); }
  }

  lemma HandlerCarries(s: State, e: Event)
    requires Boundary(s) && Allowed(s, e)
    ensures Carries(s, Handled(s, e))
  {
    hide Handled, Reached, ReachedProperly, WithinLimits, AllStored, Inv, Proper;
    if Reached(s) {
      HandledIsReached(s, e);
      ReachedWithinLimits(Handled(s, e));
    }
    if ReachedProperly(s) && Proper(Handled(s, e)) {
      HandledIsReachedProperly(s, e);
      ReachedIsStored(Handled(s, e));
    }
  }

  lemma RestartIsReached(s: State, t: State)
    requires Restarted(s, t) && Reached(s)
    ensures Reached(t)
  {
    hide Restarted, Init, Step;
    var ss, ls :| IsRun(ss, ls) && ss[|ss| - 1] == s;
    var ss', ls' := CrashExtends(ss, ls, t);
  }

  lemma RestartIsReachedProperly(s: State, t: State)
    requires Restarted(s, t) && ReachedProperly(s) && Proper(t)
    ensures ReachedProperly(t)
  {
    hide Restarted, Init, Step, Proper;
    var ss, ls :| IsRun(ss, ls) && ss[|ss| - 1] == s && AllProper(ss);
    var ss', ls' := CrashExtends(ss, ls, t);
    assert AllProper(ss');
  }

  lemma RestartCarries(s: State, t: State)
    requires Restarted(s, t)
    ensures Carries(s, t)
  {
    assert Boundary(t);
    hide Restarted, Boundary, WithinLimits, AllStored, Inv, Proper, Reached, ReachedProperly;
    if Reached(s) {
      RestartIsReached(s, t);
      ReachedWithinLimits(t);
    }
    if ReachedProperly(s) && Proper(t) {
      RestartIsReachedProperly(s, t);
      ReachedIsStored(t);
    }
  }

  /** x can stand in for s: the rest of the handler leads to the same end. */
  ghost predicate Follows(s: State, x: State) { Base(x) && Drain(x) == Drain(s) }

  lemma Onward(s0: State, s: State, x: State)
    requires Follows(s0, s) && Becomes(s, x)
    ensures Follows(s0, x)
  {
    hide Exec, Base, Drain;
    ExecBase(s);
  }

  // ---------------------------------------------------------------- the application

  class App {
    const db: DbConnection
    const fcm: Manager
    const bals: map<SessionId, Manager>
    var timers: multiset<Timer>
    var sent: seq<Send>
    ghost var epoch: SeqId
    ghost var acked: set<FcmId>
    ghost var notices: map<SeqId, SeqId>
    ghost var interrupted: set<SeqId>

    ghost function Managers(): set<object> { {fcm} + set b | b in bals :: bals[b] }

    /** No two sessions share a manager. */
    ghost predicate Apart() {
      Distinct(bals) && forall b :: b in bals ==> bals[b] != fcm
    }

    ghost function BalModels(): map<SessionId, Mgr>
      reads Managers()
    {
      map b | b in bals :: bals[b].Model()
    }

    /** The state of the step system when the running handler is at `pc`, inside `loop`. */
    ghost function At(pc: Pc, loop: Loop): State
      reads this, db, Managers()
    {
      State(db.rows, db.sequenceId, fcm.Model(), BalModels(), timers, pc, loop, sent, epoch, acked, notices,
        interrupted)
    }

    ghost function Abs(): State
      reads this, db, Managers()
    {
      At(Idle, NoLoop)
    }

    ghost predicate Valid()
      reads this, db, Managers()
    {
      Apart() && Base(Abs())
    }

    predicate HasMgr(k: Key) { k.Bal? ==> k.session in bals }

    function MgrOf(k: Key): Manager
      requires HasMgr(k)
    {
      match k case Fcm => fcm case Bal(b) => bals[b]
    }

    lemma Models(k: Key, pc: Pc, loop: Loop)
      ensures Has(At(pc, loop), k) == HasMgr(k)
      ensures HasMgr(k) ==> MgrAt(At(pc, loop), k) == MgrOf(k).Model() && MgrOf(k) in Managers()
    {
    }

    /** The managers' values are f and bs, except for k, whose value is m. */
    ghost predicate Now(k: Key, m: Mgr, f: Mgr, bs: map<SessionId, Mgr>)
      reads Managers()
    {
      if k.Fcm? then fcm.Model() == m && BalModels() == bs else fcm.Model() == f && BalModels() == bs[k.session := m]
    }

    /** Only the manager of k has changed. */
    twostate lemma Replaced(k: Key)
      requires Apart() && HasMgr(k)
      requires forall j :: HasMgr(j) && j != k ==> MgrOf(j).Model() == old(MgrOf(j).Model())
      ensures Now(k, MgrOf(k).Model(), old(fcm.Model()), old(BalModels()))
    {
      forall b | b in bals && Bal(b) != k ensures bals[b].Model() == old(bals[b].Model()) {
        assert MgrOf(Bal(b)).Model() == old(MgrOf(Bal(b)).Model());
      }
      if k.Bal? {
        assert fcm == MgrOf(Fcm);
        assert BalModels() == old(BalModels())[k.session := MgrOf(k).Model()];
      } else {
        assert BalModels() == old(BalModels());
      }
    }

    /** Starting on an opened table, which an earlier process left in state `before`: every manager is
        filled from the table. */
    constructor (db: DbConnection, sessions: set<SessionId>, ghost before: State)
      requires IsMaxKey(db.rows, db.sequenceId) && before.rows == db.rows
      ensures this.db == db && bals.Keys == sessions && fresh(Managers())
      ensures Valid() && Restarted(before, Abs()) && Carries(before, Abs())
    {
      hide LoadedFrom, IsMaxKey, Base, Carries;
      var f := LoadManager(db, FCM);
      var bs := LoadManagers(db, sessions);
      this.db, fcm, bals := db, f, bs;
      timers, sent := multiset{}, [];
      epoch, acked, notices, interrupted := db.sequenceId, before.acked, before.notices,
        before.interrupted + Owing(before.pc);
      new;
      StartedBase(Abs());
      RestartCarries(before, Abs());
    }

    /** setState and incrementPendingAckCount. */
    method MarkAndCount(k: Key, q: SeqId)
      requires Apart() && HasMgr(k) && q in MgrOf(k).messages
      modifies MgrOf(k)
      ensures Now(k, CountUp(Put(old(MgrOf(k).Model()), old(MgrOf(k).messages[q]).(state := PendingAck))),
        old(fcm.Model()), old(BalModels()))
    {
      hide Now, Put, CountUp;
      MgrOf(k).Touch(MgrOf(k).messages[q].(state := PendingAck));
      MgrOf(k).IncrementPendingAckCount();
      Replaced(k);
    }

    /** canSendMessage and, when it allows, the four statements that mark, count and send. Here and below, `s` is
        a state of the step system that the present one stands in for. */
    method SendIfAllowed(k: Key, q: SeqId, ghost s: State, ghost loop: Loop)
      requires Apart() && HasMgr(k) && q in MgrOf(k).messages && Follows(s, At(TrySend(k, q), loop))
      modifies this, db, Managers()
      ensures Follows(s, At(Idle, loop))
    {
      hide Drain, CanSend, Base, Follows, Becomes, BalModels;
      ghost var x := At(TrySend(k, q), loop);
      Models(k, TrySend(k, q), loop);
      RunTry(x);
      if CanSend(MgrOf(k).Model(), MgrOf(k).messages[q]) == Sendable {
        Onward(s, x, At(MarkRow(k, q), loop));
        MarkCountSend(k, q, s, loop);
      } else {
        Onward(s, x, At(Idle, loop));
      }
    }

    method MarkCountSend(k: Key, q: SeqId, ghost s: State, ghost loop: Loop)
      requires Apart() && HasMgr(k) && q in MgrOf(k).messages && Follows(s, At(MarkRow(k, q), loop))
      modifies this, db, Managers()
      ensures Follows(s, At(Idle, loop))
    {
      hide Drain, CanSend, Put, CountUp, Base, Follows, Becomes, BalModels;
      Models(k, MarkRow(k, q), loop);
      RunSend(s, At(MarkRow(k, q), loop));
      db.UpdateMsgState(q, PendingAck);
      MarkAndCount(k, q);
      sent := sent + [Sent(k, q)];
    }

    method AddTo(k: Key, m: Msg)
      requires Apart() && HasMgr(k)
      modifies MgrOf(k)
      ensures Now(k, Add(old(MgrOf(k).Model()), m), old(fcm.Model()), old(BalModels()))
      ensures m.id in MgrOf(k).messages
    {
      hide Now;
      MgrOf(k).AddMessage(m);
      Replaced(k);
    }

    /** saveMsg, the ack to FCM for an upstream message, addMessage, and the attempt to send. An exception
        ends the handler. */
    method SaveAddSend(k: Key, m: Msg, about: Option<SeqId>, ghost s: State, ghost loop: Loop) returns (thrown: bool)
      requires Apart() && Follows(s, At(SaveNew(k, m, about), loop))
      modifies this, db, Managers()
      ensures Follows(s, At(Idle, if thrown then NoLoop else loop))
    {
      hide Drain, Base, Follows, Becomes, BalModels;
      ghost var x := At(SaveNew(k, m, about), loop);
      RunSave(x);
      var ok := db.SaveMsg(m);
      if !ok {
        interrupted := interrupted + Owing(SaveNew(k, m, about));
        Onward(s, x, Abs());
        return true;
      }
      if about.Some? { notices := notices[m.id := about.value]; }
      if m.kind == Upstream {
        Onward(s, x, At(AckUpstream(k, m), loop));
        RunAckUpstream(At(AckUpstream(k, m), loop));
        x := At(AckUpstream(k, m), loop);
        acked := acked + {m.fcmId};
      }
      Onward(s, x, At(AddNew(k, m), loop));
      thrown := AddSend(k, m, s, loop);
    }

    method AddSend(k: Key, m: Msg, ghost s: State, ghost loop: Loop) returns (thrown: bool)
      requires Apart() && Follows(s, At(AddNew(k, m), loop))
      modifies this, db, Managers()
      ensures Follows(s, At(Idle, if thrown then NoLoop else loop))
    {
      hide Drain, Base, Follows, Becomes, BalModels, Add;
      ghost var x := At(AddNew(k, m), loop);
      Models(k, AddNew(k, m), loop);
      RunAdd(x);
      if !HasMgr(k) {
        assert interrupted + {} == interrupted;
        Onward(s, x, Abs());
        return true;
      }
      AddTo(k, m);
      Onward(s, x, At(TrySend(k, m.id), loop));
      SendIfAllowed(k, m.id, s, loop);
      thrown := false;
    }

    // ------------------------------------------------------------ the end of a message

    /** updateMsgState to a finished state, the removal from the manager, and what follows it. */
    method FinishMessage(k: Key, m: Msg, st: MsgState, how: How, ghost s: State, ghost loop: Loop)
      returns (thrown: bool)
      requires Apart() && HasMgr(k) && Follows(s, At(FinishRow(k, m, st, how), loop))
      modifies this, db, Managers()
      ensures Follows(s, At(Idle, if thrown then NoLoop else loop))
    {
      hide Drain, Base, Follows, Becomes, BalModels;
      ghost var x := At(FinishRow(k, m, st, how), loop);
      RunFinishRow(x);
      db.UpdateMsgState(m.id, st);
      Onward(s, x, At(Drop(k, m, how), loop));
      thrown := DropMessage(k, m, how, s, loop);
    }

    method RemoveFrom(k: Key, m: Msg, how: How) returns (found: bool)
      requires Apart() && HasMgr(k)
      modifies MgrOf(k)
      ensures found == Removed(old(MgrOf(k).Model()), m, how).1
      ensures Now(k, Removed(old(MgrOf(k).Model()), m, how).0, old(fcm.Model()), old(BalModels()))
    {
      hide Now, Remove, RemoveByFcmId;
      if how == ByBalAck {
        found := MgrOf(k).RemoveMessage(m.id);
      } else {
        found := MgrOf(k).RemoveMessageWithFcmMsgId(m.fcmId);
      }
      Replaced(k);
    }

    /** removeMessage or removeMessageWithFcmMsgId; a message that is not found is an exception. */
    method DropMessage(k: Key, m: Msg, how: How, ghost s: State, ghost loop: Loop) returns (thrown: bool)
      requires Apart() && HasMgr(k) && Follows(s, At(Drop(k, m, how), loop))
      modifies this, db, Managers()
      ensures Follows(s, At(Idle, if thrown then NoLoop else loop))
    {
      hide Drain, Base, Follows, Becomes, BalModels, Removed, AfterDrop;
      ghost var x := At(Drop(k, m, how), loop);
      Models(k, Drop(k, m, how), loop);
      RunDrop(x);
      var found := RemoveFrom(k, m, how);
      if !found {
        interrupted := interrupted + Owing(Drop(k, m, how));
        Onward(s, x, Abs());
        return true;
      }
      Onward(s, x, At(AfterDrop(k, m, how), loop));
      thrown := AfterRemoval(k, m, how, s, loop);
    }

    method AfterRemoval(k: Key, m: Msg, how: How, ghost s: State, ghost loop: Loop) returns (thrown: bool)
      requires Apart() && HasMgr(k) && Follows(s, At(AfterDrop(k, m, how), loop))
      modifies this, db, Managers()
      ensures Follows(s, At(Idle, if thrown then NoLoop else loop))
    {
      hide Drain, Base, Follows, Becomes, BalModels, Next, Waits;
      if how != GaveUp {
        ghost var x := At(SendNext(k, m, how), loop);
        Models(k, SendNext(k, m, how), loop);
        FollowsMgr(s, x, k);
        RunSendNext(x);
        NextIsLeastWaiting(MgrOf(k).Model());
        SendNextPending(k);
        Onward(s, x, At(if how == ByBalAck then Idle else Notice(m, how), loop));
      }
      if how == ByBalAck || (how == GaveUp && !k.Fcm?) { return false; }
      thrown := NotifyBal(m, how, s, loop);
    }

    /** sendNextPendingDownstreamMessage and sendNextPendingUpstreamMessage: the oldest NEW message that heads its
        group is sent, without being marked or counted; nothing is sent at the limit, or when no message waits. */
    method SendNextPending(k: Key)
      requires HasMgr(k) && MessageManager.Valid(MgrOf(k).Model())
      modifies this`sent
      ensures AtLimit(MgrOf(k).Model()) || (forall q :: !Waits(MgrOf(k).Model(), q)) ==> sent == old(sent)
      ensures forall q :: !AtLimit(MgrOf(k).Model()) && LeastWaiting(MgrOf(k).Model(), q) ==>
        sent == old(sent) + [Sent(k, q)]
    {
      hide Next, Waits;
      var next := MgrOf(k).GetNext();
      NextIsLeastWaiting(MgrOf(k).Model());
      match next
      case None =>
      case Some(q) => sent := sent + [Sent(k, q)];
    }

    /** The ack row of handleFcmAckMessage, which is then sent, or the row of notifyDownstreamUploadFailure. */
    method NotifyBal(m: Msg, how: How, ghost s: State, ghost loop: Loop) returns (thrown: bool)
      requires Apart() && Follows(s, At(Notice(m, how), loop))
      modifies this, db, Managers()
      ensures Follows(s, At(Idle, if thrown then NoLoop else loop))
    {
      hide Drain, Base, Follows, Becomes, BalModels, NoticeMsg;
      ghost var x := At(Notice(m, how), loop);
      RunNotice(x);
      var id := db.GetNextSequenceId();
      var n := NoticeMsg(id, m, how);
      if how.ByAck? {
        Onward(s, x, At(SaveNew(Bal(m.source), n, Some(m.id)), loop));
        thrown := SaveAddSend(Bal(m.source), n, Some(m.id), s, loop);
      } else {
        Onward(s, x, At(SaveReject(n, m.id), loop));
        x := At(SaveReject(n, m.id), loop);
        RunSaveReject(x);
        var ok := db.SaveMsg(n);
        if ok { notices := notices[n.id := m.id]; } else { interrupted := interrupted + {m.id}; }
        Onward(s, x, At(Idle, loop));
        thrown := false;
      }
    }

    /** retryDownstreamWithExponentialBackoff and retryUpstreamWithExponentialBackoff. */
    method RetryWithBackoff(k: Key, msg: Msg, ghost s: State, ghost loop: Loop) returns (thrown: bool)
      requires Apart() && HasMgr(k) && Has(At(Idle, loop), k) && Follows(s, Retry(At(Idle, loop), k, msg))
      modifies this, db, Managers()
      ensures Follows(s, At(Idle, if thrown then NoLoop else loop))
    {
      hide Drain, Base, Follows, BalModels, Put;
      Models(k, Idle, loop);
      var m := Retried(msg);
      TouchIn(k, m);
      thrown := false;
      if m.maxRetry != -1 && m.nRetry > m.maxRetry {
        thrown := FinishMessage(k, m, DeliveryFailed, GaveUp, s, loop);
      } else {
        timers := timers + multiset{Timer(k, m.id)};
      }
    }

    method TouchIn(k: Key, m: Msg)
      requires Apart() && HasMgr(k)
      modifies MgrOf(k)
      ensures Now(k, Put(old(MgrOf(k).Model()), m), old(fcm.Model()), old(BalModels()))
    {
      hide Now;
      MgrOf(k).Touch(m);
      Replaced(k);
    }

    // ------------------------------------------------------------ the reconnect sweeps

    /** resendAllPendingDownstreamMessages and resendPendingUpstreamMessages. */
    method ResendPending(k: Key, ghost s: State)
      requires Apart() && HasMgr(k) && Follows(s, At(Idle, Sweeping(k, MgrOf(k).messages.Keys)))
      modifies this, db, Managers()
      ensures Follows(s, Abs())
    {
      hide Drain, Base, Follows, Becomes, BalModels, SweepTurn;
      var rest := MgrOf(k).messages.Keys;
      var thrown := false;
      while rest != {} && !thrown
        invariant Follows(s, At(Idle, if thrown then NoLoop else Sweeping(k, rest)))
        decreases |rest|
      {
        ghost var x := At(Idle, Sweeping(k, rest));
        Models(k, Idle, Sweeping(k, rest));
        RunTurn(x);
        Onward(s, x, SweepTurn(x));
        thrown := ResendOne(k, rest, s);
        rest := rest - {Least(rest)};
      }
      if !thrown {
        ghost var x := At(Idle, Sweeping(k, {}));
        Models(k, Idle, Sweeping(k, {}));
        RunTurn(x);
        Onward(s, x, SweepTurn(x));
        SweepOver(x);
      }
    }

    /** One turn: the next message in ascending order, if it is still there. */
    method ResendOne(k: Key, rest: set<SeqId>, ghost s: State) returns (thrown: bool)
      requires Apart() && HasMgr(k) && rest != {} && Has(At(Idle, Sweeping(k, rest)), k)
      requires Follows(s, SweepTurn(At(Idle, Sweeping(k, rest))))
      modifies this, db, Managers()
      ensures Follows(s, At(Idle, if thrown then NoLoop else Sweeping(k, rest - {Least(rest)})))
    {
      hide Drain, Base, Follows, BalModels, CanSendOnReconnect, Remove, Retry;
      Models(k, Idle, Sweeping(k, rest));
      var q := Least(rest);
      ghost var loop := Sweeping(k, rest - {q});
      Models(k, Idle, loop);
      thrown := false;
      var mgr := MgrOf(k);
      if q !in mgr.messages { return; }
      var msg := mgr.messages[q];
      if (msg.kind == Downstream) != k.Fcm? { return; }
      match CanSendOnReconnect(mgr.Model(), msg)
      case Sendable => Resend(k, q, msg, s, loop);
      case TooManyPending => thrown := RetryWithBackoff(k, msg, s, loop);
      case BehindInGroup =>
      case BadState =>
        if !k.Fcm? { DropUnsendable(k, q); }
      case Throws =>
        assert interrupted + {} == interrupted;
        thrown := true;
    }

    method DropUnsendable(k: Key, q: SeqId)
      requires Apart() && HasMgr(k)
      modifies MgrOf(k)
      ensures Now(k, Remove(old(MgrOf(k).Model()), q).0, old(fcm.Model()), old(BalModels()))
    {
      hide Now, Remove;
      var _ := MgrOf(k).RemoveMessage(q);
      Replaced(k);
    }

    method CountIn(k: Key)
      requires Apart() && HasMgr(k)
      modifies MgrOf(k)
      ensures Now(k, CountUp(old(MgrOf(k).Model())), old(fcm.Model()), old(BalModels()))
    {
      hide Now;
      MgrOf(k).IncrementPendingAckCount();
      Replaced(k);
    }

    /** The send of a sweep; upstream, a message that is not pending is marked in its row and counted. */
    method Resend(k: Key, q: SeqId, msg: Msg, ghost s: State, ghost loop: Loop)
      requires Apart() && HasMgr(k)
      requires k.Fcm? ==> Follows(s, Emitted(At(Idle, loop), k, q))
      requires !k.Fcm? ==> Follows(s, At(if msg.state != PendingAck then ResendRow(k, q) else Emit(k, q), loop))
      modifies this, db, Managers()
      ensures Follows(s, At(Idle, loop))
    {
      hide Drain, Base, Follows, Becomes, BalModels, CountUp;
      if !k.Fcm? {
        if msg.state != PendingAck {
          ghost var x := At(ResendRow(k, q), loop);
          RunResendRow(x);
          db.UpdateMsgState(q, PendingAck);
          Onward(s, x, At(ResendCount(k, q), loop));
          x := At(ResendCount(k, q), loop);
          Models(k, ResendCount(k, q), loop);
          RunResendCount(x);
          CountIn(k);
          Onward(s, x, At(Emit(k, q), loop));
        }
        RunEmit(At(Emit(k, q), loop));
        Onward(s, At(Emit(k, q), loop), Emitted(At(Emit(k, q), loop), k, q).(pc := Idle));
      }
      sent := sent + [Sent(k, q)];
    }

    // ------------------------------------------------------------ the handlers

    /** handleBalDownstreamUploadRequest. */
    method HandleUpload(session: SessionId, group: GroupId, fcmId: FcmId, payload: string)
      requires Valid() && Allowed(Abs(), Upload(session, group, fcmId, payload))
      modifies this, db, Managers()
      ensures Valid() && Abs() == Handled(old(Abs()), Upload(session, group, fcmId, payload))
      ensures Carries(old(Abs()), Abs())
    {
      hide Drain, Base, Follows, BalModels, Handled, Carries;
      ghost var was, e := Abs(), Upload(session, group, fcmId, payload);
      BeginsAt(was, e);
      var id := db.GetNextSequenceId();
      var m := Msg(id, Downstream, fcmId, group, session, FCM, payload, New, 0, -1);
      var _ := SaveAddSend(Fcm, m, None, Begin(was, e), NoLoop);
      Ended(was, e, Abs());
    }

    /** handleFcmNewUpstreamMessage. */
    method HandleUpstream(category: SessionId, fcmId: FcmId, payload: string)
      requires Valid()
      modifies this, db, Managers()
      ensures Valid() && Abs() == Handled(old(Abs()), FcmUpstream(category, fcmId, payload))
      ensures Carries(old(Abs()), Abs())
    {
      hide Drain, Base, Follows, BalModels, Handled, Carries;
      ghost var was, e := Abs(), FcmUpstream(category, fcmId, payload);
      BeginsAt(was, e);
      var id := db.GetNextSequenceId();
      var m := Msg(id, Upstream, fcmId, "", FCM, category, payload, New, 0, -1);
      var _ := SaveAddSend(Bal(category), m, None, Begin(was, e), NoLoop);
      Ended(was, e, Abs());
    }

    /** handleFcmReceiptMessage; the retry fields hold whatever was in memory. */
    method HandleReceipt(category: SessionId, fcmId: FcmId, payload: string, nUnset: int, maxUnset: int)
      requires Valid()
      modifies this, db, Managers()
      ensures Valid() && Abs() == Handled(old(Abs()), FcmReceipt(category, fcmId, payload, nUnset, maxUnset))
      ensures Carries(old(Abs()), Abs())
    {
      hide Drain, Base, Follows, BalModels, Handled, Carries;
      ghost var was, e := Abs(), FcmReceipt(category, fcmId, payload, nUnset, maxUnset);
      BeginsAt(was, e);
      var id := db.GetNextSequenceId();
      var m := Msg(id, DownstreamReceipt, fcmId, "", FCM, category, payload, New, nUnset, maxUnset);
      var _ := SaveAddSend(Bal(category), m, None, Begin(was, e), NoLoop);
      Ended(was, e, Abs());
    }

    /** handleFcmAckMessage. */
    method HandleAck(fcmId: FcmId, data: string)
      requires Valid()
      modifies this, db, Managers()
      ensures Valid() && Abs() == Handled(old(Abs()), FcmAck(fcmId, data)) && Carries(old(Abs()), Abs())
    {
      hide Drain, Base, Follows, BalModels, Handled, Carries, FindByFcmId;
      ghost var was, e := Abs(), FcmAck(fcmId, data);
      BeginsAt(was, e);
      var found := fcm.FindMessageWithFcmMsgId(fcmId);
      match found {
        case None =>
        case Some(m) => var _ := FinishMessage(Fcm, m, Delivered, ByAck(data), Begin(was, e), NoLoop);
      }
      Ended(was, e, Abs());
    }

    /** handleFcmNackMessage. */
    method HandleNack(fcmId: FcmId, retryable: bool)
      requires Valid()
      modifies this, db, Managers()
      ensures Valid() && Abs() == Handled(old(Abs()), FcmNack(fcmId, retryable)) && Carries(old(Abs()), Abs())
    {
      hide Drain, Base, Follows, BalModels, Handled, Carries, FindByFcmId, Retry;
      ghost var was, e := Abs(), FcmNack(fcmId, retryable);
      BeginsAt(was, e);
      var found := fcm.FindMessageWithFcmMsgId(fcmId);
      match found {
        case None =>
        case Some(m) =>
          if retryable {
            var _ := RetryWithBackoff(Fcm, m, Begin(was, e), NoLoop);
          } else {
            var _ := FinishMessage(Fcm, m, DeliveryFailed, ByNack, Begin(was, e), NoLoop);
          }
      }
      Ended(was, e, Abs());
    }

    /** handleBalAckMsg. */
    method HandleBalAck(session: SessionId, q: SeqId)
      requires Valid()
      modifies this, db, Managers()
      ensures Valid() && Abs() == Handled(old(Abs()), BalAck(session, q)) && Carries(old(Abs()), Abs())
    {
      hide Drain, Base, Follows, BalModels, Handled, Carries;
      ghost var was, e := Abs(), BalAck(session, q);
      BeginsAt(was, e);
      Models(Bal(session), Idle, NoLoop);
      if session in bals && q in bals[session].messages {
        var _ := FinishMessage(Bal(session), bals[session].messages[q], Delivered, ByBalAck, Begin(was, e), NoLoop);
      }
      Ended(was, e, Abs());
    }

    /** handleFcmSessionEstablished. */
    method HandleFcmUp()
      requires Valid()
      modifies this, db, Managers()
      ensures Valid() && Abs() == Handled(old(Abs()), FcmUp) && Carries(old(Abs()), Abs())
    {
      hide Drain, Base, Follows, BalModels, Handled, Carries;
      ghost var was := Abs();
      BeginsAt(was, FcmUp);
      ResendPending(Fcm, Begin(was, FcmUp));
      Ended(was, FcmUp, Abs());
    }

    /** The logon of a BAL session. */
    method HandleBalUp(session: SessionId)
      requires Valid() && session in bals
      modifies this, db, Managers()
      ensures Valid() && Allowed(old(Abs()), BalUp(session))
      ensures Abs() == Handled(old(Abs()), BalUp(session)) && Carries(old(Abs()), Abs())
    {
      hide Drain, Base, Follows, BalModels, Handled, Carries;
      ghost var was := Abs();
      Models(Bal(session), Idle, NoLoop);
      BeginsAt(was, BalUp(session));
      ResendPending(Bal(session), Begin(was, BalUp(session)));
      Ended(was, BalUp(session), Abs());
    }

    /** A retry timer: the message goes out again, whatever has become of it. */
    method HandleTimer(t: Timer)
      requires Valid() && t in timers
      modifies this
      ensures Valid() && Abs() == Handled(old(Abs()), TimerFires(t)) && Carries(old(Abs()), Abs())
    {
      hide Drain, Base, Follows, Handled, Carries;
      ghost var was := Abs();
      BeginsAt(was, TimerFires(t));
      timers := timers - multiset{t};
      sent := sent + [Sent(t.k, t.q)];
      assert BalModels() == old(BalModels());
      Ended(was, TimerFires(t), Abs());
    }
  }

  lemma SweepOver(s: State)
    requires s.pc.Idle? && s.loop.Sweeping? && Has(s, s.loop.k) && s.loop.rest == {}
    ensures SweepTurn(s) == s.(loop := NoLoop)
  {
  }

  lemma BeginsAt(s: State, e: Event)
    requires Base(s) && Boundary(s) && Allowed(s, e)
    ensures Follows(Begin(s, e), Begin(s, e))
  {
    hide Base, Begin;
    BeginBase(s, e);
  }

  /** At its end a handler has left what the step system leaves. */
  lemma Ended(s: State, e: Event, t: State)
    requires Boundary(s) && Allowed(s, e) && Boundary(t) && Follows(Begin(s, e), t)
    ensures Base(t) && t == Handled(s, e) && Carries(s, t)
  {
    hide Base, Begin, Carries, Drain;
    NothingToRun(t);
    HandlerCarries(s, e);
  }

  lemma FollowsMgr(s: State, x: State, k: Key)
    requires Follows(s, x) && Has(x, k)
    ensures Valid(MgrAt(x, k))
  {
    BaseMgr(x, k);
  }

  /** The four statements in one. */
  lemma RunSend(s0: State, s: State)
    requires s.pc.MarkRow? && Has(s, s.pc.k) && s.pc.q in MgrAt(s, s.pc.k).messages && Follows(s0, s)
    ensures var k, q := s.pc.k, s.pc.q;
      var m := Put(MgrAt(s, k), MgrAt(s, k).messages[q].(state := PendingAck));
      Follows(s0, Emitted(WithMgr(SetRow(s, q, PendingAck), k, CountUp(m)), k, q).(pc := Idle))
  {
    hide Drain, Put, CountUp, Base, Follows, Becomes;
    var k, q := s.pc.k, s.pc.q;
    RunMarkRow(s);
    var s1 := SetRow(s, q, PendingAck).(pc := MarkMem(k, q));
    Onward(s0, s, s1);
    RunMarkMem(s1);
    var m := Put(MgrAt(s, k), MgrAt(s, k).messages[q].(state := PendingAck));
    var s2 := WithMgr(s1, k, m).(pc := CountOne(k, q));
    Onward(s0, s1, s2);
    RunCount(s2);
    var s3 := WithMgr(s1, k, CountUp(m)).(pc := Emit(k, q));
    WithMgrTwice(s1, k, m, CountUp(m));
    Onward(s0, s2, s3);
    RunEmit(s3);
    Onward(s0, s3, Emitted(s3, k, q).(pc := Idle));
  }

  lemma WithMgrTwice(s: State, k: Key, m: Mgr, n: Mgr)
    ensures WithMgr(WithMgr(s, k, m), k, n) == WithMgr(s, k, n)
  {
    if k.Bal? { assert s.bals[k.session := m][k.session := n] == s.bals[k.session := n]; }
  }
}
