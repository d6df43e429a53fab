/** What every step keeps, and durability over whole runs with crashes between any two statements. */
module Durability {
  import opened Core
  import opened MessageManager
  import opened Delivery

  // ---------------------------------------------------------------- the invariant

  /** A live message agrees with its row, and its row is never behind it. */
  ghost predicate Linked(rows: map<SeqId, Row>, b: SessionId, m: Msg) {
    && m.id in rows
    && m.target == b
    && (var r := rows[m.id];
        && r.target == b && r.fcmId == m.fcmId && r.kind == m.kind && r.source == m.source && r.payload == m.payload
        && Unfinished(m.state)
        && Rank(m.state) <= Rank(r.state))
  }

  /** `q` is the message whose row has just been finished and which is about to be removed. */
  predicate Dropping(pc: Pc, k: Key, q: SeqId) {
    pc.Drop? && pc.k == k && pc.m.id == q
  }

  /** A message that can run out of retries is the one its FCM id leads to. */
  ghost predicate RetryIndexed(m: Mgr) {
    forall q :: q in m.messages && m.messages[q].maxRetry != -1 ==>
      m.messages[q].fcmId in m.index && m.index[m.messages[q].fcmId] == q
  }

  ghost predicate MgrInv(s: State, k: Key)
    requires Has(s, k)
  {
    var m := MgrAt(s, k);
    && Valid(m)
    && RetryIndexed(m)
    && (forall q :: q in m.messages ==> Linked(s.rows, SessionOf(k), m.messages[q]))
    && (forall q :: q in m.messages && !Unfinished(s.rows[q].state) ==> Dropping(s.pc, k, q))
  }

  /** `m` is live in manager `k` and an ending by FCM id would find it. */
  ghost predicate Ending(s: State, k: Key, m: Msg, how: How) {
    && Has(s, k)
    && m.id in MgrAt(s, k).messages && MgrAt(s, k).messages[m.id] == m
    && (how != ByBalAck ==> m.fcmId in MgrAt(s, k).index && MgrAt(s, k).index[m.fcmId] == m.id)
    && (how.ByAck? || how.ByNack? ==> k.Fcm?)
  }

  ghost predicate Fresh(s: State, q: SeqId) {
    0 < q <= s.ctr && q !in s.rows
  }

  ghost predicate Live(s: State, k: Key, q: SeqId) {
    Has(s, k) && q in MgrAt(s, k).messages
  }

  ghost predicate PcInv(s: State) {
    match s.pc
    case Idle => true
    case SaveNew(k, m, about) => Fresh(s, m.id) && m.state == New && m.target == SessionOf(k)
    case AckUpstream(k, m) =>
      m.id in s.rows && s.rows[m.id] == RowOf(m) && m.state == New && m.target == SessionOf(k) && !Live(s, k, m.id)
    case AddNew(k, m) =>
      m.id in s.rows && s.rows[m.id] == RowOf(m) && m.state == New && m.target == SessionOf(k) && !Live(s, k, m.id)
    case TrySend(k, q) => Live(s, k, q)
    case MarkRow(k, q) => Live(s, k, q)
    case MarkMem(k, q) => Live(s, k, q) && q in s.rows && s.rows[q].state == PendingAck
    case CountOne(k, q) => Has(s, k)
    case Emit(k, q) => true
    case FinishRow(k, m, st, how) => Ending(s, k, m, how) && Finished(st)
    case Drop(k, m, how) => Ending(s, k, m, how)
    case SendNext(k, m, how) => Has(s, k)
    case Notice(m, how) => true
    case SaveReject(n, d) => Fresh(s, n.id)
    case ResendRow(k, q) => Live(s, k, q) && k != Fcm
    case ResendCount(k, q) => Has(s, k) && k != Fcm
  }

  /** A sweep runs over live messages; the one it is ending has already been visited. */
  ghost predicate LoopInv(s: State) {
    s.loop.Sweeping? ==>
      && Has(s, s.loop.k)
      && s.loop.rest <= MgrAt(s, s.loop.k).messages.Keys
      && (s.pc.Idle? || s.pc.Emit? || s.pc.FinishRow? || s.pc.Drop? || s.pc.Notice? || s.pc.SaveReject?
          || s.pc.ResendRow? || s.pc.ResendCount?)
      && (s.pc.FinishRow? || s.pc.Drop? ==> s.pc.how == GaveUp && s.pc.k == s.loop.k && s.pc.m.id !in s.loop.rest)
      && (s.pc.Notice? ==> s.pc.how == GaveUp)
  }

  ghost predicate Inv(s: State) {
    && FCM !in s.bals
    && (forall q :: q in s.rows ==> 0 < q <= s.ctr)
    && 0 <= s.ctr
    && (forall k :: Has(s, k) ==> MgrInv(s, k))
    && PcInv(s)
    && LoopInv(s)
  }

  // ---------------------------------------------------------------- what a run is assumed to meet

  /** A live message with a retry cap shares its FCM id with no other live message. Every message has
      no cap when `maxRetry` is -1, and none shares when live FCM ids are distinct. */
  ghost predicate CappedIdsUnique(m: Mgr) {
    forall p, q :: p in m.messages && q in m.messages && p != q && m.messages[p].fcmId == m.messages[q].fcmId ==>
      m.messages[p].maxRetry == -1
  }

  /** Capped messages have ids of their own, and the config file names no BAL session "fcm". */
  ghost predicate Proper(s: State) {
    FCM !in s.bals && forall k :: Has(s, k) ==> CappedIdsUnique(MgrAt(s, k))
  }

  /** Either reading of the assumption is enough. */
  lemma DistinctOrUncappedIsProper(s: State)
    requires FCM !in s.bals
    requires
      || (forall k :: Has(s, k) ==> DistinctIds(MgrAt(s, k)))
      || (forall k, q :: Live(s, k, q) ==> MgrAt(s, k).messages[q].maxRetry == -1)
    ensures Proper(s)
  {
    forall k | Has(s, k) ensures CappedIdsUnique(MgrAt(s, k)) {
      forall p, q | p in MgrAt(s, k).messages && q in MgrAt(s, k).messages && p != q
                    && MgrAt(s, k).messages[p].fcmId == MgrAt(s, k).messages[q].fcmId
        ensures MgrAt(s, k).messages[p].maxRetry == -1
      {
        assert Live(s, k, p);
      }
    }
  }

  // ---------------------------------------------------------------- one home per message

  lemma OneHome(s: State, j: Key, k: Key, q: SeqId)
    requires Inv(s) && Live(s, j, q) && Live(s, k, q)
    ensures j == k
  {
    assert MgrInv(s, j) && MgrInv(s, k);
    assert Linked(s.rows, SessionOf(j), MgrAt(s, j).messages[q]);
    assert Linked(s.rows, SessionOf(k), MgrAt(s, k).messages[q]);
  }

  lemma LiveIsRow(s: State, k: Key, q: SeqId)
    requires Inv(s) && Live(s, k, q)
    ensures q in s.rows && s.rows[q].target == SessionOf(k) && MgrAt(s, k).messages[q].id == q
    ensures Linked(s.rows, SessionOf(k), MgrAt(s, k).messages[q])
    ensures Unfinished(s.rows[q].state) || Dropping(s.pc, k, q)
  {
    assert MgrInv(s, k);
  }

  // ---------------------------------------------------------------- preservation, piece by piece

  /** A step that leaves rows and managers alone and is not leaving a Drop. */
  lemma SameMemory(s: State, t: State)
    requires Inv(s) && !s.pc.Drop?
    requires t.rows == s.rows && t.fcm == s.fcm && t.bals == s.bals && t.ctr >= s.ctr
    requires PcInv(t) && LoopInv(t)
    ensures Inv(t)
  {
    forall k | Has(t, k) ensures MgrInv(t, k) {
      assert Has(s, k) && MgrInv(s, k);
      assert MgrAt(t, k) == MgrAt(s, k);
    }
  }

  /** A step that changes one manager only. */
  lemma OneManager(s: State, t: State, k: Key, m: Mgr)
    requires Inv(s) && Has(s, k) && (s.pc.Drop? ==> s.pc.k == k)
    requires var u := WithMgr(s, k, m); t.rows == u.rows && t.fcm == u.fcm && t.bals == u.bals && t.ctr == u.ctr
    requires Valid(m) && RetryIndexed(m)
    requires forall q :: q in m.messages ==> Linked(s.rows, SessionOf(k), m.messages[q])
    requires forall q :: q in m.messages && q in s.rows && !Unfinished(s.rows[q].state) ==> Dropping(t.pc, k, q)
    requires PcInv(t) && LoopInv(t)
    ensures Inv(t)
  {
    forall j | Has(t, j) ensures MgrInv(t, j) {
      assert Has(s, j) && MgrInv(s, j);
      if j != k {
        assert MgrAt(t, j) == MgrAt(s, j);
      } else {
        assert MgrAt(t, j) == m;
      }
    }
  }

  /** A write to the row of a live message. */
  lemma RowWritten(s: State, t: State, k: Key, q: SeqId, st: MsgState)
    requires Inv(s) && Live(s, k, q) && !s.pc.Drop?
    requires st == PendingAck || Finished(st)
    requires var u := SetRow(s, q, st); t.rows == u.rows && t.fcm == u.fcm && t.bals == u.bals && t.ctr == u.ctr
    requires Finished(st) ==> Dropping(t.pc, k, q)
    requires PcInv(t) && LoopInv(t)
    ensures Inv(t)
  {
    LiveIsRow(s, k, q);
    forall j | Has(t, j) ensures MgrInv(t, j) {
      assert Has(s, j) && MgrInv(s, j);
      assert MgrAt(t, j) == MgrAt(s, j);
      if j != k && q in MgrAt(s, j).messages {
        OneHome(s, j, k, q);
      }
      forall p | p in MgrAt(t, j).messages
        ensures Linked(t.rows, SessionOf(j), MgrAt(t, j).messages[p])
        ensures !Unfinished(t.rows[p].state) ==> Dropping(t.pc, j, p)
      {
        LiveIsRow(s, j, p);
        assert MgrAt(s, j).messages[p].id == p;
      }
    }
  }

  /** A new row under an unused sequence id. */
  lemma RowAdded(s: State, t: State, m: Msg)
    requires Inv(s) && !s.pc.Drop? && Fresh(s, m.id)
    requires t.rows == s.rows[m.id := RowOf(m)] && t.fcm == s.fcm && t.bals == s.bals && t.ctr == s.ctr
    requires PcInv(t) && LoopInv(t)
    ensures Inv(t)
  {
    forall k | Has(t, k) ensures MgrInv(t, k) {
      assert Has(s, k) && MgrInv(s, k);
      assert MgrAt(t, k) == MgrAt(s, k);
      forall q | q in MgrAt(t, k).messages
        ensures Linked(t.rows, SessionOf(k), MgrAt(t, k).messages[q]) && q != m.id
      {
        LiveIsRow(s, k, q);
      }
    }
  }

  lemma FreshIsNotLive(s: State, k: Key, q: SeqId)
    requires Inv(s) && q !in s.rows
    ensures !Live(s, k, q)
  {
    if Live(s, k, q) {
      LiveIsRow(s, k, q);
      assert false;
    }
  }

  /** A live message changes its state or its retry count through the shared pointer. */
  lemma MessageChanged(s: State, t: State, k: Key, m: Msg)
    requires Inv(s) && !s.pc.Drop? && Live(s, k, m.id)
    requires var was := MgrAt(s, k).messages[m.id];
      m.(state := was.state, nRetry := was.nRetry) == was && Unfinished(m.state)
    requires Rank(m.state) <= Rank(s.rows[m.id].state)
    requires var u := WithMgr(s, k, Put(MgrAt(s, k), m));
      t.rows == u.rows && t.fcm == u.fcm && t.bals == u.bals && t.ctr == u.ctr
    requires PcInv(t) && LoopInv(t)
    ensures Inv(t)
  {
    var n := Put(MgrAt(s, k), m);
    assert MgrInv(s, k);
    LiveIsRow(s, k, m.id);
    PutKeepsValid(MgrAt(s, k), m);
    forall q | q in n.messages
      ensures Linked(s.rows, SessionOf(k), n.messages[q]) && Unfinished(s.rows[q].state)
    {
      assert Live(s, k, q);
      LiveIsRow(s, k, q);
    }
    OneManager(s, t, k, n);
  }

  // ---------------------------------------------------------------- preservation, statement by statement

  lemma RetryKeeps(s: State, k: Key, q: SeqId)
    requires Inv(s) && s.pc == Idle && Live(s, k, q)
    requires s.loop.Sweeping? ==> s.loop.k == k && q !in s.loop.rest
    ensures Inv(Retry(s, k, MgrAt(s, k).messages[q]))
  {
    LiveIsRow(s, k, q);
    assert MgrInv(s, k);
    var was := MgrAt(s, k).messages[q];
    var m := was.(nRetry := was.nRetry + 1);
    var t := Retry(s, k, was);
    MessageChanged(s, t, k, m);
  }

  lemma SaveNewKeeps(s: State)
    requires Inv(s) && s.pc.SaveNew?
    ensures Inv(Exec(s))
  {
    FreshIsNotLive(s, s.pc.k, s.pc.m.id);
    RowAdded(s, Exec(s), s.pc.m);
  }

  lemma AddKeepsRetryIndexed(a: Mgr, m: Msg)
    requires Valid(a) && RetryIndexed(a) && m.id !in a.messages && CappedIdsUnique(Add(a, m))
    ensures RetryIndexed(Add(a, m))
  {
    var n := Add(a, m);
    AddKeepsValid(a, m);
    if m.fcmId in a.index {
      var p := a.index[m.fcmId];
      assert p != m.id && m.id in n.messages && n.messages[m.id].fcmId == n.messages[p].fcmId;
    }
  }

  lemma AddedIsLinked(s: State)
    requires Inv(s) && s.pc.AddNew? && Has(s, s.pc.k)
    ensures var n := Add(MgrAt(s, s.pc.k), s.pc.m);
      && Valid(n)
      && (forall q :: q in n.messages ==>
            Linked(s.rows, SessionOf(s.pc.k), n.messages[q]) && Unfinished(s.rows[q].state))
  {
    var k, m := s.pc.k, s.pc.m;
    assert MgrInv(s, k);
    AddKeepsValid(MgrAt(s, k), m);
    forall q | q in MgrAt(s, k).messages
      ensures Linked(s.rows, SessionOf(k), MgrAt(s, k).messages[q]) && Unfinished(s.rows[q].state)
    {
      LiveIsRow(s, k, q);
    }
  }

  lemma AddNewKeeps(s: State)
    requires Inv(s) && s.pc.AddNew? && Proper(Exec(s))
    ensures Inv(Exec(s))
  {
    var k, t := s.pc.k, Exec(s);
    if Has(s, k) {
      var n := Add(MgrAt(s, k), s.pc.m);
      assert MgrInv(s, k);
      AddedIsLinked(s);
      assert Has(t, k) && MgrAt(t, k) == n;
      AddKeepsRetryIndexed(MgrAt(s, k), s.pc.m);
      assert PcInv(t) by {
        AddKeepsValid(MgrAt(s, k), s.pc.m);
      }
      OneManager(s, t, k, n);
    } else {
      SameMemory(s, t);
    }
  }

  lemma MarkMemKeeps(s: State)
    requires Inv(s) && s.pc.MarkMem?
    ensures Inv(Exec(s))
  {
    var k, q := s.pc.k, s.pc.q;
    LiveIsRow(s, k, q);
    MessageChanged(s, Exec(s), k, MgrAt(s, k).messages[q].(state := PendingAck));
  }

  lemma CountKeeps(s: State)
    requires Inv(s) && (s.pc.CountOne? || s.pc.ResendCount?)
    ensures Inv(Exec(s))
  {
    var k := s.pc.k;
    assert MgrInv(s, k);
    var n := CountUp(MgrAt(s, k));
    assert Valid(n);
    OneManager(s, Exec(s), k, n);
  }

  /** The removal takes out the very message whose row was finished. */
  lemma DropRemoves(s: State)
    requires Inv(s) && s.pc.Drop?
    ensures var t := Exec(s);
      && t == WithMgr(s, s.pc.k, Remove(MgrAt(s, s.pc.k), s.pc.m.id).0).(pc := AfterDrop(s.pc.k, s.pc.m, s.pc.how))
      && Has(t, s.pc.k) && MgrAt(t, s.pc.k) == Remove(MgrAt(s, s.pc.k), s.pc.m.id).0
      && Valid(MgrAt(t, s.pc.k))
      && MgrAt(t, s.pc.k).messages == MgrAt(s, s.pc.k).messages - {s.pc.m.id}
  {
    assert MgrInv(s, s.pc.k);
    RemoveKeepsValid(MgrAt(s, s.pc.k), s.pc.m.id);
  }

  lemma DropKeeps(s: State)
    requires Inv(s) && s.pc.Drop? && Proper(s)
    ensures Inv(Exec(s))
  {
    var k, q := s.pc.k, s.pc.m.id;
    DropRemoves(s);
    hide Exec, Remove;
    var t := Exec(s);
    var n := MgrAt(t, k);
    assert MgrInv(s, k);
    DropKeepsIndex(s, q);
    forall p | p in n.messages
      ensures Linked(s.rows, SessionOf(k), n.messages[p]) && Unfinished(s.rows[p].state)
    {
      assert Live(s, k, p);
      LiveIsRow(s, k, p);
    }
    hide Proper;
    OneManager(s, t, k, n);
  }

  lemma DropKeepsIndex(s: State, q: SeqId)
    requires Inv(s) && s.pc.Drop? && Proper(s) && q == s.pc.m.id
    ensures RetryIndexed(Remove(MgrAt(s, s.pc.k), q).0)
  {
    var k := s.pc.k;
    assert MgrInv(s, k) && CappedIdsUnique(MgrAt(s, k));
    hide Exec;
    var n := Remove(MgrAt(s, k), q).0;
    forall p | p in n.messages && n.messages[p].maxRetry != -1
      ensures n.messages[p].fcmId in n.index && n.index[n.messages[p].fcmId] == p
    {
      assert p in MgrAt(s, k).messages && p != q;
    }
  }

  /** A turn of a sweep retries the next message, or touches neither rows nor managers. */
  lemma TurnCases(s: State)
    requires Inv(s) && s.pc == Idle && s.loop.Sweeping? && s.loop.rest != {}
    ensures var k, q, t := s.loop.k, Least(s.loop.rest), SweepTurn(s);
      && Live(s, k, q)
      && var u := s.(loop := Sweeping(k, s.loop.rest - {q}));
        var m := MgrAt(s, k).messages[q];
        t == Retry(u, k, m) ||
        (&& t == u.(sent := t.sent, pc := t.pc)
         && (t.pc == Idle || (t.pc == Emit(k, q) && k != Fcm) ||
             (t.pc == ResendRow(k, q) && k != Fcm && m.state == New && MgrAt(s, k).pending < MAX_PENDING_MESSAGES)))
  {
    var k, q := s.loop.k, Least(s.loop.rest);
    assert MgrInv(s, k);
    LiveIsRow(s, k, q);
    LookupsSucceed(MgrAt(s, k), q);
    hide Exec, Inv, Retry, GroupRule;
  }

  lemma SweepKeeps(s: State)
    requires Inv(s) && s.pc == Idle && s.loop.Sweeping?
    ensures Inv(Exec(s))
  {
    var k := s.loop.k;
    var t := SweepTurn(s);
    assert MgrInv(s, k) && t == Exec(s);
    hide Exec;
    if s.loop.rest == {} {
      SameMemory(s, t);
    } else {
      TurnCases(s);
      hide SweepTurn;
      var q := Least(s.loop.rest);
      var u := s.(loop := Sweeping(k, s.loop.rest - {q}));
      SameMemory(s, u);
      if t == Retry(u, k, MgrAt(s, k).messages[q]) {
        RetryKeeps(u, k, q);
      } else {
        SameMemory(s, t);
      }
    }
  }

  /** Statements that touch neither rows nor managers. */
  lemma QuietKeeps(s: State)
    requires Inv(s)
    requires s.pc.AckUpstream? || s.pc.TrySend? || s.pc.Emit? || s.pc.SendNext? || s.pc.Notice?
    ensures Inv(Exec(s))
  {
    SameMemory(s, Exec(s));
  }

  lemma RowWriteKeeps(s: State)
    requires Inv(s) && (s.pc.MarkRow? || s.pc.ResendRow? || s.pc.FinishRow?)
    ensures Inv(Exec(s))
  {
    var q := if s.pc.FinishRow? then s.pc.m.id else s.pc.q;
    LiveIsRow(s, s.pc.k, q);
    RowWritten(s, Exec(s), s.pc.k, q, if s.pc.FinishRow? then s.pc.st else PendingAck);
  }

  lemma SaveRejectKeeps(s: State)
    requires Inv(s) && s.pc.SaveReject?
    ensures Inv(Exec(s))
  {
    RowAdded(s, Exec(s), s.pc.n);
  }

  lemma ExecKeeps(s: State)
    requires Inv(s) && !Boundary(s) && Proper(s) && Proper(Exec(s))
    ensures Inv(Exec(s))
  {
    hide Exec;
    match s.pc
    case Idle => SweepKeeps(s);
    case SaveNew(_, _, _) => SaveNewKeeps(s);
    case AddNew(_, _) => AddNewKeeps(s);
    case MarkMem(_, _) => MarkMemKeeps(s);
    case CountOne(_, _) => CountKeeps(s);
    case ResendCount(_, _) => CountKeeps(s);
    case Drop(_, _, _) => DropKeeps(s);
    case SaveReject(_, _) => SaveRejectKeeps(s);
    case MarkRow(_, _) => RowWriteKeeps(s);
    case ResendRow(_, _) => RowWriteKeeps(s);
    case FinishRow(_, _, _, _) => RowWriteKeeps(s);
    case _ => QuietKeeps(s);
  }

  lemma FoundIsLive(m: Mgr, f: FcmId)
    requires Valid(m) && FindByFcmId(m, f).Some?
    ensures var msg := FindByFcmId(m, f).value;
      msg.fcmId == f && msg.id in m.messages && m.messages[msg.id] == msg && m.index[f] == msg.id
  {
    var q := m.index[f];
    assert m.messages[q].id == q;
  }

  lemma NackKeeps(s: State, e: Event)
    requires Inv(s) && Boundary(s) && (e.FcmAck? || e.FcmNack?)
    ensures Inv(Begin(s, e))
  {
    hide Exec;
    assert MgrInv(s, Fcm);
    if FindByFcmId(s.fcm, e.fcmId).Some? {
      FoundIsLive(s.fcm, e.fcmId);
      if e.FcmNack? && e.retryable {
        RetryKeeps(s, Fcm, s.fcm.index[e.fcmId]);
      } else {
        SameMemory(s, Begin(s, e));
      }
    }
  }

  lemma BalAckKeeps(s: State, e: Event)
    requires Inv(s) && Boundary(s) && e.BalAck?
    ensures Inv(Begin(s, e))
  {
    hide Exec;
    if e.session in s.bals && e.q in s.bals[e.session].messages {
      LiveIsRow(s, Bal(e.session), e.q);
      SameMemory(s, Begin(s, e));
    }
  }

  lemma BeginKeeps(s: State, e: Event)
    requires Inv(s) && Boundary(s) && Allowed(s, e)
    ensures Inv(Begin(s, e))
  {
    hide Exec;
    if e.FcmAck? || e.FcmNack? {
      NackKeeps(s, e);
    } else if e.BalAck? {
      BalAckKeeps(s, e);
    } else {
      SameMemory(s, Begin(s, e));
    }
  }

  lemma StartedIsInv(s: State)
    requires Started(s) && Proper(s) && forall q :: q in s.rows ==> 0 < q
    ensures Inv(s)
  {
    hide Exec, Begin;
    forall k | Has(s, k) ensures MgrInv(s, k) {
      var m := MgrAt(s, k);
      assert LoadedFrom(s.rows, SessionOf(k), m);
      assert CappedIdsUnique(m);
      forall q | q in m.messages ensures Linked(s.rows, SessionOf(k), m.messages[q]) && Unfinished(s.rows[q].state) {
        assert FromRow(m.messages[q], q, s.rows[q]);
        assert q in PendingFor(s.rows, SessionOf(k));
      }
    }
  }

  lemma StepKeeps(s: State, l: Label, s': State)
    requires Inv(s) && Step(s, l, s') && Proper(s) && Proper(s')
    ensures Inv(s')
  {
    match l
    case Handle(e) => BeginKeeps(s, e);
    case Run => ExecKeeps(s);
    case DbFailure => SameMemory(s, s');
    case Crash => StartedIsInv(s');
  }

  /** The invariant holds in every state of every run. */
  lemma {:induction false} RunKeeps(ss: seq<State>, ls: seq<Label>, i: nat)
    requires IsRun(ss, ls) && i < |ss|
    requires forall j :: 0 <= j < |ss| ==> Proper(ss[j])
    ensures Inv(ss[i])
  {
    hide Exec, Begin;
    if i == 0 {
      StartedIsInv(ss[0]);
    } else {
      RunKeeps(ss, ls, i - 1);
      assert Step(ss[i - 1], ls[i - 1], ss[i]);
      StepKeeps(ss[i - 1], ls[i - 1], ss[i]);
    }
  }

  // ---------------------------------------------------------------- durability

  /** At a handler boundary every live message of a manager is an unfinished row of that session. */
  lemma LiveMessagesAreStored(ss: seq<State>, ls: seq<Label>, i: nat, k: Key, q: SeqId)
    requires IsRun(ss, ls) && i < |ss|
    requires forall j :: 0 <= j < |ss| ==> Proper(ss[j])
    requires Boundary(ss[i]) && Live(ss[i], k, q)
    ensures q in PendingFor(ss[i].rows, SessionOf(k))
    ensures var m := MgrAt(ss[i], k).messages[q]; var r := ss[i].rows[q];
      && RowOf(m).(group := r.group, state := r.state) == r
      && Rank(m.state) <= Rank(r.state)
  {
    hide Exec, Begin;
    RunKeeps(ss, ls, i);
    LiveIsRow(ss[i], k, q);
  }

  /** A crash at any statement: what a session holds afterwards is exactly its unfinished rows, every
      message live before it comes back with its contents, unless its row had just been finished, and
      no finished message is revived. */
  lemma CrashLosesNothing(ss: seq<State>, ls: seq<Label>, i: nat, k: Key)
    requires IsRun(ss, ls) && i < |ls| && ls[i] == Crash
    requires forall j :: 0 <= j < |ss| ==> Proper(ss[j])
    requires Has(ss[i + 1], k)
    ensures MgrAt(ss[i + 1], k).messages.Keys == PendingFor(ss[i].rows, SessionOf(k))
    ensures forall q :: Live(ss[i], k, q) && !Live(ss[i + 1], k, q) ==>
      Dropping(ss[i].pc, k, q) && q in ss[i].rows && Finished(ss[i].rows[q].state)
    ensures forall q :: Live(ss[i], k, q) && Live(ss[i + 1], k, q) ==>
      ComesBack(MgrAt(ss[i], k).messages[q], MgrAt(ss[i + 1], k).messages[q])
    ensures forall q :: Live(ss[i + 1], k, q) ==> q in ss[i].rows && !Finished(ss[i].rows[q].state)
  {
    RunKeeps(ss, ls, i);
    assert Step(ss[i], ls[i], ss[i + 1]);
    hide Exec, Begin, Inv, IsRun, Proper;
    assert LoadedFrom(ss[i].rows, SessionOf(k), MgrAt(ss[i + 1], k));
    Reloaded(ss[i], ss[i + 1], k);
  }

  lemma Reloaded(s: State, s': State, k: Key)
    requires Inv(s) && Has(s', k) && LoadedFrom(s.rows, SessionOf(k), MgrAt(s', k))
    ensures MgrAt(s', k).messages.Keys == PendingFor(s.rows, SessionOf(k))
    ensures forall q :: Live(s, k, q) && !Live(s', k, q) ==>
      Dropping(s.pc, k, q) && q in s.rows && Finished(s.rows[q].state)
    ensures forall q :: Live(s, k, q) && Live(s', k, q) ==> ComesBack(MgrAt(s, k).messages[q], MgrAt(s', k).messages[q])
    ensures forall q :: Live(s', k, q) ==> q in s.rows && !Finished(s.rows[q].state)
  {
    hide Inv, ComesBack, Dropping;
    forall q | Live(s, k, q)
      ensures !Live(s', k, q) ==> Dropping(s.pc, k, q) && q in s.rows && Finished(s.rows[q].state)
      ensures Live(s', k, q) ==> ComesBack(MgrAt(s, k).messages[q], MgrAt(s', k).messages[q])
    {
      ReloadedMessage(s, s', k, q);
    }
    forall q | Live(s', k, q) ensures q in s.rows && !Finished(s.rows[q].state) {
      assert q in PendingFor(s.rows, SessionOf(k));
    }
  }

  /** The same message but for its group, its state, which is not behind, and its retry fields. */
  ghost predicate ComesBack(m: Msg, n: Msg) {
    n.(group := m.group, state := m.state, nRetry := m.nRetry, maxRetry := m.maxRetry) == m
      && Rank(m.state) <= Rank(n.state)
  }

  lemma ReloadedMessage(s: State, s': State, k: Key, q: SeqId)
    requires Inv(s) && Live(s, k, q) && Has(s', k) && LoadedFrom(s.rows, SessionOf(k), MgrAt(s', k))
    ensures !Live(s', k, q) ==> Dropping(s.pc, k, q) && q in s.rows && Finished(s.rows[q].state)
    ensures Live(s', k, q) ==> ComesBack(MgrAt(s, k).messages[q], MgrAt(s', k).messages[q])
  {
    LiveIsRow(s, k, q);
    hide Inv;
    if Live(s', k, q) {
      assert FromRow(MgrAt(s', k).messages[q], q, s.rows[q]);
    } else {
      assert q !in PendingFor(s.rows, SessionOf(k));
    }
  }

  // ---------------------------------------------------------------- rows only advance

  /** Rows are never deleted, only their state changes, never backwards, and never again once finished. */
  ghost predicate RowsAdvance(a: map<SeqId, Row>, b: map<SeqId, Row>) {
    forall q :: q in a ==>
      && q in b
      && b[q].(state := a[q].state) == a[q]
      && Rank(a[q].state) <= Rank(b[q].state)
      && (Finished(a[q].state) ==> b[q] == a[q])
  }

  lemma SavingAdvancesRows(s: State)
    requires Inv(s) && (s.pc.SaveNew? || s.pc.SaveReject?)
    ensures RowsAdvance(s.rows, Exec(s).rows)
  {
  }

  lemma UpdatingAdvancesRows(s: State, k: Key, q: SeqId, st: MsgState)
    requires Inv(s) && Live(s, k, q) && !s.pc.Drop? && (st == PendingAck || Finished(st))
    ensures RowsAdvance(s.rows, SetRow(s, q, st).rows)
  {
    LiveIsRow(s, k, q);
  }

  lemma ExecAdvancesRows(s: State)
    requires Inv(s) && !Boundary(s)
    ensures RowsAdvance(s.rows, Exec(s).rows)
  {
    if s.pc.SaveNew? || s.pc.SaveReject? {
      SavingAdvancesRows(s);
    } else if s.pc.MarkRow? || s.pc.ResendRow? {
      UpdatingAdvancesRows(s, s.pc.k, s.pc.q, PendingAck);
    } else if s.pc.FinishRow? {
      UpdatingAdvancesRows(s, s.pc.k, s.pc.m.id, s.pc.st);
    }
  }

  lemma StepAdvancesRows(s: State, l: Label, s': State)
    requires Inv(s) && Step(s, l, s')
    ensures RowsAdvance(s.rows, s'.rows)
  {
    hide Exec, Begin, Inv;
    if l == Run {
      ExecAdvancesRows(s);
    }
  }

  lemma {:induction false} RowsOnlyAdvance(ss: seq<State>, ls: seq<Label>, i: nat, j: nat)
    requires IsRun(ss, ls) && i <= j < |ss|
    requires forall n :: 0 <= n < |ss| ==> Proper(ss[n])
    ensures RowsAdvance(ss[i].rows, ss[j].rows)
    decreases j - i
  {
    hide Exec, Begin, Inv, Proper, Step, Init;
    if i < j {
      RowsOnlyAdvance(ss, ls, i, j - 1);
      RunKeeps(ss, ls, j - 1);
      StepAdvancesRows(ss[j - 1], ls[j - 1], ss[j]);
    }
  }

  /** Rows stay, and only their state changes. */
  ghost predicate RowsStay(a: map<SeqId, Row>, b: map<SeqId, Row>) {
    forall q :: q in a ==> q in b && b[q].(state := a[q].state) == a[q]
  }

  lemma ExecKeepsRows(s: State)
    requires !Boundary(s)
    ensures RowsStay(s.rows, Exec(s).rows)
  {
    if !WritesDb(s.pc) {
      hide Exec;
    } else if EndsMessage(s.pc) {
      hide StoreAndSend, SweepTurn;
    } else {
      hide EndAndNotify, SweepTurn;
    }
  }

  /** FCM is told that an upstream message is safe only once its row is in the table. */
  ghost predicate AcksBacked(s: State) {
    && (forall f :: f in s.acked ==> StoredUpstream(s.rows, f))
    && (s.pc.AckUpstream? ==> s.pc.m.kind == Upstream && StoredUpstream(s.rows, s.pc.m.fcmId))
  }

  ghost predicate StoredUpstream(rows: map<SeqId, Row>, f: FcmId) {
    exists q :: q in rows && rows[q].kind == Upstream && rows[q].fcmId == f
  }

  lemma StoredStaysStored(a: map<SeqId, Row>, b: map<SeqId, Row>, f: FcmId)
    requires RowsStay(a, b) && StoredUpstream(a, f)
    ensures StoredUpstream(b, f)
  {
    var q :| q in a && a[q].kind == Upstream && a[q].fcmId == f;
    assert q in b && b[q].kind == Upstream && b[q].fcmId == f;
  }

  lemma SavedThenAcked(s: State)
    requires s.pc.SaveNew? && Exec(s).pc.AckUpstream?
    ensures Exec(s).pc.m.kind == Upstream && StoredUpstream(Exec(s).rows, Exec(s).pc.m.fcmId)
  {
    hide EndAndNotify, SweepTurn;
    var m := s.pc.m;
    assert Exec(s).rows[m.id] == RowOf(m);
  }

  lemma ExecKeepsAcksBacked(s: State)
    requires !Boundary(s) && AcksBacked(s)
    ensures AcksBacked(Exec(s))
  {
    var t := Exec(s);
    ExecKeepsRows(s);
    if s.pc.SaveNew? && t.pc.AckUpstream? { SavedThenAcked(s); }
    assert s.pc.AckUpstream? ==> t.acked == s.acked + {s.pc.m.fcmId} && t.pc.AddNew?;
    hide Exec;
    forall f | f in t.acked ensures StoredUpstream(t.rows, f) {
      StoredStaysStored(s.rows, t.rows, f);
    }
  }

  lemma StepKeepsAcksBacked(s: State, l: Label, s': State)
    requires AcksBacked(s) && Step(s, l, s')
    ensures AcksBacked(s')
  {
    hide Exec, Begin;
    if l == Run {
      ExecKeepsAcksBacked(s);
    }
  }

  lemma {:induction false} UpstreamAckedOnlyWhenStored(ss: seq<State>, ls: seq<Label>, i: nat)
    requires IsRun(ss, ls) && i < |ss|
    ensures AcksBacked(ss[i])
  {
    hide Exec, Begin, Step;
    if i > 0 {
      UpstreamAckedOnlyWhenStored(ss, ls, i - 1);
      assert Step(ss[i - 1], ls[i - 1], ss[i]);
      StepKeepsAcksBacked(ss[i - 1], ls[i - 1], ss[i]);
    }
  }

  // ---------------------------------------------------------------- handlers end

  /** Statements left in the running handler, at most. */
  function Work(s: State): nat {
    (if s.loop.Sweeping? then 20 * |s.loop.rest| + 1 else 0) +
    match s.pc
    case Idle => 0
    case Emit(_, _) => 1
    case CountOne(_, _) => 2
    case MarkMem(_, _) => 3
    case MarkRow(_, _) => 4
    case TrySend(_, _) => 5
    case AddNew(_, _) => 6
    case AckUpstream(_, _) => 7
    case SaveNew(_, _, _) => 8
    case SaveReject(_, _) => 1
    case Notice(_, _) => 9
    case SendNext(_, _, _) => 10
    case Drop(_, _, _) => 11
    case FinishRow(_, _, _, _) => 12
    case ResendCount(_, _) => 2
    case ResendRow(_, _) => 3
  }

  lemma SweepTurnWork(s: State)
    requires s.loop.Sweeping? && s.pc.Idle? && Has(s, s.loop.k)
    ensures Work(SweepTurn(s)) < Work(s)
  {
    if s.loop.rest != {} {
      var q := Least(s.loop.rest);
      assert |s.loop.rest - {q}| == |s.loop.rest| - 1;
    }
  }

  lemma StoreAndSendWork(s: State)
    requires !s.pc.Idle? && !EndsMessage(s.pc)
    ensures Work(StoreAndSend(s)) < Work(s)
  {
    assert StoreAndSend(s).loop == s.loop || StoreAndSend(s).loop == NoLoop;
  }

  lemma EndAndNotifyWork(s: State)
    requires EndsMessage(s.pc)
    ensures Work(EndAndNotify(s)) < Work(s)
  {
    assert EndAndNotify(s).loop == s.loop || EndAndNotify(s).loop == NoLoop;
  }

  /** Every handler ends: each statement leaves less to do. */
  lemma HandlersEnd(s: State)
    requires !Boundary(s)
    ensures Work(Exec(s)) < Work(s)
  {
    hide StoreAndSend, EndAndNotify, SweepTurn;
    if EndsMessage(s.pc) {
      EndAndNotifyWork(s);
    } else if !s.pc.Idle? {
      StoreAndSendWork(s);
    } else if Has(s, s.loop.k) {
      SweepTurnWork(s);
    }
  }

  /** The handler run to its end without interruption. */
  function Drain(s: State): (t: State)
    ensures Boundary(t)
    decreases Work(s)
  {
    if Boundary(s) then s
    else
      HandlersEnd(s);
      Drain(Exec(s))
  }
}
