/** messagemanager.cpp and messagemanager.h: the three linked maps that hold every
    unacknowledged message of one session, and the rules that say what may be sent. */
module MessageManager {
  import opened Core

  /** The value of one manager: sequence id -> message, FCM id -> sequence id,
      group -> the sequence ids queued in it, and the pending-ack counter. */
  datatype Mgr = Mgr(
    messages: map<SeqId, Msg>,
    index: map<FcmId, SeqId>,
    groups: map<GroupId, set<SeqId>>,
    pending: nat)

  const EMPTY := Mgr(map[], map[], map[], 0)

  // ---------------------------------------------------------------- lookups

  function FindByFcmId(m: Mgr, f: FcmId): Option<Msg> {
    if f in m.index && m.index[f] in m.messages then Some(m.messages[m.index[f]]) else None
  }

  // ---------------------------------------------------------------- updates

  /** `emplace` leaves an existing entry alone, both in the index and in the maps. */
  function Add(m: Mgr, msg: Msg): Mgr {
    Mgr(if msg.id in m.messages then m.messages else m.messages[msg.id := msg],
        if msg.fcmId in m.index then m.index else m.index[msg.fcmId := msg.id],
        AddToGroups(m.groups, msg),
        m.pending)
  }

  function AddToGroups(groups: map<GroupId, set<SeqId>>, msg: Msg): map<GroupId, set<SeqId>> {
    if msg.group == "" then groups
    else if msg.group in groups then groups[msg.group := groups[msg.group] + {msg.id}]
    else groups[msg.group := {msg.id}]
  }

  function RemoveFromGroups(groups: map<GroupId, set<SeqId>>, g: GroupId, q: SeqId): map<GroupId, set<SeqId>>
    requires g in groups
  {
    if groups[g] - {q} == {} then groups - {g} else groups[g := groups[g] - {q}]
  }

  /** `false` is the exception: nothing has changed when the message is unknown, and the
      message is already gone from the main map when its group cannot be found. */
  function Remove(m: Mgr, q: SeqId): (Mgr, bool) {
    if q !in m.messages then (m, false)
    else
      var msg := m.messages[q];
      var rest := m.messages - {q};
      if msg.group != "" && msg.group !in m.groups then (m.(messages := rest), false)
      else
        (Mgr(rest,
             m.index - {msg.fcmId},
             if msg.group == "" then m.groups else RemoveFromGroups(m.groups, msg.group, q),
             if msg.state == PendingAck && m.pending != 0 then m.pending - 1 else m.pending),
         true)
  }

  function RemoveByFcmId(m: Mgr, f: FcmId): (Mgr, bool) {
    if f in m.index then Remove(m, m.index[f]) else (m, false)
  }

  /** A change made through the shared message pointer. */
  function Put(m: Mgr, msg: Msg): Mgr {
    m.(messages := m.messages[msg.id := msg])
  }

  function CountUp(m: Mgr): Mgr {
    m.(pending := m.pending + 1)
  }

  // ---------------------------------------------------------------- sending rules

  datatype Verdict = Sendable | BadState | TooManyPending | BehindInGroup | Throws

  function GroupRule(m: Mgr, msg: Msg): Verdict {
    if msg.group == "" then Sendable
    else if msg.group !in m.groups || m.groups[msg.group] == {} then Throws
    else if Least(m.groups[msg.group]) == msg.id then Sendable
    else BehindInGroup
  }

  function CanSend(m: Mgr, msg: Msg): Verdict {
    if msg.state != New then BadState
    else if m.pending >= MAX_PENDING_MESSAGES then TooManyPending
    else GroupRule(m, msg)
  }

  function CanSendOnReconnect(m: Mgr, msg: Msg): Verdict {
    if !Unfinished(msg.state) then BadState
    else if m.pending >= MAX_PENDING_MESSAGES then TooManyPending
    else GroupRule(m, msg)
  }

  function SendableKeys(m: Mgr): set<SeqId> {
    set q | q in m.messages && CanSend(m, m.messages[q]) == Sendable
  }

  function Next(m: Mgr): Option<SeqId> {
    if SendableKeys(m) == {} then None else Some(Least(SendableKeys(m)))
  }

  // ---------------------------------------------------------------- representation invariant

  ghost predicate InGroup(m: Mgr, g: GroupId, q: SeqId) {
    q in m.messages && m.messages[q].group == g
  }

  /** Each queue is exactly the live messages of its group and is never empty;
      no FCM-id entry dangles. */
  ghost predicate Valid(m: Mgr) {
    && (forall q :: q in m.messages ==> m.messages[q].id == q)
    && (forall g :: g in m.groups ==> g != "" && m.groups[g] != {})
    && (forall g, q :: g in m.groups && q in m.groups[g] ==> InGroup(m, g, q))
    && (forall q :: q in m.messages && m.messages[q].group != "" ==>
          m.messages[q].group in m.groups && q in m.groups[m.messages[q].group])
    && (forall f :: f in m.index ==> m.index[f] in m.messages && m.messages[m.index[f]].fcmId == f)
  }

  /** No two live messages share an FCM id. */
  ghost predicate DistinctIds(m: Mgr) {
    forall p, q :: p in m.messages && q in m.messages && m.messages[p].fcmId == m.messages[q].fcmId ==> p == q
  }

  /** The FCM-id index finds every live message. */
  ghost predicate IndexExact(m: Mgr) {
    forall q :: q in m.messages ==> m.messages[q].fcmId in m.index && m.index[m.messages[q].fcmId] == q
  }

  lemma AddKeepsValid(m: Mgr, msg: Msg)
    requires Valid(m) && msg.id !in m.messages
    ensures Valid(Add(m, msg))
    ensures Add(m, msg).messages == m.messages[msg.id := msg]
    ensures DistinctIds(Add(m, msg)) && IndexExact(m) ==> IndexExact(Add(m, msg))
  {
    var n := Add(m, msg);
    forall g, q | g in n.groups && q in n.groups[g]
      ensures InGroup(n, g, q)
    {
      if g in m.groups && q in m.groups[g] {
        assert InGroup(m, g, q);
      }
    }
    if msg.fcmId in m.index {
      var p := m.index[msg.fcmId];
      assert p in n.messages && msg.id in n.messages && n.messages[p].fcmId == n.messages[msg.id].fcmId;
      assert !DistinctIds(n);
    }
  }

  lemma RemoveKeepsValid(m: Mgr, q: SeqId)
    requires Valid(m) && q in m.messages
    ensures Remove(m, q).1
    ensures Valid(Remove(m, q).0)
    ensures Remove(m, q).0.messages == m.messages - {q}
    ensures DistinctIds(m) && IndexExact(m) ==> IndexExact(Remove(m, q).0) && DistinctIds(Remove(m, q).0)
  {
    var n := Remove(m, q).0;
    forall g, p | g in n.groups && p in n.groups[g]
      ensures InGroup(n, g, p)
    {
      assert g in m.groups && p in m.groups[g];
      assert InGroup(m, g, p);
    }
    forall p | p in n.messages && n.messages[p].group != ""
      ensures n.messages[p].group in n.groups && p in n.groups[n.messages[p].group]
    {
      var g := m.messages[p].group;
      assert g in m.groups && p in m.groups[g];
      if g == m.messages[q].group {
        assert p in m.groups[g] - {q};
      }
    }
  }

  /** A message changes state or retry count without moving. */
  lemma PutKeepsValid(m: Mgr, msg: Msg)
    requires Valid(m) && msg.id in m.messages
    requires var was := m.messages[msg.id]; was.fcmId == msg.fcmId && was.group == msg.group
    ensures Valid(Put(m, msg))
    ensures DistinctIds(m) ==> DistinctIds(Put(m, msg))
    ensures IndexExact(m) ==> IndexExact(Put(m, msg))
  {
    var n := Put(m, msg);
    forall g, q | g in n.groups && q in n.groups[g]
      ensures InGroup(n, g, q)
    {
      assert InGroup(m, g, q);
    }
  }

  // ---------------------------------------------------------------- any history of adds and removes

  datatype Edit = AddMsg(msg: Msg) | RemoveMsg(q: SeqId)

  function Apply(m: Mgr, e: Edit): Mgr {
    match e
    case AddMsg(msg) => Add(m, msg)
    case RemoveMsg(q) => Remove(m, q).0
  }

  function Replay(edits: seq<Edit>): Mgr
    decreases |edits|
  {
    if edits == [] then EMPTY
    else Apply(Replay(edits[..|edits|-1]), edits[|edits|-1])
  }

  /** Sequence ids handed to `addMessage` are not live at that moment. */
  ghost predicate FreshAdds(edits: seq<Edit>) {
    forall i :: 0 <= i < |edits| && edits[i].AddMsg? ==> edits[i].msg.id !in Replay(edits[..i]).messages
  }

  ghost predicate DistinctThroughout(edits: seq<Edit>) {
    forall i :: 0 <= i <= |edits| ==> DistinctIds(Replay(edits[..i]))
  }

  /** The representation invariant holds after every interleaving of adds and removes, removes of
      unknown ids included; with distinct live FCM ids the index is the exact inverse. */
  lemma {:induction false} ReplayIsValid(edits: seq<Edit>)
    requires FreshAdds(edits)
    ensures Valid(Replay(edits))
    ensures DistinctThroughout(edits) ==> IndexExact(Replay(edits))
    decreases |edits|
  {
    if edits != [] {
      var k := |edits| - 1;
      var before := edits[..k];
      forall i | 0 <= i <= k ensures before[..i] == edits[..i] { }
      assert FreshAdds(before);
      if DistinctThroughout(edits) {
        forall i | 0 <= i <= |before| ensures DistinctIds(Replay(before[..i])) {
          assert before[..i] == edits[..i];
        }
        assert edits[..|edits|] == edits;
        assert edits[..k] == before;
      }
      ReplayIsValid(before);
      var m := Replay(before);
      match edits[k]
      case AddMsg(msg) =>
        assert msg.id !in Replay(edits[..k]).messages;
        AddKeepsValid(m, msg);
      case RemoveMsg(q) =>
        if q in m.messages {
          RemoveKeepsValid(m, q);
        }
    }
  }

  /** On a live message no lookup throws, neither the group's nor the message's. */
  lemma LookupsSucceed(m: Mgr, q: SeqId)
    requires Valid(m) && q in m.messages
    ensures GroupRule(m, m.messages[q]) in {Sendable, BehindInGroup}
    ensures CanSend(m, m.messages[q]) != Throws && CanSendOnReconnect(m, m.messages[q]) != Throws
    ensures IndexExact(m) ==> FindByFcmId(m, m.messages[q].fcmId) == Some(m.messages[q])
  {
  }

  /** "First in its group": no other live message of the same group has a smaller id. */
  ghost predicate HeadOfGroup(m: Mgr, q: SeqId)
    requires q in m.messages
  {
    m.messages[q].group != "" ==>
      forall p :: p in m.messages && m.messages[p].group == m.messages[q].group ==> q <= p
  }

  lemma GroupRuleIsHead(m: Mgr, q: SeqId)
    requires Valid(m) && q in m.messages
    ensures GroupRule(m, m.messages[q]) == Sendable <==> HeadOfGroup(m, q)
  {
    var msg := m.messages[q];
    if msg.group != "" {
      var s := m.groups[msg.group];
      assert q in s;
      forall p | p in s ensures p in m.messages && m.messages[p].group == msg.group {
        assert InGroup(m, msg.group, p);
      }
    }
  }

  /** Once head of its group, a message stays head until it is removed itself. */
  lemma HeadStaysHead(m: Mgr, q: SeqId, e: Edit)
    requires Valid(m) && q in m.messages && HeadOfGroup(m, q)
    requires e.AddMsg? ==> e.msg.id !in m.messages && e.msg.id > q
    requires e.RemoveMsg? ==> e.q != q
    ensures q in Apply(m, e).messages && HeadOfGroup(Apply(m, e), q)
  {
    match e
    case AddMsg(msg) => AddKeepsValid(m, msg);
    case RemoveMsg(p) => if p in m.messages { RemoveKeepsValid(m, p); }
  }

  /** `getNext` is None exactly when the pending limit is reached or every live NEW message
      has an older live message of its group in front of it. */
  lemma NextIsNone(m: Mgr)
    requires Valid(m)
    ensures Next(m) == None <==>
      (m.pending >= MAX_PENDING_MESSAGES ||
       forall q :: q in m.messages && m.messages[q].state == New ==> !HeadOfGroup(m, q))
  {
    forall q | q in m.messages
      ensures q in SendableKeys(m) <==>
        (m.messages[q].state == New && m.pending < MAX_PENDING_MESSAGES && HeadOfGroup(m, q))
    {
      GroupRuleIsHead(m, q);
    }
  }

  lemma NextIsLeast(m: Mgr, q: SeqId)
    requires Valid(m) && Next(m) == Some(q)
    ensures q in m.messages && m.messages[q].state == New && HeadOfGroup(m, q) && m.pending < MAX_PENDING_MESSAGES
    ensures forall p :: p in m.messages && p < q ==>
      !(m.messages[p].state == New && HeadOfGroup(m, p))
  {
    forall p | p in m.messages
      ensures p in SendableKeys(m) <==>
        (m.messages[p].state == New && m.pending < MAX_PENDING_MESSAGES && HeadOfGroup(m, p))
    {
      GroupRuleIsHead(m, p);
    }
  }

  predicate AtLimit(m: Mgr) { m.pending >= MAX_PENDING_MESSAGES }

  /** A NEW message with no older one of its group in front. */
  ghost predicate Waits(m: Mgr, q: SeqId) { q in m.messages && m.messages[q].state == New && HeadOfGroup(m, q) }

  ghost predicate LeastWaiting(m: Mgr, q: SeqId) { Waits(m, q) && forall p :: Waits(m, p) ==> q <= p }

  lemma NextIsLeastWaiting(m: Mgr)
    requires Valid(m)
    ensures Next(m) == None <==> AtLimit(m) || forall q :: !Waits(m, q)
    ensures forall q :: Next(m) == Some(q) <==> !AtLimit(m) && LeastWaiting(m, q)
  {
    forall q ensures q in SendableKeys(m) <==> !AtLimit(m) && Waits(m, q) {
      if q in m.messages { GroupRuleIsHead(m, q); }
    }
    hide SendableKeys, Waits;
    forall q | Waits(m, q) && !AtLimit(m) ensures q in SendableKeys(m) { }
  }

  // ---------------------------------------------------------------- the class

  class Manager {
    const sessionId: SessionId
    var messages: map<SeqId, Msg>
    var sequenceIdMap: map<FcmId, SeqId>
    var groups: map<GroupId, set<SeqId>>
    var pendingAckCount: nat

    function Model(): Mgr
      reads this
    {
      Mgr(messages, sequenceIdMap, groups, pendingAckCount)
    }

    constructor (sessionId: SessionId)
      ensures this.sessionId == sessionId && Model() == EMPTY
      ensures Valid(Model())
    {
      this.sessionId := sessionId;
      messages, sequenceIdMap, groups, pendingAckCount := map[], map[], map[], 0;
    }

    /** `emplace` in each map: an entry that is there already stays. */
    method AddMessage(msg: Msg)
      modifies this
      ensures Model() == Add(old(Model()), msg)
      ensures Valid(old(Model())) && msg.id !in old(messages) ==>
        Valid(Model()) && messages == old(messages)[msg.id := msg]
    {
      if Valid(Model()) && msg.id !in messages { AddKeepsValid(Model(), msg); }
      if msg.fcmId !in sequenceIdMap {
        sequenceIdMap := sequenceIdMap[msg.fcmId := msg.id];
      }
      if msg.id !in messages {
        messages := messages[msg.id := msg];
      }
      if msg.group != "" {
        if msg.group in groups {
          groups := groups[msg.group := groups[msg.group] + {msg.id}];
        } else {
          groups := groups[msg.group := {msg.id}];
        }
      }
    }

    /** `found` is false for the exception: an unknown message, or a group that is not there. With maps that
        agree, no lookup of a live message throws. */
    method RemoveMessage(q: SeqId) returns (found: bool)
      modifies this
      ensures (Model(), found) == Remove(old(Model()), q)
      ensures Valid(old(Model())) ==> found == (q in old(messages)) && Valid(Model()) && messages == old(messages) - {q}
    {
      if q !in messages {
        return false;
      }
      if Valid(Model()) { RemoveKeepsValid(Model(), q); }
      var msg := messages[q];
      messages := messages - {q};
      if msg.group != "" {
        if msg.group !in groups {
          return false;
        }
        var queue := groups[msg.group] - {q};
        if queue == {} {
          groups := groups - {msg.group};
        } else {
          groups := groups[msg.group := queue];
        }
      }
      sequenceIdMap := sequenceIdMap - {msg.fcmId};
      if msg.state == PendingAck && pendingAckCount != 0 {
        pendingAckCount := pendingAckCount - 1;
      }
      return true;
    }

    method RemoveMessageWithFcmMsgId(f: FcmId) returns (found: bool)
      modifies this
      ensures (Model(), found) == RemoveByFcmId(old(Model()), f)
      ensures Valid(old(Model())) ==> found == (f in old(sequenceIdMap)) && Valid(Model())
    {
      if f !in sequenceIdMap {
        return false;
      }
      found := RemoveMessage(sequenceIdMap[f]);
    }

    /** A setter called through the shared message pointer. */
    method Touch(msg: Msg)
      modifies this`messages
      ensures Model() == Put(old(Model()), msg)
    {
      messages := messages[msg.id := msg];
    }

    method IncrementPendingAckCount()
      modifies this`pendingAckCount
      ensures Model() == CountUp(old(Model()))
    {
      pendingAckCount := pendingAckCount + 1;
    }

    method FindMessageWithFcmMsgId(f: FcmId) returns (msg: Option<Msg>)
      ensures msg == FindByFcmId(Model(), f)
      ensures Valid(Model()) ==> (msg == None <==> f !in sequenceIdMap)
      ensures Valid(Model()) && msg.Some? ==>
        msg.value.id in messages && messages[msg.value.id] == msg.value && msg.value.fcmId == f
    {
      if f !in sequenceIdMap || sequenceIdMap[f] !in messages {
        return None;
      }
      var q := sequenceIdMap[f];
      assert Model().index[f] == q && q in Model().messages;
      return Some(messages[q]);
    }

    /** The search loop: the live messages in ascending sequence id, the first sendable one wins. */
    method GetNext() returns (next: Option<SeqId>)
      requires Valid(Model())
      ensures next == Next(Model())
    {
      var rest := messages.Keys;
      while rest != {}
        invariant rest <= messages.Keys
        invariant forall p, q :: p in rest && q in messages.Keys - rest ==> q < p
        invariant forall q :: q in messages.Keys - rest ==> CanSend(Model(), messages[q]) != Sendable
        decreases |rest|
      {
        var q := Least(rest);
        assert forall p :: p in messages.Keys - (rest - {q}) ==> p == q || p in messages.Keys - rest;
        if CanSend(Model(), messages[q]) == Sendable {
          assert q in SendableKeys(Model());
          assert forall p :: p in SendableKeys(Model()) ==> q <= p;
          return Some(q);
        }
        rest := rest - {q};
      }
      assert forall q :: q in messages ==> q in messages.Keys - rest;
      return None;
    }
  }
}
