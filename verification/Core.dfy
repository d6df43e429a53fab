/** Values shared by the daemon's modules: messages, their states and kinds (message.h),
    and the ordered-map reads (`begin()`) that the C++ code relies on. */
module Core {

  type SeqId = int          // SequenceId_t
  type FcmId = string       // FcmMessageId_t
  type GroupId = string     // GroupId_t, "" when the message has no group
  type SessionId = string   // SessionId_t

  datatype Option<+T> = None | Some(value: T)

  datatype MsgState = Unknown | New | PendingAck | Delivered | DeliveryFailed

  datatype MsgKind = Upstream | Downstream | DownstreamAck | DownstreamReceipt | DownstreamReject

  /** `nRetry` and `maxRetry` live in memory only; a row of the database has neither. */
  datatype Msg = Msg(
    id: SeqId, kind: MsgKind, fcmId: FcmId, group: GroupId,
    source: SessionId, target: SessionId, payload: string,
    state: MsgState, nRetry: int, maxRetry: int)

  const FCM: SessionId := "fcm"
  const MAX_PENDING_MESSAGES := 100

  /** States a message may have while it awaits an acknowledgement. */
  predicate Unfinished(st: MsgState) {
    st == New || st == PendingAck
  }

  predicate Finished(st: MsgState) {
    st == Delivered || st == DeliveryFailed
  }

  /** Progress along NEW, PENDING_ACK, finished. */
  function Rank(st: MsgState): nat {
    match st
    case Unknown => 0
    case New => 1
    case PendingAck => 2
    case Delivered => 3
    case DeliveryFailed => 3
  }

  lemma AnyOf<T>(s: set<T>) returns (a: T)
    requires |s| > 0
    ensures a in s
  {
    assert s != {};
    a :| a in s;
  }

  lemma {:induction false} HasLeast(s: set<SeqId>)
    requires |s| > 0
    ensures exists x :: x in s && forall y :: y in s ==> x <= y
  {
    var a := AnyOf(s);
    var r := s - {a};
    if r == {} {
      forall y | y in s ensures a <= y { assert y !in r; }
    } else {
      HasLeast(r);
      var b :| b in r && forall y :: y in r ==> b <= y;
      var m := if a <= b then a else b;
      forall y | y in s ensures m <= y { assert y == a || y in r; }
      assert m in s;
    }
  }

  /** The key that `begin()` of an ordered map yields. */
  function Least(s: set<SeqId>): (m: SeqId)
    requires s != {}
    ensures m in s && forall y :: y in s ==> m <= y
  {
    assert |s| > 0;
    HasLeast(s);
    var m :| m in s && forall y :: y in s ==> m <= y;
    m
  }
}
