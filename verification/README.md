# GIMMM in Dafny

A model of the GIMMM daemon, the session layer between Firebase Cloud Messaging (FCM) and a business
application layer (BAL), and of the self-contained algorithms in the `sqlite/shell.c` that ships with it,
with proofs of what they promise. `dafny verify dfyconfig.toml` checks the whole project.

| files | what they model |
|---|---|
| `Core`, `MessageManager` | messages; the three linked maps of a manager and its rules for sending |
| `Delivery` | the daemon as a step system: table, managers, timers, and the next statement of the running handler, so that a crash or a database error can fall between any two statements |
| `Structure`, `Filing`, `FlowControl`, `Recount` | what every run keeps with no assumption at all: representation invariants, rows for all that FCM is sent, the pending-ack counters |
| `Durability`, `GroupOrder`, `Conservation`, `Reporting` | what every run keeps under the assumptions below: nothing lost over a crash, order inside a group, conservation, reports to the BAL |
| `Handlers`, `Reach` | single statements; runs grow by whole handlers, so results about runs hold from handler to handler |
| `Effects`, `Provenance` | what each handler leaves, column by column, and that nothing else changes; over runs, the event that each row comes from and the answer that ended it |
| `Sweeps`, `Traffic` | the two reconnect sweeps as wholes, and when they erase from the map they iterate over; what each handler sends to FCM |
| `PendingLimit`, `Scenarios` | the limit of 100 unanswered messages that FCM asks for: exactly when a handler passes it; runs from an empty table that show each failure |
| `Application` | the database connection and the application as objects that hold manager objects; each handler method refines the step system and carries the results about runs |
| `Keccak`, `KeccakInPlace`, `Sponge` | SHA-3 against FIPS 202: bit-level step mappings, the in-place unrolled permutation, the streaming sponge |
| `RowStream` | the row serialisation that `sha3_query` hashes |
| `SqlQuote`, `Csv`, `CString` | text codecs of the shell |
| `Glob`, `GlobList`, `GlobMeaning` | the glob matcher; the meaning its comment gives to a pattern, and exactly which patterns have it |
| `Backoff`, `Handover` | retry delays; reconnecting and the handover when FCM drains a connection |

Code that changes state step by step is a class or a method with loops, proved against functions on values;
the promises are then lemmas about those functions, or about every run.

## Reading the delivery results

* A run starts from an empty table and may contain any events in any order, database errors at any write and a
  crash with restart at any point. Restart fills every manager from the table; the rows may come in any order.
* `Proper` is the one standing assumption of the results about durability, order and conservation: a live message
  with a retry cap shares its FCM id with no other live message, and no BAL session is configured under the name
  `fcm`. `Durability.DistinctOrUncappedIsProper` shows that distinct live FCM ids imply it, and so does the absence
  of caps. `setMaxRetry` has no caller, but two constructions leave the retry fields unset: that of a receipt, and
  that of every message reloaded from the table (dbconnection.cpp:46). So after a restart the assumption asks
  distinct FCM ids of every reloaded message whose unset cap is not -1.
* Flow control, the representation invariants and "acked upstream only when stored" need no assumption.
* It is enough to look at `Proper` between handlers: `Reach.ExtendRun` puts a whole handler at the end of a run and
  shows that the states in between then meet it too.
* `Orderly` (strict order): FCM nacks only what it was sent, and no FCM sweep meets the pending limit.
* `ProperCategory` (conservation): no message from FCM has the category `fcm`.

## Where the code and its documentation differ

The model follows the code.

* The comment above `handleBalDownstreamUploadRequest` quotes FCM's rule: messages sent that have received neither an
  ACK nor a NACK are pending, and there should be no more than 100 of them. `PendingLimit.Unanswered` keeps the FCM ids
  of these messages as history of a run: a send adds its id, an ack or nack removes it, whether or not the message is
  still live, and a crash changes nothing. Whether a new session starts afresh is a parameter, and all results hold
  for both readings. The daemon's counter stays within 100, the unanswered messages do not:
  `PendingLimit.OverrunsExactly` gives the exact condition on the state before each handler, and
  `PendingLimit.KeptWithoutOverrun` says that without it the limit holds in every state of every run. The routes are:
  - the end of one message lets out another that is sent uncounted, so that a later upload goes past
    (`Scenarios.PastTheLimitByAck`), or goes past itself when the message that ends was not pending;
  - a reconnect sweep below the limit sends every head of a group, counted or not;
  - after a restart the counter is 0 and groups are forgotten, so the first session sends all reloaded messages
    (`PendingLimit.FirstSessionSendsAll`, `Scenarios.PastTheLimitByRestart`);
  - a retry timer that a nack left sends its message again after it has ended (`Scenarios.PastTheLimitByTimer`).
* A message that the end of another lets out stays NEW, so the next end sends it again: `Traffic.SentAgainExactly`,
  `Traffic.LetOutAgain`, and a run in `Scenarios.SentTwice`.
* A reconnect sweep is meant to visit each message of the map it iterates over. It erases the element under its
  iterator if and only if it meets a message out of retries at the limit (`Sweeps.SweepErasesExactly`); reloaded
  messages, whose caps nobody sets, make that possible (`Scenarios.ErasingRun`). What C++ then does is undefined, and no
  result here speaks of it.
* The sweep at a BAL logon counts a NEW message and leaves it NEW. So the counter can exceed the messages that await
  an ack by the number of such counts (`Recount.CounterAheadByRecounts`), down to a counter of 100 over an empty queue,
  at which upstream messages are no longer sent (`Recount.CounterStuck`).
* For a message accepted since the start, strict order inside its group holds exactly when no live message of the
  group was reloaded (`GroupOrder.StrictOrderExactly`). Reloading drops the group id, so a new message overtakes the
  reloaded ones: `GroupOrder.ReloadedGroupIsOvertaken`, and a run in `Scenarios.OvertakingRun`. Reloaded messages have
  no group in memory, and no order is promised among them.
* `resendAllPendingDownstreamMessages` labels result 3 of the reconnect check as the limit; it is the group rule, and 2 is the limit.
* The comment above `sha3QueryFunc` announces little-endian integers; the loop stores them big-endian.
* The comment above `resolve_backslashes` lists `\s`; the code has no such escape: `CString.EscapesAsDocumented`.
* The comment above `testcase_glob` says that `#` stands for any number and white space for any span of white space.
  The code takes the longest stretch and never less, and right after a run of stars and question marks that begins
  with a star it takes both literally. `GlobMeaning.DocumentedExactly`: code and comment agree on all texts if and
  only if the pattern can match nothing, or has no such star run before `#` or white space, no `#` before an element
  that can take a digit, and no white space before one that can take white space. "#5" against "55" and "*#"
  against "5" are witnesses (`GlobMeaning.NumberBeforeDigit`, `Glob.StarBeforeNumber`).
* A CSV column separator from 0x80 on is written, but never recognised when read: the reader widens it as a signed
  char (`Csv.HighByteAsSeparator`).
* A message without a retry cap overflows a 32-bit delay on its 22nd retry, and a connection on its 22nd loss in
  a row: `Backoff.RetryBudget.GetNextRetryTimeout`, `Handover.ReconnectDelayFits`.

## Model

| member | source | states |
|---|---|---|
| MessageManager.AddKeepsValid | messagemanager.cpp:24-59 | adding under a fresh sequence id keeps group queues equal to the live messages of their group and the index free of dangling entries; exact when live FCM ids are distinct |
| MessageManager.RemoveKeepsValid | messagemanager.cpp:66-103 | removing a live message never throws, keeps the same invariant and takes out that message alone |
| MessageManager.ReplayIsValid | messagemanager.cpp:24-121 | the invariant after every interleaving of adds with fresh ids and removes, removes of unknown ids included |
| MessageManager.LookupsSucceed | messagemanager.cpp:217-259 | on a live message no lookup throws; with an exact index its FCM id finds that very message |
| MessageManager.GroupRuleIsHead | messagemanager.h:71-80 | the group rule lets a message through exactly when no live message of its group is older |
| MessageManager.HeadStaysHead | messagemanager.h:46-80 | once head of its group, a message stays head through every later add and every removal of another message |
| MessageManager.NextIsNone | messagemanager.cpp:132-155 | there is no next message exactly when the limit is reached or every live NEW message is behind another of its group |
| MessageManager.NextIsLeast | messagemanager.cpp:199-209 | the next message is live, NEW, head of its group, and no smaller id is |
| MessageManager.NextIsLeastWaiting | messagemanager.cpp:199-209 | the next message is the least NEW head of a group, and there is none exactly at the limit or without such a message |
| MessageManager.Manager.AddMessage | messagemanager.cpp:24-59 | the three maps after the add for any message, entries that exist already kept; with a fresh id the maps still agree |
| MessageManager.Manager.RemoveMessage | messagemanager.cpp:66-83 | the maps and the counter after the removal, or after the exception; with maps that agree it throws exactly when the message is not live |
| MessageManager.Manager.FindMessageWithFcmMsgId | messagemanager.cpp:235-253 | the live message with that FCM id, or the exception; with maps that agree, exactly when the index has none |
| MessageManager.Manager.GetNext | messagemanager.cpp:199-209 | the search loop returns the least sendable sequence id, or null exactly when none is sendable |
| Delivery.StoreAndSend | application.cpp:689-727 | one statement of storing and sending; which of table, managers, timers and sends it may touch |
| Delivery.EndAndNotify | application.cpp:444-500 | one statement of ending a message and telling the BAL; what it may touch |
| Delivery.Retry | application.cpp:866-917 | a retry changes the message's count and sets a timer or begins the failure, nothing else |
| Delivery.SweepTurn | application.cpp:1261-1376 | one turn of a reconnect sweep changes at most the retry count of the FCM message it visits |
| Delivery.Begin | application.cpp:1185-1208 | what a handler does before its first interruptible statement leaves table, reports and acks alone; `Effects` says what each whole handler does |
| Structure.RunBase | messagemanager.cpp:24-103 | in every state of every run, whatever the events, the maps of every manager agree and no id beyond the counter is in use |
| Durability.DistinctOrUncappedIsProper | message.cpp:86-96 | distinct live FCM ids, or no retry caps, each imply the standing assumption |
| Durability.DropRemoves | messagemanager.cpp:255-259 | an ending removes the very message whose row was finished, and does not throw |
| Durability.RunKeeps | application.cpp:375-550 | the invariant linking table, managers, handler and sweep holds in every state of every run |
| Durability.LiveMessagesAreStored | application.cpp:1197-1220 | at a handler boundary a live message is a row of its session in state NEW or PENDING_ACK, and the row is not behind it |
| Durability.CrashLosesNothing | dbconnection.cpp:395-413 | after a crash at any statement a session holds exactly its unfinished rows; every live message comes back unless its row was just finished; no finished message is revived |
| Durability.RowsOnlyAdvance | dbconnection.cpp:347-363 | between any two moments of a run, restarts included, no row disappears, moves backwards or changes once finished |
| Durability.UpstreamAckedOnlyWhenStored | application.cpp:418-422 | FCM is sent the ack of an upstream message only when its row exists, and the row stays |
| Durability.TurnCases | application.cpp:1283-1313 | a sweep turn retries its message, or leaves rows and managers alone; an upstream row is marked only for a NEW message below the limit |
| Durability.HandlersEnd | application.cpp:1332-1376 | every statement leaves less to do, so every handler and every sweep ends |
| FlowControl.NeverAboveLimit | messagemanager.h:122-131 | no manager ever counts more than 100, in any state of any run |
| FlowControl.FcmCounterIsSound | application.cpp:1210-1220 | the FCM counter never exceeds the number of live PENDING_ACK messages |
| FlowControl.FcmCounterIsExact | messagemanager.cpp:66-83 | it equals that number at every boundary after a start that reloaded no PENDING_ACK row, until the next restart |
| Filing.RunFiled | application.cpp:1197-1220 | in every state of every run all that FCM was sent, and all that the queue and the timers may yet send, has its row |
| Traffic.SendsExactly | application.cpp:444-550 | for every event but a sweep that erases: the set of messages that the handler sends to FCM, in terms of the state before it |
| Traffic.EndingEffect | application.cpp:444-461 | an ack or final nack takes out its message and sends the next sendable one; the counter goes down only if the message was PENDING_ACK and the counter above 0 |
| Traffic.SentAgainExactly | application.cpp:616-632 | between reconnects a message goes out again if and only if its timer fires, or another message ends and it is the least NEW head then |
| Traffic.LetOutAgain | messagemanager.cpp:199-209 | what one end let out, the next lets out again, unless that frees an older one of its own group |
| PendingLimit.OverrunsExactly | application.cpp:1176-1240 | from at most 100 unanswered ids, a handler leaves more if and only if a guard on the state before it holds: at 100, an upload of a new id with the counter below 100 and the group free, the end of an id not pending that lets out another not pending, or a timer, live message or not, whose id is not pending; a reconnect below the limit whose heads bring the total past 100; never a retryable nack, the ack of a pending id or BAL traffic |
| PendingLimit.KeptWithoutOverrun | application.cpp:1176-1184 | whatever database errors and crashes cut handlers short, while no handler starts where its guard holds at most 100 ids are unanswered, statement by statement |
| PendingLimit.PassedByOverrun | application.cpp:1176-1184 | a handler that starts where its guard holds and comes to its end has passed the limit |
| PendingLimit.LimitKeptExactly | application.cpp:1176-1184 | in every run whose sweeps erase nothing and whose handlers end where the guard holds, at most 100 ids are unanswered in every state if and only if no handler starts where its guard holds |
| PendingLimit.FirstSessionSendsAll | application.cpp:1332-1366 | right after any start the first FCM session sends every downstream message of the queue, and passes the limit exactly when that brings the unanswered ids past 100 |
| Scenarios.CounterMissesOne | application.cpp:616-632 | a run: two uploads in one group and the ack of the first leave one message unanswered and the counter at 0 |
| Scenarios.PastTheLimitByAck | application.cpp:444-461 | a run from the empty table: 102 uploads and one ack, 101 unanswered |
| Scenarios.PastTheLimitByRestart | application.cpp:1332-1366 | a run whose events are uploads and one new session, with a crash between: more than 100 unanswered |
| Scenarios.PastTheLimitByTimer | application.cpp:872-877 | a run: an upload, its retryable nack and its ack, 100 uploads, and the timer that the nack left; 101 unanswered, the last sent message not live |
| Scenarios.SentTwice | application.cpp:616-632 | a run without reconnect or timer: three uploads and two acks, and the second ack sends again what the first let out |
| GroupOrder.UploadExact | application.cpp:1197-1220 | all that an upload does to the FCM manager and to what was sent |
| GroupOrder.FirstSendInOrder | application.cpp:1208-1220 | in every orderly run no grouped message accepted since the start is sent for the first time while an older one accepted since the start is live |
| GroupOrder.StrictOrderWhenNothingReloaded | messagemanager.h:71-80 | when nothing of the group was reloaded, its first sends follow the order of receipt |
| GroupOrder.StrictOrderExactly | messagemanager.h:71-80 | at the first send of a message accepted since the start, no live message of its stored group is older if and only if none of them was reloaded |
| GroupOrder.UploadSentAtOnce | application.cpp:1197-1220 | an upload is sent at once if and only if the counter is below 100 and no live message in memory has its group |
| GroupOrder.ReloadedGroupIsOvertaken | dbconnection.cpp:98-102 | a new message of a group whose live messages were all reloaded goes out at once, before all of them |
| Scenarios.OvertakingRun | dbconnection.cpp:98-102 | a run: a grouped upload, a crash, an upload in the same group, which is sent while the first is live and unsent |
| Recount.CounterAheadByRecounts | application.cpp:1290-1294 | in every run a counter exceeds the messages that await an ack by at most what the sweeps have counted since the last start; without such counts it is sound |
| Recount.LogonCounts | application.cpp:1290-1294 | a whole logon raises the counter by the NEW messages it sends and the messages awaiting an ack by none |
| Recount.CounterStuck | application.cpp:1290-1294 | a run: an upstream message, a crash before it is sent, 100 logons and its ack leave the queue empty and the counter at 100, so that a new message is not sent |
| Conservation.QueueIsPendingRows | dbconnection.cpp:395-413 | at every boundary the FCM queue and the unfinished rows for FCM are the same messages |
| Conservation.AcceptedAreConserved | application.cpp:507-550 | at every boundary accepted = live + DELIVERED + DELIVERY_FAILED, whatever acks and nacks arrive, repeated or reordered |
| Reporting.ExecUninterrupted | application.cpp:444-500 | no statement that runs is an interruption: only a crash or a database error is |
| Reporting.InterruptedExactly | application.cpp:444-500 | the end of d counts as interrupted if and only if a crash or database error fell at a statement where its report was still owed |
| Reporting.EveryReportHasItsMessage | application.cpp:764-810 | every ack or reject row of the table reports on one ended message, of the kind of its end, to the session that sent it, and is the only one that does |
| Reporting.EndIsReportedExactly | application.cpp:457-489 | at a boundary an ended message has a report, and only one, if and only if no crash and no database error fell while it was owed |
| Sweeps.SweepErasesExactly | application.cpp:1261-1376 | either sweep changes the keys of the map it iterates over if and only if it meets a message out of retries when the counter, with what it has counted itself, is at 100 |
| Sweeps.FcmErasing | application.cpp:881-887 | for the FCM queue: the counter is at 100 and some downstream message is out of retries |
| Scenarios.ErasingRun | application.cpp:1337-1366 | a run that leads to such a sweep: an upload, a crash, a reload with a cap of 0, 100 uploads and a new session |
| Sweeps.FcmSweepExactly | application.cpp:1332-1376 | an FCM sweep that erases nothing keeps every message, counter and row, and sends exactly those that the reconnect check lets through, once, in ascending order; at the limit it adds a retry to each instead |
| Sweeps.SweepExactly | application.cpp:1261-1315 | either sweep, when it erases nothing: which messages are sent, in ascending order, which are counted with their rows marked, which have one retry and a timer more, and that nothing else changes |
| Reach.HandledKeeps | application.cpp:375-550 | a whole handler keeps invariant and assumption when its result meets the assumption |
| Reach.ExtendRun | application.cpp:375-550 | a run that ends between handlers goes on with any handler run to its end, statement by statement |
| Reach.RestartPossible | dbconnection.cpp:395-413 | from any state at any statement a restart exists |
| Effects.AckExactly | application.cpp:444-489 | an FCM ack of a live message: its row DELIVERED, the message gone, the next one of the queue sent, and a DOWNSTREAM_ACK row with the data of the ack for the session that sent the message, sent on if the limit allows; nothing else changes |
| Effects.FinalNackExactly | application.cpp:528-538 | a final nack: the row DELIVERY_FAILED, the message gone, the next one sent, and a DOWNSTREAM_REJECT row with the payload of the message; nothing else changes |
| Effects.RetryExactly | application.cpp:866-878 | a retryable nack with retries left: one retry more and a timer, nothing else |
| Effects.GiveUpExactly | application.cpp:879-888 | a retryable nack without: the row DELIVERY_FAILED, the message gone and a reject row, nothing sent |
| Effects.UnknownAnswer | application.cpp:454-455 | an answer for an id that no live message has changes nothing |
| Effects.BalAckExactly | application.cpp:1053-1067 | an ack from a BAL finishes the row of that very message, takes it alone out of the queue of its session and sends the least waiting message of the rest; nothing else changes |
| Effects.UnknownBalAck | application.cpp:1061-1063 | an ack of an unknown session or message changes nothing |
| Effects.UpstreamExactly | application.cpp:375-423 | a message from FCM: a row with its id, category and payload, the ack to FCM, and the message in the queue of its category, sent and PENDING_ACK exactly when that session is known and below the limit; nothing else changes |
| Effects.ReceiptExactly | application.cpp:558-597 | a receipt likewise, without the ack |
| Effects.UploadExactly | application.cpp:1185-1220 | an upload: a row with all its columns, the message in the FCM queue, counted and sent exactly when the counter is below 100 and its group free; nothing else changes |
| Effects.TimerExactly | application.cpp:872-877 | a retry timer sends its message to its own receiver and is used up |
| Effects.NextSends | application.cpp:616-661 | after an end the least NEW head of a group is sent, and nothing at the limit or when none waits |
| Provenance.EndsAreAnswered | application.cpp:444-550 | in every run, no session being named fcm, a row for FCM is DELIVERED only after an ack of its FCM id, a row for a session only after that session acked that very id, and a row is DELIVERY_FAILED only after a final nack of its id or when its retries ran out |
| Provenance.RowsComeFromEvents | application.cpp:399-411 | in every run kind, FCM id, group, source, target and payload of a row are those of an earlier upload, message, receipt or ack, or, for a reject, of the message that failed |
| Provenance.LiveHasItsColumns | dbconnection.cpp:46-110 | in every run a live message, reloaded ones included, has the columns of its row |
| Provenance.ColumnsNeverChange | dbconnection.cpp:347-363 | between any two moments of a run no row disappears and no column but the state changes |
| Application.DbConnection.constructor | dbconnection.cpp:146-160 | opening a table sets the counter to the greatest sequence id in it, 0 for none |
| Application.DbConnection.InitSequenceId | dbconnection.cpp:369-388 | the same for the call itself |
| Application.DbConnection.GetNextSequenceId | dbconnection.cpp:420-424 | the counter goes up by one and is returned |
| Application.DbConnection.SaveMsg | dbconnection.cpp:310-339 | the row is added, or nothing changes and it throws when the id is taken |
| Application.DbConnection.UpdateMsgState | dbconnection.cpp:347-363 | the state of that row alone changes; a missing row is not an error |
| Application.DbConnection.LoadPendingMessages | dbconnection.cpp:395-413 | whatever the order of the rows, the manager holds exactly the unfinished rows of its session, without groups and uncounted |
| Application.App.constructor | application.cpp:60-78 | whatever state the earlier process left, the new one is a restart of it, with managers of its own; a run that led there goes on here, within the limits |
| Application.HandlerCarries | application.cpp:444-550 | what handler methods carry: reached states lead to reached states within the limits, and properly reached ones keep every live message stored |
| Application.RestartCarries | application.cpp:60-78 | so does a restart |
| Application.App.SendNextPending | application.cpp:616-661 | the oldest NEW message that heads its group is sent, and nothing when the counter is at 100 or no such message is there; found by the loop of getNext |
| Application.App.ResendPending | application.cpp:1261-1376 | the loops of both sweeps end where the step system ends |
| Application.App.HandleUpload | application.cpp:1185-1240 | table, manager objects, timers and sends end as the step system ends; a run that led to the state before goes on to the state after, the counters stay within 100, and under the assumption every live message is an unfinished row |
| Application.App.HandleUpstream | application.cpp:375-433 | the same for a message from FCM; UpstreamExactly says what that state is |
| Application.App.HandleReceipt | application.cpp:558-609 | the same for a receipt |
| Application.App.HandleAck | application.cpp:444-500 | the same for an ack, unknown ids included; AckExactly and UnknownAnswer say what that state is |
| Application.App.HandleNack | application.cpp:507-550 | the same for a nack, to be retried or final |
| Application.App.HandleBalAck | application.cpp:1053-1078 | the same for an ack from the BAL; BalAckExactly and UnknownBalAck say what that state is |
| Application.App.HandleFcmUp | application.cpp:310-319 | the same for a new FCM session |
| Application.App.HandleBalUp | application.cpp:1086-1137 | the same for the resend at a BAL logon |
| Application.App.HandleTimer | application.cpp:872-877 | a retry timer sends its message, whatever has become of it |
| Keccak.ThetaBits | sqlite/shell.c:801-810 | the column sums act bit by bit as theta of section 3.2.1 of FIPS 202 |
| Keccak.RhoBits | sqlite/shell.c:812-816 | the rotations act bit by bit as rho of section 3.2.2 |
| Keccak.PiBits | sqlite/shell.c:825-831 | the choice of lanes is pi of section 3.2.3 |
| Keccak.ChiBits | sqlite/shell.c:817-822 | the row combination is chi of section 3.2.4 |
| Keccak.OffsetsFollowTheWalk | sqlite/shell.c:812-816 | every rotation offset is the one that algorithm 2 of FIPS 202 computes |
| Keccak.ConstantsFollowTheRegister | sqlite/shell.c:759-772 | every entry of RC is what the shift register of algorithm 5 produces |
| KeccakInPlace.FromHome | sqlite/shell.c:812-871 | in the first unrolled round each row writes where it read |
| KeccakInPlace.FromAfter1 | sqlite/shell.c:873-938 | the same for the second |
| KeccakInPlace.FromAfter2 | sqlite/shell.c:940-1005 | the same for the third |
| KeccakInPlace.FromAfter3 | sqlite/shell.c:1007-1069 | the same for the fourth, which brings every lane home |
| KeccakInPlace.RoundInPlace | sqlite/shell.c:801-871 | one unrolled round in place is one round of FIPS 202, seen through the layouts before and after it |
| KeccakInPlace.KeccakF1600Step | sqlite/shell.c:754-1069 | for every state the array afterwards holds all 24 rounds, lanes in home position |
| Sponge.RateFor | sqlite/shell.c:1076-1082 | the rate is a multiple of 8, and 1600 minus twice the size for the four SHA-3 sizes |
| Sponge.LoadedBytes | sqlite/shell.c:1113-1114 | a lane loaded from memory has the bytes of memory, in order |
| Sponge.FeedSplit | sqlite/shell.c:1105-1137 | however the input is cut, the pieces leave the state that the whole leaves |
| Sponge.FeedWord | sqlite/shell.c:1112-1121 | one 64-bit xor does what eight byte steps do, block end included |
| Sponge.FeedIsSponge | sqlite/shell.c:1123-1136 | byte by byte the state is that of the block-wise sponge of section 4 of FIPS 202 with the rest xored in |
| Sponge.FeedPadding | sqlite/shell.c:1144-1155 | jumping to the last byte of the block equals feeding the padding bytes, for every length |
| Sponge.PaddedIsAbsorbed | sqlite/shell.c:1144-1155 | after the padding whole blocks have been absorbed and none is open |
| Sponge.PaddingBits | sqlite/shell.c:1146-1154 | the padding bytes are the bits 01 followed by pad10*1 of section 5.1 of FIPS 202, with the prescribed number of zeros |
| Sponge.SHA3Context.constructor | sqlite/shell.c:1076-1082 | an empty sponge with the rate for the size |
| Sponge.SHA3Context.UpdateWords | sqlite/shell.c:1112-1121 | the fast path leaves the state of byte-wise feeding, and nLoaded stays below nRate |
| Sponge.SHA3Context.Update | sqlite/shell.c:1105-1137 | for every data, fill level and alignment the state is that of feeding the bytes |
| Sponge.SHA3Context.Final | sqlite/shell.c:1144-1160 | the bytes returned are the SHA-3 output for everything fed |
| Sponge.Sha3Func | sqlite/shell.c:1171-1198 | SHA3-SIZE of X for the four sizes, 256 when no size is given; NULL for NULL, and an error for every other size |
| RowStream.EightBytes | sqlite/shell.c:1314-1327 | the loop stores the tag and the eight bytes, most significant first |
| RowStream.IntegerBack | sqlite/shell.c:1314-1341 | the eight bytes determine the 64 bits |
| RowStream.IntegersAreBigEndian | sqlite/shell.c:1239-1241 | the integer 1 is stored with its 1 last, unlike the comment |
| RowStream.SegmentsInAscii | sqlite/shell.c:1225-1249 | the tags and the colon are the ASCII letters that the comment names |
| RowStream.StreamOfOne | sqlite/shell.c:1301-1326 | the bytes of the stream for "SELECT 1" |
| RowStream.SizedBack | sqlite/shell.c:1203-1216 | tag, decimal size, colon and bytes are read back whatever follows |
| RowStream.DecodeEncoded | sqlite/shell.c:1278-1360 | the stream determines statements, rows and typed values |
| RowStream.UniquelyDecodable | sqlite/shell.c:1225-1249 | equal streams come from equal lists of statements |
| RowStream.FeedValue | sqlite/shell.c:1309-1356 | the switch over the column type feeds the encoding of the value |
| RowStream.FeedStatements | sqlite/shell.c:1278-1360 | the loop feeds the encoding of all queries in the text, skips empty pieces, and fails exactly when some piece does not compile or would write |
| RowStream.Sha3Query | sqlite/shell.c:1250-1362 | the SHA-3 of the encoding of all queries; NULL for no text; an error exactly for a bad size or a refused piece |
| SqlQuote.ReplaceRestores | sqlite/shell.c:1630-1643 | replace() turns exactly the inserted markers back, for any marker that cannot overlap itself or the other marker and does not occur in the text |
| SqlQuote.CandidatesDiffer | sqlite/shell.c:1540-1542 | two made-up strings never begin at the same position |
| SqlQuote.OneMore | sqlite/shell.c:1540-1542 | k made-up strings that occur take k different positions, so there are at most as many as characters |
| SqlQuote.UnusedString | sqlite/shell.c:1532-1544 | the result does not occur in z, is the first of its kind, and is found within length + 1 tries |
| SqlQuote.MarkersSeparate | sqlite/shell.c:1607-1614 | no carriage-return marker can overlap itself or a newline marker, generated ones included |
| SqlQuote.MarkerAlone | sqlite/shell.c:1607-1610 | no newline marker can overlap itself or a carriage return |
| SqlQuote.ReadDoubled | sqlite/shell.c:1560-1576 | reading a literal with doubled quotes gives the text and what follows it |
| SqlQuote.PrintedMeans | sqlite/shell.c:1590-1646 | the printed expression evaluates to z, wherever it stands before something other than a quote |
| SqlQuote.WriteBody | sqlite/shell.c:1615-1637 | the loop writes quotes doubled and markers in place of line ends |
| SqlQuote.OutputQuotedEscaped | sqlite/shell.c:1590-1646 | for every string, evaluating the output gives the string back, and the output has neither newline nor carriage return; a string without quotes and line ends is only put in quotes |
| SqlQuote.OutputQuoted | sqlite/shell.c:1551-1579 | the string in quotes with its quotes doubled, which evaluates to it |
| Csv.OutputCsv | sqlite/shell.c:1743-1769 | quoted exactly when empty or containing a listed character or the separator |
| Csv.OutputRow | sqlite/shell.c:2085-2090 | separators between fields, the row end after the last |
| Csv.FieldRoundTrip | sqlite/shell.c:3771-3831 | for every ASCII separator but quote, CR and LF, a written field is read back with the terminator that was written, the end of the file included |
| Csv.RowRoundTrip | sqlite/shell.c:3771-3831 | every non-empty row comes back, its end reported right after its last field, for row ends LF and CRLF and for the end of the file |
| Csv.TableRoundTrip | sqlite/shell.c:5097-5101 | so does every table, with or without a line end after its last row |
| Csv.QuotesByTheTable | sqlite/shell.c:1718-1735 | the characters that need quotes are those of the table, entry by entry |
| Csv.StrayQuotesAreKept | sqlite/shell.c:3781-3817 | a quoted field with quotes inside that neither double nor close is read with them |
| Csv.UnclosedGoesOn | sqlite/shell.c:3805-3811 | a quoted field that is never closed is read to the end of the file |
| Csv.BareFields | sqlite/shell.c:3818-3828 | an unquoted field of any characters: a carriage return is dropped before the newline and kept before the separator and the end of the file |
| Csv.HighByteAsSeparator | sqlite/shell.c:5083-5084 | every separator from 0x80 loses the row a, b: the reader does not see it |
| Csv.BadSeparators | sqlite/shell.c:5083-5084 | every other byte (quote, CR, LF and all from 0x80) loses some row |
| Csv.Unquote | sqlite/shell.c:3800-3800 | the do-while finds the last quote |
| Csv.ImportCtx.DropQuote | sqlite/shell.c:3800-3800 | it stops before the start of the buffer and leaves the text before the last quote |
| Csv.ImportCtx.ReadQuotedLoop | sqlite/shell.c:3781-3817 | the loop over a quoted field, for every input, malformed ones included |
| Csv.ImportCtx.ReadPlainLoop | sqlite/shell.c:3818-3828 | the loop over an unquoted field |
| Csv.ImportCtx.ReadOneField | sqlite/shell.c:3771-3831 | one call: the text, the terminator as an int and the rest of the input; the separator is the sign-extended one |
| Csv.ImportRow | sqlite/shell.c:5097-5101 | fields up to the first that no column separator ends |
| CString.OutputCString | sqlite/shell.c:1651-1677 | the output is the escaped text in quotes |
| CString.EscapesWritten | sqlite/shell.c:1651-1677 | what each byte is written as: two-character escapes for five of them, three octal digits for what is not printable, the rest as it is |
| CString.OctalsAsDocumented | sqlite/shell.c:3553-3566 | three octal digits stand for the character of that code, cut to eight bits |
| CString.ResolveEscaped | sqlite/shell.c:3531-3573 | resolving undoes escaping, for every NUL-free byte string |
| CString.ReadStep | sqlite/shell.c:3535-3566 | the branches for one escape, octal digits cut to eight bits |
| CString.ResolveBackslashes | sqlite/shell.c:3531-3573 | in place: the buffer holds the resolved text and a NUL, nothing outside the string changes, the write index never passes the read index |
| CString.EscapesAsDocumented | sqlite/shell.c:3515-3530 | anywhere in a text, every escape of the comment resolves to the ASCII code it names, but for the letter s, which stands for itself |
| CString.EscapedLen | sqlite/shell.c:4618-4621 | no escaped text closes its own quotes |
| CString.ArgumentsRoundTrip | sqlite/shell.c:4612-4632 | up to 50 byte strings come back from the line that quotes them, whatever white space is between |
| CString.WordsRoundTrip | sqlite/shell.c:4612-4632 | every line of words, in double quotes, in single quotes or bare, with any white space between, gives the words, the first 50 when there are more; single quotes are taken verbatim |
| CString.ScanToken | sqlite/shell.c:4613-4629 | where a token begins and stops and whether it is resolved |
| CString.EndToken | sqlite/shell.c:4622-4630 | the NUL over the delimiter and the resolved text, nothing else changed |
| CString.Tokenise | sqlite/shell.c:4612-4632 | every pointer leads to its argument's resolved, NUL-terminated text inside the line |
| CString.TokeniseQuoted | sqlite/shell.c:4612-4632 | on a line of quoted arguments every pointer leads to the string that was quoted |
| Glob.ReadAsDocumented | sqlite/shell.c:4222-4243 | the code cuts a pattern into the elements that the comment describes if and only if no star run is followed by # or white space |
| GlobList.PiecesBack | sqlite/shell.c:4292-4304 | a list of singles and ranges is read back from its text, under the conditions that a closing bracket and a dash need |
| GlobList.EveryListIsClean | sqlite/shell.c:4292-4304 | every closed list is the text of such a list |
| Glob.ListIsRead | sqlite/shell.c:4277-4305 | the character-by-character reading of the code gives the ranges of that list |
| Glob.RangesCover | sqlite/shell.c:4293-4302 | they cover a code exactly when it equals a single, begins a range or lies between the bounds of one |
| Glob.ClassIsItsList | sqlite/shell.c:4277-4305 | every class, negated or not, with a closing bracket first or not, is read by the code and by the documented reading as what its singles and ranges take |
| Glob.LowerCaseLetters | sqlite/shell.c:4292-4304 | "[a-z]" matches a lower-case letter and nothing else |
| Glob.StarBeforeNumber | sqlite/shell.c:4255-4274 | "*#" against "5": the comment says match, the code says none |
| Glob.StarOne | sqlite/shell.c:4256-4258 | a question mark after a star takes the next character at once without losing a match |
| Glob.StarLit | sqlite/shell.c:4267-4274 | the scan for the next literal misses no split |
| Glob.ScanList | sqlite/shell.c:4292-4304 | the loop over a list sees the character exactly when some item covers it, items and singles or ranges of the list being the same by ListIsRead and RangesCover |
| Glob.MatchClass | sqlite/shell.c:4277-4305 | a class fits exactly when closed and the character is listed, or not listed if negated |
| Glob.MatchNumber | sqlite/shell.c:4306-4310 | an optional sign and the longest run of digits |
| Glob.MatchStar | sqlite/shell.c:4255-4274 | true exactly when some split after the star matches |
| Glob.TestcaseGlob | sqlite/shell.c:4245-4317 | for every pattern and text: terminates, and is true exactly when some split matches, white space at the end ignored |
| GlobMeaning.MatchesMeans | sqlite/shell.c:4245-4317 | whatever the code matches is meant, for every list of elements |
| GlobMeaning.LongestIsEnoughExactly | sqlite/shell.c:4249-4310 | taking the longest stretch misses nothing, on any text, if and only if no # is before an element that can take a digit and no white space before one that can take white space, or nothing matches at all |
| GlobMeaning.DocumentedExactly | sqlite/shell.c:4222-4243 | the code agrees with its comment on every text if and only if the pattern meets the condition above; the meaning is declarative, by existence of a cut |
| GlobMeaning.CollisionWitness | sqlite/shell.c:4255-4274 | every pattern with a star run before # or white space that can match at all has a text on which code and comment part |
| GlobMeaning.NumberBeforeDigit | sqlite/shell.c:4236-4237 | "#5" against "55": meant, and not matched |
| GlobMeaning.GlobAsDocumented | sqlite/shell.c:4245-4317 | on patterns that meet the condition the matcher decides the documented meaning |
| Backoff.CappedDelays | exponentialbackoff.cpp:47-65 | with cap M every delay of every sequence of next and reset is at most 2^(M+1) seconds |
| Backoff.CapsThatFit | exponentialbackoff.cpp:61-64 | caps up to 20 keep every delay inside 32 bits |
| Backoff.CapsThatOverflow | exponentialbackoff.cpp:61-64 | every larger cap has a run that does not |
| Backoff.UncappedFitsExactly | exponentialbackoff.cpp:47-65 | without a cap, in every sequence of next and reset with any random parts, a delay fits exactly when it is among the first 21 since the last reset |
| Backoff.CallsAfterReset | exponentialbackoff.h:31-31 | after a reset, whatever came before it, with a cap M the M-th call is the one that starts over |
| Backoff.StrictlyIncreasing | exponentialbackoff.cpp:60-63 | until a wrap delays grow, whatever the random parts |
| Backoff.DelayForm | exponentialbackoff.cpp:61-62 | the truncated half of 2^s - 1 is 2^(s-1) - 1 |
| Backoff.ExponentialBackoff.Next | exponentialbackoff.cpp:47-65 | the delay in closed form and the new counters |
| Backoff.ExponentialBackoff.Reset | exponentialbackoff.h:31-31 | the counters after reset |
| Backoff.RetryBudget.GetNextRetryTimeout | message.cpp:86-96 | -1 exactly when the budget is spent, otherwise the delay of this retry, which fits 32 bits exactly for the first 21 |
| Handover.ExactlyOneSubscriber | application.cpp:352-365 | at every moment exactly one handle receives what is sent: the newest, and it is not draining |
| Handover.NeverSendsAgain | application.cpp:356-359 | a handle that is draining or replaced never sends again |
| Handover.ClosedForever | fcmconnection.cpp:125-137 | a drained handle that FCM has closed is never connected again |
| Handover.OnlyNewestUndrained | fcmconnection.cpp:545-561 | the handles not draining number one plus the repeated drains, so the newest is the only one exactly when no handle was told twice |
| Handover.DrainedTwice | fcmconnection.cpp:545-561 | a run in which a handle is told twice to drain and a healthy one is left without subscription |
| Handover.HandlesFollowHistory | fcmconnection.cpp:125-137 | in every run the number of handles, and the phase, the draining flag and the losses of each, are those that its own events account for |
| Handover.ReconnectDelayFits | fcmconnection.cpp:125-137 | a reconnect delay fits 32 bits exactly for the first 21 losses since the last session |
| Handover.Connections.CreateFcmHandle | application.cpp:85-91 | a new handle under the next id, subscribed |
| Handover.Connections.HandleDrainingStarted | application.cpp:352-365 | the last handle loses its subscription and a new one has it |
| Handover.Connections.HandleControlMessage | fcmconnection.cpp:545-561 | draining starts the handover; any other control message changes nothing |
| Handover.Connections.HandleDisconnected | fcmconnection.cpp:125-137 | a reconnect with its delay, or nothing more if draining |
| Handover.Connections.ReadJid | fcmconnection.cpp:431-439 | the session is up and the backoff starts over |

## Left out

- Qt sockets, TLS, timers, signal delivery and JSON are events and abstract payloads; handlers run one at a time, as in the single event loop.
- Stanza reading and writing, the BAL logon and its socket maps, configuration, POSIX signals, logging.
- SQL text and the SQLite engine: the table is a map with atomic insert and update.
- Writing to a BAL socket: a forward counts as sent whether or not the session is connected, and an exception from the write is not modelled.
- Application.App: messages are values; the sharing of a message between maps and timers is modelled as a message being changed where it is kept.
- MessageManager.Manager: a group is the set of its sequence ids, not an object with its own queue.
- Delivery.SweepTurn: the C++ loops iterate over the live map; the model takes the keys at the start and skips those that are gone. What C++ does when the element under the iterator is erased is not modelled; Sweeps.SweepErasesExactly says exactly when that happens, and only sweeps in which it does not have results here.
- Delivery.Retry: the delay of the timer is in Backoff.RetryBudget only. In this function and in the sweeps, an exception that no handler catches (in a sweep or a retry) ends the handler in the model; in the daemon it ends the process, which the model covers as a crash at the same statement.
- Sequence ids and retry counts are unbounded integers.
- Sponge.SHA3Context.Update: little-endian machines only; the byte order is not chosen at run time.
- Sponge.SHA3Context.Final: the hash is a new sequence instead of a copy behind the rate in the same buffer.
- SqlQuote.UnusedString: the 32-bit counter and the 20-byte buffer are not modelled; neither limit is reached by strings shorter than 2^31 characters.
- SqlQuote.OutputQuotedEscaped: both markers are chosen even where only one is needed.
- Csv.ImportRow: the column count of the table, the INSERT and the padding of short rows.
- Csv.OutputCsv: separators of more than one character and NULL values.
- Csv.ImportCtx.ReadOneField: the line counter, the warnings for malformed fields and the interrupt flag.
- CString.OutputCString: the printable characters are those of the C locale.
- RowStream.Sha3Query: compiling and running SQL is outside; what sqlite3_prepare_v2 makes of each piece is an argument.
- Application.DbConnection.SaveMsg: an insert that fails for another reason is the DbFailure step of Delivery, not a result of this method.
- Application.DbConnection.UpdateMsgState: likewise for an update that fails.
- Effects.FinalNackExactly: the document that notifyDownstreamUploadFailure writes to the session's socket after saving the reject is not a send of the model.
- Application.App.ResendPending: loops over the keys taken at the start, as Delivery.SweepTurn does; that is the C++ loop exactly when nothing is erased.
- PendingLimit.LimitKeptExactly: that FCM counts a message sent twice under one id once, and ids rather than messages, is taken from the wording of its rule.
- Backoff.ExponentialBackoff.Next: the random part is an argument between 100 and 1000; the result is the exact integer, and the lemmas say when 32 bits hold it.
- Handover.Connections: handles are values in the map; only the phase, the draining flag and the backoff of a handle are kept.
- appendText and the column layout of .tables: easy beside the codecs above.
- The rest of the shell: dot-commands, options, statistics, cloning, backup, sessions.
