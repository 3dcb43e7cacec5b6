/**
 * The client's error taxonomy as a table: for each operation and each
 * status the service can answer with, the kinds of result the operation may
 * report. The lemmas check each operation's classification against the
 * table in both directions: every reported kind is in the table, and every
 * kind in the table is reported for some response body.
 */
module Taxonomy {
  import opened Wire
  import opened Tqs

  datatype Operation = CreateOp | StatisticsOp | PutOp | GetOp | DeleteOp

  datatype Kind =
    | NoError
    | NotFound
    | Empty
    | AlreadyExists
    | HTTPStatus(code: int)
    | LeaseGone
    | Unclassified

  function KindOf(e: Error): Kind {
    match e
    case LeaseNotFound(_) => LeaseGone
    case QueueNotFound(_) => NotFound
    case QueueEmpty(_) => Empty
    case QueueAlreadyExists(_) => AlreadyExists
    case QueueHTTPError(_, code) => HTTPStatus(code)
    case Opaque(_) => Unclassified
  }

  function OutcomeKind(o: Outcome): Kind {
    if o.Pass? then NoError else KindOf(o.error)
  }

  function ResultKind<T>(r: Result<T>): Kind {
    if r.Ok? then NoError else KindOf(r.error)
  }

  /** What each operation may report once the service has answered with `status`. */
  function StatusKinds(op: Operation, status: int): set<Kind> {
    match op
    case CreateOp =>
      if status == 200 then {NoError} else if status == 409 then {AlreadyExists} else {HTTPStatus(status)}
    case PutOp =>
      if status == 200 then {NoError} else if status == 404 then {NotFound} else {HTTPStatus(status)}
    case DeleteOp =>
      if status == 404 then {LeaseGone} else {NoError}
    case StatisticsOp =>
      if status == 404 then {NotFound} else {NoError, Unclassified}
    case GetOp =>
      if status == 404 then {NotFound} else {NoError, Empty, Unclassified}
  }

  /** Whatever the body, every operation reports a kind its table row allows. */
  lemma ReportedKindsFollowTable(q: Queue, m: Message, status: int,
                                 sb: Body<QueueStatistics>, gb: Body<GetMessagesResponse>)
    ensures OutcomeKind(q.Create(Replied(status))) in StatusKinds(CreateOp, status)
    ensures OutcomeKind(q.Put(Replied(status))) in StatusKinds(PutOp, status)
    ensures OutcomeKind(m.Delete(Replied(status))) in StatusKinds(DeleteOp, status)
    ensures ResultKind(q.Statistics(Response(status, sb))) in StatusKinds(StatisticsOp, status)
    ensures ResultKind(q.Get(Response(status, gb))) in StatusKinds(GetOp, status)
  {
  }

  /** Every kind the table allows a retrieval is reported for some body. */
  lemma GetTableIsTight(q: Queue, status: int, k: Kind)
    requires k in StatusKinds(GetOp, status)
    ensures exists b: Body<GetMessagesResponse> :: ResultKind(q.Get(Response(status, b))) == k
  {
    var b: Body<GetMessagesResponse> :=
      if k == Unclassified then Malformed(Cause(""))
      else if k == Empty then Parsed(GetMessagesResponse([]))
      else Parsed(GetMessagesResponse([ZeroMessage]));
    assert ResultKind(q.Get(Response(status, b))) == k;
  }

  /** Every kind the table allows a statistics query is reported for some body. */
  lemma StatisticsTableIsTight(q: Queue, status: int, k: Kind)
    requires k in StatusKinds(StatisticsOp, status)
    ensures exists b: Body<QueueStatistics> :: ResultKind(q.Statistics(Response(status, b))) == k
  {
    var b: Body<QueueStatistics> := if k == Unclassified then Malformed(Cause("")) else Parsed(ZeroStatistics);
    assert ResultKind(q.Statistics(Response(status, b))) == k;
  }

  /** Status 404 names the missing queue on every queue operation that
      special-cases it, the missing lease on Delete, and is never "empty". */
  lemma NotFoundIsQueueOrLease(q: Queue, m: Message, sb: Body<QueueStatistics>, gb: Body<GetMessagesResponse>)
    ensures q.Statistics(Response(404, sb)) == Err(QueueNotFound(q))
    ensures q.Get(Response(404, gb)) == Err(QueueNotFound(q))
    ensures q.Put(Replied(404)) == Fail(QueueNotFound(q))
    ensures m.Delete(Replied(404)) == Fail(LeaseNotFound(m))
    ensures q.Create(Replied(404)) == Fail(QueueHTTPError(q, 404))
    ensures forall op :: Empty !in StatusKinds(op, 404)
  {
  }

  /** Without a response every operation reports the transport's own error. */
  lemma NoResponseIsUnclassified(q: Queue, m: Message, c: Cause)
    ensures ResultKind(q.Statistics(NoResponse(c))) == Unclassified
    ensures ResultKind(q.Get(NoResponse(c))) == Unclassified
    ensures OutcomeKind(q.Create(NoReply(c))) == Unclassified
    ensures OutcomeKind(q.Put(NoReply(c))) == Unclassified
    ensures OutcomeKind(m.Delete(NoReply(c))) == Unclassified
  {
  }
}
