/**
 * Properties that relate several tqs operations: how the URLs of a queue
 * derive from one another, the authentication header of every request, the
 * retrieval query, the binding of a leased message to its queue, and the
 * path on which an unreadable body is reported as success.
 */
module Properties {
  import opened Wire
  import opened Tqs

  /** Every URL of a queue built by `NewQueue` hangs off the endpoint's queue collection. */
  lemma UrlsDeriveFromQueueUrl(endpoint: string, name: string, token: string, m: Message)
    requires m.queue == NewQueue(endpoint, name, token)
    ensures var q := NewQueue(endpoint, name, token);
      && q.CreateRequest().url + "/" + name == q.url
      && q.StatisticsRequest().url == endpoint + "/queues/" + name + "/statistics"
      && m.DeleteRequest().url == endpoint + "/queues/" + name + "/leases/" + m.leaseUUID
      && q.url <= q.StatisticsRequest().url && q.url <= m.DeleteRequest().url
  {
  }

  /** Every request carries `Authentication: token <token>` exactly when the token is non-empty. */
  lemma EveryRequestAuthenticates(q: Queue, options: Option<GetOptions>, text: string, kind: string, m: Message)
    requires m.queue == q
    ensures forall r | r in {q.CreateRequest(), q.StatisticsRequest(), q.GetRequest(options),
                             q.PutRequest(text, kind), m.DeleteRequest()} ::
      (AuthenticationHeader in r.header <==> q.token != "") &&
      (q.token != "" ==> r.header[AuthenticationHeader] == "token " + q.token)
  {
  }

  /** The `Retry` option never reaches the request. */
  lemma RetryIsNeverConsulted(q: Queue, o: GetOptions)
    ensures q.GetRequest(Some(o)) == q.GetRequest(Some(o.(retry := !o.retry)))
  {
  }

  /** A positive wait shorter than a second still sends `wait_time=0`. */
  lemma SubSecondWaitSendsZero(q: Queue, o: GetOptions)
    requires 0 < o.wait < NanosPerSecond
    ensures "wait_time" in q.GetRequest(Some(o)).query
    ensures q.GetRequest(Some(o)).query["wait_time"] == "0"
  {
  }

  /** A wait of any whole number of seconds is sent as that number. */
  lemma WholeSecondWaitIsExact(q: Queue, o: GetOptions, seconds: nat)
    requires 0 < seconds && o.wait == seconds * NanosPerSecond
    ensures "wait_time" in q.GetRequest(Some(o)).query
    ensures q.GetRequest(Some(o)).query["wait_time"] == Decimal(seconds)
  {
    assert o.wait / NanosPerSecond == seconds;
  }

  /** A leased message is the service's single message, bound to the queue
      that retrieved it, so that releasing it goes to that queue's lease URL
      with that queue's credentials. */
  lemma LeasedMessageIsBoundToItsQueue(q: Queue, status: int, response: GetMessagesResponse)
    requires q.Get(Response(status, Parsed(response))).Ok?
    ensures |response.messages| == 1
    ensures var m := q.Get(Response(status, Parsed(response))).value;
      && m.queue == q
      && m.(queue := response.messages[0].queue) == response.messages[0]
      && m.DeleteRequest().url == q.url + "/leases/" + m.leaseUUID
      && Authenticated(m.DeleteRequest().header, q.token)
  {
  }

  /** When a response body cannot be read, Statistics and Get report success
      with the zero value, so Exists says the queue exists and the "leased"
      message is bound to no queue: releasing it targets "/leases/". */
  lemma UnreadableBodyIsSuccess(q: Queue, status: int)
    requires status != 404
    ensures q.Statistics(Response(status, ReadFailed)) == Ok(ZeroStatistics)
    ensures q.Exists(Response(status, ReadFailed)) == Ok(true)
    ensures q.Get(Response(status, ReadFailed)) == Ok(ZeroMessage)
    ensures ZeroMessage.DeleteRequest().url == "/leases/"
    ensures AuthenticationHeader !in ZeroMessage.DeleteRequest().header
  {
  }

  /** GetValue then decodes the empty text. */
  lemma UnreadableBodyDecodesEmptyText<V>(q: Queue, status: int, decode: string -> Decoding<V>)
    requires status != 404
    ensures q.GetValue(Response(status, ReadFailed), decode) ==
      match decode("")
      case Decoded(v) => Ok(v)
      case Undecodable(c) => Err(Opaque(c))
  {
  }

  /** Exists in terms of the service's response alone. */
  lemma ExistsByResponse(q: Queue, ex: Exchange<QueueStatistics>)
    ensures q.Exists(ex) == Ok(false) <==> ex.Response? && ex.status == 404
    ensures q.Exists(ex) == Ok(true) <==> ex.Response? && ex.status != 404 && !ex.body.Malformed?
    ensures q.Exists(ex).Err? ==> q.Exists(ex).error.Opaque?
  {
  }

  /** Every error of the taxonomy names the queue or the message the operation was called on. */
  lemma ErrorsNameTheirSubject(q: Queue, m: Message, reply: Reply,
                               sx: Exchange<QueueStatistics>, gx: Exchange<GetMessagesResponse>)
    ensures q.Create(reply).Fail? && !q.Create(reply).error.Opaque? ==> q.Create(reply).error.queue == q
    ensures q.Put(reply).Fail? && !q.Put(reply).error.Opaque? ==> q.Put(reply).error.queue == q
    ensures m.Delete(reply).Fail? && !m.Delete(reply).error.Opaque? ==> m.Delete(reply).error.message == m
    ensures q.Statistics(sx).Err? && !q.Statistics(sx).error.Opaque? ==> q.Statistics(sx).error.queue == q
    ensures q.Get(gx).Err? && !q.Get(gx).error.Opaque? ==> q.Get(gx).error.queue == q
  {
  }
}
