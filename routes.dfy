/**
 * The service's REST routes, read back from a request URL. This decoder is
 * the inverse of the client's URL construction: for a queue whose name is
 * plain (no '/', and none of the characters '?', '#' and '%' that URL
 * parsing treats specially) under a plain endpoint, every URL the client
 * builds decodes to the resource it was built for. The client escapes
 * nothing, so a name with a '/' makes two different operations send the
 * same request, and a '?', '#' or '%' in a name or endpoint makes the URL
 * parser read a different path than the one the client formatted.
 */
module Routes {
  import opened Wire
  import opened Tqs

  datatype Route =
    | Collection                                   // {endpoint}/queues
    | QueueResource(name: string)                  // {endpoint}/queues/{name}
    | StatisticsResource(name: string)             // {endpoint}/queues/{name}/statistics
    | LeaseResource(name: string, lease: string)   // {endpoint}/queues/{name}/leases/{lease}

  /** Text that URL parsing leaves in the path as it is: no query or
      fragment delimiter and no percent escape. */
  predicate NoUrlDelimiters(s: string) {
    '?' !in s && '#' !in s && '%' !in s
  }

  /** A queue name that is one plain path segment. */
  predicate PlainName(name: string) {
    '/' !in name && NoUrlDelimiters(name)
  }

  /** `s` cut before its first '/': the part before and the part from the '/' on. */
  function SplitAtSlash(s: string): (p: (string, string))
    ensures p.0 + p.1 == s
    ensures '/' !in p.0
    ensures p.1 == [] || p.1[0] == '/'
  {
    if s == [] then ([], [])
    else if s[0] == '/' then ([], s)
    else
      var rest := SplitAtSlash(s[1..]);
      ([s[0]] + rest.0, rest.1)
  }

  /** A slash-free head followed by nothing or by a '/' is exactly what the split finds. */
  lemma {:induction false} SplitAtSlashOf(head: string, tail: string)
    requires '/' !in head
    requires tail == [] || tail[0] == '/'
    ensures SplitAtSlash(head + tail) == (head, tail)
    decreases |head|
  {
    if head == [] {
      assert head + tail == tail;
    } else {
      assert head[0] in head;
      assert (head + tail)[0] == head[0] != '/';
      assert (head + tail)[1..] == head[1..] + tail;
      SplitAtSlashOf(head[1..], tail);
      assert [head[0]] + head[1..] == head;
    }
  }

  /** The route a URL addresses under `endpoint`, if any. */
  function RouteOf(endpoint: string, url: string): Option<Route> {
    var root := endpoint + QueuesPath;
    if !(root <= url) then None
    else
      var rest := url[|root|..];
      if rest == [] then Some(Collection)
      else if rest[0] != '/' then None
      else
        var parts := SplitAtSlash(rest[1..]);
        var name, tail := parts.0, parts.1;
        if tail == [] then Some(QueueResource(name))
        else if tail == StatisticsPath then Some(StatisticsResource(name))
        else if LeasesPath <= tail then Some(LeaseResource(name, tail[|LeasesPath|..]))
        else None
  }

  /** Cutting a known prefix off a concatenation gives back the rest. */
  lemma AfterPrefix(prefix: string, rest: string)
    ensures prefix <= prefix + rest
    ensures (prefix + rest)[|prefix|..] == rest
  {
  }

  /** The route of the queue's URL followed by `suffix`, for a suffix that starts a new path segment. */
  lemma {:induction false} RouteUnderQueue(endpoint: string, name: string, suffix: string)
    requires '/' !in name
    requires suffix == [] || suffix[0] == '/'
    ensures RouteOf(endpoint, endpoint + QueuesPath + "/" + name + suffix) ==
      if suffix == [] then Some(QueueResource(name))
      else if suffix == StatisticsPath then Some(StatisticsResource(name))
      else if LeasesPath <= suffix then Some(LeaseResource(name, suffix[|LeasesPath|..]))
      else None
  {
    var root := endpoint + QueuesPath;
    var url := endpoint + QueuesPath + "/" + name + suffix;
    assert url == root + ("/" + name + suffix);
    AfterPrefix(root, "/" + name + suffix);
    assert ("/" + name + suffix)[1..] == name + suffix;
    SplitAtSlashOf(name, suffix);
  }

  /** Each request of a queue with a plain name under a plain endpoint
      addresses the resource of that queue it is meant for. */
  lemma RequestsAddressTheirResource(endpoint: string, name: string, token: string, options: Option<GetOptions>, text: string, kind: string)
    requires PlainName(name) && NoUrlDelimiters(endpoint)
    ensures var q := NewQueue(endpoint, name, token);
      && RouteOf(endpoint, q.CreateRequest().url) == Some(Collection)
      && RouteOf(endpoint, q.StatisticsRequest().url) == Some(StatisticsResource(name))
      && RouteOf(endpoint, q.GetRequest(options).url) == Some(QueueResource(name))
      && RouteOf(endpoint, q.PutRequest(text, kind).url) == Some(QueueResource(name))
  {
    var q := NewQueue(endpoint, name, token);
    AfterPrefix(endpoint + QueuesPath, []);
    assert endpoint + QueuesPath == endpoint + QueuesPath + [];
    RouteUnderQueue(endpoint, name, []);
    assert q.url == endpoint + QueuesPath + "/" + name + [];
    RouteUnderQueue(endpoint, name, StatisticsPath);
  }

  /** A lease of a queue with a plain name under a plain endpoint is
      released under that queue's lease route. */
  lemma DeleteAddressesItsLease(m: Message, endpoint: string, name: string, token: string)
    requires PlainName(name) && NoUrlDelimiters(endpoint) && NoUrlDelimiters(m.leaseUUID)
    requires m.queue == NewQueue(endpoint, name, token)
    ensures RouteOf(endpoint, m.DeleteRequest().url) == Some(LeaseResource(name, m.leaseUUID))
  {
    var suffix := LeasesPath + m.leaseUUID;
    assert m.DeleteRequest().url == endpoint + QueuesPath + "/" + name + suffix;
    assert LeasesPath <= suffix && suffix[|LeasesPath|..] == m.leaseUUID;
    assert suffix[1] != StatisticsPath[1];
    RouteUnderQueue(endpoint, name, suffix);
  }

  /** Without escaping, retrieving from the queue "a/statistics" sends the very
      request that asks for the statistics of the queue "a". */
  lemma SlashInNameAliasesStatistics(endpoint: string, token: string)
    ensures NewQueue(endpoint, "a/statistics", token).GetRequest(None) ==
            NewQueue(endpoint, "a", token).StatisticsRequest()
  {
    assert endpoint + QueuesPath + "/" + "a/statistics" == endpoint + QueuesPath + "/" + "a" + StatisticsPath;
  }
}
