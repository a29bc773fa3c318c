/**
 * The request handlers of the broker: `putInQueue` (producer),
 * `getFromQueue` up to its suspension point (consumer) and `handleRequest`
 * (dispatch on the HTTP method).
 *
 * Each handler is a method over the shared `QueuesSync` registry and is
 * proved against a function on the registry's contents (`Produce`,
 * `Consume`, `Handle`); the properties the broker promises are stated on
 * those functions.
 */
module Broker {
  import opened Wrappers
  import opened GoStrings
  import opened QueueRegistry

  /** The HTTP statuses the handlers write, with their `net/http` codes. */
  datatype Status = OK | BadRequest | NotFound | NotImplemented {
    /** OK is the only success; a bad name, value or timeout and a missing queue are the client's errors; an unknown method is the server's. */
    function Code(): (c: int)
      ensures c == 200 <==> this == OK
      ensures c == 400 <==> this == BadRequest
      ensures c == 404 <==> this == NotFound
      ensures c == 501 <==> this == NotImplemented
      ensures this == OK <==> 200 <= c < 300
      ensures this == BadRequest || this == NotFound <==> 400 <= c < 500
      ensures this == NotImplemented <==> 500 <= c < 600
    {
      match this
      case OK => 200
      case BadRequest => 400
      case NotFound => 404
      case NotImplemented => 501
    }
  }

  /** Distinct statuses are written as distinct codes. */
  lemma CodeInjective(a: Status, b: Status)
    ensures a.Code() == b.Code() ==> a == b
  {
  }

  /** What a handler writes back: a status and, for a delivered payload, the payload as body. */
  datatype Response = Response(status: Status, body: string)

  /**
   * The end of a handler run: a response, or the point where a consumer
   * starts waiting on an empty queue for `timeout` seconds.
   */
  datatype Outcome = Reply(response: Response) | WouldBlock(timeout: int) {
    /** A payload was handed to the caller. */
    predicate Delivers() {
      Reply? && response.status == OK
    }
  }

  /** A result together with the registry contents after the step. */
  datatype Step<T> = Step(result: T, queues: Contents)

  /** The parts of an HTTP request the handlers read: the method, the path without its leading `/`, and the `v` and `timeout` query values (`""` when absent). */
  datatype Request = Request(verb: string, name: string, v: string, timeout: string)

  const Empty: string := ""

  /**
   * The `timeout` query value, trimmed of white space: blank means 0,
   * otherwise it must be what `strconv.Atoi` accepts. A negative number is
   * accepted.
   */
  function ParseTimeout(raw: string): (r: Option<int>)
    ensures AllSpace(raw) ==> r == Some(0)
    ensures !AllSpace(raw) ==> r == Atoi(TrimSpace(raw))
    ensures r.Some? ==> IntMin <= r.value <= IntMax
  {
    var t := TrimSpace(raw);
    if t == [] then Some(0) else Atoi(t)
  }

  /** White space around a 64-bit integer is ignored; negative numbers pass too. */
  lemma ParseTimeoutPadded(pre: string, n: int, post: string)
    requires AllSpace(pre) && AllSpace(post)
    requires IntMin <= n <= IntMax
    ensures ParseTimeout(pre + FormatInt(n) + post) == Some(n)
  {
    var s := FormatInt(n);
    assert !IsSpace(s[0]) && !IsSpace(s[|s| - 1]) by {
      if n < 0 { assert s[1..] == Digits(-n); }
    }
    TrimSpacePadded(pre, s, post);
    AtoiFormatInt(n);
  }

  /**
   * The converse of ParseTimeoutPadded: a value that is not blank parses only
   * when it is white space around a stretch that Atoi accepts, and it is worth
   * what Atoi reads there. Anything else (a bare sign, inner space, a sign
   * after a digit) is malformed.
   */
  lemma ParseTimeoutShape(raw: string, n: int)
    requires !AllSpace(raw) && ParseTimeout(raw) == Some(n)
    ensures exists i, j :: 0 <= i < j <= |raw| && AllSpace(raw[..i]) && AllSpace(raw[j..]) && Atoi(raw[i..j]) == Some(n)
  {
    var t := TrimSpace(raw);
    var i := SpanStart(raw, 0);
    var j := i + |t|;
    assert t != [];
    assert AllSpace(raw[..i]);
    assert AllSpace(raw[j..]);
    assert raw[i..j] == t;
  }

  /** A bare sign is malformed. */
  lemma ParseTimeoutRejectsBareSign(sign: char)
    requires sign == '+' || sign == '-'
    ensures ParseTimeout([sign]) == None
  {
    TrimSpacePadded([], [sign], []);
    assert [] + [sign] + [] == [sign];
  }

  /** A character that is neither space, digit nor sign anywhere in the value makes it malformed. */
  lemma ParseTimeoutRejectsForeign(raw: string, k: nat)
    requires k < |raw|
    requires !IsSpace(raw[k]) && !IsDigit(raw[k]) && raw[k] != '+' && raw[k] != '-'
    ensures ParseTimeout(raw) == None
  {
    var t := TrimSpace(raw);
    var i := SpanStart(raw, 0);
    assert i <= k;
    assert k < i + |t|;
    assert t[k - i] == raw[k];
    AtoiRejectsForeign(t, k - i);
  }

  /** A signed zero timeout is a zero timeout: on an empty queue it answers NotFound at once instead of waiting. */
  lemma ConsumeSignedZero(qs: Contents, name: string)
    requires name != Empty && name in qs && qs[name] == []
    ensures Consume(qs, name, "+0") == Step(Reply(Response(NotFound, Empty)), qs)
    ensures Consume(qs, name, "-0") == Step(Reply(Response(NotFound, Empty)), qs)
  {
    AtoiSignedZero();
    assert TrimSpace("+0") == "+0" by { TrimSpacePadded("", "+0", ""); assert "" + "+0" + "" == "+0"; }
    assert TrimSpace("-0") == "-0" by { TrimSpacePadded("", "-0", ""); assert "" + "-0" + "" == "-0"; }
  }

  /**
   * `putInQueue`: with a non-empty name and a non-empty value, the queue is
   * created if absent, `v` is appended at its tail and the answer is OK;
   * otherwise the answer is BadRequest and nothing changes. No other queue
   * is touched and the body is always empty.
   */
  function Produce(qs: Contents, name: string, v: string): (r: Step<Response>)
    ensures r.result.body == Empty
    ensures r.result.status == OK <==> name != Empty && v != Empty
    ensures r.result.status != OK ==> r.result.status == BadRequest && r.queues == qs
    ensures r.result.status == OK ==> r.queues.Keys == qs.Keys + {name} && r.queues[name] == QueueOf(qs, name) + [v]
    ensures forall k :: k != name ==> QueueOf(r.queues, k) == QueueOf(qs, k)
  {
    if name == Empty || v == Empty then
      Step(Response(BadRequest, Empty), qs)
    else
      Step(Response(OK, Empty), qs[name := QueueOf(qs, name) + [v]])
  }

  /**
   * `getFromQueue` up to its suspension point. BadRequest for an empty name
   * or a malformed timeout, before the registry is consulted; NotFound for an
   * unknown name; the oldest payload, removed from its queue, when there is
   * one; NotFound for an empty queue and a zero timeout; otherwise the
   * consumer would wait. No queue is created, and only a delivery changes
   * anything.
   */
  function Consume(qs: Contents, name: string, timeoutRaw: string): (r: Step<Outcome>)
    ensures r.queues.Keys == qs.Keys
    ensures forall k :: k != name ==> QueueOf(r.queues, k) == QueueOf(qs, k)
    ensures !r.result.Delivers() ==> r.queues == qs
    ensures r.result == Reply(Response(BadRequest, Empty)) <==> name == Empty || ParseTimeout(timeoutRaw) == None
    ensures r.result.Delivers() <==> name != Empty && ParseTimeout(timeoutRaw).Some? && QueueOf(qs, name) != []
    ensures r.result.Delivers() ==> QueueOf(qs, name) == [r.result.response.body] + QueueOf(r.queues, name)
    ensures r.result == Reply(Response(NotFound, Empty)) <==>
              && name != Empty
              && ParseTimeout(timeoutRaw).Some?
              && (name !in qs || (qs[name] == [] && ParseTimeout(timeoutRaw).value == 0))
    ensures r.result.WouldBlock? <==>
              && name != Empty
              && ParseTimeout(timeoutRaw).Some?
              && name in qs && qs[name] == []
              && ParseTimeout(timeoutRaw).value != 0
    ensures r.result.WouldBlock? ==> Some(r.result.timeout) == ParseTimeout(timeoutRaw)
  {
    if name == Empty then
      Step(Reply(Response(BadRequest, Empty)), qs)
    else
      match ParseTimeout(timeoutRaw)
      case None => Step(Reply(Response(BadRequest, Empty)), qs)
      case Some(timeout) =>
        if name !in qs then
          Step(Reply(Response(NotFound, Empty)), qs)
        else if qs[name] != [] then
          Step(Reply(Response(OK, qs[name][0])), qs[name := qs[name][1..]])
        else if timeout == 0 then
          Step(Reply(Response(NotFound, Empty)), qs)
        else
          Step(WouldBlock(timeout), qs)
  }

  /**
   * `handleRequest`: GET consumes, PUT produces, any other method is
   * NotImplemented and changes nothing. Only a GET waits; no request removes
   * a queue, and a request creates at most the queue it names.
   */
  function Handle(qs: Contents, req: Request): (r: Step<Outcome>)
    ensures req.verb != "GET" && req.verb != "PUT" ==> r == Step(Reply(Response(NotImplemented, Empty)), qs)
    ensures r.result.WouldBlock? ==> req.verb == "GET" && r.queues == qs
    ensures r.queues.Keys <= qs.Keys + {req.name}
    ensures qs.Keys <= r.queues.Keys
  {
    if req.verb == "GET" then
      Consume(qs, req.name, req.timeout)
    else if req.verb == "PUT" then
      var p := Produce(qs, req.name, req.v);
      Step(Reply(p.result), p.queues)
    else
      Step(Reply(Response(NotImplemented, Empty)), qs)
  }

  /** The producer handler, run as one atomic step against the shared registry. */
  method PutInQueue(queues: QueuesSync, name: string, v: string) returns (resp: Response)
    modifies queues
    ensures Step(resp, queues.m) == Produce(old(queues.m), name, v)
  {
    if name == Empty || v == Empty {
      return Response(BadRequest, Empty);
    }
    var _, ok := queues.Get(name);
    if !ok {
      queues.Put(name, []);
    }
    queues.PushBack(name, v);
    resp := Response(OK, Empty);
  }

  /** The consumer handler up to its suspension point, as one atomic step. */
  method GetFromQueue(queues: QueuesSync, name: string, timeoutRaw: string) returns (out: Outcome)
    modifies queues
    ensures Step(out, queues.m) == Consume(old(queues.m), name, timeoutRaw)
  {
    if name == Empty {
      return Reply(Response(BadRequest, Empty));
    }
    var timeout := 0;
    var trimmed := TrimSpace(timeoutRaw);
    if trimmed != Empty {
      var parsed := Atoi(trimmed);
      if parsed.None? {
        return Reply(Response(BadRequest, Empty));
      }
      timeout := parsed.value;
    }
    var q, ok := queues.Get(name);
    if !ok {
      return Reply(Response(NotFound, Empty));
    }
    if |q| != 0 {
      var value := queues.PopFront(name);
      return Reply(Response(OK, value));
    }
    if timeout == 0 {
      return Reply(Response(NotFound, Empty));
    }
    out := WouldBlock(timeout);
  }

  /** The dispatcher: one request, one atomic step. */
  method HandleRequest(queues: QueuesSync, req: Request) returns (out: Outcome)
    modifies queues
    ensures Step(out, queues.m) == Handle(old(queues.m), req)
  {
    if req.verb == "GET" {
      out := GetFromQueue(queues, req.name, req.timeout);
    } else if req.verb == "PUT" {
      var resp := PutInQueue(queues, req.name, req.v);
      out := Reply(resp);
    } else {
      out := Reply(Response(NotImplemented, Empty));
    }
  }
}
