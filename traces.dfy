/**
 * Sequences of requests handled one after another, each as one atomic
 * step of `handleRequest`. A consumer that would block contributes its
 * `WouldBlock` outcome and changes nothing; what happens to it after it
 * suspends is not part of this model.
 */
module Traces {
  import opened Wrappers
  import opened QueueRegistry
  import opened Broker

  /** Handles `reqs` in order, threading the registry contents through. */
  function Run(qs: Contents, reqs: seq<Request>): (r: Step<seq<Outcome>>)
    ensures |r.result| == |reqs|
    ensures qs.Keys <= r.queues.Keys
    decreases |reqs|
  {
    if reqs == [] then
      Step([], qs)
    else
      var first := Handle(qs, reqs[0]);
      var rest := Run(first.queues, reqs[1..]);
      Step([first.result] + rest.result, rest.queues)
  }

  /** The values, in request order, that PUTs on `name` had accepted (answered OK). */
  function Accepted(name: string, reqs: seq<Request>, outs: seq<Outcome>): seq<string>
    requires |outs| == |reqs|
  {
    if reqs == [] then
      []
    else
      var req := reqs[0];
      (if req.verb == "PUT" && req.name == name && outs[0] == Reply(Response(OK, Empty)) then [req.v] else [])
      + Accepted(name, reqs[1..], outs[1..])
  }

  /** The payloads, in request order, that GETs on `name` were handed. */
  function Delivered(name: string, reqs: seq<Request>, outs: seq<Outcome>): seq<string>
    requires |outs| == |reqs|
  {
    if reqs == [] then
      []
    else
      var req := reqs[0];
      (if req.verb == "GET" && req.name == name && outs[0].Delivers() then [outs[0].response.body] else [])
      + Delivered(name, reqs[1..], outs[1..])
  }

  /** One request moves payloads of `name` only from the tail of accepted values into the queue, or from its head to a consumer. */
  lemma StepConservation(qs: Contents, req: Request, name: string)
    ensures var s := Handle(qs, req);
      Delivered(name, [req], [s.result]) + QueueOf(s.queues, name) == QueueOf(qs, name) + Accepted(name, [req], [s.result])
  {
    var s := Handle(qs, req);
    if req.verb == "GET" {
      var c := Consume(qs, req.name, req.timeout);
      assert s == c;
      assert Accepted(name, [req], [s.result]) == [];
      if c.result.Delivers() && req.name == name {
        assert Delivered(name, [req], [s.result]) == [c.result.response.body];
      } else {
        assert Delivered(name, [req], [s.result]) == [];
      }
    } else if req.verb == "PUT" {
      var p := Produce(qs, req.name, req.v);
      assert s == Step(Reply(p.result), p.queues);
      assert Delivered(name, [req], [s.result]) == [];
      if p.result.status == OK && req.name == name {
        assert Accepted(name, [req], [s.result]) == [req.v];
      } else {
        assert Accepted(name, [req], [s.result]) == [];
      }
    } else {
      assert Delivered(name, [req], [s.result]) == [] && Accepted(name, [req], [s.result]) == [];
    }
  }

  /**
   * FIFO and exactly-once delivery for every queue name: the payloads handed
   * out, followed by what is still queued, are exactly the payloads that
   * were queued at the start followed by every accepted PUT value, in order.
   * Nothing is lost, duplicated or reordered.
   */
  lemma {:induction false} Conservation(qs: Contents, reqs: seq<Request>, name: string)
    ensures var r := Run(qs, reqs);
      Delivered(name, reqs, r.result) + QueueOf(r.queues, name) == QueueOf(qs, name) + Accepted(name, reqs, r.result)
    decreases |reqs|
  {
    if reqs != [] {
      var first := Handle(qs, reqs[0]);
      var rest := Run(first.queues, reqs[1..]);
      var outs := Run(qs, reqs).result;
      RunFirst(qs, reqs);
      SplitFirst(name, reqs, outs);
      StepConservation(qs, reqs[0], name);
      Conservation(first.queues, reqs[1..], name);
      Glue(Delivered(name, [reqs[0]], [first.result]), Delivered(name, reqs[1..], rest.result),
           Accepted(name, [reqs[0]], [first.result]), Accepted(name, reqs[1..], rest.result),
           QueueOf(qs, name), QueueOf(first.queues, name), QueueOf(rest.queues, name));
    }
  }

  /** Unfolds Run once on a request list written as its first request and the rest. */
  lemma RunCons(qs: Contents, req: Request, reqs: seq<Request>)
    ensures var first := Handle(qs, req); var rest := Run(first.queues, reqs);
      Run(qs, [req] + reqs) == Step([first.result] + rest.result, rest.queues)
  {
    assert ([req] + reqs)[0] == req;
    assert ([req] + reqs)[1..] == reqs;
  }

  /** Unfolds Run once. */
  lemma RunFirst(qs: Contents, reqs: seq<Request>)
    requires reqs != []
    ensures var first := Handle(qs, reqs[0]); var rest := Run(first.queues, reqs[1..]);
      && Run(qs, reqs).result[0] == first.result
      && Run(qs, reqs).result[1..] == rest.result
      && Run(qs, reqs).queues == rest.queues
  {
  }

  /** Chains two conservation steps. */
  lemma Glue<T>(d1: seq<T>, dr: seq<T>, a1: seq<T>, ar: seq<T>, q0: seq<T>, q1: seq<T>, qf: seq<T>)
    requires d1 + q1 == q0 + a1 && dr + qf == q1 + ar
    ensures (d1 + dr) + qf == q0 + (a1 + ar)
  {
    calc {
      (d1 + dr) + qf;
      d1 + (dr + qf);
      d1 + (q1 + ar);
      (d1 + q1) + ar;
      (q0 + a1) + ar;
    }
  }

  /** Delivered and Accepted of a non-empty trace are those of its first request followed by those of the rest. */
  lemma SplitFirst(name: string, reqs: seq<Request>, outs: seq<Outcome>)
    requires |outs| == |reqs| > 0
    ensures Delivered(name, reqs, outs) == Delivered(name, [reqs[0]], [outs[0]]) + Delivered(name, reqs[1..], outs[1..])
    ensures Accepted(name, reqs, outs) == Accepted(name, [reqs[0]], [outs[0]]) + Accepted(name, reqs[1..], outs[1..])
  {
  }

  /** Every delivery sequence is a prefix of what was queued and accepted, so no payload is handed out twice. */
  lemma DeliveredIsPrefix(qs: Contents, reqs: seq<Request>, name: string)
    ensures var r := Run(qs, reqs);
      var supply := QueueOf(qs, name) + Accepted(name, reqs, r.result);
      Delivered(name, reqs, r.result) <= supply
      && multiset(Delivered(name, reqs, r.result)) <= multiset(supply)
  {
    var r := Run(qs, reqs);
    var d := Delivered(name, reqs, r.result);
    Conservation(qs, reqs, name);
    assert (d + QueueOf(r.queues, name))[..|d|] == d;
    assert multiset(d + QueueOf(r.queues, name)) == multiset(d) + multiset(QueueOf(r.queues, name));
  }

  function PutRequest(name: string, v: string): Request {
    Request("PUT", name, v, Empty)
  }

  /** A non-blocking GET: no `timeout` parameter. */
  function GetRequest(name: string): Request {
    Request("GET", name, Empty, Empty)
  }

  function Puts(name: string, vs: seq<string>): (reqs: seq<Request>)
    ensures |reqs| == |vs|
  {
    if vs == [] then [] else [PutRequest(name, vs[0])] + Puts(name, vs[1..])
  }

  function Gets(name: string, n: nat): (reqs: seq<Request>)
    ensures |reqs| == n
  {
    if n == 0 then [] else [GetRequest(name)] + Gets(name, n - 1)
  }

  /** The answers to `n` accepted PUTs. */
  function Acks(n: nat): seq<Outcome> {
    if n == 0 then [] else [Reply(Response(OK, Empty))] + Acks(n - 1)
  }

  /** The answers of GETs that are handed `vs`, one payload each. */
  function Deliveries(vs: seq<string>): seq<Outcome> {
    if vs == [] then [] else [Reply(Response(OK, vs[0]))] + Deliveries(vs[1..])
  }

  const Miss: Outcome := Reply(Response(NotFound, Empty))

  /** Handling `a + b` is handling `a`, then handling `b` from where `a` left the registry. */
  lemma {:induction false} RunAppend(qs: Contents, a: seq<Request>, b: seq<Request>)
    ensures var ra := Run(qs, a); var rb := Run(ra.queues, b);
      Run(qs, a + b) == Step(ra.result + rb.result, rb.queues)
    decreases |a|
  {
    if a == [] {
      assert a + b == b;
      EmptyConcat(Run(qs, b).result);
    } else {
      var first := Handle(qs, a[0]);
      RunCons(qs, a[0], a[1..] + b);
      RunCons(qs, a[0], a[1..]);
      assert a == [a[0]] + a[1..];
      ConcatAssoc([a[0]], a[1..], b);
      RunAppend(first.queues, a[1..], b);
      var ra := Run(first.queues, a[1..]);
      var rb := Run(ra.queues, b);
      ConcatAssoc([first.result], ra.result, rb.result);
    }
  }

  lemma EmptyConcat<T>(x: seq<T>)
    ensures [] + x == x
  {
  }

  lemma ConcatAssoc<T>(x: seq<T>, y: seq<T>, z: seq<T>)
    ensures x + (y + z) == (x + y) + z
  {
  }

  /** A valid PUT is acknowledged and appends its value. */
  lemma PutStep(qs: Contents, name: string, v: string)
    requires name != Empty && v != Empty
    ensures Handle(qs, PutRequest(name, v)) == Step(Reply(Response(OK, Empty)), qs[name := QueueOf(qs, name) + [v]])
  {
  }

  /** A non-blocking GET on a non-empty queue takes its head. */
  lemma GetHeadStep(qs: Contents, name: string)
    requires name != Empty && name in qs && qs[name] != []
    ensures Handle(qs, GetRequest(name)) == Step(Reply(Response(OK, qs[name][0])), qs[name := qs[name][1..]])
  {
    assert ParseTimeout(Empty) == Some(0);
  }

  /** A non-blocking GET on an unknown name, or on an empty queue, finds nothing. */
  lemma GetMissStep(qs: Contents, name: string)
    requires name != Empty && (name !in qs || qs[name] == [])
    ensures Handle(qs, GetRequest(name)) == Step(Miss, qs)
  {
    assert ParseTimeout(Empty) == Some(0);
  }

  /** A valid PUT in front of a trace: acknowledged, its value appended, then the rest runs. */
  lemma PutCons(qs: Contents, name: string, v: string, reqs: seq<Request>)
    requires name != Empty && v != Empty
    ensures var rest := Run(qs[name := QueueOf(qs, name) + [v]], reqs);
      Run(qs, [PutRequest(name, v)] + reqs) == Step([Reply(Response(OK, Empty))] + rest.result, rest.queues)
  {
    PutStep(qs, name, v);
    RunCons(qs, PutRequest(name, v), reqs);
  }

  /** A non-blocking GET on a non-empty queue in front of a trace: the head is handed out, then the rest runs. */
  lemma GetHeadCons(qs: Contents, name: string, reqs: seq<Request>)
    requires name != Empty && name in qs && qs[name] != []
    ensures var rest := Run(qs[name := qs[name][1..]], reqs);
      Run(qs, [GetRequest(name)] + reqs) == Step([Reply(Response(OK, qs[name][0]))] + rest.result, rest.queues)
  {
    GetHeadStep(qs, name);
    RunCons(qs, GetRequest(name), reqs);
  }

  /** A non-blocking GET that finds nothing, in front of a trace. */
  lemma GetMissCons(qs: Contents, name: string, reqs: seq<Request>)
    requires name != Empty && (name !in qs || qs[name] == [])
    ensures var rest := Run(qs, reqs);
      Run(qs, [GetRequest(name)] + reqs) == Step([Miss] + rest.result, rest.queues)
  {
    GetMissStep(qs, name);
    RunCons(qs, GetRequest(name), reqs);
  }

  /** Appending `v` and then `more` to a queue is appending `[v] + more`. */
  lemma AppendInTwo(qs: Contents, name: string, v: string, more: seq<string>)
    ensures var qs1 := qs[name := QueueOf(qs, name) + [v]];
      (if more == [] then qs1 else qs1[name := QueueOf(qs1, name) + more]) == qs[name := QueueOf(qs, name) + ([v] + more)]
  {
    if more == [] {
      assert [v] + more == [v];
    } else {
      assert QueueOf(qs, name) + [v] + more == QueueOf(qs, name) + ([v] + more);
    }
  }

  /** Valid PUTs on one name are all answered OK and append their values to its queue, in order, creating it if need be. */
  lemma {:induction false} RunPuts(qs: Contents, name: string, vs: seq<string>)
    requires name != Empty
    requires forall i :: 0 <= i < |vs| ==> vs[i] != Empty
    ensures Run(qs, Puts(name, vs)).result == Acks(|vs|)
    ensures Run(qs, Puts(name, vs)).queues == if vs == [] then qs else qs[name := QueueOf(qs, name) + vs]
    decreases |vs|
  {
    if vs != [] {
      var v, more := vs[0], vs[1..];
      assert Puts(name, vs) == [PutRequest(name, v)] + Puts(name, more);
      assert vs == [v] + more;
      PutCons(qs, name, v, Puts(name, more));
      RunPuts(qs[name := QueueOf(qs, name) + [v]], name, more);
      assert Acks(|vs|) == [Reply(Response(OK, Empty))] + Acks(|more|);
      AppendInTwo(qs, name, v, more);
    }
  }

  /** Non-blocking GETs on an existing queue hand out its payloads oldest first, then answer NotFound. */
  lemma {:induction false} RunGets(qs: Contents, name: string)
    requires name != Empty && name in qs
    ensures Run(qs, Gets(name, |qs[name]| + 1)).result == Deliveries(qs[name]) + [Miss]
    ensures Run(qs, Gets(name, |qs[name]| + 1)).queues == qs[name := []]
    decreases |qs[name]|
  {
    var q := qs[name];
    assert Gets(name, |q| + 1) == [GetRequest(name)] + Gets(name, |q|);
    if q == [] {
      GetMissCons(qs, name, []);
      assert Run(qs, []) == Step([], qs);
      assert qs[name := []] == qs;
    } else {
      var qs1 := qs[name := q[1..]];
      GetHeadCons(qs, name, Gets(name, |q|));
      assert |qs1[name]| + 1 == |q|;
      RunGets(qs1, name);
      assert Deliveries(q) == [Reply(Response(OK, q[0]))] + Deliveries(q[1..]);
      ConcatAssoc([Reply(Response(OK, q[0]))], Deliveries(q[1..]), [Miss]);
      UpdateTwice(qs, name, q[1..], []);
    }
  }

  lemma UpdateTwice<K, V>(m: map<K, V>, k: K, x: V, y: V)
    ensures m[k := x][k := y] == m[k := y]
  {
  }

  /**
   * FIFO order on a fresh name: valid PUTs of `vs` followed by `|vs| + 1`
   * non-blocking GETs answer OK to every PUT, hand out `vs` in order, then
   * answer NotFound.
   */
  lemma FifoOrder(qs: Contents, name: string, vs: seq<string>)
    requires name != Empty && name !in qs
    requires forall i :: 0 <= i < |vs| ==> vs[i] != Empty
    ensures Run(qs, Puts(name, vs) + Gets(name, |vs| + 1)).result == Acks(|vs|) + Deliveries(vs) + [Miss]
  {
    var puts, gets := Puts(name, vs), Gets(name, |vs| + 1);
    RunAppend(qs, puts, gets);
    RunPuts(qs, name, vs);
    var ra := Run(qs, puts);
    DrainFresh(qs, ra.queues, name, vs);
    ConcatAssoc(Acks(|vs|), Deliveries(vs), [Miss]);
  }

  /** The GETs after the PUTs of FifoOrder. */
  lemma DrainFresh(qs: Contents, filled: Contents, name: string, vs: seq<string>)
    requires name != Empty && name !in qs
    requires filled == if vs == [] then qs else qs[name := QueueOf(qs, name) + vs]
    ensures Run(filled, Gets(name, |vs| + 1)).result == Deliveries(vs) + [Miss]
  {
    if vs == [] {
      UnknownNameMisses(qs, name);
    } else {
      assert QueueOf(qs, name) + vs == vs;
      RunGets(filled, name);
    }
  }

  /** A non-blocking GET on a name that was never created finds nothing. */
  lemma UnknownNameMisses(qs: Contents, name: string)
    requires name != Empty && name !in qs
    ensures Run(qs, Gets(name, 1)) == Step([Miss], qs)
  {
    assert Gets(name, 1) == [GetRequest(name)] + [];
    GetMissCons(qs, name, []);
    assert Run(qs, []) == Step([], qs);
    assert [Miss] + [] == [Miss];
  }

  /** The request list of FifoThree, as built by Puts and Gets. */
  lemma ThreePutsFourGets(name: string, a: string, b: string, c: string)
    ensures Puts(name, [a, b, c]) + Gets(name, 4) ==
      [PutRequest(name, a), PutRequest(name, b), PutRequest(name, c),
       GetRequest(name), GetRequest(name), GetRequest(name), GetRequest(name)]
  {
    var vs := [a, b, c];
    assert vs[1..] == [b, c] && vs[1..][1..] == [c] && vs[1..][1..][1..] == [];
    assert Puts(name, [c]) == [PutRequest(name, c)] + [];
    assert Puts(name, [b, c]) == [PutRequest(name, b)] + Puts(name, [c]);
    var g := GetRequest(name);
    assert Gets(name, 2) == [g] + ([g] + []);
    assert Gets(name, 4) == [g] + ([g] + Gets(name, 2));
  }

  /** The answers of FifoThree, as built by Acks and Deliveries. */
  lemma ThreeAcksThreeDeliveries(a: string, b: string, c: string)
    ensures Acks(3) + Deliveries([a, b, c]) + [Miss] ==
      [Reply(Response(OK, Empty)), Reply(Response(OK, Empty)), Reply(Response(OK, Empty)),
       Reply(Response(OK, a)), Reply(Response(OK, b)), Reply(Response(OK, c)), Miss]
  {
    var vs := [a, b, c];
    assert vs[1..] == [b, c] && vs[1..][1..] == [c] && vs[1..][1..][1..] == [];
    var ok := Reply(Response(OK, Empty));
    assert Acks(3) == [ok] + ([ok] + ([ok] + []));
    assert Deliveries([c]) == [Reply(Response(OK, c))] + [];
    assert Deliveries([b, c]) == [Reply(Response(OK, b))] + Deliveries([c]);
  }

  /** The three-payload instance: A, B, C come back as A, B, C, and a fourth GET finds nothing. */
  lemma FifoThree(qs: Contents, name: string, a: string, b: string, c: string)
    requires name != Empty && name !in qs
    requires a != Empty && b != Empty && c != Empty
    ensures var reqs := [PutRequest(name, a), PutRequest(name, b), PutRequest(name, c),
                         GetRequest(name), GetRequest(name), GetRequest(name), GetRequest(name)];
      Run(qs, reqs).result == [Reply(Response(OK, Empty)), Reply(Response(OK, Empty)), Reply(Response(OK, Empty)),
                               Reply(Response(OK, a)), Reply(Response(OK, b)), Reply(Response(OK, c)), Miss]
  {
    FifoOrder(qs, name, [a, b, c]);
    ThreePutsFourGets(name, a, b, c);
    ThreeAcksThreeDeliveries(a, b, c);
  }
}
