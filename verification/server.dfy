/**
 * The per-connection protocol of the server (`Connect`, `handle_request`,
 * `get_commands`). The message broker is a set of named FIFO queues: the
 * shared task queue that reports are published to, and one command queue per
 * host uid. The uuids the server would draw are given as parameters.
 */
module Server {
  import opened Wrappers
  import opened Json
  import opened Messages
  import opened CommandCodec
  import opened ReportCodec
  import ServerConfig

  type Queues = map<string, seq<Json>>

  /** The messages waiting in a queue; a queue not declared yet holds none. */
  function QueueOf(qs: Queues, name: string): seq<Json> {
    if name in qs then qs[name] else []
  }

  /** Publishing through the default exchange appends the body to the queue named by the routing key. */
  function Publish(qs: Queues, name: string, body: Json): (qs': Queues)
    ensures QueueOf(qs', name) == QueueOf(qs, name) + [body]
    ensures forall other :: other != name ==> QueueOf(qs', other) == QueueOf(qs, other)
  {
    qs[name := QueueOf(qs, name) + [body]]
  }

  /**
   * What draining a queue does: the commands decoded from its messages, in
   * queue order, and how many messages were taken. Draining stops at the first
   * message that does not decode; that message is taken too, since the
   * exception rejects it, and the error ends the stream.
   */
  datatype Drained = Drained(commands: seq<Command>, consumed: nat, error: Option<DecodeError>)

  function Drain(msgs: seq<Json>): (d: Drained)
    ensures |d.commands| <= d.consumed <= |msgs|
    decreases |msgs|
  {
    if msgs == [] then Drained([], 0, None)
    else match Decode(msgs[0])
      case Failure(e) => Drained([], 1, Some(e))
      case Success(c) =>
        var rest := Drain(msgs[1..]);
        Drained([c] + rest.commands, rest.consumed + 1, rest.error)
  }

  /**
   * Commands come out in queue order, one per message; without an error every
   * message is taken, and an error comes from the message right after the
   * delivered ones.
   */
  lemma {:induction false} DrainInOrder(msgs: seq<Json>)
    ensures forall i :: 0 <= i < |Drain(msgs).commands| ==> Decode(msgs[i]) == Success(Drain(msgs).commands[i])
    ensures Drain(msgs).error.None? ==> Drain(msgs).consumed == |Drain(msgs).commands| == |msgs|
    ensures Drain(msgs).error.Some? ==>
      Drain(msgs).consumed == |Drain(msgs).commands| + 1 &&
      Decode(msgs[|Drain(msgs).commands|]) == Failure(Drain(msgs).error.value)
    decreases |msgs|
  {
    if msgs != [] && Decode(msgs[0]).Success? {
      DrainInOrder(msgs[1..]);
      var d := Drain(msgs);
      forall i | 0 <= i < |d.commands| ensures Decode(msgs[i]) == Success(d.commands[i]) {
        if i > 0 { assert msgs[i] == msgs[1..][i - 1]; }
      }
      if d.error.Some? {
        assert msgs[|d.commands|] == msgs[1..][|d.commands| - 1];
      }
    }
  }

  /** Draining a non-empty queue: the first message either ends the drain with its error or leads the rest. */
  lemma DrainFirst(msgs: seq<Json>)
    requires msgs != []
    ensures Decode(msgs[0]).Failure? ==> Drain(msgs) == Drained([], 1, Some(Decode(msgs[0]).error))
    ensures Decode(msgs[0]).Success? ==>
      Drain(msgs) == Drained([Decode(msgs[0]).value] + Drain(msgs[1..]).commands,
                             Drain(msgs[1..]).consumed + 1, Drain(msgs[1..]).error)
  {
  }

  /** The observable state of a connection: the broker's queues, the commands yielded, and the error that ended it. */
  datatype Stream = Stream(queues: Queues, out: seq<Command>, error: Option<DecodeError>)

  /** How one inbound report is handled (one iteration of the `async for` in `Connect`). */
  function Step(taskQueue: string, s: Stream, request: HostAgentInfo, uuid: UuidHex): (s': Stream)
    ensures |s.out| <= |s'.out| && s'.out[..|s.out|] == s.out
    ensures forall q :: q != taskQueue && q != request.uid ==> QueueOf(s'.queues, q) == QueueOf(s.queues, q)
  {
    if request.uid == "" then
      s.(out := s.out + [AssignUid(uuid).value])
    else
      var published := Publish(s.queues, taskQueue, SerializeRequest(request));
      var waiting := QueueOf(published, request.uid);
      var d := Drain(waiting);
      Stream(published[request.uid := waiting[d.consumed..]], s.out + d.commands, d.error)
  }

  /** The inbound reports handled in order, until one of them ends the stream with an error. */
  function Run(taskQueue: string, s: Stream, requests: seq<HostAgentInfo>, uuids: seq<UuidHex>): (r: Stream)
    requires |uuids| == |requests|
    ensures |s.out| <= |r.out| && r.out[..|s.out|] == s.out
    ensures s.error.Some? ==> r == s
    decreases |requests|
  {
    if requests == [] || s.error.Some? then s
    else
      var s1 := Step(taskQueue, s, requests[0], uuids[0]);
      var r := Run(taskQueue, s1, requests[1..], uuids[1..]);
      assert r.out[..|s.out|] == s1.out[..|s.out|];
      r
  }

  /**
   * A report without a uid is answered with exactly one AssignHost carrying
   * the freshly generated 32-digit uid, and nothing is published or consumed.
   */
  lemma UnidentifiedGetsOneAssignment(taskQueue: string, s: Stream, request: HostAgentInfo, uuid: UuidHex)
    requires request.uid == ""
    ensures Step(taskQueue, s, request, uuid).queues == s.queues
    ensures Step(taskQueue, s, request, uuid).out == s.out + [AssignHost(uuid)]
    ensures Step(taskQueue, s, request, uuid).error == s.error
    ensures |uuid| == 32
  {
  }

  /**
   * A report with a uid is published to the task queue exactly once, and then
   * the commands waiting in the queue named after that uid are yielded, one
   * per message and in queue order; no other queue is touched.
   */
  lemma IdentifiedPublishesThenDrains(taskQueue: string, s: Stream, request: HostAgentInfo, uuid: UuidHex)
    requires request.uid != "" && request.uid != taskQueue
    ensures var s' := Step(taskQueue, s, request, uuid);
      && QueueOf(s'.queues, taskQueue) == QueueOf(s.queues, taskQueue) + [SerializeRequest(request)]
      && s'.out[..|s.out|] == s.out
      && (forall i :: 0 <= i < |s'.out| - |s.out| ==>
            Decode(QueueOf(s.queues, request.uid)[i]) == Success(s'.out[|s.out| + i]))
      && (s'.error.None? ==> |s'.out| - |s.out| == |QueueOf(s.queues, request.uid)| &&
                             QueueOf(s'.queues, request.uid) == [])
      && (forall other :: other != taskQueue && other != request.uid ==>
            QueueOf(s'.queues, other) == QueueOf(s.queues, other))
  {
    var published := Publish(s.queues, taskQueue, SerializeRequest(request));
    var waiting := QueueOf(published, request.uid);
    assert waiting == QueueOf(s.queues, request.uid);
    DrainInOrder(waiting);
    var s' := Step(taskQueue, s, request, uuid);
    assert s'.out == s.out + Drain(waiting).commands;
  }

  /** The report is in the task queue before anything is drained: a uid naming the task queue itself reads its own report back. */
  lemma PublishBeforeDrain(taskQueue: string, s: Stream, request: HostAgentInfo, uuid: UuidHex)
    requires request.uid == taskQueue != ""
    requires QueueOf(s.queues, taskQueue) == []
    ensures Step(taskQueue, s, request, uuid).out == s.out
    ensures Step(taskQueue, s, request, uuid).error == Some(NoMatchingCase)
  {
    var body := SerializeRequest(request);
    var published := Publish(s.queues, taskQueue, body);
    assert QueueOf(published, taskQueue) == [body];
    var m := body.members;
    assert m == [m[0], m[1], m[2], m[3]];
    assert OrderedDict.Keys(m) == REPORT_KEYS;
    DecodeUnknownKeys(m);
  }

  /** Sequence concatenation regrouped; kept apart so the solver meets it without the unfolded `Run` around it. */
  lemma ConcatAssoc<T>(a: seq<T>, b: seq<T>, c: seq<T>)
    ensures (a + b) + c == a + (b + c)
  {
  }

  lemma RunFirst(taskQueue: string, s: Stream, requests: seq<HostAgentInfo>, uuids: seq<UuidHex>)
    requires |uuids| == |requests| && requests != [] && s.error.None?
    ensures Run(taskQueue, s, requests, uuids) ==
            Run(taskQueue, Step(taskQueue, s, requests[0], uuids[0]), requests[1..], uuids[1..])
  {
  }

  /** One AssignHost per uuid, in order. */
  function Assignments(uuids: seq<UuidHex>): (cs: seq<Command>)
    ensures |cs| == |uuids|
    ensures forall i :: 0 <= i < |uuids| ==> cs[i] == AssignHost(uuids[i])
    decreases |uuids|
  {
    if uuids == [] then [] else [AssignHost(uuids[0])] + Assignments(uuids[1..])
  }

  /** A connection whose reports all lack a uid yields one AssignHost per report, in order, and never touches the broker. */
  lemma {:induction false} UnidentifiedRun(taskQueue: string, s: Stream, requests: seq<HostAgentInfo>, uuids: seq<UuidHex>)
    requires |uuids| == |requests| && s.error.None?
    requires forall i :: 0 <= i < |requests| ==> requests[i].uid == ""
    ensures Run(taskQueue, s, requests, uuids) == Stream(s.queues, s.out + Assignments(uuids), None)
    decreases |requests|
  {
    if requests == [] {
      assert s.out + Assignments(uuids) == s.out;
    } else {
      var s1 := Step(taskQueue, s, requests[0], uuids[0]);
      UnidentifiedGetsOneAssignment(taskQueue, s, requests[0], uuids[0]);
      RunFirst(taskQueue, s, requests, uuids);
      var rest, restUuids := requests[1..], uuids[1..];
      assert forall i :: 0 <= i < |rest| ==> rest[i].uid == "" by {
        forall i | 0 <= i < |rest| ensures rest[i].uid == "" {
          assert rest[i] == requests[i + 1];
        }
      }
      UnidentifiedRun(taskQueue, s1, rest, restUuids);
      var a, tail := AssignHost(uuids[0]), Assignments(restUuids);
      assert Assignments(uuids) == [a] + tail;
      assert s1.out == s.out + [a];
      ConcatAssoc(s.out, [a], tail);
    }
  }

  /**
   * A known host with two commands waiting, Install("x") then Stop("y"):
   * its report is published once and the commands arrive in that order.
   */
  lemma InstallThenStop(taskQueue: string, request: HostAgentInfo, uuid: UuidHex)
    requires request.uid == "abc123" && taskQueue != "abc123"
    ensures var s := Stream(map[request.uid := [Encode(Install("x")), Encode(Stop("y"))]], [], None);
      && Step(taskQueue, s, request, uuid).out == [Install("x"), Stop("y")]
      && QueueOf(Step(taskQueue, s, request, uuid).queues, taskQueue) == [SerializeRequest(request)]
      && Step(taskQueue, s, request, uuid).error.None?
  {
    var msgs := [Encode(Install("x")), Encode(Stop("y"))];
    DecodeEncode(Install("x"));
    DecodeEncode(Stop("y"));
    assert msgs[1..][1..] == [];
    assert Drain(msgs).commands == [Install("x"), Stop("y")];
  }

  /** The broker: named queues that are created when first declared and never deleted. */
  class Broker {
    var queues: Queues

    constructor (initial: Queues)
      ensures queues == initial
    {
      queues := initial;
    }

    /** `declare_queue`: creates the queue if it does not exist yet; idempotent. */
    method DeclareQueue(name: string)
      modifies this
      ensures queues == if name in old(queues) then old(queues) else old(queues)[name := []]
    {
      if name !in queues {
        queues := queues[name := []];
      }
    }

    /** `default_exchange.publish(..., routing_key=name)` */
    method PublishTo(name: string, body: Json)
      modifies this
      ensures queues == Publish(old(queues), name, body)
    {
      queues := Publish(queues, name, body);
    }

    /** Takes the next message of a queue, or None when it is empty. */
    method Receive(name: string) returns (m: Option<Json>)
      modifies this
      ensures old(QueueOf(queues, name)) == [] ==> m.None? && queues == old(queues)
      ensures old(QueueOf(queues, name)) != [] ==>
        m == Some(old(QueueOf(queues, name))[0]) && queues == old(queues)[name := old(QueueOf(queues, name))[1..]]
    {
      var waiting := QueueOf(queues, name);
      if waiting == [] {
        m := None;
      } else {
        m := Some(waiting[0]);
        queues := queues[name := waiting[1..]];
      }
    }
  }

  /** The servicer; its configuration is read once, when the class is defined. */
  class Servicer {
    const config: ServerConfig.AmpqConfig
    const broker: Broker

    constructor (config: ServerConfig.AmpqConfig, broker: Broker)
      ensures this.config == config && this.broker == broker
    {
      this.config := config;
      this.broker := broker;
    }

    /** `handle_request`: the serialised report is published to the task queue. */
    method HandleRequest(request: HostAgentInfo)
      modifies broker
      ensures broker.queues == Publish(old(broker.queues), config.taskQueue, SerializeRequest(request))
    {
      var body := SerializeRequest(request);
      broker.DeclareQueue(config.taskQueue);
      broker.PublishTo(config.taskQueue, body);
    }

    /** `get_commands`: decodes and yields the messages of the queue named `uid`, in order. */
    method GetCommands(uid: string) returns (commands: seq<Command>, error: Option<DecodeError>)
      modifies broker
      ensures var all := QueueOf(old(broker.queues), uid);
        && commands == Drain(all).commands && error == Drain(all).error
        && broker.queues == old(broker.queues)[uid := all[Drain(all).consumed..]]
    {
      broker.DeclareQueue(uid);
      ghost var all := QueueOf(old(broker.queues), uid);
      ghost var taken := 0;
      commands, error := [], None;
      while true
        invariant 0 <= taken <= |all| && |commands| == taken
        invariant broker.queues == old(broker.queues)[uid := all[taken..]]
        invariant Drain(all) == Drained(commands + Drain(all[taken..]).commands,
                                        taken + Drain(all[taken..]).consumed, Drain(all[taken..]).error)
        decreases |all| - taken
      {
        ghost var before := broker.queues;
        assert QueueOf(before, uid) == all[taken..];
        var message := broker.Receive(uid);
        if message.None? {
          return;
        }
        assert all[taken..][1..] == all[taken + 1..];
        assert broker.queues == before[uid := all[taken + 1..]];
        assert before[uid := all[taken + 1..]] == old(broker.queues)[uid := all[taken + 1..]];
        DrainFirst(all[taken..]);
        var decoded := Decode(message.value);
        if decoded.Failure? {
          error := Some(decoded.error);
          return;
        }
        ghost var rest := Drain(all[taken + 1..]);
        assert Drain(all[taken..]) == Drained([decoded.value] + rest.commands, rest.consumed + 1, rest.error);
        ConcatAssoc(commands, [decoded.value], rest.commands);
        commands := commands + [decoded.value];
        taken := taken + 1;
      }
    }

    /**
     * `Connect`: each inbound report is answered in order; a report without a
     * uid gets an AssignHost with the next fresh uid, one with a uid is
     * published and then that uid's queue is drained onto the stream. A
     * decoding error ends the stream.
     */
    method Connect(requests: seq<HostAgentInfo>, uuids: seq<UuidHex>) returns (out: seq<Command>, error: Option<DecodeError>)
      requires |uuids| == |requests|
      modifies broker
      ensures Run(config.taskQueue, Stream(old(broker.queues), [], None), requests, uuids) ==
              Stream(broker.queues, out, error)
    {
      out, error := [], None;
      var i := 0;
      while i < |requests| && error.None?
        invariant 0 <= i <= |requests|
        invariant Run(config.taskQueue, Stream(old(broker.queues), [], None), requests, uuids) ==
                  Run(config.taskQueue, Stream(broker.queues, out, error), requests[i..], uuids[i..])
      {
        assert requests[i..][1..] == requests[i + 1..] && uuids[i..][1..] == uuids[i + 1..];
        var request := requests[i];
        if request.uid == "" {
          var command := AssignUid(uuids[i]).value;
          out := out + [command];
        } else {
          HandleRequest(request);
          var commands, e := GetCommands(request.uid);
          out, error := out + commands, e;
        }
        i := i + 1;
      }
    }
  }
}
