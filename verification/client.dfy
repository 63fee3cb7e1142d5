/**
 * The fake host agent (`FakeHostAgentClient` and `get_uid`). The agent holds
 * its identity in mutable fields, sends one report per stream it opens, and
 * dispatches every command it receives by its tag; AssignHost is the only
 * command that changes its state.
 *
 * The network is abstracted: `sessions[k]` is what the server sends on the
 * k-th stream the agent opens, and `sent` records the reports the agent puts
 * on its streams, in order. A run ends when the agent would open a stream
 * beyond the given sessions.
 */
module Client {
  import opened Wrappers
  import opened Messages
  import opened ConfigValues
  import OrderedDict

  /**
   * The InstanceState numbers of the defaults. The numbers of the schema's
   * enum are not part of this model; these two are stand-ins that only need
   * to differ.
   */
  const RUNNING: int := 0
  const STOPPED: int := 1

  /** The class-level instance list, kept by an agent built without instances. */
  const DEFAULT_INSTANCES: seq<InstanceInfo> := [
    InstanceInfo("testinstanceid", "testinstancename", "jammy", RUNNING),
    InstanceInfo("testinstanceid2", "testinstancename2", "focal", STOPPED)
  ]

  /** The keepalive settings the class starts with. */
  const DEFAULT_CHANNEL_OPTIONS: seq<(string, ConfigValue)> := [
    ("grpc.keepalive_time_ms", IntVal(8000)),
    ("grpc.keepalive_timeout_ms", IntVal(5000)),
    ("grpc.http2.max_pings_without_data", IntVal(5)),
    ("grpc.keepalive_permit_without_calls", IntVal(1))
  ]

  /**
   * The class-level `channel_options` dict: one object that every client
   * refers to, so an update made while building one client is seen by all.
   */
  class ChannelOptions {
    var entries: seq<(string, ConfigValue)>

    constructor ()
      ensures entries == DEFAULT_CHANNEL_OPTIONS
    {
      entries := DEFAULT_CHANNEL_OPTIONS;
    }

    /** `dict.update`: given keys are overwritten in place, new keys appended, the others kept. */
    method Update(pairs: seq<(string, ConfigValue)>)
      modifies this
      ensures entries == OrderedDict.Update(old(entries), pairs)
    {
      entries := OrderedDict.Update(entries, pairs);
    }
  }

  /** The uid carried by the first AssignHost of a response stream, if there is one. */
  function FirstAssignment(responses: seq<Option<Command>>): (u: Option<string>)
    ensures u.Some? <==> exists i :: 0 <= i < |responses| && responses[i].Some? && responses[i].value.AssignHost?
    ensures u.Some? ==> exists i :: 0 <= i < |responses| && responses[i] == Some(AssignHost(u.value)) &&
                                    forall j :: 0 <= j < i ==> !(responses[j].Some? && responses[j].value.AssignHost?)
    decreases |responses|
  {
    if responses == [] then None
    else if responses[0].Some? && responses[0].value.AssignHost? then Some(responses[0].value.uid)
    else
      var rest := FirstAssignment(responses[1..]);
      assert forall i :: 0 < i < |responses| ==> responses[i] == responses[1..][i - 1];
      rest
  }

  /**
   * The uids of the reports the agent sends, as the code is written: a new
   * stream is opened only from the AssignHost handler; once a stream ends
   * without one, the loop re-reads the finished call and opens nothing more.
   */
  function AsWrittenUids(uid: string, sessions: seq<seq<Option<Command>>>): (uids: seq<string>)
    ensures |uids| <= |sessions|
    ensures sessions != [] ==> |uids| >= 1 && uids[0] == uid
    decreases |sessions|
  {
    if sessions == [] then []
    else [uid] + match FirstAssignment(sessions[0])
      case Some(u) => AsWrittenUids(u, sessions[1..])
      case None => []
  }

  function AsWrittenFinalUid(uid: string, sessions: seq<seq<Option<Command>>>): string
    decreases |sessions|
  {
    if sessions == [] then uid
    else match FirstAssignment(sessions[0])
      case Some(u) => AsWrittenFinalUid(u, sessions[1..])
      case None => uid
  }

  /**
   * The uids of the reports the agent sends when every stream end leads to a
   * reconnection (after the pause) with a freshly sent report, as the
   * supervisor loop is meant to work.
   */
  function RetryingUids(uid: string, sessions: seq<seq<Option<Command>>>): (uids: seq<string>)
    ensures |uids| == |sessions|
    ensures sessions != [] ==> uids[0] == uid
    decreases |sessions|
  {
    if sessions == [] then []
    else [uid] + RetryingUids(FirstAssignment(sessions[0]).GetOr(uid), sessions[1..])
  }

  function RetryingFinalUid(uid: string, sessions: seq<seq<Option<Command>>>): string
    decreases |sessions|
  {
    if sessions == [] then uid
    else RetryingFinalUid(FirstAssignment(sessions[0]).GetOr(uid), sessions[1..])
  }

  /**
   * With reconnection, the agent ends with the uid of the last stream's first
   * AssignHost, or else with the uid its last report carried.
   */
  lemma {:induction false} RetryingFinalUidIsLast(uid: string, sessions: seq<seq<Option<Command>>>)
    requires sessions != []
    ensures RetryingFinalUid(uid, sessions) ==
      FirstAssignment(sessions[|sessions| - 1]).GetOr(RetryingUids(uid, sessions)[|sessions| - 1])
    decreases |sessions|
  {
    var next := FirstAssignment(sessions[0]).GetOr(uid);
    if |sessions| > 1 {
      RetryingFinalUidIsLast(next, sessions[1..]);
      assert sessions[1..][|sessions| - 2] == sessions[|sessions| - 1];
    }
  }

  /**
   * As written, the agent ends with the uid its last report carried, unless
   * the stream of that report (which can then only be the last stream)
   * brought an AssignHost, whose uid it then holds.
   */
  lemma {:induction false} AsWrittenFinalUidIsLast(uid: string, sessions: seq<seq<Option<Command>>>)
    requires sessions != []
    ensures var n := |AsWrittenUids(uid, sessions)|;
      AsWrittenFinalUid(uid, sessions) == FirstAssignment(sessions[n - 1]).GetOr(AsWrittenUids(uid, sessions)[n - 1])
    ensures var n := |AsWrittenUids(uid, sessions)|;
      FirstAssignment(sessions[n - 1]).Some? ==> n == |sessions|
    decreases |sessions|
  {
    match FirstAssignment(sessions[0])
    case None =>
    case Some(u) =>
      if |sessions| > 1 {
        AsWrittenFinalUidIsLast(u, sessions[1..]);
        var n := |AsWrittenUids(u, sessions[1..])|;
        assert sessions[1..][n - 1] == sessions[n];
      }
  }

  /** One stream of the as-written loop: its report, then the rest only if it brought an AssignHost. */
  lemma AsWrittenStep(uid: string, sessions: seq<seq<Option<Command>>>, tail: seq<string>)
    requires sessions != []
    ensures FirstAssignment(sessions[0]).None? ==>
      tail + AsWrittenUids(uid, sessions) == tail + [uid] &&
      AsWrittenFinalUid(uid, sessions) == uid
    ensures FirstAssignment(sessions[0]).Some? ==>
      tail + AsWrittenUids(uid, sessions) == (tail + [uid]) + AsWrittenUids(FirstAssignment(sessions[0]).value, sessions[1..]) &&
      AsWrittenFinalUid(uid, sessions) == AsWrittenFinalUid(FirstAssignment(sessions[0]).value, sessions[1..])
  {
  }

  /** One stream of the reconnecting loop: its report, then the rest with the possibly reassigned uid. */
  lemma RetryingStep(uid: string, sessions: seq<seq<Option<Command>>>, tail: seq<string>)
    requires sessions != []
    ensures tail + RetryingUids(uid, sessions) ==
      (tail + [uid]) + RetryingUids(FirstAssignment(sessions[0]).GetOr(uid), sessions[1..])
    ensures RetryingFinalUid(uid, sessions) == RetryingFinalUid(FirstAssignment(sessions[0]).GetOr(uid), sessions[1..])
  {
  }

  /** The reports an agent with these fields sends for a sequence of uids. */
  function ReportsFor(token: string, hostname: string, instances: seq<InstanceInfo>, uids: seq<string>): (rs: seq<HostAgentInfo>)
    ensures |rs| == |uids|
    decreases |uids|
  {
    if uids == [] then []
    else ReportsFor(token, hostname, instances, uids[..|uids| - 1]) + [HostAgentInfo(token, uids[|uids| - 1], hostname, instances)]
  }

  lemma ReportsForAppend(token: string, hostname: string, instances: seq<InstanceInfo>, uids: seq<string>, u: string)
    ensures ReportsFor(token, hostname, instances, uids + [u]) ==
            ReportsFor(token, hostname, instances, uids) + [HostAgentInfo(token, u, hostname, instances)]
  {
    assert (uids + [u])[..|uids|] == uids;
  }

  /** Each report carries the agent's token, hostname and instances and the uid it held when it opened the stream. */
  lemma {:induction false} ReportsForAt(token: string, hostname: string, instances: seq<InstanceInfo>, uids: seq<string>, k: int)
    requires 0 <= k < |uids|
    ensures ReportsFor(token, hostname, instances, uids)[k] == HostAgentInfo(token, uids[k], hostname, instances)
    decreases |uids|
  {
    if k < |uids| - 1 {
      ReportsForAt(token, hostname, instances, uids[..|uids| - 1], k);
    }
  }

  /**
   * The report on each new stream carries the uid of the AssignHost received
   * on the stream before it, or the same uid as before when there was none.
   */
  lemma {:induction false} RetryingNextUid(uid: string, sessions: seq<seq<Option<Command>>>, k: int)
    requires 0 <= k && k + 1 < |sessions|
    ensures RetryingUids(uid, sessions)[k + 1] ==
            FirstAssignment(sessions[k]).GetOr(RetryingUids(uid, sessions)[k])
    decreases |sessions|
  {
    var next := FirstAssignment(sessions[0]).GetOr(uid);
    if k > 0 {
      RetryingNextUid(next, sessions[1..], k - 1);
      assert sessions[1..][k - 1] == sessions[k];
    }
  }

  /**
   * As written, the agent behaves like the reconnecting loop as long as every
   * stream brings an AssignHost: its reports are a prefix of the reconnecting
   * loop's, and the two agree exactly when no stream but the last ends
   * without one.
   */
  lemma {:induction false} AsWrittenIsPrefix(uid: string, sessions: seq<seq<Option<Command>>>)
    ensures |AsWrittenUids(uid, sessions)| <= |RetryingUids(uid, sessions)|
    ensures AsWrittenUids(uid, sessions) == RetryingUids(uid, sessions)[..|AsWrittenUids(uid, sessions)|]
    ensures AsWrittenUids(uid, sessions) == RetryingUids(uid, sessions) <==>
            forall k :: 0 <= k < |sessions| - 1 ==> FirstAssignment(sessions[k]).Some?
    decreases |sessions|
  {
    if sessions != [] {
      match FirstAssignment(sessions[0])
      case Some(u) =>
        AsWrittenIsPrefix(u, sessions[1..]);
        forall k | 1 <= k < |sessions| ensures sessions[1..][k - 1] == sessions[k] { }
      case None =>
        if |sessions| > 1 {
          assert |AsWrittenUids(uid, sessions)| == 1 < |RetryingUids(uid, sessions)|;
        }
    }
  }

  /** How many streams, from the first one on, bring an AssignHost. */
  function LeadingAssignments(sessions: seq<seq<Option<Command>>>): (n: nat)
    ensures n <= |sessions|
    ensures forall k :: 0 <= k < n ==> FirstAssignment(sessions[k]).Some?
    ensures n < |sessions| ==> FirstAssignment(sessions[n]).None?
    decreases |sessions|
  {
    if sessions == [] || FirstAssignment(sessions[0]).None? then 0
    else
      var n := 1 + LeadingAssignments(sessions[1..]);
      assert forall k :: 1 <= k < |sessions| ==> sessions[k] == sessions[1..][k - 1];
      n
  }

  /**
   * As written, the agent sends one report for each stream that brings an
   * AssignHost, plus one for the first stream that does not (after which it
   * sends nothing more), never more than one per stream.
   */
  lemma {:induction false} AsWrittenReportCount(uid: string, sessions: seq<seq<Option<Command>>>)
    ensures |AsWrittenUids(uid, sessions)| ==
      if LeadingAssignments(sessions) == |sessions| then |sessions| else LeadingAssignments(sessions) + 1
    decreases |sessions|
  {
    if sessions != [] {
      match FirstAssignment(sessions[0])
      case Some(u) => AsWrittenReportCount(u, sessions[1..]);
      case None =>
    }
  }

  /**
   * The discrepancy: a stream that ends without an AssignHost (here after an
   * Install) leaves the agent reading its finished call forever; the second
   * stream the supervisor loop should open, with a fresh report, never comes.
   */
  lemma AsWrittenStopsReporting(uid: string)
    ensures var sessions := [[Some(Install("x"))], [Some(Install("y"))]];
      |AsWrittenUids(uid, sessions)| == 1 && |RetryingUids(uid, sessions)| == 2
  {
    var sessions := [[Some(Install("x"))], [Some(Install("y"))]];
    assert FirstAssignment(sessions[0]) == None by {
      assert sessions[0][1..] == [];
    }
    assert FirstAssignment(sessions[1]) == None by {
      assert sessions[1][1..] == [];
    }
    assert sessions[1..][1..] == [];
  }

  /** The fake host agent. */
  class HostAgentClient {
    var token: string
    var uid: string
    var hostname: string
    var instances: seq<InstanceInfo>
    const channelOptions: ChannelOptions
    /** The reports put on the streams this agent opened, in order. */
    var sent: seq<HostAgentInfo>

    /**
     * `__init__`: token, uid and hostname are always set; a non-empty
     * instance list replaces the class default; non-empty options are merged
     * into the shared class-level dict. An empty list stands for both None
     * and [], which the source treats alike.
     */
    constructor (token: string, uid: string, hostname: string, instances: seq<InstanceInfo>,
                 options: seq<(string, ConfigValue)>, shared: ChannelOptions)
      modifies shared
      ensures this.token == token && this.uid == uid && this.hostname == hostname
      ensures this.instances == if instances != [] then instances else DEFAULT_INSTANCES
      ensures channelOptions == shared
      ensures shared.entries == if options != [] then OrderedDict.Update(old(shared.entries), options)
                                else old(shared.entries)
      ensures sent == []
    {
      this.token := token;
      this.uid := uid;
      this.hostname := hostname;
      this.instances := if instances != [] then instances else DEFAULT_INSTANCES;
      this.channelOptions := shared;
      this.sent := [];
      new;
      if options != [] {
        shared.Update(options);
      }
    }

    /** `generate_hostagent_info`: a stream of exactly one report, built from the current fields. */
    function GenerateHostAgentInfo(): (reports: seq<HostAgentInfo>)
      reads this
      ensures |reports| == 1
      ensures reports[0].token == token && reports[0].uid == uid
      ensures reports[0].hostname == hostname && reports[0].instances == instances
    {
      [HostAgentInfo(token, uid, hostname, instances)]
    }

    /** `prepare_channel_options`: one (key, value) pair per entry of the shared dict, in dict order. */
    function PrepareChannelOptions(): (pairs: seq<(string, ConfigValue)>)
      reads this, channelOptions
      ensures OrderedDict.Keys(pairs) == OrderedDict.Keys(channelOptions.entries)
      ensures forall k :: OrderedDict.Get(pairs, k) == OrderedDict.Get(channelOptions.entries, k)
    {
      channelOptions.entries
    }

    /** `handle_assign_host`: adopts the assigned uid (the reconnection is left to the caller). */
    method HandleAssignHost(newUid: string)
      modifies this
      ensures uid == newUid
      ensures token == old(token) && hostname == old(hostname) && instances == old(instances) && sent == old(sent)
    {
      uid := newUid;
    }

    /**
     * `handle_response`: dispatches on the active tag. AssignHost changes the
     * uid and asks for a new stream; the other six handlers only print, and a
     * response with no tag set is ignored.
     */
    method HandleResponse(response: Option<Command>) returns (reconnect: bool)
      modifies this
      ensures reconnect <==> response.Some? && response.value.AssignHost?
      ensures uid == if reconnect then response.value.uid else old(uid)
      ensures token == old(token) && hostname == old(hostname) && instances == old(instances) && sent == old(sent)
    {
      match response
      case None =>
        reconnect := false;
      case Some(command) =>
        match command
        case AssignHost(newUid) =>
          HandleAssignHost(newUid);
          reconnect := true;
        case _ =>
          reconnect := false;
    }

    /** Reads one stream's responses in order until an AssignHost, which ends the reading of that stream. */
    method DispatchStream(responses: seq<Option<Command>>) returns (reassigned: bool)
      modifies this
      ensures reassigned == FirstAssignment(responses).Some?
      ensures uid == FirstAssignment(responses).GetOr(old(uid))
      ensures token == old(token) && hostname == old(hostname) && instances == old(instances) && sent == old(sent)
    {
      var j := 0;
      reassigned := false;
      while j < |responses| && !reassigned
        invariant 0 <= j <= |responses|
        invariant !reassigned ==> uid == old(uid) && FirstAssignment(responses) == FirstAssignment(responses[j..])
        invariant reassigned ==> FirstAssignment(responses) == Some(uid)
        invariant token == old(token) && hostname == old(hostname) && instances == old(instances) && sent == old(sent)
      {
        assert responses[j..][1..] == responses[j + 1..];
        reassigned := HandleResponse(responses[j]);
        j := j + 1;
      }
    }

    /**
     * `connect` as written: opens a stream carrying one report and handles its
     * responses; an AssignHost leads (through the handler's recursive call) to
     * a new stream with the new uid. When a stream ends without one, the
     * `while True` loop keeps re-reading the finished call after each pause,
     * so no stream is opened and no report sent again.
     */
    method Connect(sessions: seq<seq<Option<Command>>>)
      modifies this
      ensures token == old(token) && hostname == old(hostname) && instances == old(instances)
      ensures uid == AsWrittenFinalUid(old(uid), sessions)
      ensures sent == old(sent) + ReportsFor(token, hostname, instances, AsWrittenUids(old(uid), sessions))
    {
      var k := 0;
      ghost var uids: seq<string> := [];
      while k < |sessions|
        invariant 0 <= k <= |sessions|
        invariant token == old(token) && hostname == old(hostname) && instances == old(instances)
        invariant AsWrittenUids(old(uid), sessions) == uids + AsWrittenUids(uid, sessions[k..])
        invariant AsWrittenFinalUid(old(uid), sessions) == AsWrittenFinalUid(uid, sessions[k..])
        invariant sent == old(sent) + ReportsFor(token, hostname, instances, uids)
      {
        assert sessions[k..][1..] == sessions[k + 1..];
        AsWrittenStep(uid, sessions[k..], uids);
        ReportsForAppend(token, hostname, instances, uids, uid);
        sent := sent + GenerateHostAgentInfo();
        uids := uids + [uid];
        var reassigned := DispatchStream(sessions[k]);
        if !reassigned {
          // the finished call yields nothing more: the agent idles from here on
          return;
        }
        k := k + 1;
      }
      assert sessions[k..] == [] && uids + [] == uids;
    }

    /**
     * The supervisor loop as intended: every stream end leads, after the
     * pause, to a new stream with a freshly sent report carrying the current
     * uid, and an AssignHost leads to one at once.
     */
    method ConnectRetrying(sessions: seq<seq<Option<Command>>>)
      modifies this
      ensures token == old(token) && hostname == old(hostname) && instances == old(instances)
      ensures uid == RetryingFinalUid(old(uid), sessions)
      ensures sent == old(sent) + ReportsFor(token, hostname, instances, RetryingUids(old(uid), sessions))
    {
      var k := 0;
      ghost var uids: seq<string> := [];
      while k < |sessions|
        invariant 0 <= k <= |sessions|
        invariant token == old(token) && hostname == old(hostname) && instances == old(instances)
        invariant RetryingUids(old(uid), sessions) == uids + RetryingUids(uid, sessions[k..])
        invariant RetryingFinalUid(old(uid), sessions) == RetryingFinalUid(uid, sessions[k..])
        invariant sent == old(sent) + ReportsFor(token, hostname, instances, uids)
      {
        assert sessions[k..][1..] == sessions[k + 1..];
        RetryingStep(uid, sessions[k..], uids);
        ReportsForAppend(token, hostname, instances, uids, uid);
        sent := sent + GenerateHostAgentInfo();
        uids := uids + [uid];
        var _ := DispatchStream(sessions[k]);
        k := k + 1;
      }
      assert sessions[k..] == [] && uids + [] == uids;
    }
  }

  /**
   * Two clients built on the same class-level dict: the options given to the
   * second overwrite those given to the first, for both of them.
   */
  method SharedChannelOptions(shared: ChannelOptions) returns (seenByFirst: Option<ConfigValue>)
    modifies shared
    ensures seenByFirst == Some(IntVal(2000))
  {
    var first := new HostAgentClient("t1", "u1", "h1", [], [("grpc.keepalive_time_ms", IntVal(1000))], shared);
    ghost var afterFirst := shared.entries;
    var second := new HostAgentClient("t2", "u2", "h2", [], [("grpc.keepalive_time_ms", IntVal(2000))], shared);
    OrderedDict.GetUpdate(afterFirst, [("grpc.keepalive_time_ms", IntVal(2000))], "grpc.keepalive_time_ms");
    seenByFirst := OrderedDict.Get(first.PrepareChannelOptions(), "grpc.keepalive_time_ms");
  }

  /** `get_uid`: eight letters drawn from the lower-case alphabet; `picks` are the positions drawn. */
  function GetUid(picks: seq<nat>): (uid: string)
    requires |picks| == 8 && forall i :: 0 <= i < |picks| ==> picks[i] < 26
    ensures |uid| == 8
    ensures forall i :: 0 <= i < |uid| ==> 'a' <= uid[i] <= 'z'
  {
    seq(8, i requires 0 <= i < 8 => ('a' as int + picks[i]) as char)
  }

  /** The alphabet positions of a lower-case string. */
  function LetterPositions(s: string): (picks: seq<nat>)
    requires forall i :: 0 <= i < |s| ==> 'a' <= s[i] <= 'z'
    ensures |picks| == |s|
  {
    seq(|s|, i requires 0 <= i < |s| => s[i] as int - 'a' as int)
  }

  /** Every eight-letter lower-case string can be drawn, and different draws give different uids. */
  lemma GetUidBijective(picks: seq<nat>, s: string)
    requires |picks| == 8 && forall i :: 0 <= i < |picks| ==> picks[i] < 26
    requires |s| == 8 && forall i :: 0 <= i < |s| ==> 'a' <= s[i] <= 'z'
    ensures LetterPositions(GetUid(picks)) == picks
    ensures GetUid(LetterPositions(s)) == s
  {
  }
}
