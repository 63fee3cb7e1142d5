/**
 * The report serialiser of the server (`serialize_request`,
 * `serialize_instances`): a HostAgentInfo becomes the fixed-shape record that
 * is published to the task queue. `ParseReport` reads such a record back; it
 * is the reference that shows the record loses nothing.
 */
module ReportCodec {
  import opened Wrappers
  import opened Json
  import opened Messages
  import OrderedDict

  const REPORT_KEYS: seq<string> := ["hostname", "token", "uid", "instances"]
  const INSTANCE_KEYS: seq<string> := ["id", "instance_state", "name", "version_id"]

  /** One instance as `{id, instance_state, name, version_id}`. */
  function SerializeInstance(i: InstanceInfo): (j: Json)
    ensures j.JObj? && OrderedDict.Keys(j.members) == INSTANCE_KEYS
  {
    JObj([("id", JStr(i.id)), ("instance_state", JNum(i.instanceState)),
          ("name", JStr(i.name)), ("version_id", JStr(i.versionId))])
  }

  /** The list comprehension of `serialize_instances`: one record per instance, in order. */
  function SerializeInstances(xs: seq<InstanceInfo>): (r: seq<Json>)
    ensures |r| == |xs|
    ensures forall k :: 0 <= k < |xs| ==> r[k] == SerializeInstance(xs[k])
    decreases |xs|
  {
    if xs == [] then [] else [SerializeInstance(xs[0])] + SerializeInstances(xs[1..])
  }

  /** `serialize_request`: exactly the fields hostname, token, uid and instances. */
  function SerializeRequest(r: HostAgentInfo): (j: Json)
    ensures j.JObj? && OrderedDict.Keys(j.members) == REPORT_KEYS
  {
    JObj([("hostname", JStr(r.hostname)), ("token", JStr(r.token)), ("uid", JStr(r.uid)),
          ("instances", JArr(SerializeInstances(r.instances)))])
  }

  function GetString(m: seq<(string, Json)>, key: string): Option<string> {
    var v: Option<Json> := OrderedDict.Get(m, key);
    match v
    case Some(JStr(s)) => Some(s)
    case _ => None
  }

  function GetNumber(m: seq<(string, Json)>, key: string): Option<int> {
    var v: Option<Json> := OrderedDict.Get(m, key);
    match v
    case Some(JNum(n)) => Some(n)
    case _ => None
  }

  function ParseInstance(j: Json): Option<InstanceInfo> {
    if !j.JObj? then None
    else
      var m := j.members;
      if GetString(m, "id").Some? && GetNumber(m, "instance_state").Some? &&
         GetString(m, "name").Some? && GetString(m, "version_id").Some?
      then Some(InstanceInfo(GetString(m, "id").value, GetString(m, "name").value,
                             GetString(m, "version_id").value, GetNumber(m, "instance_state").value))
      else None
  }

  function ParseInstances(js: seq<Json>): Option<seq<InstanceInfo>>
    decreases |js|
  {
    if js == [] then Some([])
    else match (ParseInstance(js[0]), ParseInstances(js[1..]))
      case (Some(i), Some(rest)) => Some([i] + rest)
      case _ => None
  }

  function ParseReport(j: Json): Option<HostAgentInfo> {
    if !j.JObj? then None
    else
      var m := j.members;
      var items: Option<Json> := OrderedDict.Get(m, "instances");
      if GetString(m, "token").None? || GetString(m, "uid").None? || GetString(m, "hostname").None? then None
      else if items.None? || !items.value.JArr? then None
      else match ParseInstances(items.value.items)
        case Some(xs) => Some(HostAgentInfo(GetString(m, "token").value, GetString(m, "uid").value,
                                            GetString(m, "hostname").value, xs))
        case None => None
  }

  /** Reading a key of a four-field record literal. */
  lemma GetFour(a: (string, Json), b: (string, Json), c: (string, Json), d: (string, Json), k: string)
    ensures OrderedDict.Get([a, b, c, d], k) ==
      if k == d.0 then Some(d.1) else if k == c.0 then Some(c.1)
      else if k == b.0 then Some(b.1) else if k == a.0 then Some(a.1) else None
  {
    OrderedDict.GetAppend([a, b, c], d.0, d.1, k);
    OrderedDict.GetAppend([a, b], c.0, c.1, k);
    OrderedDict.GetAppend([a], b.0, b.1, k);
    OrderedDict.GetAppend([], a.0, a.1, k);
    assert [a, b, c, d] == [a, b, c] + [d];
    assert [a, b, c] == [a, b] + [c];
    assert [a, b] == [a] + [b];
    assert [a] == [] + [a];
  }

  lemma InstanceRoundTrip(i: InstanceInfo)
    ensures ParseInstance(SerializeInstance(i)) == Some(i)
  {
    var m := SerializeInstance(i).members;
    assert m == [m[0], m[1], m[2], m[3]];
    GetFour(m[0], m[1], m[2], m[3], "id");
    GetFour(m[0], m[1], m[2], m[3], "instance_state");
    GetFour(m[0], m[1], m[2], m[3], "name");
    GetFour(m[0], m[1], m[2], m[3], "version_id");
  }

  lemma {:induction false} InstancesRoundTrip(xs: seq<InstanceInfo>)
    ensures ParseInstances(SerializeInstances(xs)) == Some(xs)
    decreases |xs|
  {
    if xs != [] {
      var js := SerializeInstances(xs);
      assert js[1..] == SerializeInstances(xs[1..]);
      InstancesRoundTrip(xs[1..]);
      InstanceRoundTrip(xs[0]);
      assert [xs[0]] + xs[1..] == xs;
    }
  }

  /**
   * The published record carries every field of the report unchanged, the
   * instances in their order and number: reading it back gives the report.
   */
  lemma ReportRoundTrip(r: HostAgentInfo)
    ensures ParseReport(SerializeRequest(r)) == Some(r)
  {
    var m := SerializeRequest(r).members;
    assert m == [m[0], m[1], m[2], m[3]];
    GetFour(m[0], m[1], m[2], m[3], "token");
    GetFour(m[0], m[1], m[2], m[3], "uid");
    GetFour(m[0], m[1], m[2], m[3], "hostname");
    GetFour(m[0], m[1], m[2], m[3], "instances");
    InstancesRoundTrip(r.instances);
  }

  /** Two different reports never publish the same record. */
  lemma SerializeRequestInjective(r1: HostAgentInfo, r2: HostAgentInfo)
    requires SerializeRequest(r1) == SerializeRequest(r2)
    ensures r1 == r2
  {
    ReportRoundTrip(r1);
    ReportRoundTrip(r2);
  }
}
