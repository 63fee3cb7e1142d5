/**
 * The command codec of the server: `get_command` turns the single-key JSON
 * object taken from a host's command queue into a `Command`, and
 * `assign_uid` builds `{"assign_host": uid}` and decodes it the same way.
 */
module CommandCodec {
  import opened Wrappers
  import opened Json
  import opened Messages
  import OrderedDict

  /**
   * Why decoding failed. In the server both are exceptions: no case of the
   * match applies (`command` is then unbound at the return), or the payload
   * is not something the generated message constructor accepts.
   */
  datatype DecodeError = NoMatchingCase | PayloadNotString(key: string)

  /** The keys of the match statement, in the order its cases are tried. */
  const CASE_ORDER: seq<string> :=
    ["assign_host", "install", "set_default", "shutdown_host", "start", "stop", "uninstall"]

  /** A 128-bit random uuid rendered by `uuid4().hex`: 32 lower-case hex digits, version 4, RFC 4122 variant. */
  predicate IsUuidHex(s: string) {
    && |s| == 32
    && (forall i :: 0 <= i < |s| ==> s[i] in "0123456789abcdef")
    && s[12] == '4'
    && s[16] in "89ab"
  }

  type UuidHex = s: string | IsUuidHex(s) witness "00000000000040008000000000000000"

  /**
   * What a string field of a generated message accepts: a string is kept, and
   * None (JSON null) means "field not set", which reads back as "".
   */
  function PayloadText(v: Json): Option<string> {
    match v
    case JStr(s) => Some(s)
    case JNull => Some("")
    case _ => None
  }

  /** The key a command is encoded under (the name of its oneof field). */
  function Tag(c: Command): string {
    match c
    case AssignHost(_) => "assign_host"
    case Install(_) => "install"
    case SetDefault(_) => "set_default"
    case ShutdownHost => "shutdown_host"
    case Start(_) => "start"
    case Stop(_) => "stop"
    case Uninstall(_) => "uninstall"
  }

  /** The single-key object a command travels as; ShutdownHost has no payload and carries null. */
  function Encode(c: Command): (j: Json)
    ensures j.JObj? && |j.members| == 1 && j.members[0].0 == Tag(c)
  {
    match c
    case AssignHost(uid) => JObj([("assign_host", JStr(uid))])
    case Install(id) => JObj([("install", JStr(id))])
    case SetDefault(id) => JObj([("set_default", JStr(id))])
    case ShutdownHost => JObj([("shutdown_host", JNull)])
    case Start(id) => JObj([("start", JStr(id))])
    case Stop(id) => JObj([("stop", JStr(id))])
    case Uninstall(id) => JObj([("uninstall", JStr(id))])
  }

  /** Builds the variant a key names from a payload that matched its pattern. */
  function WithPayload(key: string, v: Json): Result<Command, DecodeError>
    requires key in CASE_ORDER && key != "shutdown_host"
  {
    match PayloadText(v)
    case None => Failure(PayloadNotString(key))
    case Some(text) =>
      Success(
        if key == "assign_host" then AssignHost(text)
        else if key == "install" then Install(text)
        else if key == "set_default" then SetDefault(text)
        else if key == "start" then Start(text)
        else if key == "stop" then Stop(text)
        else Uninstall(text))
  }

  /**
   * `get_command` on an already parsed body. A mapping pattern `{"k": x}`
   * matches any dict that holds `k`, whatever else it holds, so the first key
   * in case order that is present decides; `{"shutdown_host": None}` also
   * needs the value to be null, and otherwise the later cases are tried.
   */
  function Decode(j: Json): (r: Result<Command, DecodeError>)
    ensures !j.JObj? ==> r == Failure(NoMatchingCase)
  {
    if !j.JObj? then Failure(NoMatchingCase)
    else
      var m := j.members;
      if OrderedDict.Get(m, "assign_host").Some? then WithPayload("assign_host", OrderedDict.Get(m, "assign_host").value)
      else if OrderedDict.Get(m, "install").Some? then WithPayload("install", OrderedDict.Get(m, "install").value)
      else if OrderedDict.Get(m, "set_default").Some? then WithPayload("set_default", OrderedDict.Get(m, "set_default").value)
      else if OrderedDict.Get(m, "shutdown_host") == Some(JNull) then Success(ShutdownHost)
      else if OrderedDict.Get(m, "start").Some? then WithPayload("start", OrderedDict.Get(m, "start").value)
      else if OrderedDict.Get(m, "stop").Some? then WithPayload("stop", OrderedDict.Get(m, "stop").value)
      else if OrderedDict.Get(m, "uninstall").Some? then WithPayload("uninstall", OrderedDict.Get(m, "uninstall").value)
      else Failure(NoMatchingCase)
  }

  /** Does the case for `key` match the object `m`? */
  predicate CaseMatches(m: seq<(string, Json)>, key: string) {
    if key == "shutdown_host" then OrderedDict.Get(m, key) == Some(JNull)
    else OrderedDict.Get(m, key).Some?
  }

  /**
   * A reference decoder that walks a list of case keys and takes the first
   * one that matches: the match statement read as a table.
   */
  function DecodeByCases(m: seq<(string, Json)>, cases: seq<string>): Result<Command, DecodeError>
    requires forall i :: 0 <= i < |cases| ==> cases[i] in CASE_ORDER
    decreases |cases|
  {
    if cases == [] then Failure(NoMatchingCase)
    else if !CaseMatches(m, cases[0]) then DecodeByCases(m, cases[1..])
    else if cases[0] == "shutdown_host" then Success(ShutdownHost)
    else WithPayload(cases[0], OrderedDict.Get(m, cases[0]).value)
  }

  /** `get_command` tries its cases in source order and the first match wins. */
  lemma DecodeIsFirstMatchingCase(m: seq<(string, Json)>)
    ensures Decode(JObj(m)) == DecodeByCases(m, CASE_ORDER)
  {
    var c := CASE_ORDER;
    assert c[1..] == ["install", "set_default", "shutdown_host", "start", "stop", "uninstall"];
    assert c[2..] == ["set_default", "shutdown_host", "start", "stop", "uninstall"];
    assert c[3..] == ["shutdown_host", "start", "stop", "uninstall"];
    assert c[4..] == ["start", "stop", "uninstall"];
    assert c[5..] == ["stop", "uninstall"];
    assert c[6..] == ["uninstall"];
    assert c[7..] == [];
    assert c[1..][1..] == c[2..] && c[2..][1..] == c[3..] && c[3..][1..] == c[4..];
    assert c[4..][1..] == c[5..] && c[5..][1..] == c[6..] && c[6..][1..] == c[7..];
  }

  /** No case among `cases` matches `m`. */
  predicate NoCaseMatches(m: seq<(string, Json)>, cases: seq<string>) {
    forall i :: 0 <= i < |cases| ==> !CaseMatches(m, cases[i])
  }

  /** The case at `i` is the first that matches, and its payload is neither a string nor null. */
  predicate FirstMatchRejected(m: seq<(string, Json)>, cases: seq<string>, i: int) {
    && 0 <= i < |cases|
    && NoCaseMatches(m, cases[..i])
    && CaseMatches(m, cases[i]) && cases[i] != "shutdown_host"
    && PayloadText(OrderedDict.Get(m, cases[i]).value).None?
  }

  /** Moving past a first case that does not match shifts the index of the first match by one. */
  lemma FirstMatchRejectedShift(m: seq<(string, Json)>, cases: seq<string>, i: int)
    requires cases != [] && !CaseMatches(m, cases[0]) && 0 <= i
    ensures FirstMatchRejected(m, cases, i + 1) <==> FirstMatchRejected(m, cases[1..], i)
    ensures NoCaseMatches(m, cases) <==> NoCaseMatches(m, cases[1..])
  {
    if i + 1 <= |cases| {
      assert cases[..i + 1] == [cases[0]] + cases[1..][..i];
    }
    forall k | 0 <= k < |cases| - 1 ensures cases[1..][k] == cases[k + 1] { }
  }

  /**
   * Decoding fails exactly when no case key matches, or when the first
   * matching key carries a payload that is neither a string nor null.
   */
  lemma {:induction false} DecodeByCasesFails(m: seq<(string, Json)>, cases: seq<string>)
    requires forall i :: 0 <= i < |cases| ==> cases[i] in CASE_ORDER
    ensures DecodeByCases(m, cases).Failure? <==>
      NoCaseMatches(m, cases) || exists i :: FirstMatchRejected(m, cases, i)
    decreases |cases|
  {
    if cases != [] {
      var tail := cases[1..];
      if CaseMatches(m, cases[0]) {
        assert !NoCaseMatches(m, cases);
        forall i | 0 < i ensures !FirstMatchRejected(m, cases, i) {
          if i < |cases| {
            assert cases[..i][0] == cases[0];
          }
        }
        assert cases[..0] == [];
        assert DecodeByCases(m, cases).Failure? <==> FirstMatchRejected(m, cases, 0);
      } else {
        DecodeByCasesFails(m, tail);
        FirstMatchRejectedShift(m, cases, 0);
        if exists i :: FirstMatchRejected(m, tail, i) {
          var i :| FirstMatchRejected(m, tail, i);
          FirstMatchRejectedShift(m, cases, i);
        }
        if exists i :: FirstMatchRejected(m, cases, i) {
          var i :| FirstMatchRejected(m, cases, i);
          assert i != 0;
          FirstMatchRejectedShift(m, cases, i - 1);
        }
      }
    }
  }

  /** A dict that holds none of the case keys decodes to no command, whatever else it holds. */
  lemma DecodeUnknownKeys(m: seq<(string, Json)>)
    requires forall i :: 0 <= i < |m| ==> m[i].0 !in CASE_ORDER
    ensures Decode(JObj(m)) == Failure(NoMatchingCase)
  {
    forall k | k in CASE_ORDER ensures OrderedDict.Get(m, k).None? {
      GetMissing(m, k);
    }
  }

  lemma {:induction false} GetMissing(m: seq<(string, Json)>, k: string)
    requires forall i :: 0 <= i < |m| ==> m[i].0 != k
    ensures OrderedDict.Get(m, k).None?
    decreases |m|
  {
    if m != [] {
      GetMissing(m[..|m| - 1], k);
    }
  }

  /**
   * Keys outside the match statement are ignored: adding one to a dict does
   * not change what it decodes to.
   */
  lemma DecodeIgnoresOtherKeys(m: seq<(string, Json)>, k: string, v: Json)
    requires k !in CASE_ORDER
    ensures Decode(JObj(m + [(k, v)])) == Decode(JObj(m))
  {
    forall key | key in CASE_ORDER ensures OrderedDict.Get(m + [(k, v)], key) == OrderedDict.Get(m, key) {
      OrderedDict.GetAppend(m, k, v, key);
    }
  }

  /**
   * A single-key object decodes to the variant its key names, carrying the
   * string payload verbatim; `{"shutdown_host": null}` decodes to ShutdownHost,
   * and a non-null shutdown_host value matches no case.
   */
  lemma DecodeSingleKey(key: string, v: Json)
    requires key in CASE_ORDER
    ensures key != "shutdown_host" && v.JStr? ==>
      Decode(JObj([(key, v)])).Success? &&
      Tag(Decode(JObj([(key, v)])).value) == key &&
      Decode(JObj([(key, v)])).value == (if key == "assign_host" then AssignHost(v.s) else
                                          if key == "install" then Install(v.s) else
                                          if key == "set_default" then SetDefault(v.s) else
                                          if key == "start" then Start(v.s) else
                                          if key == "stop" then Stop(v.s) else Uninstall(v.s))
    ensures key == "shutdown_host" ==>
      Decode(JObj([(key, v)])) == (if v == JNull then Success(ShutdownHost) else Failure(NoMatchingCase))
  {
    var m := [(key, v)];
    forall k | k in CASE_ORDER ensures OrderedDict.Get(m, k) == if k == key then Some(v) else None {
      OrderedDict.GetAppend([], key, v, k);
    }
  }

  /** Round trip: every command, ShutdownHost included, decodes back from its encoding. */
  lemma DecodeEncode(c: Command)
    ensures Decode(Encode(c)) == Success(c)
  {
    var m := Encode(c).members;
    forall k | k in CASE_ORDER ensures OrderedDict.Get(m, k) == if k == Tag(c) then Some(m[0].1) else None {
      OrderedDict.GetAppend([], m[0].0, m[0].1, k);
      assert m == [] + [(m[0].0, m[0].1)];
    }
  }

  /**
   * Round trip the other way: a single-key object whose key is a case key and
   * whose payload is a string (null for shutdown_host) is exactly the encoding
   * of what it decodes to.
   */
  lemma EncodeDecode(key: string, v: Json)
    requires key in CASE_ORDER
    requires if key == "shutdown_host" then v == JNull else v.JStr?
    ensures Decode(JObj([(key, v)])).Success?
    ensures Encode(Decode(JObj([(key, v)])).value) == JObj([(key, v)])
  {
    DecodeSingleKey(key, v);
  }

  /**
   * `assign_uid`: encodes `{"assign_host": uid}` and decodes it again, which
   * gives the AssignHost command for exactly the uid just generated.
   */
  function AssignUid(uid: UuidHex): (r: Result<Command, DecodeError>)
    ensures r.Success? && r.value.AssignHost? && r.value.uid == uid
    ensures |r.value.uid| == 32
  {
    DecodeEncode(AssignHost(uid));
    Decode(Encode(AssignHost(uid)))
  }
}
