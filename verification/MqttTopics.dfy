/** The topics the service listens to and publishes on, their parsers and builders. */
module MqttTopics {
  import opened Wrappers

  // ---------------------------------------------------------------- identifiers

  predicate IsAlphanumeric(c: char) {
    '0' <= c <= '9' || 'A' <= c <= 'Z' || 'a' <= c <= 'z'
  }

  predicate IsValidDeviceId(id: string) {
    0 < |id| <= 20 && forall k :: 0 <= k < |id| ==> IsAlphanumeric(id[k]) || id[k] in {'.', '_', ':', '-'}
  }

  predicate IsValidSourceId(id: string) {
    0 < |id| <= 64 && forall k :: 0 <= k < |id| ==> IsAlphanumeric(id[k]) || id[k] in {'.', '_', '-'}
  }

  // ---------------------------------------------------------------- segments

  function Segments(topic: string): (segments: seq<string>)
    ensures |segments| > 0
  {
    if topic == "" then [""]
    else
      var rest := Segments(topic[1..]);
      if topic[0] == '/' then [""] + rest else [[topic[0]] + rest[0]] + rest[1..]
  }

  lemma {:induction false} FirstSegment(first: string, rest: string)
    requires '/' !in first
    ensures Segments(first) == [first]
    ensures Segments(first + ("/" + rest)) == [first] + Segments(rest)
  {
    if first == "" {
      assert first + ("/" + rest) == "/" + rest;
      assert ("/" + rest)[1..] == rest;
    } else {
      FirstSegment(first[1..], rest);
      assert (first + ("/" + rest))[1..] == first[1..] + ("/" + rest);
      assert first == [first[0]] + first[1..];
    }
  }

  /** A topic of one id between the namespace and the rest. */
  lemma DeviceSegments(topicNamespace: string, id: string, tail: string)
    requires '/' !in topicNamespace && '/' !in id
    ensures Segments(topicNamespace + "/" + id + ("/" + tail)) == [topicNamespace, id] + Segments(tail)
  {
    assert topicNamespace + "/" + id + ("/" + tail) == topicNamespace + ("/" + (id + ("/" + tail)));
    FirstSegment(topicNamespace, id + ("/" + tail));
    FirstSegment(id, tail);
  }

  lemma NestedPath(topicNamespace: string, name: string, id: string, tail: string)
    ensures topicNamespace + ("/" + name + "/") + id + ("/" + tail) ==
            topicNamespace + ("/" + (name + ("/" + (id + ("/" + tail)))))
  {
    assert "/" + name + "/" == "/" + (name + "/");
    assert (name + "/") + (id + ("/" + tail)) == name + ("/" + (id + ("/" + tail)));
  }

  lemma NamedSegments(topicNamespace: string, name: string, id: string, tail: string)
    requires '/' !in topicNamespace && '/' !in name && '/' !in id
    ensures Segments(topicNamespace + ("/" + name + "/") + id + ("/" + tail)) == [topicNamespace, name, id] + Segments(tail)
  {
    NestedPath(topicNamespace, name, id, tail);
    hide Segments;
    FirstSegment(topicNamespace, name + ("/" + (id + ("/" + tail))));
    FirstSegment(name, id + ("/" + tail));
    FirstSegment(id, tail);
  }

  lemma TwoSegments(a: string, b: string)
    requires '/' !in a && '/' !in b
    ensures Segments(a + ("/" + b)) == [a, b]
  {
    FirstSegment(a, b);
    FirstSegment(b, "");
  }

  // ---------------------------------------------------------------- topics

  datatype Inbound = Registration | Telemetry | ConfigAck | ControlAck | ConfigRequest | ControlRequest

  datatype Outbound = Directory | State | SourceConfigAck | SourceControlAck | ConfigSet | ControlSet

  predicate IsValidId(kind: Inbound, id: string) {
    if kind.ConfigRequest? || kind.ControlRequest? then IsValidSourceId(id) else IsValidDeviceId(id)
  }

  /** The segments of an inbound topic. */
  function Shape(kind: Inbound, topicNamespace: string, id: string): seq<string> {
    match kind
    case Registration => [topicNamespace, id, "registration"]
    case Telemetry => [topicNamespace, id, "telemetry", "snapshot", "v1"]
    case ConfigAck => [topicNamespace, id, "config", "ack"]
    case ControlAck => [topicNamespace, id, "control", "ack"]
    case ConfigRequest => [topicNamespace, "sources", id, "config", "request"]
    case ControlRequest => [topicNamespace, "sources", id, "control", "request"]
  }

  /** What follows the id. */
  function Suffix(kind: Inbound): string {
    match kind
    case Registration => "/registration"
    case Telemetry => "/telemetry/snapshot/v1"
    case ConfigAck => "/config/ack"
    case ControlAck => "/control/ack"
    case ConfigRequest => "/config/request"
    case ControlRequest => "/control/request"
  }

  function Prefix(kind: Inbound, topicNamespace: string): string {
    if kind.ConfigRequest? || kind.ControlRequest? then topicNamespace + "/sources/" else topicNamespace + "/"
  }

  function InboundTopic(kind: Inbound, topicNamespace: string, id: string): string {
    Prefix(kind, topicNamespace) + id + Suffix(kind)
  }

  lemma TelemetryTail()
    ensures Segments("telemetry/snapshot/v1") == ["telemetry", "snapshot", "v1"]
    ensures Segments("registration") == ["registration"] && Segments("state") == ["state"]
  {
    hide Segments;
    FirstSegment("registration", "");
    FirstSegment("state", "");
    assert "telemetry/snapshot/v1" == "telemetry" + ("/" + "snapshot/v1");
    assert "snapshot/v1" == "snapshot" + ("/" + "v1");
    FirstSegment("telemetry", "snapshot/v1");
    TwoSegments("snapshot", "v1");
  }

  lemma ConfigTails()
    ensures Segments("config/ack") == ["config", "ack"] && Segments("config/set") == ["config", "set"]
    ensures Segments("config/request") == ["config", "request"]
  {
    hide Segments;
    TwoSegments("config", "ack");
    TwoSegments("config", "request");
    TwoSegments("config", "set");
    assert "config" + ("/" + "ack") == "config/ack" && "config" + ("/" + "set") == "config/set";
    assert "config" + ("/" + "request") == "config/request";
  }

  lemma ControlTails()
    ensures Segments("control/ack") == ["control", "ack"] && Segments("control/set") == ["control", "set"]
    ensures Segments("control/request") == ["control", "request"]
    ensures Segments("devices/directory") == ["devices", "directory"]
  {
    hide Segments;
    TwoSegments("control", "ack");
    TwoSegments("control", "request");
    TwoSegments("control", "set");
    TwoSegments("devices", "directory");
    assert "control" + ("/" + "ack") == "control/ack" && "control" + ("/" + "set") == "control/set";
    assert "control" + ("/" + "request") == "control/request";
    assert "devices" + ("/" + "directory") == "devices/directory";
  }

  lemma TailSegments()
    ensures Segments("registration") == ["registration"] && Segments("state") == ["state"]
    ensures Segments("telemetry/snapshot/v1") == ["telemetry", "snapshot", "v1"]
    ensures Segments("config/ack") == ["config", "ack"] && Segments("control/ack") == ["control", "ack"]
    ensures Segments("config/request") == ["config", "request"] && Segments("control/request") == ["control", "request"]
    ensures Segments("config/set") == ["config", "set"] && Segments("control/set") == ["control", "set"]
    ensures Segments("devices/directory") == ["devices", "directory"]
  {
    hide Segments;
    TelemetryTail();
    ConfigTails();
    ControlTails();
  }

  lemma ValidIdHasNoSlash(kind: Inbound, id: string)
    requires IsValidId(kind, id)
    ensures '/' !in id && id != ""
  {
  }

  lemma InboundSegments(kind: Inbound, topicNamespace: string, id: string)
    requires '/' !in topicNamespace && '/' !in id
    ensures Segments(InboundTopic(kind, topicNamespace, id)) == Shape(kind, topicNamespace, id)
  {
    hide Segments;
    var tail := Suffix(kind)[1..];
    SuffixSegments(kind);
    ShapeParts(kind, topicNamespace, id);
    hide Suffix, Shape, Rest;
    if kind.ConfigRequest? || kind.ControlRequest? {
      NamedSegments(topicNamespace, "sources", id, tail);
      assert "/" + "sources" + "/" == "/sources/";
    } else {
      DeviceSegments(topicNamespace, id, tail);
    }
  }

  /** The segments after the id. */
  function Rest(kind: Inbound): seq<string> {
    match kind
    case Registration => ["registration"]
    case Telemetry => ["telemetry", "snapshot", "v1"]
    case ConfigAck => ["config", "ack"]
    case ControlAck => ["control", "ack"]
    case ConfigRequest => ["config", "request"]
    case ControlRequest => ["control", "request"]
  }

  lemma ShapeParts(kind: Inbound, topicNamespace: string, id: string)
    ensures Shape(kind, topicNamespace, id) ==
            (if kind.ConfigRequest? || kind.ControlRequest? then [topicNamespace, "sources", id] else [topicNamespace, id]) +
            Rest(kind)
  {
  }

  lemma SuffixSegments(kind: Inbound)
    ensures Suffix(kind) == "/" + Suffix(kind)[1..] && Segments(Suffix(kind)[1..]) == Rest(kind)
  {
    hide Segments;
    TailSegments();
    match kind
    case Registration => assert Suffix(kind)[1..] == "registration";
    case Telemetry => assert Suffix(kind)[1..] == "telemetry/snapshot/v1";
    case ConfigAck => assert Suffix(kind)[1..] == "config/ack";
    case ControlAck => assert Suffix(kind)[1..] == "control/ack";
    case ConfigRequest => assert Suffix(kind)[1..] == "config/request";
    case ControlRequest => assert Suffix(kind)[1..] == "control/request";
  }

  // ---------------------------------------------------------------- parsers

  predicate StartsWith(text: string, prefix: string) {
    |prefix| <= |text| && text[..|prefix|] == prefix
  }

  predicate EndsWith(text: string, suffix: string) {
    |suffix| <= |text| && text[|text| - |suffix|..] == suffix
  }

  /** The id between a prefix and a suffix, when there is one and it is valid. */
  function Between(topic: string, kind: Inbound, topicNamespace: string): Option<string> {
    var prefix := Prefix(kind, topicNamespace);
    var suffix := Suffix(kind);
    if !StartsWith(topic, prefix) || !EndsWith(topic, suffix) || |topic| <= |prefix| + |suffix| then None
    else
      var id := topic[|prefix|..|topic| - |suffix|];
      if IsValidId(kind, id) then Some(id) else None
  }

  function Find(topic: string, from: nat): Option<nat>
    requires from <= |topic|
    decreases |topic| - from
  {
    if from == |topic| then None else if topic[from] == '/' then Some(from) else Find(topic, from + 1)
  }

  lemma {:induction false} FindFirst(topic: string, from: nat, at: nat)
    requires from <= at < |topic| && topic[at] == '/' && forall k :: from <= k < at ==> topic[k] != '/'
    ensures Find(topic, from) == Some(at)
    decreases at - from
  {
    if from < at {
      FindFirst(topic, from + 1, at);
    }
  }

  lemma {:induction false} FoundAt(topic: string, from: nat)
    requires from <= |topic|
    ensures Find(topic, from).Some? ==>
              from <= Find(topic, from).value < |topic| && topic[Find(topic, from).value] == '/' &&
              forall k :: from <= k < Find(topic, from).value ==> topic[k] != '/'
    decreases |topic| - from
  {
    if from < |topic| && topic[from] != '/' {
      FoundAt(topic, from + 1);
    }
  }

  /** The id and the rest of a topic in the namespace, cut at the first two slashes. */
  function Cut(topicNamespace: string, topic: string): Option<(string, string)> {
    FoundAt(topic, 0);
    var first := Find(topic, 0);
    if first.None? then None
    else
      FoundAt(topic, first.value + 1);
      var second := Find(topic, first.value + 1);
      if second.None? || topic[..first.value] != topicNamespace then None
      else Some((topic[first.value + 1..second.value], topic[second.value + 1..]))
  }

  /** The parser of registrations and telemetry. */
  function ParseDeviceTopic(topicNamespace: string, topic: string): Option<(string, Inbound)> {
    match Cut(topicNamespace, topic)
    case None => None
    case Some((id, suffix)) =>
      if !IsValidDeviceId(id) then None
      else if suffix == "registration" then Some((id, Registration))
      else if suffix == "telemetry/snapshot/v1" then Some((id, Telemetry))
      else None
  }

  /** The parser that is tried for topics of a kind. */
  function Parse(kind: Inbound, topicNamespace: string, topic: string): Option<string> {
    if kind.Registration? || kind.Telemetry? then
      var parsed := ParseDeviceTopic(topicNamespace, topic);
      if parsed.Some? && parsed.value.1 == kind then Some(parsed.value.0) else None
    else Between(topic, kind, topicNamespace)
  }

  lemma BetweenInverts(kind: Inbound, topicNamespace: string, topic: string, id: string)
    ensures Between(topic, kind, topicNamespace) == Some(id) <==>
              IsValidId(kind, id) && topic == InboundTopic(kind, topicNamespace, id)
  {
    var prefix := Prefix(kind, topicNamespace);
    var suffix := Suffix(kind);
    if Between(topic, kind, topicNamespace) == Some(id) {
      assert topic == topic[..|prefix|] + id + topic[|topic| - |suffix|..];
    }
    if topic == prefix + id + suffix && IsValidId(kind, id) {
      assert topic[..|prefix|] == prefix && topic[|topic| - |suffix|..] == suffix;
      assert topic[|prefix|..|topic| - |suffix|] == id;
    }
  }

  lemma Slices(a: string, b: string, c: string)
    ensures var topic := a + "/" + b + ("/" + c);
            var second := |a| + 1 + |b|;
            && |topic| == second + 1 + |c| && topic[|a|] == '/' && topic[second] == '/'
            && topic[..|a|] == a && topic[|a| + 1..second] == b && topic[second + 1..] == c
  {
  }

  lemma FindSegment(topic: string, from: nat, at: nat)
    requires from <= at < |topic| && topic[at] == '/' && '/' !in topic[from..at]
    ensures Find(topic, from) == Some(at)
  {
    forall k | from <= k < at ensures topic[k] != '/' {
      assert topic[k] == topic[from..at][k - from];
    }
    FindFirst(topic, from, at);
  }

  /** Where the first two slashes of a topic are. */
  lemma CutTopic(topicNamespace: string, id: string, tail: string)
    requires '/' !in topicNamespace && '/' !in id
    ensures var topic := topicNamespace + "/" + id + ("/" + tail);
            var second := |topicNamespace| + 1 + |id|;
            && |topic| > second
            && Find(topic, 0) == Some(|topicNamespace|) && Find(topic, |topicNamespace| + 1) == Some(second)
            && topic[..|topicNamespace|] == topicNamespace && topic[|topicNamespace| + 1..second] == id
            && topic[second + 1..] == tail
  {
    var topic := topicNamespace + "/" + id + ("/" + tail);
    Slices(topicNamespace, id, tail);
    hide Find;
    assert topic[0..|topicNamespace|] == topicNamespace;
    FindSegment(topic, 0, |topicNamespace|);
    FindSegment(topic, |topicNamespace| + 1, |topicNamespace| + 1 + |id|);
  }

  lemma UncutTopic(topic: string, first: nat, second: nat)
    requires first < second < |topic| && topic[first] == '/' && topic[second] == '/'
    ensures topic == topic[..first] + "/" + topic[first + 1..second] + ("/" + topic[second + 1..])
  {
  }

  /** The last part of a registration or telemetry topic. */
  function LastPart(kind: Inbound): string {
    if kind.Registration? then "registration" else "telemetry/snapshot/v1"
  }

  lemma LastPartText(kind: Inbound)
    requires kind.Registration? || kind.Telemetry?
    ensures Suffix(kind) == "/" + LastPart(kind)
    ensures LastPart(Registration) != LastPart(Telemetry)
  {
  }

  lemma CutIsTopic(topicNamespace: string, topic: string)
    ensures Cut(topicNamespace, topic).Some? ==>
              topic == topicNamespace + "/" + Cut(topicNamespace, topic).value.0 + ("/" + Cut(topicNamespace, topic).value.1)
  {
    if Cut(topicNamespace, topic).Some? {
      FoundAt(topic, 0);
      var first := Find(topic, 0).value;
      FoundAt(topic, first + 1);
      var second := Find(topic, first + 1).value;
      hide Find;
      UncutTopic(topic, first, second);
    }
  }

  lemma DeviceTopicParts(topicNamespace: string, topic: string, id: string, kind: Inbound)
    requires ParseDeviceTopic(topicNamespace, topic) == Some((id, kind))
    ensures kind.Registration? || kind.Telemetry?
    ensures IsValidDeviceId(id) && topic == topicNamespace + "/" + id + ("/" + LastPart(kind))
  {
    hide IsValidDeviceId, Cut;
    CutIsTopic(topicNamespace, topic);
  }

  lemma DeviceTopicIsForm(kind: Inbound, topicNamespace: string, topic: string, id: string)
    requires ParseDeviceTopic(topicNamespace, topic) == Some((id, kind))
    ensures IsValidDeviceId(id) && topic == InboundTopic(kind, topicNamespace, id)
  {
    DeviceTopicParts(topicNamespace, topic, id, kind);
    LastPartText(kind);
    hide ParseDeviceTopic, Suffix, LastPart, IsValidDeviceId;
  }

  lemma PartsAreDeviceTopic(kind: Inbound, topicNamespace: string, id: string)
    requires (kind.Registration? || kind.Telemetry?) && '/' !in topicNamespace && IsValidDeviceId(id) && '/' !in id
    ensures ParseDeviceTopic(topicNamespace, topicNamespace + "/" + id + ("/" + LastPart(kind))) == Some((id, kind))
  {
    CutTopic(topicNamespace, id, LastPart(kind));
    LastPartText(kind);
    hide IsValidDeviceId, Find;
  }

  lemma FormIsDeviceTopic(kind: Inbound, topicNamespace: string, id: string)
    requires (kind.Registration? || kind.Telemetry?) && '/' !in topicNamespace && IsValidDeviceId(id)
    ensures ParseDeviceTopic(topicNamespace, InboundTopic(kind, topicNamespace, id)) == Some((id, kind))
  {
    ValidIdHasNoSlash(kind, id);
    PartsAreDeviceTopic(kind, topicNamespace, id);
    LastPartText(kind);
    hide ParseDeviceTopic, Suffix, LastPart;
  }

  lemma DeviceTopicInverts(kind: Inbound, topicNamespace: string, topic: string, id: string)
    requires (kind.Registration? || kind.Telemetry?) && '/' !in topicNamespace
    ensures ParseDeviceTopic(topicNamespace, topic) == Some((id, kind)) <==>
              IsValidDeviceId(id) && topic == InboundTopic(kind, topicNamespace, id)
  {
    hide ParseDeviceTopic, InboundTopic;
    if ParseDeviceTopic(topicNamespace, topic) == Some((id, kind)) {
      DeviceTopicIsForm(kind, topicNamespace, topic, id);
    }
    if IsValidDeviceId(id) && topic == InboundTopic(kind, topicNamespace, id) {
      FormIsDeviceTopic(kind, topicNamespace, id);
    }
  }

  /** Each inbound parser inverts its topic form, both ways. */
  lemma ParserInvertsForm(kind: Inbound, topicNamespace: string, topic: string, id: string)
    requires '/' !in topicNamespace
    ensures Parse(kind, topicNamespace, topic) == Some(id) <==>
              IsValidId(kind, id) && topic == InboundTopic(kind, topicNamespace, id)
  {
    if kind.Registration? || kind.Telemetry? {
      DeviceTopicInverts(kind, topicNamespace, topic, id);
    } else {
      BetweenInverts(kind, topicNamespace, topic, id);
    }
  }

  // ---------------------------------------------------------------- separation

  /** No topic is accepted by two parsers. */
  lemma ParsersAreSeparate(a: Inbound, b: Inbound, topicNamespace: string, topic: string)
    requires '/' !in topicNamespace && a != b
    ensures Parse(a, topicNamespace, topic).None? || Parse(b, topicNamespace, topic).None?
  {
    if Parse(a, topicNamespace, topic).Some? {
      var id := Parse(a, topicNamespace, topic).value;
      ParserInvertsForm(a, topicNamespace, topic, id);
      ValidIdHasNoSlash(a, id);
      InboundSegments(a, topicNamespace, id);
      forall other | Parse(b, topicNamespace, topic) == Some(other) ensures false {
        ParserInvertsForm(b, topicNamespace, topic, other);
        ValidIdHasNoSlash(b, other);
        InboundSegments(b, topicNamespace, other);
        ShapesDiffer(a, b, topicNamespace, id, other);
      }
    }
  }

  lemma ShapesDiffer(a: Inbound, b: Inbound, topicNamespace: string, id: string, other: string)
    requires a != b
    ensures Shape(a, topicNamespace, id) != Shape(b, topicNamespace, other)
  {
    var (x, y) := (Shape(a, topicNamespace, id), Shape(b, topicNamespace, other));
    var (lastX, lastY) := (x[|x| - 1], y[|y| - 1]);
    var (nextX, nextY) := (x[|x| - 2], y[|y| - 2]);
    assert lastX != lastY || nextX != nextY || |x| != |y|;
  }

  /** What the service itself publishes; `id` is a device for some kinds and a source for others. */
  function OutboundTopic(kind: Outbound, topicNamespace: string, id: string): string {
    match kind
    case Directory => topicNamespace + "/events/devices/directory"
    case State => topicNamespace + "/events/devices/" + id + "/state"
    case SourceConfigAck => topicNamespace + "/sources/" + id + "/config/ack"
    case SourceControlAck => topicNamespace + "/sources/" + id + "/control/ack"
    case ConfigSet => topicNamespace + "/" + id + "/config/set"
    case ControlSet => topicNamespace + "/" + id + "/control/set"
  }

  function OutboundShape(kind: Outbound, topicNamespace: string, id: string): seq<string> {
    match kind
    case Directory => [topicNamespace, "events", "devices", "directory"]
    case State => [topicNamespace, "events", "devices", id, "state"]
    case SourceConfigAck => [topicNamespace, "sources", id, "config", "ack"]
    case SourceControlAck => [topicNamespace, "sources", id, "control", "ack"]
    case ConfigSet => [topicNamespace, id, "config", "set"]
    case ControlSet => [topicNamespace, id, "control", "set"]
  }

  lemma DirectorySegments(topicNamespace: string, id: string)
    requires '/' !in topicNamespace
    ensures Segments(OutboundTopic(Directory, topicNamespace, id)) == OutboundShape(Directory, topicNamespace, id)
  {
    hide Segments;
    TailSegments();
    DeviceSegments(topicNamespace, "events", "devices/directory");
    assert OutboundTopic(Directory, topicNamespace, id) ==
           topicNamespace + "/" + "events" + ("/" + "devices/directory");
  }

  lemma SetSegments(kind: Outbound, topicNamespace: string, id: string)
    requires '/' !in topicNamespace && '/' !in id && (kind.ConfigSet? || kind.ControlSet?)
    ensures Segments(OutboundTopic(kind, topicNamespace, id)) == OutboundShape(kind, topicNamespace, id)
  {
    hide Segments;
    TailSegments();
    if kind.ConfigSet? {
      DeviceSegments(topicNamespace, id, "config/set");
      assert OutboundTopic(kind, topicNamespace, id) == topicNamespace + "/" + id + ("/" + "config/set");
    } else {
      DeviceSegments(topicNamespace, id, "control/set");
      assert OutboundTopic(kind, topicNamespace, id) == topicNamespace + "/" + id + ("/" + "control/set");
    }
  }

  lemma StateSegments(topicNamespace: string, id: string)
    requires '/' !in topicNamespace && '/' !in id
    ensures Segments(OutboundTopic(State, topicNamespace, id)) == OutboundShape(State, topicNamespace, id)
  {
    hide Segments;
    NamedSegments(topicNamespace, "events", "devices", id + ("/" + "state"));
    TwoSegments(id, "state");
    assert OutboundTopic(State, topicNamespace, id) ==
           topicNamespace + ("/" + "events" + "/") + "devices" + ("/" + (id + ("/" + "state")));
  }

  lemma SourceAckSegments(kind: Outbound, topicNamespace: string, id: string)
    requires '/' !in topicNamespace && '/' !in id && (kind.SourceConfigAck? || kind.SourceControlAck?)
    ensures Segments(OutboundTopic(kind, topicNamespace, id)) == OutboundShape(kind, topicNamespace, id)
  {
    hide Segments;
    TailSegments();
    var tail := if kind.SourceConfigAck? then "config/ack" else "control/ack";
    NamedSegments(topicNamespace, "sources", id, tail);
    assert OutboundTopic(kind, topicNamespace, id) == topicNamespace + ("/" + "sources" + "/") + id + ("/" + tail);
  }

  lemma OutboundSegments(kind: Outbound, topicNamespace: string, id: string)
    requires '/' !in topicNamespace && '/' !in id
    ensures Segments(OutboundTopic(kind, topicNamespace, id)) == OutboundShape(kind, topicNamespace, id)
  {
    hide Segments;
    match kind
    case State => StateSegments(topicNamespace, id);
    case SourceConfigAck => SourceAckSegments(kind, topicNamespace, id);
    case SourceControlAck => SourceAckSegments(kind, topicNamespace, id);
    case Directory => DirectorySegments(topicNamespace, id);
    case _ => SetSegments(kind, topicNamespace, id);
  }

  lemma OutboundDiffers(a: Inbound, b: Outbound, topicNamespace: string, id: string, other: string)
    ensures Shape(a, topicNamespace, id) != OutboundShape(b, topicNamespace, other)
  {
    var (x, y) := (Shape(a, topicNamespace, id), OutboundShape(b, topicNamespace, other));
    var (lastX, lastY) := (x[|x| - 1], y[|y| - 1]);
    var (nextX, nextY) := (x[|x| - 2], y[|y| - 2]);
    assert lastX != lastY || nextX != nextY || |x| != |y|;
  }

  /** Nothing the service publishes for a slash-free id comes back in through an inbound parser. */
  lemma NothingComesBack(a: Inbound, b: Outbound, topicNamespace: string, id: string)
    requires '/' !in topicNamespace && '/' !in id
    ensures Parse(a, topicNamespace, OutboundTopic(b, topicNamespace, id)).None?
  {
    var topic := OutboundTopic(b, topicNamespace, id);
    OutboundSegments(b, topicNamespace, id);
    forall other | Parse(a, topicNamespace, topic) == Some(other) ensures false {
      ParserInvertsForm(a, topicNamespace, topic, other);
      ValidIdHasNoSlash(a, other);
      InboundSegments(a, topicNamespace, other);
      OutboundDiffers(a, b, topicNamespace, other, id);
    }
  }
}
