/** The control protocol's messages and frames (crates/common/src/proto.rs, and `read_frame`
    of crates/server/src/control.rs and crates/node/src/main.rs). */
module Wire {
  import opened Wrappers
  import opened Ports
  import Control
  import opened Json
  import opened Utf8

  datatype Message =
    | Register(reg: Control.Register)
    | Registered(remotePort: Port, nodeHost: Option<string>, nodePort: Option<Port>)
    | NewConn(connId: string, nodeHost: Option<string>, nodePort: Option<Port>)
    | DataConn(connId: string)
    | VisitorConn(tunnelId: string, connId: string)
    | RegisterNode(token: string, name: string, dataPort: Port)
    | NodeRegistered(nodeId: string)
    | OpenTunnel(tunnelId: string, remotePort: Port)
    | CloseTunnel(tunnelId: string)
    | Error(reason: string)

  // ---- Field names ----

  datatype Key =
    | KType | KToken | KProtocol | KLocalPort | KRemotePort | KNode | KHostname | KNodeHost | KNodePort
    | KConnId | KTunnelId | KName | KDataPort | KNodeId | KReason | KOther(other: string)

  function KeyName(k: Key): string {
    match k
    case KType => "type"
    case KToken => "token"
    case KProtocol => "protocol"
    case KLocalPort => "local_port"
    case KRemotePort => "remote_port"
    case KNode => "node"
    case KHostname => "hostname"
    case KNodeHost => "node_host"
    case KNodePort => "node_port"
    case KConnId => "conn_id"
    case KTunnelId => "tunnel_id"
    case KName => "name"
    case KDataPort => "data_port"
    case KNodeId => "node_id"
    case KReason => "reason"
    case KOther(other) => other
  }

  function KeyOf(s: string): Key {
    if s == "type" then KType else if s == "token" then KToken
    else if s == "protocol" then KProtocol else if s == "local_port" then KLocalPort
    else if s == "remote_port" then KRemotePort else if s == "node" then KNode
    else if s == "hostname" then KHostname else if s == "node_host" then KNodeHost
    else if s == "node_port" then KNodePort else if s == "conn_id" then KConnId
    else if s == "tunnel_id" then KTunnelId else if s == "name" then KName
    else if s == "data_port" then KDataPort else if s == "node_id" then KNodeId
    else if s == "reason" then KReason else KOther(s)
  }

  lemma KeyRoundTrip(k: Key)
    requires !k.KOther?
    ensures KeyOf(KeyName(k)) == k
  {
  }

  datatype Kind =
    | MRegister | MRegistered | MNewConn | MDataConn | MVisitorConn
    | MRegisterNode | MNodeRegistered | MOpenTunnel | MCloseTunnel | MError

  /** The snake_case tag of a variant. */
  function KindName(k: Kind): string {
    match k
    case MRegister => "register"
    case MRegistered => "registered"
    case MNewConn => "new_conn"
    case MDataConn => "data_conn"
    case MVisitorConn => "visitor_conn"
    case MRegisterNode => "register_node"
    case MNodeRegistered => "node_registered"
    case MOpenTunnel => "open_tunnel"
    case MCloseTunnel => "close_tunnel"
    case MError => "error"
  }

  function KindOf(s: string): Option<Kind> {
    if s == "register" then Some(MRegister) else if s == "registered" then Some(MRegistered)
    else if s == "new_conn" then Some(MNewConn) else if s == "data_conn" then Some(MDataConn)
    else if s == "visitor_conn" then Some(MVisitorConn) else if s == "register_node" then Some(MRegisterNode)
    else if s == "node_registered" then Some(MNodeRegistered) else if s == "open_tunnel" then Some(MOpenTunnel)
    else if s == "close_tunnel" then Some(MCloseTunnel) else if s == "error" then Some(MError)
    else None
  }

  lemma KindRoundTrip(k: Kind)
    ensures KindOf(KindName(k)) == Some(k)
  {
  }

  // ---- The envelope ----

  type Keyed = seq<(Key, Value)>

  function OptText(o: Option<string>): Value {
    if o.Some? then String(o.value) else Null
  }

  function OptPort(o: Option<Port>): Value {
    if o.Some? then Number(o.value) else Null
  }

  function KindFor(m: Message): Kind {
    match m
    case Register(_) => MRegister
    case Registered(_, _, _) => MRegistered
    case NewConn(_, _, _) => MNewConn
    case DataConn(_) => MDataConn
    case VisitorConn(_, _) => MVisitorConn
    case RegisterNode(_, _, _) => MRegisterNode
    case NodeRegistered(_) => MNodeRegistered
    case OpenTunnel(_, _) => MOpenTunnel
    case CloseTunnel(_) => MCloseTunnel
    case Error(_) => MError
  }

  /** The payload's fields in declaration order, `None` as null. */
  function Payload(m: Message): Keyed {
    match m
    case Register(r) =>
      [(KToken, String(r.token)), (KProtocol, String(Control.ProtocolName(r.protocol))),
       (KLocalPort, Number(r.localPort)), (KRemotePort, OptPort(r.remotePort)),
       (KNode, OptText(r.node)), (KHostname, OptText(r.hostname))]
    case Registered(remotePort, nodeHost, nodePort) =>
      [(KRemotePort, Number(remotePort)), (KNodeHost, OptText(nodeHost)), (KNodePort, OptPort(nodePort))]
    case NewConn(connId, nodeHost, nodePort) =>
      [(KConnId, String(connId)), (KNodeHost, OptText(nodeHost)), (KNodePort, OptPort(nodePort))]
    case DataConn(connId) => [(KConnId, String(connId))]
    case VisitorConn(tunnelId, connId) => [(KTunnelId, String(tunnelId)), (KConnId, String(connId))]
    case RegisterNode(token, name, dataPort) =>
      [(KToken, String(token)), (KName, String(name)), (KDataPort, Number(dataPort))]
    case NodeRegistered(nodeId) => [(KNodeId, String(nodeId))]
    case OpenTunnel(tunnelId, remotePort) => [(KTunnelId, String(tunnelId)), (KRemotePort, Number(remotePort))]
    case CloseTunnel(tunnelId) => [(KTunnelId, String(tunnelId))]
    case Error(reason) => [(KReason, String(reason))]
  }

  function ToKeyed(m: Message): Keyed {
    [(KType, String(KindName(KindFor(m))))] + Payload(m)
  }

  /** How often a key occurs, and with what value. */
  datatype Slot = Absent | One(v: Value) | Many

  function Lookup(fields: Keyed, k: Key): Slot {
    if fields == [] then Absent
    else if fields[0].0 != k then Lookup(fields[1..], k)
    else if Lookup(fields[1..], k).Absent? then One(fields[0].1) else Many
  }

  function GetText(s: Slot): Option<string> {
    if s.One? && s.v.String? then Some(s.v.s) else None
  }

  function GetPort(s: Slot): Option<Port> {
    if s.One? && s.v.Number? && s.v.n < 0x1_0000 then Some(s.v.n) else None
  }

  /** An optional field may be missing or null; anything else must have the right type. */
  function GetOptText(s: Slot): Option<Option<string>> {
    if s.Absent? || s == One(Null) then Some(None)
    else if GetText(s).Some? then Some(GetText(s)) else None
  }

  function GetOptPort(s: Slot): Option<Option<Port>> {
    if s.Absent? || s == One(Null) then Some(None)
    else if GetPort(s).Some? then Some(GetPort(s)) else None
  }

  function GetProtocol(s: Slot): Option<Control.Protocol> {
    if s == One(String("tcp")) then Some(Control.Tcp)
    else if s == One(String("http")) then Some(Control.Http) else None
  }

  function RegisterOf(f: Keyed): Option<Message> {
    var token, local := GetText(Lookup(f, KToken)), GetPort(Lookup(f, KLocalPort));
    var protocol, remote := GetProtocol(Lookup(f, KProtocol)), GetOptPort(Lookup(f, KRemotePort));
    var node, host := GetOptText(Lookup(f, KNode)), GetOptText(Lookup(f, KHostname));
    if token.Some? && protocol.Some? && local.Some? && remote.Some? && node.Some? && host.Some?
    then Some(Register(Control.Register(
      token.value, protocol.value, local.value, remote.value, node.value, host.value)))
    else None
  }

  /** The fields select the variant and fill it; unknown fields are ignored. */
  function FromKeyed(f: Keyed): Option<Message> {
    var tag := GetText(Lookup(f, KType));
    if tag.None? || KindOf(tag.value).None? then None else
    var conn, tunnel := GetText(Lookup(f, KConnId)), GetText(Lookup(f, KTunnelId));
    var host, port := GetOptText(Lookup(f, KNodeHost)), GetOptPort(Lookup(f, KNodePort));
    var remote := GetPort(Lookup(f, KRemotePort));
    match KindOf(tag.value).value
    case MRegister => RegisterOf(f)
    case MRegistered =>
      if remote.Some? && host.Some? && port.Some? then Some(Registered(remote.value, host.value, port.value)) else None
    case MNewConn =>
      if conn.Some? && host.Some? && port.Some? then Some(NewConn(conn.value, host.value, port.value)) else None
    case MDataConn => if conn.Some? then Some(DataConn(conn.value)) else None
    case MVisitorConn => if tunnel.Some? && conn.Some? then Some(VisitorConn(tunnel.value, conn.value)) else None
    case MRegisterNode =>
      var token, name, data := GetText(Lookup(f, KToken)), GetText(Lookup(f, KName)), GetPort(Lookup(f, KDataPort));
      if token.Some? && name.Some? && data.Some? then Some(RegisterNode(token.value, name.value, data.value)) else None
    case MNodeRegistered =>
      var id := GetText(Lookup(f, KNodeId));
      if id.Some? then Some(NodeRegistered(id.value)) else None
    case MOpenTunnel => if tunnel.Some? && remote.Some? then Some(OpenTunnel(tunnel.value, remote.value)) else None
    case MCloseTunnel => if tunnel.Some? then Some(CloseTunnel(tunnel.value)) else None
    case MError =>
      var reason := GetText(Lookup(f, KReason));
      if reason.Some? then Some(Error(reason.value)) else None
  }

  lemma {:induction false} LookupAbsent(f: Keyed, k: Key)
    requires forall i | 0 <= i < |f| :: f[i].0 != k
    ensures Lookup(f, k) == Absent
    decreases |f|
  {
    if f != [] {
      LookupAbsent(f[1..], k);
    }
  }

  lemma {:induction false} LookupAt(f: Keyed, i: nat)
    requires i < |f| && forall j | 0 <= j < |f| && j != i :: f[j].0 != f[i].0
    ensures Lookup(f, f[i].0) == One(f[i].1)
    decreases |f|
  {
    if i == 0 {
      LookupAbsent(f[1..], f[0].0);
    } else {
      LookupAt(f[1..], i - 1);
    }
  }

  predicate KnownDistinct(f: Keyed) {
    && (forall i | 0 <= i < |f| :: !f[i].0.KOther?)
    && (forall i, j | 0 <= i < j < |f| :: f[i].0 != f[j].0)
  }

  lemma LookupAll(f: Keyed)
    requires KnownDistinct(f)
    ensures forall i | 0 <= i < |f| :: Lookup(f, f[i].0) == One(f[i].1)
  {
    forall i | 0 <= i < |f| ensures Lookup(f, f[i].0) == One(f[i].1) {
      LookupAt(f, i);
    }
  }

  lemma PayloadDistinct(m: Message)
    ensures KnownDistinct(ToKeyed(m))
  {
  }

  lemma RegisterRoundTrip(m: Message)
    requires m.Register?
    ensures FromKeyed(ToKeyed(m)) == Some(m)
  {
    PayloadDistinct(m);
    LookupAll(ToKeyed(m));
    KindRoundTrip(MRegister);
    var f := ToKeyed(m);
    assert f[0].0 == KType && f[1].0 == KToken && f[2].0 == KProtocol && f[3].0 == KLocalPort;
    assert f[4].0 == KRemotePort && f[5].0 == KNode && f[6].0 == KHostname;
  }

  lemma ThreeFields(m: Message)
    requires m.Registered? || m.NewConn? || m.RegisterNode?
    ensures FromKeyed(ToKeyed(m)) == Some(m)
  {
    PayloadDistinct(m);
    LookupAll(ToKeyed(m));
    KindRoundTrip(KindFor(m));
    var f := ToKeyed(m);
    assert f[0] == (KType, String(KindName(KindFor(m)))) && f[1] == Payload(m)[0];
    assert f[2] == Payload(m)[1] && f[3] == Payload(m)[2];
  }

  lemma TwoFields(m: Message)
    requires m.VisitorConn? || m.OpenTunnel?
    ensures FromKeyed(ToKeyed(m)) == Some(m)
  {
    PayloadDistinct(m);
    LookupAll(ToKeyed(m));
    KindRoundTrip(KindFor(m));
    var f := ToKeyed(m);
    assert f[0] == (KType, String(KindName(KindFor(m)))) && f[1] == Payload(m)[0] && f[2] == Payload(m)[1];
  }

  lemma OneField(m: Message)
    requires m.DataConn? || m.NodeRegistered? || m.CloseTunnel? || m.Error?
    ensures FromKeyed(ToKeyed(m)) == Some(m)
  {
    PayloadDistinct(m);
    LookupAll(ToKeyed(m));
    KindRoundTrip(KindFor(m));
    var f := ToKeyed(m);
    assert f[0] == (KType, String(KindName(KindFor(m)))) && f[1] == Payload(m)[0];
  }

  /** The envelope gives every message back. */
  lemma EnvelopeRoundTrip(m: Message)
    ensures FromKeyed(ToKeyed(m)) == Some(m)
  {
    match m {
      case Register(_) => RegisterRoundTrip(m);
      case Registered(_, _, _) => ThreeFields(m);
      case NewConn(_, _, _) => ThreeFields(m);
      case RegisterNode(_, _, _) => ThreeFields(m);
      case VisitorConn(_, _) => TwoFields(m);
      case OpenTunnel(_, _) => TwoFields(m);
      case _ => OneField(m);
    }
  }

  // ---- Lines ----

  function Named(f: Keyed): Fields {
    seq(|f|, i requires 0 <= i < |f| => (KeyName(f[i].0), f[i].1))
  }

  function KeyedOf(f: Fields): Keyed {
    seq(|f|, i requires 0 <= i < |f| => (KeyOf(f[i].0), f[i].1))
  }

  function ToLine(m: Message): string {
    Print(Named(ToKeyed(m))) + "\n"
  }

  /** The white space that `str::trim` removes (the Unicode White_Space property). */
  predicate Blank(c: char) {
    || '\t' <= c <= '\r' || c == ' ' || c == '\U{85}' || c == '\U{A0}' || c == '\U{1680}'
    || '\U{2000}' <= c <= '\U{200A}' || c == '\U{2028}' || c == '\U{2029}' || c == '\U{202F}'
    || c == '\U{205F}' || c == '\U{3000}'
  }

  function TrimStart(s: string): string {
    if s != [] && Blank(s[0]) then TrimStart(s[1..]) else s
  }

  function TrimEnd(s: string): string {
    if s != [] && Blank(s[|s| - 1]) then TrimEnd(s[..|s| - 1]) else s
  }

  function Trim(s: string): string {
    TrimEnd(TrimStart(s))
  }

  function FromLine(line: string): Option<Message> {
    var fields := Parse(Trim(line));
    if fields.Some? then FromKeyed(KeyedOf(fields.value)) else None
  }

  lemma NamesKeep(f: Keyed)
    requires KnownDistinct(f)
    ensures KeyedOf(Named(f)) == f
  {
    forall i | 0 <= i < |f| ensures KeyOf(KeyName(f[i].0)) == f[i].0 {
      KeyRoundTrip(f[i].0);
    }
  }

  lemma TrimKeeps(s: string)
    requires |s| >= 2 && s[0] == '{' && s[|s| - 1] == '}'
    ensures Trim(s) == s && Trim(s + "\n") == s
  {
    var t := s + "\n";
    assert t[0] == '{' && t[..|t| - 1] == s;
  }

  /** A message survives being written as a line and read back, with or without its line feed. */
  lemma LineRoundTrip(m: Message)
    ensures FromLine(ToLine(m)) == Some(m)
    ensures FromLine(Print(Named(ToKeyed(m)))) == Some(m)
  {
    var fields := Named(ToKeyed(m));
    PrintEnds(fields);
    TrimKeeps(Print(fields));
    Json.RoundTrip(fields);
    PayloadDistinct(m);
    NamesKeep(ToKeyed(m));
    EnvelopeRoundTrip(m);
  }

  // ---- Frames ----

  const LF: Byte := 10

  /** Everything up to the first line feed, and what follows it; at the end of the input, the rest. */
  function Frame(input: seq<Byte>): (Option<seq<Byte>>, seq<Byte>) {
    if LF in input then
      var i := IndexOf(input);
      (Some(input[..i]), input[i + 1..])
    else (if input == [] then None else Some(input), [])
  }

  function IndexOf(input: seq<Byte>): (i: nat)
    requires LF in input
    ensures i < |input| && input[i] == LF && LF !in input[..i]
  {
    if input[0] == LF then 0 else
    assert LF in input[1..];
    var j := IndexOf(input[1..]);
    assert input[..j + 1] == [input[0]] + input[1..][..j];
    j + 1
  }

  /** A byte stream read from the front. */
  class Stream {
    var unread: seq<Byte>

    constructor (input: seq<Byte>)
      ensures unread == input
    {
      unread := input;
    }

    /** Reads one frame one byte at a time, so that nothing beyond it is consumed. */
    method ReadFrame() returns (line: Option<string>)
      modifies this
      ensures var (frame, rest) := Frame(old(unread));
              unread == rest && line == if frame.Some? then Some(Lossy(frame.value)) else None
    {
      var buf: seq<Byte> := [];
      while true
        invariant buf + unread == old(unread)
        invariant LF !in buf
        decreases |unread|
      {
        if unread == [] {
          assert buf == old(unread);
          return if buf == [] then None else Some(Lossy(buf));
        }
        var byte := unread[0];
        if byte == LF {
          FrameAt(buf, unread[1..]);
          assert old(unread) == buf + [LF] + unread[1..];
          unread := unread[1..];
          return Some(Lossy(buf));
        }
        unread := unread[1..];
        buf := buf + [byte];
      }
    }
  }

  lemma FrameAt(frame: seq<Byte>, rest: seq<Byte>)
    requires LF !in frame
    ensures Frame(frame + [LF] + rest) == (Some(frame), rest)
  {
    var input := frame + [LF] + rest;
    assert input[|frame|] == LF;
    var i := IndexOf(input);
    assert forall k | 0 <= k < |frame| :: input[k] == frame[k];
    assert forall k | 0 <= k < i :: input[..i][k] == input[k];
    assert input[..|frame|] == frame && input[|frame| + 1..] == rest;
  }

  /** Nothing is lost: what was consumed and what is left are the input. */
  lemma FrameConserves(input: seq<Byte>)
    ensures var (frame, rest) := Frame(input);
            && (frame.None? ==> input == [] && rest == [])
            && (frame.Some? && LF in input ==> input == frame.value + [LF] + rest && LF !in frame.value)
            && (frame.Some? && LF !in input ==> input == frame.value && rest == [])
  {
    if LF in input {
      var i := IndexOf(input);
      assert input == input[..i] + [input[i]] + input[i + 1..];
    }
  }

  function Bytes(ms: seq<Message>): seq<Byte> {
    if ms == [] then [] else Encode(ToLine(ms[0])) + Bytes(ms[1..])
  }

  /** Reads `n` frames and decodes each; `None` for a frame that is missing or malformed. */
  function ReadMessages(n: nat, input: seq<Byte>): (seq<Option<Message>>, seq<Byte>) {
    if n == 0 then ([], input) else
    var (frame, rest) := Frame(input);
    var m := if frame.Some? then FromLine(Lossy(frame.value)) else None;
    var more := ReadMessages(n - 1, rest);
    ([m] + more.0, more.1)
  }

  lemma FrameOfMessage(m: Message, rest: seq<Byte>)
    ensures var text := Print(Named(ToKeyed(m)));
            Frame(Encode(ToLine(m)) + rest) == (Some(Encode(text)), rest) && Lossy(Encode(text)) == text
  {
    var text := Print(Named(ToKeyed(m)));
    PrintHasNoControls(Named(ToKeyed(m)));
    AsciiOnlyFromText(text, LF);
    EncodeConcat(text, "\n");
    assert Encode("\n") == [LF] by {
      assert EncodeChar('\n') == [10] && "\n"[1..] == [] && Encode("\n"[1..]) == [];
    }
    assert Encode(ToLine(m)) + rest == Encode(text) + [LF] + rest;
    FrameAt(Encode(text), rest);
    Utf8.RoundTrip(text);
  }

  function Received(ms: seq<Message>): seq<Option<Message>> {
    if ms == [] then [] else [Some(ms[0])] + Received(ms[1..])
  }

  lemma ReadOne(m: Message, n: nat, rest: seq<Byte>)
    ensures ReadMessages(n + 1, Encode(ToLine(m)) + rest)
            == ([Some(m)] + ReadMessages(n, rest).0, ReadMessages(n, rest).1)
  {
    FrameOfMessage(m, rest);
    LineRoundTrip(m);
  }

  /**
   Framing. Reading as many frames as were written yields exactly the messages written, in
   order, and leaves exactly the bytes that follow them.
   */
  lemma {:induction false} FramingRoundTrip(ms: seq<Message>, payload: seq<Byte>)
    ensures ReadMessages(|ms|, Bytes(ms) + payload) == (Received(ms), payload)
    decreases |ms|
  {
    if ms == [] {
      assert Bytes(ms) + payload == payload;
    } else {
      var rest := Bytes(ms[1..]) + payload;
      assert Bytes(ms) + payload == Encode(ToLine(ms[0])) + rest;
      ReadOne(ms[0], |ms| - 1, rest);
      FramingRoundTrip(ms[1..], payload);
    }
  }
}
