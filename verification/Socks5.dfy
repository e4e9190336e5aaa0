// The SOCKS5 client of hunt/conn.py against the SOCKS5 server of hunt/socks5_runner.py (RFC 1928,
// sections 3, 4 and 6): two machines over byte streams, with any interleaving of their steps and any
// fragmentation of the bytes in flight. Timeouts do not occur in this model.

module Socks5 {
  import opened Wrappers
  import opened Cidr

  /** Library conversions: address parsing and text coding. */
  datatype Env = Env(
    aton: string -> Option<seq<nat>>, encode: string -> seq<nat>,
    decode: seq<nat> -> string, ntop6: seq<nat> -> string)

  datatype Bind = Bind(addr: seq<nat>, port: nat)

  type Upstream = (string, nat) -> Option<Bind>

  function Ntoa(b: seq<nat>): string
    requires |b| == 4
  {
    Dotted(((b[0] * 256 + b[1]) * 256 + b[2]) * 256 + b[3])
  }

  function PortBytes(port: nat): seq<nat> {
    [port / 256, port % 256]
  }

  predicate IsIp(host: string) {
    forall c <- host :: '0' <= c <= '9' || c == '.'
  }

  // ---- The client ----

  datatype Verdict = Tunnel | Refused | Broken

  datatype ClientPhase =
    | Greet | MethodWait | AuthWait | ReplyWait | LenWait | TailWait(n: nat) | Ended(verdict: Verdict)

  datatype Client = Client(host: string, port: nat, username: seq<nat>, password: seq<nat>)

  function ClientNeeds(p: ClientPhase): nat {
    match p
    case Greet => 0
    case MethodWait => 2
    case AuthWait => 2
    case ReplyWait => 4
    case LenWait => 1
    case TailWait(n) => n
    case Ended(_) => 0
  }

  function Greeting(c: Client): seq<nat> {
    if c.username != [] then [5] + [2] + [0, 2] else [5] + [1] + [0]
  }

  /** The connect request; None where building it raises. */
  function Request(env: Env, c: Client): Option<seq<nat>> {
    if c.port > 65535 then None
    else if IsIp(c.host) then
      match env.aton(c.host)
      case None => None
      case Some(quad) => Some([5, 1, 0, 1] + (quad + PortBytes(c.port)))
    else if |env.encode(c.host)| > 255 then None
    else Some([5, 1, 0, 3] + ([|env.encode(c.host)|] + (env.encode(c.host) + PortBytes(c.port))))
  }

  function SendRequest(env: Env, c: Client): (ClientPhase, seq<nat>) {
    match Request(env, c)
    case None => (Ended(Broken), [])
    case Some(bytes) => (ReplyWait, bytes)
  }

  /** One stretch of the client: what it does with the bytes it waited for, and what it then writes. */
  function ClientTurn(env: Env, c: Client, p: ClientPhase, got: seq<nat>): (ClientPhase, seq<nat>)
    requires |got| == ClientNeeds(p)
  {
    match p
    case Greet => (MethodWait, Greeting(c))
    case MethodWait =>
      if got[1] == 255 then (Ended(Refused), [])
      else if got[1] == 2 && c.username != [] then
        if |c.username| > 255 || |c.password| > 255 then (Ended(Broken), [])
        else (AuthWait, [1, |c.username|] + c.username + [|c.password|] + c.password)
      else SendRequest(env, c)
    case AuthWait => if got[1] != 0 then (Ended(Refused), []) else SendRequest(env, c)
    case ReplyWait =>
      if got[1] != 0 then (Ended(Refused), [])
      else if got[3] == 1 then (TailWait(6), [])
      else if got[3] == 3 then (LenWait, [])
      else if got[3] == 4 then (TailWait(18), [])
      else (Ended(Refused), [])
    case LenWait => (TailWait(got[0] + 2), [])
    case TailWait(_) => (Ended(Tunnel), [])
    case Ended(_) => (p, [])
  }

  // ---- The server ----

  datatype ServerPhase =
    | Version | Count | Methods(n: nat) | Header | Quad | NameLen | Name(n: nat) | Six
    | Port(host: string) | Connecting(host: string, port: nat) | Relaying(host: string, port: nat) | Closed

  function ServerNeeds(p: ServerPhase): nat {
    match p
    case Version => 1
    case Count => 1
    case Methods(n) => n
    case Header => 4
    case Quad => 4
    case NameLen => 1
    case Name(n) => n
    case Six => 16
    case Port(_) => 2
    case _ => 0
  }

  function SuccessReply(b: Bind): seq<nat> {
    [5, 0, 0, 1] + (b.addr + PortBytes(b.port))
  }

  function ServerTurn(env: Env, up: Upstream, p: ServerPhase, got: seq<nat>): (ServerPhase, seq<nat>)
    requires |got| == ServerNeeds(p)
  {
    match p
    case Version => if got[0] != 5 then (Closed, []) else (Count, [])
    case Count => (Methods(got[0]), [])
    case Methods(_) => (Header, [5, 0])
    case Header =>
      if got[0] != 5 || got[1] != 1 then (Closed, [5, 7])
      else if got[3] == 1 then (Quad, [])
      else if got[3] == 3 then (NameLen, [])
      else if got[3] == 4 then (Six, [])
      else (Closed, [5, 8])
    case Quad => (Port(Ntoa(got)), [])
    case NameLen => (Name(got[0]), [])
    case Name(_) => (Port(env.decode(got)), [])
    case Six => (Port(env.ntop6(got)), [])
    case Port(host) => (Connecting(host, got[0] * 256 + got[1]), [])
    case Connecting(host, port) =>
      (match up(host, port)
       case None => (Closed, [5, 5])
       case Some(b) => (Relaying(host, port), SuccessReply(b)))
    case _ => (p, [])
  }

  // ---- The two together ----

  /** Bytes that have arrived and bytes still under way. */
  datatype Pipe = Pipe(buf: seq<nat>, wire: seq<nat>)
  {
    function Unread(): seq<nat> { buf + wire }

    function Send(bytes: seq<nat>): Pipe { Pipe(buf, wire + bytes) }

    function Drop(n: nat): Pipe
      requires n <= |buf|
    {
      Pipe(buf[n..], wire)
    }

    function Deliver(n: nat): Pipe {
      if n <= |wire| then Pipe(buf + wire[..n], wire[n..]) else this
    }
  }

  datatype State = State(client: ClientPhase, server: ServerPhase, toServer: Pipe, toClient: Pipe)

  datatype Action = ClientMoves | ServerMoves | ArriveAtServer(n: nat) | ArriveAtClient(n: nat)

  function Start(): State {
    State(Greet, Version, Pipe([], []), Pipe([], []))
  }

  /** A reader blocks until its bytes are there; a short stream from a closed peer breaks it. */
  function ClientMove(env: Env, c: Client, s: State): State {
    var n := ClientNeeds(s.client);
    if s.client.Ended? then s
    else if n <= |s.toClient.buf| then
      var (phase, out) := ClientTurn(env, c, s.client, s.toClient.buf[..n]);
      s.(client := phase, toClient := s.toClient.Drop(n), toServer := s.toServer.Send(out))
    else if s.server.Closed? && s.toClient.wire == [] then s.(client := Ended(Broken))
    else s
  }

  function ServerMove(env: Env, up: Upstream, s: State): State {
    var n := ServerNeeds(s.server);
    if s.server.Closed? || s.server.Relaying? then s
    else if n <= |s.toServer.buf| then
      var (phase, out) := ServerTurn(env, up, s.server, s.toServer.buf[..n]);
      s.(server := phase, toServer := s.toServer.Drop(n), toClient := s.toClient.Send(out))
    else if s.client.Ended? && s.client.verdict != Tunnel && s.toServer.wire == [] then s.(server := Closed)
    else s
  }

  function Apply(env: Env, c: Client, up: Upstream, s: State, a: Action): State {
    match a
    case ClientMoves => ClientMove(env, c, s)
    case ServerMoves => ServerMove(env, up, s)
    case ArriveAtServer(n) => s.(toServer := s.toServer.Deliver(n))
    case ArriveAtClient(n) => s.(toClient := s.toClient.Deliver(n))
  }

  function Play(env: Env, c: Client, up: Upstream, s: State, actions: seq<Action>): State
    decreases |actions|
  {
    if actions == [] then s else Play(env, c, up, Apply(env, c, up, s, actions[0]), actions[1..])
  }

  // ---- Well-formed targets ----

  ghost predicate SoundEnv(env: Env) {
    && (forall a: nat :: a <= ALL32 ==> env.aton(Dotted(a)) == Some(Octets(a)))
    && (forall s: string :: env.decode(env.encode(s)) == s)
  }

  predicate SoundUpstream(up: Upstream, c: Client) {
    up(c.host, c.port).Some? ==> |up(c.host, c.port).value.addr| == 4
  }

  /** A dotted quad, or a name with another character and at most 255 bytes; a 16-bit port. */
  ghost predicate GoodTarget(env: Env, c: Client) {
    && c.port <= 65535
    && if IsIp(c.host) then exists a: nat :: a <= ALL32 && c.host == Dotted(a) else |env.encode(c.host)| <= 255
  }

  /** Address part of the request, after the four header bytes. */
  function AddressPart(env: Env, c: Client): seq<nat> {
    if IsIp(c.host) then
      match env.aton(c.host)
      case None => []
      case Some(quad) => quad
    else [|env.encode(c.host)|] + env.encode(c.host)
  }

  lemma QuadBack(env: Env, c: Client)
    requires SoundEnv(env) && GoodTarget(env, c) && IsIp(c.host)
    ensures env.aton(c.host).Some? && |env.aton(c.host).value| == 4
    ensures Ntoa(env.aton(c.host).value) == c.host
  {
    var a: nat :| a <= ALL32 && c.host == Dotted(a);
    assert env.aton(Dotted(a)) == Some(Octets(a));
    RecombineOctets(a);
  }

  // ---- Lockstep ----

  predicate ServerAt(env: Env, c: Client, up: Upstream, s: State) {
    var us, uc := s.toServer.Unread(), s.toClient.Unread();
    var pb := PortBytes(c.port);
    match s.server
    case Header => Request(env, c) == Some(us) && uc == []
    case Quad => IsIp(c.host) && us == AddressPart(env, c) + pb && uc == []
    case NameLen => !IsIp(c.host) && us == [|env.encode(c.host)|] + (env.encode(c.host) + pb) && uc == []
    case Name(n) => !IsIp(c.host) && n == |env.encode(c.host)| && us == env.encode(c.host) + pb && uc == []
    case Port(h) => h == c.host && us == pb && uc == []
    case Connecting(h, p) => h == c.host && p == c.port && us == [] && uc == []
    case Relaying(h, p) =>
      h == c.host && p == c.port && us == [] && up(h, p).Some? && uc == SuccessReply(up(h, p).value)
    case Closed => us == [] && up(c.host, c.port).None? && uc == [5, 5]
    case _ => false
  }

  predicate Lockstep(env: Env, c: Client, up: Upstream, s: State) {
    var us, uc := s.toServer.Unread(), s.toClient.Unread();
    var g := Greeting(c);
    match s.client
    case Greet => s.server.Version? && us == [] && uc == []
    case MethodWait =>
      (match s.server
       case Version => us == g && uc == []
       case Count => us == g[1..] && uc == []
       case Methods(n) => n == |g| - 2 && us == g[2..] && uc == []
       case Header => us == [] && uc == [5, 0]
       case _ => false)
    case ReplyWait => ServerAt(env, c, up, s)
    case TailWait(n) =>
      && n == 6 && s.server == Relaying(c.host, c.port) && us == [] && up(c.host, c.port).Some?
      && uc == up(c.host, c.port).value.addr + PortBytes(up(c.host, c.port).value.port)
    case Ended(v) =>
      if v == Tunnel then
        s.server == Relaying(c.host, c.port) && up(c.host, c.port).Some? && us == [] && uc == []
      else v == Broken && s.server == Closed && up(c.host, c.port).None? && us == [] && uc == [5, 5]
    case _ => false
  }

  ghost predicate Good(env: Env, c: Client, up: Upstream) {
    SoundEnv(env) && GoodTarget(env, c) && SoundUpstream(up, c)
  }

  lemma PipeFacts(p: Pipe, n: nat, bytes: seq<nat>)
    ensures n <= |p.buf| ==> p.Drop(n).Unread() == p.Unread()[n..] && p.buf[..n] == p.Unread()[..n]
    ensures p.Send(bytes).Unread() == p.Unread() + bytes
    ensures p.Deliver(n).Unread() == p.Unread()
  {
    if n <= |p.wire| {
      assert p.buf + p.wire[..n] + p.wire[n..] == p.buf + p.wire;
    }
    assert p.buf + (p.wire + bytes) == p.buf + p.wire + bytes;
  }

  lemma Cut(x: seq<nat>, y: seq<nat>)
    ensures (x + y)[..|x|] == x && (x + y)[|x|..] == y
  {
  }

  lemma ClientKeeps(env: Env, c: Client, up: Upstream, s: State)
    requires Good(env, c, up) && Lockstep(env, c, up, s)
    ensures Lockstep(env, c, up, ClientMove(env, c, s))
  {
    var n := ClientNeeds(s.client);
    var t := ClientMove(env, c, s);
    PipeFacts(s.toClient, n, []);
    if !s.client.Ended? && n <= |s.toClient.buf| {
      var out := ClientTurn(env, c, s.client, s.toClient.buf[..n]).1;
      PipeFacts(s.toServer, 0, out);
      match s.client
      case Greet =>
        assert t.toServer.Unread() == Greeting(c);
      case MethodWait =>
        if IsIp(c.host) {
          QuadBack(env, c);
        }
        assert t.toServer.Unread() == out;
      case ReplyWait =>
        if s.server.Relaying? {
          var b := up(c.host, c.port).value;
          Cut([5, 0, 0, 1], b.addr + PortBytes(b.port));
        }
      case TailWait(_) =>
    }
  }

  predicate ServerReady(s: State) {
    !s.server.Closed? && !s.server.Relaying? && ServerNeeds(s.server) <= |s.toServer.buf|
  }

  lemma GreetingKeeps(env: Env, c: Client, up: Upstream, s: State)
    requires Lockstep(env, c, up, s) && s.client.MethodWait? && ServerReady(s)
    ensures Lockstep(env, c, up, ServerMove(env, up, s))
  {
    var n := ServerNeeds(s.server);
    PipeFacts(s.toServer, n, []);
    PipeFacts(s.toClient, 0, ServerTurn(env, up, s.server, s.toServer.buf[..n]).1);
  }

  lemma HeaderKeeps(env: Env, c: Client, up: Upstream, s: State)
    requires Good(env, c, up) && Lockstep(env, c, up, s) && s.client.ReplyWait? && s.server.Header? && ServerReady(s)
    ensures Lockstep(env, c, up, ServerMove(env, up, s))
  {
    PipeFacts(s.toServer, 4, []);
    PipeFacts(s.toClient, 0, []);
    var pb := PortBytes(c.port);
    if IsIp(c.host) {
      QuadBack(env, c);
      Cut([5, 1, 0, 1], AddressPart(env, c) + pb);
    } else {
      Cut([5, 1, 0, 3], [|env.encode(c.host)|] + (env.encode(c.host) + pb));
    }
  }

  lemma AddressKeeps(env: Env, c: Client, up: Upstream, s: State)
    requires Good(env, c, up) && Lockstep(env, c, up, s) && s.client.ReplyWait? && ServerReady(s)
    requires s.server.Quad? || s.server.NameLen? || s.server.Name?
    ensures Lockstep(env, c, up, ServerMove(env, up, s))
  {
    PipeFacts(s.toServer, ServerNeeds(s.server), []);
    PipeFacts(s.toClient, 0, []);
    var pb := PortBytes(c.port);
    match s.server
    case Quad =>
      QuadBack(env, c);
      Cut(AddressPart(env, c), pb);
    case NameLen => Cut([|env.encode(c.host)|], env.encode(c.host) + pb);
    case Name(_) => Cut(env.encode(c.host), pb);
  }

  lemma PortKeeps(env: Env, c: Client, up: Upstream, s: State)
    requires Good(env, c, up) && Lockstep(env, c, up, s) && s.client.ReplyWait? && ServerReady(s)
    requires s.server.Port? || s.server.Connecting?
    ensures Lockstep(env, c, up, ServerMove(env, up, s))
  {
    var n := ServerNeeds(s.server);
    PipeFacts(s.toServer, n, []);
    PipeFacts(s.toClient, 0, ServerTurn(env, up, s.server, s.toServer.buf[..n]).1);
  }

  lemma ServerKeeps(env: Env, c: Client, up: Upstream, s: State)
    requires Good(env, c, up) && Lockstep(env, c, up, s)
    ensures Lockstep(env, c, up, ServerMove(env, up, s))
  {
    assert |s.toServer.buf| <= |s.toServer.Unread()|;
    if ServerReady(s) {
      if s.client.MethodWait? {
        GreetingKeeps(env, c, up, s);
      } else if s.client.ReplyWait? {
        match s.server
        case Header => HeaderKeeps(env, c, up, s);
        case Port(_) => PortKeeps(env, c, up, s);
        case Connecting(_, _) => PortKeeps(env, c, up, s);
        case _ => AddressKeeps(env, c, up, s);
      }
    }
  }

  lemma StepKeeps(env: Env, c: Client, up: Upstream, s: State, a: Action)
    requires Good(env, c, up) && Lockstep(env, c, up, s)
    ensures Lockstep(env, c, up, Apply(env, c, up, s, a))
  {
    match a
    case ClientMoves => ClientKeeps(env, c, up, s);
    case ServerMoves => ServerKeeps(env, c, up, s);
    case ArriveAtServer(n) => PipeFacts(s.toServer, n, []);
    case ArriveAtClient(n) => PipeFacts(s.toClient, n, []);
  }

  lemma {:induction false} PlayKeeps(env: Env, c: Client, up: Upstream, s: State, actions: seq<Action>)
    requires Good(env, c, up) && Lockstep(env, c, up, s)
    ensures Lockstep(env, c, up, Play(env, c, up, s, actions))
    decreases |actions|
  {
    if actions != [] {
      StepKeeps(env, c, up, s, actions[0]);
      PlayKeeps(env, c, up, Apply(env, c, up, s, actions[0]), actions[1..]);
    }
  }

  predicate Finished(s: State) {
    s.client.Ended? && (s.server.Closed? || s.server.Relaying?)
  }

  /** In every interleaving the server recovers exactly the target; the client ends with a tunnel
      exactly when the server obtained an upstream, and then no handshake byte is left unread. */
  lemma TargetRecovered(env: Env, c: Client, up: Upstream, actions: seq<Action>)
    requires Good(env, c, up)
    ensures var s := Play(env, c, up, Start(), actions);
            && (s.server.Connecting? || s.server.Relaying? ==> s.server.host == c.host && s.server.port == c.port)
            && (s.client.Ended? ==> (s.client.verdict == Tunnel <==> up(c.host, c.port).Some?))
            && (s.client == Ended(Tunnel) ==>
                  s.server.Relaying? && s.toServer.Unread() == [] && s.toClient.Unread() == [])
  {
    PlayKeeps(env, c, up, Start(), actions);
  }

  /** The server's refusals are two bytes long and the client waits for four, so a refusal always
      reaches the caller as a broken handshake. */
  lemma RefusalLooksBroken(env: Env, c: Client, up: Upstream, actions: seq<Action>)
    requires Good(env, c, up)
    ensures var s := Play(env, c, up, Start(), actions);
            && s.client != Ended(Refused)
            && (s.client.Ended? && up(c.host, c.port).None? ==> s.client == Ended(Broken))
  {
    PlayKeeps(env, c, up, Start(), actions);
  }

  // ---- Every play comes to its end ----

  function ClientLeft(p: ClientPhase): nat {
    match p
    case Greet => 6
    case MethodWait => 5
    case AuthWait => 4
    case ReplyWait => 3
    case LenWait => 2
    case TailWait(_) => 1
    case Ended(_) => 0
  }

  function ServerLeft(p: ServerPhase): nat {
    match p
    case Version => 8
    case Count => 7
    case Methods(_) => 6
    case Header => 5
    case Quad => 4
    case NameLen => 4
    case Six => 4
    case Name(_) => 3
    case Port(_) => 2
    case Connecting(_, _) => 1
    case _ => 0
  }

  function Left(s: State): nat {
    1000 * (ClientLeft(s.client) + ServerLeft(s.server)) + |s.toServer.wire| + |s.toClient.wire|
  }

  lemma RequestLength(env: Env, c: Client)
    requires SoundEnv(env) && GoodTarget(env, c)
    ensures Request(env, c).Some? ==> |Request(env, c).value| <= 262
  {
    if IsIp(c.host) {
      QuadBack(env, c);
    }
  }

  lemma ClientTurnAdvances(env: Env, c: Client, p: ClientPhase, got: seq<nat>)
    requires SoundEnv(env) && GoodTarget(env, c) && !p.Ended? && |got| == ClientNeeds(p)
    ensures var (phase, out) := ClientTurn(env, c, p, got); ClientLeft(phase) < ClientLeft(p) && |out| < 1000
  {
    RequestLength(env, c);
  }

  lemma ServerTurnAdvances(env: Env, c: Client, up: Upstream, p: ServerPhase, got: seq<nat>)
    requires SoundUpstream(up, c) && |got| == ServerNeeds(p) && !p.Closed? && !p.Relaying?
    requires p.Connecting? ==> p == Connecting(c.host, c.port)
    ensures var (phase, out) := ServerTurn(env, up, p, got); ServerLeft(phase) < ServerLeft(p) && |out| < 1000
  {
  }

  predicate ClientReady(s: State) {
    !s.client.Ended? && (ClientNeeds(s.client) <= |s.toClient.buf| || (s.server.Closed? && s.toClient.wire == []))
  }

  lemma ClientShrinks(env: Env, c: Client, up: Upstream, s: State)
    requires Good(env, c, up)
    ensures if ClientReady(s) then Left(ClientMove(env, c, s)) < Left(s) else ClientMove(env, c, s) == s
  {
    var n := ClientNeeds(s.client);
    if !s.client.Ended? && n <= |s.toClient.buf| {
      ClientTurnAdvances(env, c, s.client, s.toClient.buf[..n]);
    }
  }

  lemma ServerShrinks(env: Env, c: Client, up: Upstream, s: State)
    requires Good(env, c, up) && Lockstep(env, c, up, s)
    ensures if ServerReady(s) then Left(ServerMove(env, up, s)) < Left(s) else ServerMove(env, up, s) == s
  {
    if ServerReady(s) {
      ServerTurnAdvances(env, c, up, s.server, s.toServer.buf[..ServerNeeds(s.server)]);
    }
  }

  lemma DeliverShrinks(p: Pipe, n: nat)
    ensures p.Deliver(n) == p || |p.Deliver(n).wire| < |p.wire|
    ensures p.wire != [] ==> |p.Deliver(1).wire| < |p.wire|
  {
    if n == 0 {
      assert p.Deliver(0) == p;
    }
  }

  /** Every action that changes anything brings the end nearer. */
  lemma StepShrinks(env: Env, c: Client, up: Upstream, s: State, a: Action)
    requires Good(env, c, up) && Lockstep(env, c, up, s)
    ensures Apply(env, c, up, s, a) == s || Left(Apply(env, c, up, s, a)) < Left(s)
  {
    match a
    case ClientMoves => ClientShrinks(env, c, up, s);
    case ServerMoves => ServerShrinks(env, c, up, s);
    case ArriveAtServer(n) => DeliverShrinks(s.toServer, n);
    case ArriveAtClient(n) => DeliverShrinks(s.toClient, n);
  }

  lemma SomebodyReady(env: Env, c: Client, up: Upstream, s: State)
    requires Good(env, c, up) && Lockstep(env, c, up, s) && !Finished(s)
    requires s.toServer.wire == [] && s.toClient.wire == []
    ensures ClientReady(s) || ServerReady(s)
  {
    assert s.toServer.Unread() == s.toServer.buf && s.toClient.Unread() == s.toClient.buf;
    if IsIp(c.host) {
      QuadBack(env, c);
    }
  }

  /** And until the end some action changes something: nobody waits for bytes that never come. */
  lemma NoDeadlock(env: Env, c: Client, up: Upstream, s: State)
    requires Good(env, c, up) && Lockstep(env, c, up, s) && !Finished(s)
    ensures exists a :: Apply(env, c, up, s, a) != s
  {
    if s.toServer.wire != [] {
      DeliverShrinks(s.toServer, 1);
      assert Apply(env, c, up, s, ArriveAtServer(1)) != s;
    } else if s.toClient.wire != [] {
      DeliverShrinks(s.toClient, 1);
      assert Apply(env, c, up, s, ArriveAtClient(1)) != s;
    } else {
      SomebodyReady(env, c, up, s);
      ClientShrinks(env, c, up, s);
      ServerShrinks(env, c, up, s);
      var a := if ClientReady(s) then ClientMoves else ServerMoves;
      assert Apply(env, c, up, s, a) != s;
    }
  }

  /** So every play can be continued to its end, and the end is a tunnel exactly with an upstream. */
  lemma {:induction false} RunsToTheEnd(env: Env, c: Client, up: Upstream, s: State) returns (more: seq<Action>)
    requires Good(env, c, up) && Lockstep(env, c, up, s)
    ensures Finished(Play(env, c, up, s, more))
    ensures Play(env, c, up, s, more).client == Ended(if up(c.host, c.port).Some? then Tunnel else Broken)
    decreases Left(s)
  {
    if Finished(s) {
      return [];
    }
    NoDeadlock(env, c, up, s);
    var a :| Apply(env, c, up, s, a) != s;
    StepKeeps(env, c, up, s, a);
    StepShrinks(env, c, up, s, a);
    var rest := RunsToTheEnd(env, c, up, Apply(env, c, up, s, a));
    more := [a] + rest;
    assert more[1..] == rest;
  }
}
