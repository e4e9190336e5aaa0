// The two handshake routines against any peer that follows RFC 1928 (and RFC 1929 for the user name):
// the client of hunt/conn.py before servers of other makes, and the server of hunt/socks5_runner.py
// before other clients.

module Socks5Peers {
  import opened Wrappers
  import opened Cidr
  import opened Socks5
  import opened Socks5Code

  /** An address as the protocol writes it (RFC 1928, section 5). */
  datatype Address = V4(quad: seq<nat>) | Name(bytes: seq<nat>) | V6(six: seq<nat>)

  predicate IsAddress(a: Address) {
    match a
    case V4(quad) => |quad| == 4
    case Name(bytes) => |bytes| <= 255
    case V6(six) => |six| == 16
  }

  function TypeOf(a: Address): nat {
    match a
    case V4(_) => 1
    case Name(_) => 3
    case V6(_) => 4
  }

  function BytesOf(a: Address): seq<nat> {
    match a
    case V4(quad) => quad
    case Name(bytes) => [|bytes|] + bytes
    case V6(six) => six
  }

  // ---- The client before any server ----

  /** A reply (section 6), in front of what follows it. */
  function Reply(code: nat, bound: Address, port: seq<nat>, rest: seq<nat>): seq<nat> {
    [5, code, 0, TypeOf(bound)] + (BytesOf(bound) + (port + rest))
  }

  lemma Shift(a: seq<nat>, b: seq<nat>, c: seq<nat>)
    ensures (a + b) + c == a + (b + c)
  {
  }

  lemma ReplyRead(env: Env, c: Client, bound: Address, port: seq<nat>, rest: seq<nat>, sent: seq<nat>)
    requires IsAddress(bound) && |port| == 2
    ensures ClientDrive(env, c, ReplyWait, Reply(0, bound, port, rest), sent) == (Tunnel, rest, sent)
  {
    var head, tail := [5, 0, 0, TypeOf(bound)], BytesOf(bound) + (port + rest);
    ClientReads(env, c, ReplyWait, head, tail, sent);
    match bound
    case V4(quad) =>
      Shift(quad, port, rest);
      ClientReads(env, c, TailWait(6), quad + port, rest, sent);
    case V6(six) =>
      Shift(six, port, rest);
      ClientReads(env, c, TailWait(18), six + port, rest, sent);
    case Name(bytes) =>
      Shift([|bytes|], bytes, port + rest);
      Shift(bytes, port, rest);
      ClientReads(env, c, LenWait, [|bytes|], (bytes + port) + rest, sent);
      ClientReads(env, c, TailWait(|bytes| + 2), bytes + port, rest, sent);
  }

  lemma RefusalRead(env: Env, c: Client, code: nat, bound: Address, port: seq<nat>, rest: seq<nat>, sent: seq<nat>)
    requires code != 0
    ensures ClientDrive(env, c, ReplyWait, Reply(code, bound, port, rest), sent).0 == Refused
  {
    ClientReads(env, c, ReplyWait, [5, code, 0, TypeOf(bound)], BytesOf(bound) + (port + rest), sent);
  }

  /** Before any server that asks for no authentication, whatever kind of address it reports: a success
      opens a tunnel that starts right behind the reply, and any other reply is a refusal. */
  lemma ClientMeetsAnyServer(
    env: Env, c: Client, code: nat, bound: Address, port: seq<nat>, rest: seq<nat>)
    requires Request(env, c).Some? && IsAddress(bound) && |port| == 2
    ensures var end := ClientDrive(env, c, Greet, [5, 0] + Reply(code, bound, port, rest), []);
      if code == 0 then end == (Tunnel, rest, Greeting(c) + Request(env, c).value) else end.0 == Refused
  {
    ClientAgrees(env, c, Reply(code, bound, port, rest));
    if code == 0 {
      ReplyRead(env, c, bound, port, rest, Greeting(c) + Request(env, c).value);
    } else {
      RefusalRead(env, c, code, bound, port, rest, Greeting(c) + Request(env, c).value);
    }
  }

  /** The message of RFC 1929, section 2. */
  function Login(c: Client): seq<nat> {
    [1, |c.username|] + c.username + [|c.password|] + c.password
  }

  lemma LoginSent(env: Env, c: Client, input: seq<nat>)
    requires 1 <= |c.username| <= 255 && |c.password| <= 255
    ensures ClientDrive(env, c, Greet, [5, 2] + input, []) ==
      ClientDrive(env, c, AuthWait, input, [5, 2, 0, 2] + Login(c))
  {
    var all := [5, 2] + input;
    assert [] + all == all;
    ClientReads(env, c, Greet, [], all, []);
    assert Greeting(c) == [5, 2, 0, 2] && [] + Greeting(c) == Greeting(c);
    ClientReads(env, c, MethodWait, [5, 2], input, Greeting(c));
  }

  /** Before a server that asks for the user name: it is sent, and once accepted the request follows and
      a success opens the tunnel right behind its reply; if it is not accepted the client gives up. */
  lemma ClientLogsIn(
    env: Env, c: Client, version: nat, status: nat, bound: Address, port: seq<nat>, rest: seq<nat>)
    requires Request(env, c).Some? && IsAddress(bound) && |port| == 2
    requires 1 <= |c.username| <= 255 && |c.password| <= 255
    ensures var end := ClientDrive(env, c, Greet, [5, 2] + ([version, status] + Reply(0, bound, port, rest)), []);
      if status == 0 then end == (Tunnel, rest, ([5, 2, 0, 2] + Login(c)) + Request(env, c).value)
      else end.0 == Refused && end.2 == [5, 2, 0, 2] + Login(c)
  {
    var reply := Reply(0, bound, port, rest);
    LoginSent(env, c, [version, status] + reply);
    ClientReads(env, c, AuthWait, [version, status], reply, [5, 2, 0, 2] + Login(c));
    if status == 0 {
      ReplyRead(env, c, bound, port, rest, ([5, 2, 0, 2] + Login(c)) + Request(env, c).value);
    }
  }

  /** A server that accepts none of the methods is a refusal; nothing more is sent. */
  lemma NoMethodRefuses(env: Env, c: Client, rest: seq<nat>)
    ensures ClientDrive(env, c, Greet, [5, 255] + rest, []) == (Refused, rest, Greeting(c))
    ensures Greeting(c) == if c.username == [] then [5, 1, 0] else [5, 2, 0, 2]
  {
    var all := [5, 255] + rest;
    assert [] + all == all;
    ClientReads(env, c, Greet, [], all, []);
    assert [] + Greeting(c) == Greeting(c);
    ClientReads(env, c, MethodWait, [5, 255], rest, Greeting(c));
  }

  lemma DottedIsIp(a: nat)
    ensures IsIp(Dotted(a))
  {
    forall x | x in Dotted(a)
      ensures '0' <= x <= '9' || x == '.'
    {
    }
  }

  /** What is asked for: a dotted quad as its four bytes, any other name as itself with its length, and
      the port with its high byte first; a port or name that does not fit is never asked for. */
  lemma RequestMeans(env: Env, c: Client)
    requires SoundEnv(env)
    ensures forall a: nat :: a <= ALL32 && c.host == Dotted(a) && c.port <= 65535 ==>
      Request(env, c) == Some([5, 1, 0, 1] + (Octets(a) + [c.port / 256, c.port % 256]))
    ensures (exists x <- c.host :: x != '.' && !('0' <= x <= '9')) ==>
      Request(env, c) ==
        if c.port > 65535 || |env.encode(c.host)| > 255 then None
        else Some([5, 1, 0, 3] + ([|env.encode(c.host)|] + (env.encode(c.host) + [c.port / 256, c.port % 256])))
    ensures c.port > 65535 ==> Request(env, c) == None
  {
    forall a: nat | a <= ALL32 && c.host == Dotted(a) && c.port <= 65535
      ensures Request(env, c) == Some([5, 1, 0, 1] + (Octets(a) + [c.port / 256, c.port % 256]))
    {
      DottedIsIp(a);
      assert env.aton(Dotted(a)) == Some(Octets(a));
    }
  }

  // ---- The server before any client ----

  /** The host that the server understands. */
  function HostOf(env: Env, a: Address): string
    requires IsAddress(a)
  {
    match a
    case V4(quad) => Ntoa(quad)
    case Name(bytes) => env.decode(bytes)
    case V6(six) => env.ntop6(six)
  }

  lemma AddressRead(env: Env, up: Upstream, a: Address, tail: seq<nat>, sent: seq<nat>)
    requires IsAddress(a)
    ensures ServerDrive(env, up, Header, [5, 1, 0, TypeOf(a)] + (BytesOf(a) + tail), sent) ==
      ServerDrive(env, up, Port(HostOf(env, a)), tail, sent)
  {
    ServerReads(env, up, Header, [5, 1, 0, TypeOf(a)], BytesOf(a) + tail, sent);
    match a
    case V4(quad) => ServerReads(env, up, Quad, quad, tail, sent);
    case V6(six) => ServerReads(env, up, Six, six, tail, sent);
    case Name(bytes) =>
      Shift([|bytes|], bytes, tail);
      ServerReads(env, up, NameLen, [|bytes|], bytes + tail, sent);
      ServerReads(env, up, ServerPhase.Name(|bytes|), bytes, tail, sent);
  }

  lemma GreetingRead(env: Env, up: Upstream, methods: seq<nat>, rest: seq<nat>)
    ensures ServerDrive(env, up, Version, [5] + ([|methods|] + (methods + rest)), []) ==
      ServerDrive(env, up, Header, rest, [5, 0])
  {
    ServerReads(env, up, Version, [5], [|methods|] + (methods + rest), []);
    ServerReads(env, up, Count, [|methods|], methods + rest, []);
    ServerReads(env, up, Methods(|methods|), methods, rest, []);
    assert [] + [5, 0] == [5, 0];
  }

  /** Any client, with whatever methods it offers and whatever kind of address it asks for: the server
      understands host and port, connects there, and reads not a byte more. */
  lemma ServerMeetsAnyClient(
    env: Env, up: Upstream, methods: seq<nat>, target: Address, port: nat, rest: seq<nat>)
    requires IsAddress(target) && port <= 65535
    ensures var request := [5, 1, 0, TypeOf(target)] + (BytesOf(target) + ([port / 256, port % 256] + rest));
      ServerDrive(env, up, Version, [5] + ([|methods|] + (methods + request)), []) ==
        match up(HostOf(env, target), port)
        case None => (Closed, rest, [5, 0] + [5, 5])
        case Some(b) => (Relaying(HostOf(env, target), port), rest, [5, 0] + SuccessReply(b))
  {
    var request := [5, 1, 0, TypeOf(target)] + (BytesOf(target) + (PortBytes(port) + rest));
    GreetingRead(env, up, methods, request);
    AddressRead(env, up, target, PortBytes(port) + rest, [5, 0]);
    ServerDecides(env, up, HostOf(env, target), port, rest, [5, 0]);
  }

  /** Another version or command is refused with code 7, another kind of address with code 8, and a
      greeting of another version is not answered at all. */
  lemma ServerRefuses(env: Env, up: Upstream, h: seq<nat>, rest: seq<nat>, sent: seq<nat>)
    requires |h| == 4
    ensures h[0] != 5 || h[1] != 1 ==> ServerDrive(env, up, Header, h + rest, sent) == (Closed, rest, sent + [5, 7])
    ensures h[0] == 5 && h[1] == 1 && h[3] != 1 && h[3] != 3 && h[3] != 4 ==>
      ServerDrive(env, up, Header, h + rest, sent) == (Closed, rest, sent + [5, 8])
    ensures h[0] != 5 ==> ServerDrive(env, up, Version, [h[0]] + rest, sent) == (Closed, rest, sent)
  {
    ServerReads(env, up, Header, h, rest, sent);
    ServerReads(env, up, Version, [h[0]], rest, sent);
  }
}
