// The two handshake routines as they are written, reading and writing one connection from top to
// bottom: socks5_connect of hunt/conn.py and Socks5Runner._handle of hunt/socks5_runner.py. Each is
// proved to do what its step machine in Socks5 does on the same input.

module Socks5Code {
  import opened Wrappers
  import opened Socks5

  /** The client machine, fed with everything the other side will ever send, after `sent`. */
  function ClientDrive(env: Env, c: Client, p: ClientPhase, input: seq<nat>, sent: seq<nat>)
    : (Verdict, seq<nat>, seq<nat>)
    decreases ClientLeft(p)
  {
    if p.Ended? then (p.verdict, input, sent)
    else if ClientNeeds(p) > |input| then (Broken, input, sent)
    else
      var (next, out) := ClientTurn(env, c, p, input[..ClientNeeds(p)]);
      ClientDrive(env, c, next, input[ClientNeeds(p)..], Sent(sent, out))
  }

  function Sent(sent: seq<nat>, out: seq<nat>): seq<nat> {
    if out == [] then sent else sent + out
  }

  function ServerDrive(env: Env, up: Upstream, p: ServerPhase, input: seq<nat>, sent: seq<nat>)
    : (ServerPhase, seq<nat>, seq<nat>)
    decreases ServerLeft(p)
  {
    if p.Closed? || p.Relaying? then (p, input, sent)
    else if ServerNeeds(p) > |input| then (Closed, input, sent)
    else
      var (next, out) := ServerTurn(env, up, p, input[..ServerNeeds(p)]);
      ServerDrive(env, up, next, input[ServerNeeds(p)..], Sent(sent, out))
  }

  class Connection {
    var inbox: seq<nat>
    var sent: seq<nat>

    constructor (inbox: seq<nat>)
      ensures this.inbox == inbox && sent == []
    {
      this.inbox, sent := inbox, [];
    }

    method Write(bytes: seq<nat>)
      modifies this`sent
      ensures sent == old(sent) + bytes
    {
      sent := sent + bytes;
    }

    /** Exactly n bytes, or nothing when the stream ends before. */
    method ReadExactly(n: nat) returns (got: Option<seq<nat>>)
      modifies this`inbox
      ensures n <= |old(inbox)| ==> got == Some(old(inbox)[..n]) && inbox == old(inbox)[n..]
      ensures n > |old(inbox)| ==> got == None && inbox == old(inbox)
    {
      if n > |inbox| {
        return None;
      }
      got := Some(inbox[..n]);
      inbox := inbox[n..];
    }

    method Connect(env: Env, c: Client) returns (verdict: Verdict)
      modifies this
      ensures (verdict, inbox, sent) == ClientDrive(env, c, Greet, old(inbox), old(sent))
    {
      assert inbox[0..] == inbox;
      Write(Greeting(c));
      verdict := Agree(env, c);
    }

    /** The server's choice of a method. */
    method Agree(env: Env, c: Client) returns (verdict: Verdict)
      modifies this
      ensures (verdict, inbox, sent) == ClientDrive(env, c, MethodWait, old(inbox), old(sent))
    {
      var resp := ReadExactly(2);
      if resp.None? {
        return Broken;
      }
      if resp.value[1] == 0xFF {
        return Refused;
      }
      if resp.value[1] == 2 && c.username != [] {
        if |c.username| > 255 || |c.password| > 255 {
          return Broken;
        }
        Write([1, |c.username|] + c.username + [|c.password|] + c.password);
        verdict := Authenticate(env, c);
        return;
      }
      verdict := Ask(env, c);
    }

    method Authenticate(env: Env, c: Client) returns (verdict: Verdict)
      modifies this
      ensures (verdict, inbox, sent) == ClientDrive(env, c, AuthWait, old(inbox), old(sent))
    {
      var auth := ReadExactly(2);
      if auth.None? {
        return Broken;
      }
      if auth.value[1] != 0 {
        return Refused;
      }
      verdict := Ask(env, c);
    }

    /** The request and its answer. */
    method Ask(env: Env, c: Client) returns (verdict: Verdict)
      modifies this
      ensures var (next, out) := SendRequest(env, c);
              (verdict, inbox, sent) == ClientDrive(env, c, next, old(inbox), Sent(old(sent), out))
    {
      var request := Request(env, c);
      if request.None? {
        return Broken;
      }
      Write(request.value);
      var hdr := ReadExactly(4);
      if hdr.None? {
        return Broken;
      }
      if hdr.value[1] != 0 {
        return Refused;
      }
      var left := 0;
      if hdr.value[3] == 1 {
        left := 4 + 2;
      } else if hdr.value[3] == 3 {
          var dl := ReadExactly(1);
        if dl.None? {
          return Broken;
        }
        left := dl.value[0] + 2;
      } else if hdr.value[3] == 4 {
        left := 16 + 2;
      } else {
        return Refused;
      }
      var tail := ReadExactly(left);
      if tail.None? {
        return Broken;
      }
      return Tunnel;
    }

    method Handle(env: Env, up: Upstream) returns (end: ServerPhase)
      modifies this
      ensures (end, inbox, sent) == ServerDrive(env, up, Version, old(inbox), old(sent))
    {
      var ver := ReadExactly(1);
      if ver.None? || ver.value[0] != 5 {
        return Closed;
      }
      var nmethods := ReadExactly(1);
      if nmethods.None? {
        return Closed;
      }
      var methods := ReadExactly(nmethods.value[0]);
      if methods.None? {
        return Closed;
      }
      Write([5, 0]);
      end := Serve(env, up);
    }

    /** From the request header to the relay. */
    method Serve(env: Env, up: Upstream) returns (end: ServerPhase)
      modifies this
      ensures (end, inbox, sent) == ServerDrive(env, up, Header, old(inbox), old(sent))
    {
      var hdr := ReadExactly(4);
      if hdr.None? {
        return Closed;
      }
      if hdr.value[0] != 5 || hdr.value[1] != 1 {
        Write([5, 7]);
        return Closed;
      }
      if hdr.value[3] == 1 {
        end := ServeQuad(env, up);
      } else if hdr.value[3] == 3 {
        end := ServeName(env, up);
      } else if hdr.value[3] == 4 {
        end := ServeSix(env, up);
      } else {
        Write([5, 8]);
        return Closed;
      }
    }

    method ServeQuad(env: Env, up: Upstream) returns (end: ServerPhase)
      modifies this
      ensures (end, inbox, sent) == ServerDrive(env, up, Quad, old(inbox), old(sent))
    {
      var quad := ReadExactly(4);
      if quad.None? {
        return Closed;
      }
      end := Open(env, up, Ntoa(quad.value));
    }

    method ServeName(env: Env, up: Upstream) returns (end: ServerPhase)
      modifies this
      ensures (end, inbox, sent) == ServerDrive(env, up, NameLen, old(inbox), old(sent))
    {
      var dl := ReadExactly(1);
      if dl.None? {
        return Closed;
      }
      end := ReadName(env, up, dl.value[0]);
    }

    method ReadName(env: Env, up: Upstream, n: nat) returns (end: ServerPhase)
      modifies this
      ensures (end, inbox, sent) == ServerDrive(env, up, Name(n), old(inbox), old(sent))
    {
      var domain := ReadExactly(n);
      if domain.None? {
        return Closed;
      }
      end := Open(env, up, env.decode(domain.value));
    }

    method ServeSix(env: Env, up: Upstream) returns (end: ServerPhase)
      modifies this
      ensures (end, inbox, sent) == ServerDrive(env, up, Six, old(inbox), old(sent))
    {
      var six := ReadExactly(16);
      if six.None? {
        return Closed;
      }
      end := Open(env, up, env.ntop6(six.value));
    }

    method Open(env: Env, up: Upstream, host: string) returns (end: ServerPhase)
      modifies this
      ensures (end, inbox, sent) == ServerDrive(env, up, Port(host), old(inbox), old(sent))
    {
      var bytes := ReadExactly(2);
      if bytes.None? {
        return Closed;
      }
      var port := bytes.value[0] * 256 + bytes.value[1];
      assert inbox[0..] == inbox;
      var upstream := up(host, port);
      if upstream.None? {
        Write([5, 5]);
        assert ServerDrive(env, up, Closed, inbox, sent) == (Closed, inbox, sent);
        return Closed;
      }
      Write(SuccessReply(upstream.value));
      assert ServerDrive(env, up, Relaying(host, port), inbox, sent) == (Relaying(host, port), inbox, sent);
      return Relaying(host, port);
    }
  }

  // ---- The two routines on each other's bytes ----

  lemma ServerReads(env: Env, up: Upstream, p: ServerPhase, got: seq<nat>, rest: seq<nat>, sent: seq<nat>)
    requires !p.Closed? && !p.Relaying? && |got| == ServerNeeds(p)
    ensures var (next, out) := ServerTurn(env, up, p, got);
            ServerDrive(env, up, p, got + rest, sent) == ServerDrive(env, up, next, rest, Sent(sent, out))
  {
    Cut(got, rest);
  }

  lemma ClientReads(env: Env, c: Client, p: ClientPhase, got: seq<nat>, rest: seq<nat>, sent: seq<nat>)
    requires !p.Ended? && |got| == ClientNeeds(p)
    ensures var (next, out) := ClientTurn(env, c, p, got);
            ClientDrive(env, c, p, got + rest, sent) == ClientDrive(env, c, next, rest, Sent(sent, out))
  {
    Cut(got, rest);
  }

  /** The server after the target is read. */
  lemma ServerDecides(env: Env, up: Upstream, host: string, port: nat, rest: seq<nat>, sent: seq<nat>)
    requires port <= 65535
    ensures ServerDrive(env, up, Port(host), PortBytes(port) + rest, sent) ==
      match up(host, port)
      case None => (Closed, rest, sent + [5, 5])
      case Some(b) => (Relaying(host, port), rest, sent + SuccessReply(b))
  {
    ServerReads(env, up, Port(host), PortBytes(port), rest, sent);
    assert [] + rest == rest;
    ServerReads(env, up, Connecting(host, port), [], rest, sent);
  }

  lemma ServerFindsTarget(env: Env, c: Client, up: Upstream, rest: seq<nat>, sent: seq<nat>)
    requires SoundEnv(env) && GoodTarget(env, c)
    ensures var pb := PortBytes(c.port) + rest;
            if IsIp(c.host) then
              ServerDrive(env, up, Quad, AddressPart(env, c) + pb, sent) == ServerDrive(env, up, Port(c.host), pb, sent)
            else
              ServerDrive(env, up, NameLen, [|env.encode(c.host)|] + (env.encode(c.host) + pb), sent)
              == ServerDrive(env, up, Port(c.host), pb, sent)
  {
    var pb := PortBytes(c.port) + rest;
    if IsIp(c.host) {
      QuadBack(env, c);
      ServerReads(env, up, Quad, AddressPart(env, c), pb, sent);
    } else {
      var raw := env.encode(c.host);
      ServerReads(env, up, NameLen, [|raw|], raw + pb, sent);
      ServerReads(env, up, Name(|raw|), raw, pb, sent);
    }
  }

  lemma Shift(a: seq<nat>, b: seq<nat>, c: seq<nat>, rest: seq<nat>)
    ensures a + (b + c) + rest == a + (b + (c + rest))
    ensures a + b + rest == a + (b + rest)
  {
    assert a + (b + c) + rest == a + (b + c + rest);
    assert b + c + rest == b + (c + rest);
  }

  /** The request as the server reads it. */
  lemma ServerReadsQuad(env: Env, c: Client, up: Upstream, rest: seq<nat>, sent: seq<nat>)
    requires SoundEnv(env) && GoodTarget(env, c) && IsIp(c.host)
    ensures Request(env, c).Some?
    ensures ServerDrive(env, up, Header, Request(env, c).value + rest, sent) ==
      ServerDrive(env, up, Port(c.host), PortBytes(c.port) + rest, sent)
  {
    QuadBack(env, c);
    var quad := AddressPart(env, c);
    Shift([5, 1, 0, 1], quad, PortBytes(c.port), rest);
    ServerFindsTarget(env, c, up, rest, sent);
    ServerReads(env, up, Header, [5, 1, 0, 1], quad + (PortBytes(c.port) + rest), sent);
  }

  lemma ServerReadsName(env: Env, c: Client, up: Upstream, rest: seq<nat>, sent: seq<nat>)
    requires SoundEnv(env) && GoodTarget(env, c) && !IsIp(c.host)
    ensures Request(env, c).Some?
    ensures ServerDrive(env, up, Header, Request(env, c).value + rest, sent) ==
      ServerDrive(env, up, Port(c.host), PortBytes(c.port) + rest, sent)
  {
    var raw := env.encode(c.host);
    Shift([5, 1, 0, 3], [|raw|], raw + PortBytes(c.port), rest);
    Shift(raw, PortBytes(c.port), [], rest);
    ServerFindsTarget(env, c, up, rest, sent);
    ServerReads(env, up, Header, [5, 1, 0, 3], [|raw|] + (raw + (PortBytes(c.port) + rest)), sent);
  }

  lemma ServerReadsRequest(env: Env, c: Client, up: Upstream, rest: seq<nat>, sent: seq<nat>)
    requires SoundEnv(env) && GoodTarget(env, c)
    ensures Request(env, c).Some?
    ensures ServerDrive(env, up, Header, Request(env, c).value + rest, sent) ==
      match up(c.host, c.port)
      case None => (Closed, rest, sent + [5, 5])
      case Some(b) => (Relaying(c.host, c.port), rest, sent + SuccessReply(b))
  {
    if IsIp(c.host) {
      ServerReadsQuad(env, c, up, rest, sent);
    } else {
      ServerReadsName(env, c, up, rest, sent);
    }
    ServerDecides(env, up, c.host, c.port, rest, sent);
  }

  lemma ServerReadsGreeting(env: Env, c: Client, up: Upstream, rest: seq<nat>)
    ensures ServerDrive(env, up, Version, Greeting(c) + rest, []) == ServerDrive(env, up, Header, rest, [5, 0])
  {
    var methods := if c.username != [] then [0, 2] else [0];
    assert Greeting(c) == [5] + ([|methods|] + methods);
    Shift([5], [|methods|], methods, rest);
    ServerReads(env, up, Version, [5], [|methods|] + (methods + rest), []);
    ServerReads(env, up, Count, [|methods|], methods + rest, []);
    ServerReads(env, up, Methods(|methods|), methods, rest, []);
    assert [] + [5, 0] == [5, 0];
  }

  /** The server routine on what the client sends: the target, the reply, and not a byte more read. */
  lemma HandleServesClient(env: Env, c: Client, up: Upstream, rest: seq<nat>)
    requires SoundEnv(env) && GoodTarget(env, c)
    ensures Request(env, c).Some?
    ensures ServerDrive(env, up, Version, Greeting(c) + (Request(env, c).value + rest), []) ==
      match up(c.host, c.port)
      case None => (Closed, rest, [5, 0] + [5, 5])
      case Some(b) => (Relaying(c.host, c.port), rest, [5, 0] + SuccessReply(b))
  {
    ServerReadsRequest(env, c, up, rest, [5, 0]);
    ServerReadsGreeting(env, c, up, Request(env, c).value + rest);
  }

  /** The client routine on what the server sends: a tunnel that starts right behind the reply, or a
      broken handshake. */
  lemma ConnectMeetsServer(env: Env, c: Client, b: Bind, rest: seq<nat>)
    requires SoundEnv(env) && GoodTarget(env, c) && |b.addr| == 4
    ensures ClientDrive(env, c, Greet, [5, 0] + (SuccessReply(b) + rest), []) ==
      (Tunnel, rest, Greeting(c) + Request(env, c).value)
    ensures ClientDrive(env, c, Greet, [5, 0] + [5, 5], []) == (Broken, [5, 5], Greeting(c) + Request(env, c).value)
  {
    RequestLength(env, c);
    if IsIp(c.host) {
      QuadBack(env, c);
    }
    ClientAgrees(env, c, SuccessReply(b) + rest);
    ClientAgrees(env, c, [5, 5]);
    var sent := Greeting(c) + Request(env, c).value;
    var tail := b.addr + PortBytes(b.port);
    assert SuccessReply(b) + rest == [5, 0, 0, 1] + (tail + rest);
    ClientReads(env, c, ReplyWait, [5, 0, 0, 1], tail + rest, sent);
    ClientReads(env, c, TailWait(6), tail, rest, sent);
  }

  lemma ClientAgrees(env: Env, c: Client, rest: seq<nat>)
    requires Request(env, c).Some?
    ensures ClientDrive(env, c, Greet, [5, 0] + rest, []) ==
      ClientDrive(env, c, ReplyWait, rest, Greeting(c) + Request(env, c).value)
  {
    var input := [5, 0] + rest;
    assert [] + input == input;
    ClientReads(env, c, Greet, [], input, []);
    assert [] + Greeting(c) == Greeting(c);
    ClientReads(env, c, MethodWait, [5, 0], rest, Greeting(c));
  }
}
