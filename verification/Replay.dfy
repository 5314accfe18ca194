/** The path of a client's bytes: captured while the HTTP server reads the request, replayed to the
    service, then streamed through the pipe. */
module Replay {
  import opened Pipe

  /** What the mutex of a rawCaptureConnection protects. */
  datatype Capture = Capture(buffer: seq<Byte>, capture: bool)

  function Captured(c: Capture, chunk: seq<Byte>): Capture {
    if c.capture then c.(buffer := c.buffer + chunk) else c
  }

  class RawCaptureConnection {
    var buffer: seq<Byte>
    var capture: bool

    ghost function Value(): Capture
      reads this
    {
      Capture(buffer, capture)
    }

    constructor ()
      ensures Value() == Capture([], true)
    {
      buffer, capture := [], true;
    }

    /** `incoming` is what the socket has; at most `p.Length` bytes are taken. */
    method Read(p: array<Byte>, incoming: seq<Byte>) returns (n: nat)
      modifies this, p
      ensures n == (if p.Length < |incoming| then p.Length else |incoming|)
      ensures p[..n] == incoming[..n] && Value() == Captured(old(Value()), incoming[..n])
    {
      n := if p.Length < |incoming| then p.Length else |incoming|;
      BufferedPipe.Copy(p, incoming[..n]);
      if n > 0 {
        if capture {
          buffer := buffer + p[..n];
        }
      }
      assert buffer + [] == buffer;
    }

    method StopBuffering()
      modifies this
      ensures Value() == Capture([], false)
    {
      capture := false;
      buffer := [];
    }

    method ResetConnectionBuffer()
      modifies this
      ensures Value() == Capture([], true)
    {
      buffer := [];
      capture := true;
    }

    /** The end of handleCompletions: what was captured is handed over, and capturing stops. */
    method HandOver() returns (raw: seq<Byte>)
      modifies this
      ensures raw == old(buffer) && Value() == Capture([], false)
    {
      raw := buffer;
      StopBuffering();
    }
  }

  // ---------------------------------------------------------------- one connection as a step machine

  datatype Stage =
    | Serving                         // the HTTP server reads requests
    | Hijacked                        // the handler took the connection; nobody reads
    | Extracted(raw: seq<Byte>)       // the captured bytes were taken
    | Starting(raw: seq<Byte>)        // handleConnection, up to the write of `raw`
    | Forwarding
    | Over

  /** History of the HTTP server: what it has read and not yet served; and of the last reset: what was read
      and not yet served then, how many bytes of the request being answered were still to be served, how
      many bytes of requests without a handler were served since, and how many bytes in all. */
  datatype Server = Server(unserved: seq<Byte>, left: seq<Byte>, own: nat, bypassed: nat, served: nat)

  /** `hand` is what the read monitor took from the client and has not yet written to the pipe;
      `copy` what the forwarder took from the pipe and has not yet written to the service. */
  datatype Connection = Connection(
    capture: Capture, stage: Stage, pipe: Buffer, hand: seq<Byte>, monitorDone: bool, copy: seq<Byte>,
    toService: seq<Byte>, server: Server)

  /** `Answer` serves bytes of a request that has a handler: the handler reads them, or the server drops an
      unread body after the handler returned. `Bypass` serves bytes of a request that the server answers by
      itself. A handler that does not hijack ends with `Reset`, when `own` bytes of its request are still to
      be served, read or not. */
  datatype Act =
    | Serve(chunk: seq<Byte>) | Answer(n: nat) | Bypass(n: nat) | Reset(own: nat) | Hijack | Extract | Stop
    | MonitorRead(chunk: seq<Byte>) | MonitorWrite | MonitorEnd
    | GiveUp | Send(k: nat) | Forward(n: nat) | Copy(k: nat) | Finish

  /** A request is hijacked after the one before it was served to its end, and every handler in between
      ended with a reset. */
  predicate Enabled(c: Connection, a: Act) {
    match a
    case Serve(_) => c.stage.Serving?
    case Answer(n) => c.stage.Serving? && n <= |c.server.unserved|
    case Bypass(n) => c.stage.Serving? && n <= |c.server.unserved|
    case Reset(_) => c.stage.Serving?
    case Hijack => c.stage.Serving? && c.server.served == c.server.own + c.server.bypassed
    case Extract => c.stage.Hijacked?
    case Stop => c.stage.Extracted?
    case MonitorRead(_) =>
      (c.stage.Starting? || c.stage.Forwarding? || c.stage.Over?) && c.hand == [] && !c.monitorDone
    case MonitorWrite =>
      c.hand != [] && !c.monitorDone && var o := WriteOnce(c.pipe, c.hand).0; o.Accepted? || o.ClosedPipe?
    case MonitorEnd => (c.stage.Starting? || c.stage.Forwarding? || c.stage.Over?) && c.hand == [] && !c.monitorDone
    case GiveUp => c.stage.Starting?
    case Send(k) => c.stage.Starting? && k <= |c.stage.raw|
    case Forward(n) => c.stage.Forwarding? && c.copy == [] && ReadOnce(c.pipe, n).0.Delivered?
    case Copy(k) => c.stage.Forwarding? && c.copy != [] && k <= |c.copy|
    case Finish => c.stage.Forwarding?
  }

  /** A write that stops early is an error and ends the connection, as does giving up. */
  function Apply(c: Connection, a: Act): Connection
    requires Enabled(c, a)
  {
    match a
    case Serve(chunk) =>
      c.(capture := Captured(c.capture, chunk), server := c.server.(unserved := c.server.unserved + chunk))
    case Answer(n) => c.(server := c.server.(unserved := c.server.unserved[n..], served := c.server.served + n))
    case Bypass(n) =>
      c.(server := c.server.(unserved := c.server.unserved[n..], served := c.server.served + n,
                             bypassed := c.server.bypassed + n))
    case Reset(own) =>
      c.(capture := Capture([], true), server := Server(c.server.unserved, c.server.unserved, own, 0, 0))
    case Hijack => c.(stage := Hijacked)
    case Extract => c.(stage := Extracted(c.capture.buffer))
    case Stop => c.(capture := Capture([], false), stage := Starting(c.stage.raw))
    case MonitorRead(chunk) => c.(capture := Captured(c.capture, chunk), hand := chunk)
    case MonitorWrite =>
      var (outcome, pipe) := WriteOnce(c.pipe, c.hand);
      if outcome.Accepted? then c.(pipe := pipe, hand := []) else c.(monitorDone := true)
    case MonitorEnd => c.(pipe := c.pipe.(writerDone := true), monitorDone := true)
    case GiveUp => c.(pipe := c.pipe.(closed := true), stage := Over)
    case Send(k) =>
      if k == |c.stage.raw| then c.(toService := c.toService + c.stage.raw, stage := Forwarding)
      else c.(toService := c.toService + c.stage.raw[..k], pipe := c.pipe.(closed := true), stage := Over)
    case Forward(n) =>
      var (outcome, pipe) := ReadOnce(c.pipe, n);
      c.(pipe := pipe, copy := outcome.data)
    case Copy(k) =>
      if k == |c.copy| then c.(toService := c.toService + c.copy, copy := [])
      else c.(toService := c.toService + c.copy[..k], pipe := c.pipe.(closed := true), stage := Over)
    case Finish => c.(pipe := c.pipe.(closed := true), stage := Over)
  }

  /** A connection to the OpenAI port, or one to a service's own port, which replays nothing. */
  ghost predicate Init(c: Connection) {
    && ((c.stage == Serving && c.capture == Capture([], true))
        || (c.stage == Starting([]) && c.capture == Capture([], false)))
    && c.pipe.bytes == c.hand == c.copy == c.toService == [] && !c.monitorDone && c.server == Server([], [], 0, 0, 0)
  }

  ghost predicate IsRun(run: seq<Connection>, acts: seq<Act>) {
    && |run| == |acts| + 1 && Init(run[0])
    && forall k :: 0 <= k < |acts| ==> Enabled(run[k], acts[k]) && run[k + 1] == Apply(run[k], acts[k])
  }

  /** What was read from the client since the last reset of the capture buffer. */
  function ReadSince(acts: seq<Act>): seq<Byte> {
    if acts == [] then []
    else
      var before, last := ReadSince(acts[..|acts| - 1]), acts[|acts| - 1];
      match last
      case Serve(chunk) => before + chunk
      case MonitorRead(chunk) => before + chunk
      case Reset(_) => []
      case _ => before
  }

  // ---------------------------------------------------------------- the invariant

  ghost predicate Inv(c: Connection, since: seq<Byte>) {
    match c.stage
    case Serving => Untouched(c) && c.capture == Capture(since, true)
    case Hijacked => Untouched(c) && c.capture == Capture(since, true)
    case Extracted(raw) => Untouched(c) && raw == since
    case Starting(raw) => c.toService == c.copy == [] && since == raw + c.pipe.bytes + c.hand
    case Forwarding => since == c.toService + c.copy + c.pipe.bytes + c.hand
    case Over => c.toService <= since
  }

  ghost predicate Untouched(c: Connection) {
    c.toService == c.copy == c.pipe.bytes == c.hand == []
  }

  function Next(since: seq<Byte>, a: Act): seq<Byte> {
    match a
    case Serve(chunk) => since + chunk
    case MonitorRead(chunk) => since + chunk
    case Reset(_) => []
    case _ => since
  }

  /** The handover from the captured bytes to the stream. */
  lemma HandoverInv(c: Connection, k: nat, since: seq<Byte>)
    requires Inv(c, since) && Enabled(c, Send(k))
    ensures Inv(Apply(c, Send(k)), since)
  {
    var raw := c.stage.raw;
    assert raw == raw[..k] + raw[k..];
    assert k == |raw| ==> since == raw + [] + c.pipe.bytes + c.hand;
  }

  lemma ForwardInv(c: Connection, n: nat, since: seq<Byte>)
    requires Inv(c, since) && Enabled(c, Forward(n))
    ensures Inv(Apply(c, Forward(n)), since)
  {
    var (outcome, pipe) := ReadOnce(c.pipe, n);
    assert c.pipe.bytes == outcome.data + pipe.bytes && c.copy == [];
    var c' := Apply(c, Forward(n));
    assert c' == c.(pipe := pipe, copy := outcome.data) && c.stage.Forwarding?;
    assert c.toService + [] + (outcome.data + pipe.bytes) + c.hand == c.toService + outcome.data + pipe.bytes + c.hand;
    hide Enabled, Apply, ReadOnce;
  }

  lemma CopyInv(c: Connection, k: nat, since: seq<Byte>)
    requires Inv(c, since) && Enabled(c, Copy(k))
    ensures Inv(Apply(c, Copy(k)), since)
  {
    assert c.copy == c.copy[..k] + c.copy[k..];
    if k < |c.copy| {
      assert c.toService + (c.copy[..k] + c.copy[k..]) + c.pipe.bytes + c.hand
             == c.toService + c.copy[..k] + (c.copy[k..] + c.pipe.bytes + c.hand);
    }
  }

  lemma EndInv(c: Connection, a: Act, since: seq<Byte>)
    requires Inv(c, since) && Enabled(c, a) && (a.Finish? || a.GiveUp?)
    ensures Inv(Apply(c, a), since)
  {
    if a.Finish? {
      assert c.toService + c.copy + c.pipe.bytes + c.hand == c.toService + (c.copy + c.pipe.bytes + c.hand);
    }
  }

  lemma StepInv(c: Connection, a: Act, since: seq<Byte>)
    requires Inv(c, since) && Enabled(c, a)
    ensures Inv(Apply(c, a), Next(since, a))
  {
    if a.MonitorRead? || a.MonitorWrite? || a.MonitorEnd? {
    } else {
      match a
      case Send(k) => HandoverInv(c, k, since);
      case Forward(n) => ForwardInv(c, n, since);
      case Copy(k) => CopyInv(c, k, since);
      case Finish => EndInv(c, a, since);
      case GiveUp => EndInv(c, a, since);
      case _ =>
    }
  }

  lemma {:induction false} RunInv(run: seq<Connection>, acts: seq<Act>, k: nat)
    requires IsRun(run, acts) && k < |run|
    ensures Inv(run[k], ReadSince(acts[..k]))
  {
    if k > 0 {
      RunInv(run, acts, k - 1);
      assert acts[..k][..k - 1] == acts[..k - 1];
      assert ReadSince(acts[..k]) == Next(ReadSince(acts[..k - 1]), acts[k - 1]);
      hide Inv, Apply, Enabled, ReadSince;
      assert Enabled(run[k - 1], acts[k - 1]) && run[k - 1 + 1] == Apply(run[k - 1], acts[k - 1]);
      StepInv(run[k - 1], acts[k - 1], ReadSince(acts[..k - 1]));
    }
  }

  // ---------------------------------------------------------------- what every run satisfies

  /** At every step the service was sent a prefix of what was read since the last reset. */
  lemma SentIsPrefix(run: seq<Connection>, acts: seq<Act>, k: nat)
    requires IsRun(run, acts) && k < |run|
    ensures run[k].toService <= ReadSince(acts[..k])
  {
    RunInv(run, acts, k);
    hide ReadSince;
    var c := run[k];
    if c.stage.Forwarding? {
      assert c.toService + c.copy + c.pipe.bytes + c.hand == c.toService + (c.copy + c.pipe.bytes + c.hand);
    }
  }

  /** While the connection is forwarded nothing is lost: what is not yet sent is on its way, in
      order, and once nothing is on its way everything was sent. */
  lemma NothingLost(run: seq<Connection>, acts: seq<Act>, k: nat)
    requires IsRun(run, acts) && k < |run| && run[k].stage.Forwarding?
    ensures ReadSince(acts[..k]) == run[k].toService + run[k].copy + run[k].pipe.bytes + run[k].hand
  {
    RunInv(run, acts, k);
  }

  /** What is replayed is all that was read since the reset, up to the handover; what the monitor
      reads afterwards follows it. */
  lemma ReplayIsComplete(run: seq<Connection>, acts: seq<Act>, k: nat)
    requires IsRun(run, acts) && k < |run|
    ensures run[k].stage.Extracted? ==> run[k].stage.raw == ReadSince(acts[..k]) && run[k].toService == []
    ensures run[k].stage.Starting? ==>
              run[k].stage.raw + run[k].pipe.bytes + run[k].hand == ReadSince(acts[..k]) && run[k].toService == []
  {
    RunInv(run, acts, k);
  }

  // ---------------------------------------------------------------- the request that is forwarded

  /** Until the handover, what the server has not served is what it read and had left, without what it
      served since. */
  ghost predicate ServerOk(c: Connection, since: seq<Byte>) {
    && (c.stage.Serving? || c.stage.Hijacked? || c.stage.Extracted? ==>
          && c.server.served <= |c.server.left + since|
          && c.server.unserved == (c.server.left + since)[c.server.served..])
    && (c.server.served == |c.server.left| ==> c.server.unserved <= since)
    && (!c.stage.Serving? ==> c.server.served == c.server.own + c.server.bypassed)
  }

  lemma AllServed(left: seq<Byte>, since: seq<Byte>)
    ensures (left + since)[|left|..] == since
  {
  }

  lemma ServeStep(c: Connection, chunk: seq<Byte>, since: seq<Byte>)
    requires ServerOk(c, since) && Enabled(c, Serve(chunk))
    ensures ServerOk(Apply(c, Serve(chunk)), since + chunk)
  {
    assert c.server.left + (since + chunk) == (c.server.left + since) + chunk;
    AllServed(c.server.left, since + chunk);
  }

  lemma AnswerStep(c: Connection, a: Act, since: seq<Byte>)
    requires ServerOk(c, since) && Enabled(c, a) && (a.Answer? || a.Bypass?)
    ensures ServerOk(Apply(c, a), since)
  {
    var left, served := c.server.left, c.server.served;
    assert (left + since)[served..][a.n..] == (left + since)[served + a.n..];
    AllServed(left, since);
  }

  lemma ServerStep(c: Connection, a: Act, since: seq<Byte>)
    requires ServerOk(c, since) && Enabled(c, a)
    ensures ServerOk(Apply(c, a), Next(since, a))
  {
    match a {
      case Serve(chunk) => ServeStep(c, chunk, since);
      case Answer(_) => AnswerStep(c, a, since);
      case Bypass(_) => AnswerStep(c, a, since);
      case Reset(_) =>
        assert c.server.unserved + [] == c.server.unserved;
        AllServed(c.server.unserved, []);
      case _ =>
    }
  }

  lemma {:induction false} ServerInv(run: seq<Connection>, acts: seq<Act>, k: nat)
    requires IsRun(run, acts) && k < |run|
    ensures ServerOk(run[k], ReadSince(acts[..k]))
  {
    if k > 0 {
      ServerInv(run, acts, k - 1);
      assert acts[..k][..k - 1] == acts[..k - 1];
      assert ReadSince(acts[..k]) == Next(ReadSince(acts[..k - 1]), acts[k - 1]);
      hide ServerOk, Apply, Enabled, ReadSince;
      assert Enabled(run[k - 1], acts[k - 1]) && run[k - 1 + 1] == Apply(run[k - 1], acts[k - 1]);
      ServerStep(run[k - 1], acts[k - 1], ReadSince(acts[..k - 1]));
    }
  }

  /** What is replayed is what the server had not served, if and only if all that was read at the last reset
      belonged to the request being answered then or to requests that got no handler, and was all of them.
      Otherwise the rest of it is missing in front, or the rest of them is replayed in front. */
  lemma WholeRequest(run: seq<Connection>, acts: seq<Act>, k: nat)
    requires IsRun(run, acts) && k < |run| && run[k].stage.Extracted?
    ensures var Server(unserved, left, own, bypassed, _) := run[k].server;
            var raw, n := run[k].stage.raw, own + bypassed;
            && (raw == unserved <==> n == |left|)
            && (n <= |left| ==> unserved == left[n..] + raw)
            && (n >= |left| ==> n - |left| <= |raw| && unserved == raw[n - |left|..])
  {
    RunInv(run, acts, k);
    ServerInv(run, acts, k);
    hide ReadSince;
    var left, n := run[k].server.left, run[k].server.served;
    var raw := run[k].stage.raw;
    if n <= |left| {
      assert (left + raw)[n..] == left[n..] + raw;
    } else {
      assert (left + raw)[n..] == raw[n - |left|..];
    }
  }

  predicate Plain(a: Act) {
    !a.Reset? && !a.Bypass?
  }

  lemma {:induction false} PlainKeeps(run: seq<Connection>, acts: seq<Act>, i: nat, k: nat)
    requires IsRun(run, acts) && i <= k < |run| && forall p :: i <= p < k ==> Plain(acts[p])
    ensures run[k].server.left == run[i].server.left && run[k].server.own == run[i].server.own
    ensures run[k].server.bypassed == run[i].server.bypassed
  {
    if i < k {
      PlainKeeps(run, acts, i, k - 1);
      assert Plain(acts[k - 1]) && run[k - 1 + 1] == Apply(run[k - 1], acts[k - 1]);
    }
  }

  /** A test at the reset. When the server then answers no request without a handler, the next forwarded
      request is replayed as it is if and only if what is buffered at the reset is exactly the rest of the
      request being answered. */
  lemma ResetDecides(run: seq<Connection>, acts: seq<Act>, r: nat, k: nat)
    requires IsRun(run, acts) && r < k < |run| && run[k].stage.Extracted?
    requires acts[r].Reset? && forall p :: r < p < k ==> Plain(acts[p])
    ensures run[k].stage.raw == run[k].server.unserved <==> acts[r].own == |run[r].server.unserved|
  {
    WholeRequest(run, acts, k);
    PlainKeeps(run, acts, r + 1, k);
    assert Enabled(run[r], acts[r]) && run[r + 1] == Apply(run[r], acts[r]);
  }

  /** The first request of a connection is always replayed as it is. */
  lemma FirstRequest(run: seq<Connection>, acts: seq<Act>, k: nat)
    requires IsRun(run, acts) && k < |run| && run[k].stage.Extracted? && forall p :: 0 <= p < k ==> Plain(acts[p])
    ensures run[k].stage.raw == run[k].server.unserved
  {
    WholeRequest(run, acts, k);
    PlainKeeps(run, acts, 0, k);
  }

  /** A request that is replayed as it is comes in front of everything else the service is sent. */
  lemma RequestComesFirst(run: seq<Connection>, acts: seq<Act>, k: nat)
    requires IsRun(run, acts) && k < |run| && run[k].stage.Forwarding?
    requires run[k].server.own + run[k].server.bypassed == |run[k].server.left|
    ensures run[k].server.unserved <= run[k].toService + run[k].copy + run[k].pipe.bytes + run[k].hand
  {
    NothingLost(run, acts, k);
    ServerInv(run, acts, k);
    hide ReadSince;
  }

  // ---------------------------------------------------------------- three requests that are not

  /** The acts lead to a connection, as far as the HTTP server goes, with these values. */
  ghost predicate Reaches(acts: seq<Act>, buffer: seq<Byte>, stage: Stage, server: Server) {
    exists run: seq<Connection> ::
      && IsRun(run, acts) && run[|acts|].capture == Capture(buffer, true)
      && run[|acts|].stage == stage && run[|acts|].server == server
  }

  lemma ReachesStart()
    ensures Reaches([], [], Serving, Server([], [], 0, 0, 0))
  {
    var start := Server([], [], 0, 0, 0);
    var c := Connection(Capture([], true), Serving, Buffer([], 1, false, false), [], false, [], [], start);
    assert IsRun([c], []) && [c][0] == c;
  }

  /** What the acts of the HTTP server do. */
  ghost predicate Does(a: Act, buffer: seq<Byte>, stage: Stage, s: Server, buffer': seq<Byte>, stage': Stage,
                       s': Server) {
    match a
    case Serve(chunk) =>
      && stage == stage' == Serving && buffer' == buffer + chunk && s' == s.(unserved := s.unserved + chunk)
    case Answer(n) =>
      && stage == stage' == Serving && buffer' == buffer && n <= |s.unserved|
      && s' == s.(unserved := s.unserved[n..], served := s.served + n)
    case Bypass(n) =>
      && stage == stage' == Serving && buffer' == buffer && n <= |s.unserved|
      && s' == s.(unserved := s.unserved[n..], served := s.served + n, bypassed := s.bypassed + n)
    case Reset(own) =>
      stage == stage' == Serving && buffer' == [] && s' == Server(s.unserved, s.unserved, own, 0, 0)
    case Hijack =>
      stage == Serving && stage' == Hijacked && buffer' == buffer && s' == s && s.served == s.own + s.bypassed
    case Extract => stage == Hijacked && stage' == Extracted(buffer) && buffer' == buffer && s' == s
    case _ => false
  }

  lemma ReachesOn(acts: seq<Act>, a: Act, buffer: seq<Byte>, stage: Stage, s: Server, buffer': seq<Byte>,
                  stage': Stage, s': Server, more: seq<Act>)
    requires Reaches(acts, buffer, stage, s) && Does(a, buffer, stage, s, buffer', stage', s') && more == acts + [a]
    ensures Reaches(more, buffer', stage', s')
  {
    var run: seq<Connection> :|
      && IsRun(run, acts) && run[|acts|].capture == Capture(buffer, true) && run[|acts|].stage == stage
      && run[|acts|].server == s;
    var c := run[|acts|];
    assert Enabled(c, a);
    var c' := Apply(c, a);
    assert c'.capture == Capture(buffer', true) && c'.stage == stage' && c'.server == s';
    hide Enabled, Apply, Init, Does;
    Longer(run, acts, a);
    assert (run + [c'])[|acts + [a]|] == c';
  }

  lemma Longer(run: seq<Connection>, acts: seq<Act>, a: Act)
    requires IsRun(run, acts) && Enabled(run[|acts|], a)
    ensures IsRun(run + [Apply(run[|acts|], a)], acts + [a])
  {
    var longer, more := run + [Apply(run[|acts|], a)], acts + [a];
    hide Enabled, Apply, Init;
    forall k | 0 <= k < |more| ensures Enabled(longer[k], more[k]) && longer[k + 1] == Apply(longer[k], more[k]) {
      if k < |acts| {
        assert Enabled(run[k], acts[k]) && run[k + 1] == Apply(run[k], acts[k]);
      }
    }
  }

  lemma ReachesServe(acts: seq<Act>, chunk: seq<Byte>, buffer: seq<Byte>, s: Server, buffer': seq<Byte>,
                     unserved: seq<Byte>, more: seq<Act>)
    requires Reaches(acts, buffer, Serving, s) && more == acts + [Serve(chunk)]
    requires buffer' == buffer + chunk && unserved == s.unserved + chunk
    ensures Reaches(more, buffer', Serving, s.(unserved := unserved))
  {
    assert Does(Serve(chunk), buffer, Serving, s, buffer', Serving, s.(unserved := unserved));
    hide *;
    ReachesOn(acts, Serve(chunk), buffer, Serving, s, buffer', Serving, s.(unserved := unserved), more);
  }

  lemma ReachesAnswer(acts: seq<Act>, n: nat, buffer: seq<Byte>, s: Server, unserved: seq<Byte>, more: seq<Act>)
    requires Reaches(acts, buffer, Serving, s) && more == acts + [Answer(n)]
    requires n <= |s.unserved| && unserved == s.unserved[n..]
    ensures Reaches(more, buffer, Serving, s.(unserved := unserved, served := s.served + n))
  {
    var s' := s.(unserved := unserved, served := s.served + n);
    assert Does(Answer(n), buffer, Serving, s, buffer, Serving, s');
    hide *;
    ReachesOn(acts, Answer(n), buffer, Serving, s, buffer, Serving, s', more);
  }

  lemma ReachesBypass(acts: seq<Act>, n: nat, buffer: seq<Byte>, s: Server, unserved: seq<Byte>, more: seq<Act>)
    requires Reaches(acts, buffer, Serving, s) && more == acts + [Bypass(n)]
    requires n <= |s.unserved| && unserved == s.unserved[n..]
    ensures Reaches(more, buffer, Serving,
                    s.(unserved := unserved, served := s.served + n, bypassed := s.bypassed + n))
  {
    var s' := s.(unserved := unserved, served := s.served + n, bypassed := s.bypassed + n);
    assert Does(Bypass(n), buffer, Serving, s, buffer, Serving, s');
    hide *;
    ReachesOn(acts, Bypass(n), buffer, Serving, s, buffer, Serving, s', more);
  }

  lemma ReachesReset(acts: seq<Act>, own: nat, buffer: seq<Byte>, s: Server, more: seq<Act>)
    requires Reaches(acts, buffer, Serving, s) && more == acts + [Reset(own)]
    ensures Reaches(more, [], Serving, Server(s.unserved, s.unserved, own, 0, 0))
  {
    var s' := Server(s.unserved, s.unserved, own, 0, 0);
    assert Does(Reset(own), buffer, Serving, s, [], Serving, s');
    hide *;
    ReachesOn(acts, Reset(own), buffer, Serving, s, [], Serving, s', more);
  }

  lemma ReachesHandover(acts: seq<Act>, buffer: seq<Byte>, s: Server, more: seq<Act>)
    requires Reaches(acts, buffer, Serving, s) && s.served == s.own + s.bypassed && more == acts + [Hijack, Extract]
    ensures Reaches(more, buffer, Extracted(buffer), s)
  {
    assert Does(Hijack, buffer, Serving, s, buffer, Hijacked, s);
    assert Does(Extract, buffer, Hijacked, s, buffer, Extracted(buffer), s);
    var hijacked := acts + [Hijack];
    assert more == hijacked + [Extract];
    hide *;
    ReachesOn(acts, Hijack, buffer, Serving, s, buffer, Hijacked, s, hijacked);
    ReachesOn(hijacked, Extract, buffer, Hijacked, s, buffer, Extracted(buffer), s, more);
  }

  /** Two requests in one segment. The first is answered and the capture buffer reset, the second is
      forwarded: nothing of it is replayed. */
  lemma PipelinedExample()
    ensures Reaches([Serve([1, 2]), Answer(1), Reset(0), Hijack, Extract], [], Extracted([]),
                    Server([2], [2], 0, 0, 0))
  {
    hide *;
    ReachesStart();
    assert [] + [1, 2] == [1, 2] && [1, 2][1..] == [2];
    ReachesServe([], [1, 2], [], Server([], [], 0, 0, 0), [1, 2], [1, 2], [Serve([1, 2])]);
    ReachesAnswer([Serve([1, 2])], 1, [1, 2], Server([1, 2], [], 0, 0, 0), [2], [Serve([1, 2]), Answer(1)]);
    var acts := [Serve([1, 2]), Answer(1), Reset(0)];
    ReachesReset([Serve([1, 2]), Answer(1)], 0, [1, 2], Server([2], [], 0, 0, 1), acts);
    ReachesHandover(acts, [], Server([2], [2], 0, 0, 0), [Serve([1, 2]), Answer(1), Reset(0), Hijack, Extract]);
  }

  /** The handler of the first request ends without reading its body, which has not come yet. The server
      drops the body, and it is replayed in front of the second request. */
  lemma UnreadBodyExample()
    ensures Reaches([Serve([1]), Reset(2), Serve([2]), Answer(2), Serve([3]), Hijack, Extract], [2, 3],
                    Extracted([2, 3]), Server([3], [1], 2, 0, 2))
  {
    hide *;
    ReachesStart();
    assert [] + [1] == [1] && [1] + [2] == [1, 2] && [1, 2][2..] == [];
    assert [] + [2] == [2] && [2] + [3] == [2, 3] && [] + [3] == [3];
    ReachesServe([], [1], [], Server([], [], 0, 0, 0), [1], [1], [Serve([1])]);
    ReachesReset([Serve([1])], 2, [1], Server([1], [], 0, 0, 0), [Serve([1]), Reset(2)]);
    var acts := [Serve([1]), Reset(2), Serve([2])];
    ReachesServe([Serve([1]), Reset(2)], [2], [], Server([1], [1], 2, 0, 0), [2], [1, 2], acts);
    ReachesAnswer(acts, 2, [2], Server([1, 2], [1], 2, 0, 0), [], acts + [Answer(2)]);
    ReachesServe(acts + [Answer(2)], [3], [2], Server([], [1], 2, 0, 2), [2, 3], [3], acts + [Answer(2), Serve([3])]);
    ReachesHandover(acts + [Answer(2), Serve([3])], [2, 3], Server([3], [1], 2, 0, 2),
                    [Serve([1]), Reset(2), Serve([2]), Answer(2), Serve([3]), Hijack, Extract]);
  }

  /** The server answers the first request by itself, so nothing resets the capture buffer. */
  lemma BypassExample()
    ensures Reaches([Serve([1]), Bypass(1), Serve([2]), Hijack, Extract], [1, 2], Extracted([1, 2]),
                    Server([2], [], 0, 1, 1))
  {
    hide *;
    ReachesStart();
    assert [] + [1] == [1] && [1][1..] == [] && [] + [2] == [2] && [1] + [2] == [1, 2];
    ReachesServe([], [1], [], Server([], [], 0, 0, 0), [1], [1], [Serve([1])]);
    ReachesBypass([Serve([1])], 1, [1], Server([1], [], 0, 0, 0), [], [Serve([1]), Bypass(1)]);
    var acts := [Serve([1]), Bypass(1), Serve([2])];
    ReachesServe([Serve([1]), Bypass(1)], [2], [1], Server([], [], 0, 1, 1), [1, 2], [2], acts);
    ReachesHandover(acts, [1, 2], Server([2], [], 0, 1, 1), [Serve([1]), Bypass(1), Serve([2]), Hijack, Extract]);
  }
}
