/**
  What holds throughout the FLASH exchange, whatever faults occur.

  The client has sent a beginning of its header and file, and has returned 0 only after
  reading the success line.  The daemon has read a beginning of what was sent, is where
  that puts it, and sends nothing but lines that begin `OK`, `ERR` or `LOG`; the success
  line is among them only if `flash_hex` returned 0, even where a line follows one that
  broke off.  `flash_hex` is called at most once, on what was read whole.

  Here are the invariant and one lemma after the other for what each kind of step does
  to it.
 */
module FlashWireInvariant {
  import opened Wrappers
  import opened Text
  import opened FlashHeader
  import opened Roles
  import opened FlashWire

  // ---------------------------------------------------------------------------
  // The words of the protocol
  // ---------------------------------------------------------------------------

  predicate Initial(c: char) {
    c == 'O' || c == 'E' || c == 'L'
  }

  /** What the daemon sends: one line, beginning `OK`, `ERR` or `LOG`. */
  predicate DaemonLine(line: string) {
    OneLine(line) && line != "" && Initial(line[0])
  }

  lemma DecIsOneLine(n: nat)
    ensures OneLine(Dec(n))
  {
    DecRoundTrip(n);
    assert forall i :: 0 <= i < |Dec(n)| ==> IsDigit(Dec(n)[i]);
  }

  lemma ErrBegins(r: Refusal)
    ensures Err(r) != "" && Err(r)[0] == 'E'
  {
  }

  lemma OneLineParts(a: string, b: string, c: string)
    requires OneLine(a) && OneLine(b) && OneLine(c)
    ensures OneLine(a + b + c)
  {
  }

  lemma ErrIsOneLine(r: Refusal)
    ensures OneLine(Err(r))
  {
    match r
    case FlashFailed(rc) =>
      DecIsOneLine(if rc < 0 then -rc else rc);
      OneLineParts("ERR flash failed (exit ", SignedDec(rc), ")");
    case _ =>
  }

  lemma ErrIsDaemonLine(r: Refusal)
    ensures DaemonLine(Err(r)) && Err(r) != OkFlashed() && LogOf(Err(r)) == None
  {
    ErrBegins(r);
    ErrIsOneLine(r);
    hide Err;
    assert OkFlashed()[0] == 'O' && "LOG "[0] == 'L';
  }

  lemma LogIsDaemonLine(m: string)
    requires OneLine(m)
    ensures DaemonLine(LogLine(m)) && LogLine(m) != OkFlashed() && LogOf(LogLine(m)) == Some(m)
  {
    assert LogLine(m)[0] == 'L' && OkFlashed()[0] == 'O';
    assert LogLine(m)[4..] == m;
  }

  lemma LogOfInverts(line: string)
    requires LogOf(line).Some?
    ensures LogLine(LogOf(line).value) == line
  {
    assert line == "LOG " + line[4..];
  }

  /** No proper suffix of "OK flashed" begins like a line of the daemon. */
  lemma OkLines()
    ensures DaemonLine(OkSend()) && DaemonLine(OkFlashed())
    ensures OkSend() != OkFlashed() && LogOf(OkFlashed()) == None
    ensures forall i :: 1 <= i < |OkFlashed()| ==> !Initial(OkFlashed()[i])
  {
    assert |OkSend()| == 7 && |OkFlashed()| == 10;
    assert OkFlashed()[0] == 'O';
  }

  // ---------------------------------------------------------------------------
  // The client's header, as the daemon understands it
  // ---------------------------------------------------------------------------

  /** The access controls the daemon imposes before it writes anything. */
  predicate Guards(cfg: Config) {
    cfg.token == None && Offered(cfg)
  }

  predicate Offered(cfg: Config) {
    !cfg.noFlash && !cfg.busy && (!IsRelay(cfg.role) || cfg.force)
  }

  function ParsedHeader(cfg: Config): Header {
    Header(|cfg.payload|, Some(cfg.digest(cfg.payload)), cfg.force)
  }

  /** What the rest of the argument needs of the header line `hdr`. */
  ghost predicate Understood(cfg: Config, hdr: string) {
    && OneLine(hdr)
    && AfterAuth(cfg, hdr) == Reply(Err(AuthRequired), ToClose)
    && (Offered(cfg) ==> AfterCommand(cfg, hdr) == Reply(OkSend(), ToPayload(ParsedHeader(cfg))))
    && (!Offered(cfg) ==> exists r :: AfterCommand(cfg, hdr) == Reply(Err(r), ToClose))
    && Lower(cfg.digest(cfg.payload)) == cfg.digest(cfg.payload)
    && (forall i :: 0 <= i < |cfg.log| ==> OneLine(cfg.log[i]))
  }

  lemma LowerKeepsHex(s: string)
    requires IsLowerHex(s)
    ensures Lower(s) == s
  {
  }

  lemma CommandAnswer(cfg: Config, hdr: string, h: Header)
    requires Strip(hdr) == hdr && ParseHeader(hdr) == Some(h)
    requires Split(hdr) != [] && Split(hdr)[0] == "FLASH" && Split(hdr)[0] != "INFO"
    requires h.forceRelay == cfg.force
    ensures Offered(cfg) ==> AfterCommand(cfg, hdr) == Reply(OkSend(), ToPayload(h))
    ensures !Offered(cfg) ==> exists r :: AfterCommand(cfg, hdr) == Reply(Err(r), ToClose)
  {
    hide ParseHeader;
    hide Split;
    hide Strip;
    hide IsRelay;
    hide Err;
    hide OkSend;
    if cfg.noFlash {
      assert AfterCommand(cfg, hdr) == Reply(Err(FlashDisabled), ToClose);
    } else if IsRelay(cfg.role) && !cfg.force {
      assert AfterCommand(cfg, hdr) == Reply(Err(RelayRefused), ToClose);
    } else if cfg.busy {
      assert AfterCommand(cfg, hdr) == Reply(Err(Busy), ToClose);
    }
  }

  /** The daemon reads the client's header for what it is. */
  lemma HeaderUnderstood(cfg: Config)
    requires ValidConfig(cfg)
    ensures Understood(cfg, ClientHeader(cfg))
  {
    var n, sha := |cfg.payload|, cfg.digest(cfg.payload);
    HeaderIsOneLine(n, sha, cfg.force);
    HeaderWords(n, sha, cfg.force);
    HeaderRoundTrip(n, sha, cfg.force);
    LowerKeepsHex(sha);
    hide HeaderLine;
    hide ParseHeader;
    hide Split;
    hide Strip;
    var words := Split(ClientHeader(cfg));
    assert words[0] == "FLASH" && words[0][0] == 'F';
    assert words[0] != "INFO";
    CommandAnswer(cfg, ClientHeader(cfg), ParsedHeader(cfg));
  }

  // ---------------------------------------------------------------------------
  // The invariant
  // ---------------------------------------------------------------------------

  /** The stream ends with the first `n` bytes of `line`. */
  predicate EndsWithPart(dout: string, line: string, n: nat) {
    n <= |line| && EndsWith(Tail(dout), line[..n])
  }

  function LogLines(relayed: seq<string>): seq<string> {
    seq(|relayed|, i requires 0 <= i < |relayed| => LogLine(relayed[i]))
  }

  /** The lines the client has received whole. */
  function Received(s: State): seq<string>
    requires s.cgot <= |s.dout|
  {
    Lines(s.dout[..s.cgot])
  }

  /** The line the client is in the middle of. */
  function Partial(s: State): string
    requires s.cgot <= |s.dout|
  {
    Tail(s.dout[..s.cgot])
  }

  ghost predicate ClientOk(cfg: Config, hdr: string, s: State)
    requires s.cgot <= |s.dout|
  {
    match s.client
    case SendingHeader(p) => s.cout + p == Wire(hdr) && s.cgot == 0 && s.relayed == []
    case AwaitingReply(buf) => s.cout == Wire(hdr) && Received(s) == [] && buf == Partial(s) && s.relayed == []
    case SendingPayload(p) =>
      s.cout + p == Wire(hdr) + cfg.payload && Received(s) == [OkSend()] && Partial(s) == "" && s.relayed == []
    case AwaitingLines(buf) =>
      s.cout == Wire(hdr) + cfg.payload && Received(s) == [OkSend()] + LogLines(s.relayed) && buf == Partial(s)
    case Returned(code) =>
      s.cout <= Wire(hdr) + cfg.payload && (code == 0 ==> OkFlashed() in Received(s))
  }

  ghost predicate Untouched(s: State) {
    s.calls == [] && s.rc == None
  }

  ghost predicate LineRead(s: State, buf: string) {
    OneLine(buf) && s.dgot <= |s.cout| && buf == s.cout[..s.dgot]
  }

  ghost predicate DaemonOk(cfg: Config, hdr: string, s: State)
    requires s.dgot <= |s.cout|
  {
    match s.daemon
    case Authenticating(buf) => cfg.token.Some? && LineRead(s, buf) && Untouched(s)
    case ReadingCommand(buf) => cfg.token.None? && LineRead(s, buf) && Untouched(s)
    case Replying(line, sent, next) =>
      && DaemonLine(line) && EndsWithPart(s.dout, line, sent)
      && (line == OkFlashed() ==> s.rc == Some(0))
      && ReplyOk(cfg, hdr, s, next)
    case Receiving(h, buf) =>
      && Guards(cfg) && h == ParsedHeader(cfg) && Untouched(s)
      && s.dgot == |hdr| + 1 + |buf| && buf == s.cout[|hdr| + 1..s.dgot] && |buf| < h.nbytes
    case Flashing(line, sent, rest) =>
      && DaemonLine(line) && line != OkFlashed() && EndsWithPart(s.dout, line, sent)
      && FlashOk(cfg, s, rest)
    case Closed => true
  }

  /** A reply that promises to receive the file knows which file; no reply leads
      back to reading a command, since this client never authenticates. */
  ghost predicate ReplyOk(cfg: Config, hdr: string, s: State, next: Then) {
    match next
    case ToCommand => false
    case ToPayload(h) => Guards(cfg) && h == ParsedHeader(cfg) && s.dgot == |hdr| + 1 && Untouched(s)
    case ToClose => true
  }

  ghost predicate FlashOk(cfg: Config, s: State, rest: seq<string>) {
    && s.calls == [cfg.payload] && s.rc == None && Guards(cfg)
    && (forall i :: 0 <= i < |rest| ==> OneLine(rest[i]))
  }

  ghost predicate HistoryOk(cfg: Config, s: State) {
    && (s.calls == [] || (s.calls == [cfg.payload] && Guards(cfg)))
    && (s.rc.Some? ==> s.calls != [] && s.rc.value == cfg.rc)
    && (OkFlashed() in Lines(s.dout) ==> s.rc == Some(0))
  }

  ghost predicate Inv(cfg: Config, hdr: string, s: State) {
    && s.dgot <= |s.cout| && s.cgot <= |s.dout|
    && ClientOk(cfg, hdr, s) && DaemonOk(cfg, hdr, s) && HistoryOk(cfg, s)
  }

  // ---------------------------------------------------------------------------
  // What the daemon makes of the client's bytes
  // ---------------------------------------------------------------------------

  /** Whatever has been sent is a prefix of what the client means to send. */
  lemma SentIsPrefix(cfg: Config, hdr: string, s: State)
    requires s.cgot <= |s.dout| && ClientOk(cfg, hdr, s)
    ensures s.cout <= Wire(hdr) + cfg.payload
  {
    hide OkSend;
    hide OkFlashed;
    if s.client.SendingHeader? {
      assert s.cout <= s.cout + s.client.pending;
      assert s.cout <= Wire(hdr) <= Wire(hdr) + cfg.payload;
    } else if s.client.SendingPayload? {
      assert s.cout <= s.cout + s.client.pending;
    }
  }

  lemma NoNewlineBefore(s: string, n: nat)
    requires n <= |s| && OneLine(s[..n])
    ensures forall k :: 0 <= k < n ==> s[k] != '\n'
  {
    forall k | 0 <= k < n ensures s[k] != '\n' {
      assert s[..n][k] == s[k];
    }
  }

  /** The first line the daemon reads is the client's header. */
  lemma FirstLineIsHeader(cfg: Config, hdr: string, s: State, buf: string)
    requires OneLine(hdr) && s.cgot <= |s.dout| && ClientOk(cfg, hdr, s)
    requires s.dgot < |s.cout| && LineRead(s, buf) && s.cout[s.dgot] == '\n'
    ensures buf == hdr
  {
    hide OkSend;
    hide OkFlashed;
    SentIsPrefix(cfg, hdr, s);
    var all := Wire(hdr) + cfg.payload;
    assert forall i :: 0 <= i < |hdr| ==> all[i] == hdr[i];
    assert all[|hdr|] == '\n';
    NoNewlineBefore(s.cout, s.dgot);
    assert s.dgot == |hdr|;
  }


  // ---------------------------------------------------------------------------
  // What the client makes of the daemon's bytes
  // ---------------------------------------------------------------------------

  /** Completing a line yields "OK flashed" only if that is the line being sent and
      nothing was left over from an earlier send that broke off. */
  lemma OnlyWholeSuccess(dout: string, line: string, sent: nat)
    requires DaemonLine(line) && EndsWithPart(dout, line, sent)
    ensures Lines(dout + Wire(line)[sent..]) == Lines(dout) + [Tail(dout) + line[sent..]]
    ensures Tail(dout + Wire(line)[sent..]) == ""
    ensures Tail(dout) + line[sent..] == OkFlashed() ==> line == OkFlashed()
  {
    LineGoesOut(dout, line, sent);
    OkIsWhole(Tail(dout), line, sent);
  }

  lemma LineGoesOut(dout: string, line: string, sent: nat)
    requires OneLine(line) && sent <= |line|
    ensures Lines(dout + Wire(line)[sent..]) == Lines(dout) + [Tail(dout) + line[sent..]]
    ensures Tail(dout + Wire(line)[sent..]) == ""
  {
    var more := line[sent..];
    assert Wire(line)[sent..] == more + ['\n'];
    assert dout + (more + ['\n']) == (dout + more) + ['\n'];
    AppendWithinLine(dout, more);
    Text.Snoc(dout + more, '\n');
  }

  lemma OkIsWhole(tail: string, line: string, sent: nat)
    requires DaemonLine(line) && sent <= |line| && EndsWith(tail, line[..sent])
    ensures tail + line[sent..] == OkFlashed() ==> line == OkFlashed()
  {
    OkLines();
    hide OkFlashed;
    var left := tail[..|tail| - sent];
    assert tail == left + line[..sent] && line == line[..sent] + line[sent..];
    assert tail + line[sent..] == left + line;
    if left + line == OkFlashed() {
      assert OkFlashed()[|left|] == line[0];
      assert left == "";
      assert left + line == line;
    }
  }

  /** Sending part of a line completes none. */
  lemma PartOfLine(dout: string, line: string, sent: nat, n: nat)
    requires DaemonLine(line) && EndsWithPart(dout, line, sent) && sent + n <= |line|
    ensures var dout' := dout + Wire(line)[sent..sent + n];
            Lines(dout') == Lines(dout) && EndsWithPart(dout', line, sent + n)
  {
    var part := line[sent..sent + n];
    assert Wire(line)[sent..sent + n] == part;
    AppendWithinLine(dout, part);
    assert line[..sent + n] == line[..sent] + part;
  }

  lemma LogLineTaken(relayed: seq<string>, line: string)
    requires LogOf(line).Some?
    ensures LogLines(relayed + [LogOf(line).value]) == LogLines(relayed) + [line]
  {
    LogOfInverts(line);
  }

  // ---------------------------------------------------------------------------
  // Preservation
  // ---------------------------------------------------------------------------

  /** The daemon is not disturbed by more bytes arriving. */
  lemma MoreArrives(cfg: Config, hdr: string, s: State, more: string, c: Client)
    requires s.dgot <= |s.cout| && DaemonOk(cfg, hdr, s)
    ensures DaemonOk(cfg, hdr, s.(cout := s.cout + more, client := c))
  {
    hide OkFlashed;
    assert (s.cout + more)[..s.dgot] == s.cout[..s.dgot];
    if s.daemon.Receiving? {
      assert (s.cout + more)[|hdr| + 1..s.dgot] == s.cout[|hdr| + 1..s.dgot];
    }
  }

  lemma ClientSendKeeps(cfg: Config, hdr: string, s: State, n: nat)
    requires Inv(cfg, hdr, s) && Next(cfg, s, ClientSend(n)).Some?
    ensures Inv(cfg, hdr, Next(cfg, s, ClientSend(n)).value)
  {
    hide OkSend;
    hide OkFlashed;
    var s' := Next(cfg, s, ClientSend(n)).value;
    var p := s.client.pending;
    MoreArrives(cfg, hdr, s, p[..n], s'.client);
    assert s.cout + p[..n] + p[n..] == s.cout + p;
    assert s.cout + p[..n] + "" == s.cout + p[..n];
    assert s.dout[..0] == "";
    assert LogLines([]) == [];
  }

  lemma ClientSendFailsKeeps(cfg: Config, hdr: string, s: State, n: nat)
    requires Inv(cfg, hdr, s) && Next(cfg, s, ClientSendFails(n)).Some?
    ensures Inv(cfg, hdr, Next(cfg, s, ClientSendFails(n)).value)
  {
    hide OkSend;
    hide OkFlashed;
    var s' := Next(cfg, s, ClientSendFails(n)).value;
    var p := s.client.pending;
    MoreArrives(cfg, hdr, s, p[..n], s'.client);
    assert s.cout + p[..n] + p[n..] == s.cout + p;
    assert s'.cout <= s.cout + p;
    assert Wire(hdr) <= Wire(hdr) + cfg.payload;
  }

  lemma ClientReadFailsKeeps(cfg: Config, hdr: string, s: State)
    requires Inv(cfg, hdr, s) && Next(cfg, s, ClientReadFails).Some?
    ensures Inv(cfg, hdr, Next(cfg, s, ClientReadFails).value)
  {
    hide OkSend;
    hide OkFlashed;
    SentIsPrefix(cfg, hdr, s);
  }

  lemma ClientReceiveKeeps(cfg: Config, hdr: string, s: State)
    requires Inv(cfg, hdr, s) && Next(cfg, s, ClientReceive).Some?
    ensures Inv(cfg, hdr, Next(cfg, s, ClientReceive).value)
  {
    ClientByteKeeps(cfg, hdr, s);
    hide ClientByte;
    hide OkFlashed;
    hide OkSend;
    hide ClientOk;
  }

  lemma ClientByteKeeps(cfg: Config, hdr: string, s: State)
    requires s.cgot < |s.dout| && ClientOk(cfg, hdr, s) && (s.client.AwaitingReply? || s.client.AwaitingLines?)
    ensures var (c, out) := ClientByte(cfg, s.client, s.dout[s.cgot]);
            ClientOk(cfg, hdr, s.(client := c, cgot := s.cgot + 1, relayed := s.relayed + out))
  {
    hide OkSend;
    hide OkFlashed;
    hide LogOf;
    var b := s.dout[s.cgot];
    assert s.dout[..s.cgot + 1] == s.dout[..s.cgot] + [b];
    Text.Snoc(s.dout[..s.cgot], b);
    SentIsPrefix(cfg, hdr, s);
    var buf := s.client.buf;
    if s.client.AwaitingLines? && b == '\n' && LogOf(buf).Some? {
      LogLineTaken(s.relayed, buf);
    } else {
      assert s.relayed + [] == s.relayed;
    }
    assert LogLines([]) == [];
    assert Wire(hdr) + "" == Wire(hdr);
  }

  lemma MoreSent(cfg: Config, hdr: string, s: State, more: string, d: Daemon)
    requires s.cgot <= |s.dout| && ClientOk(cfg, hdr, s)
    ensures ClientOk(cfg, hdr, s.(dout := s.dout + more, daemon := d))
  {
    hide OkSend;
    hide OkFlashed;
    assert (s.dout + more)[..s.cgot] == s.dout[..s.cgot];
  }

  lemma TerminalIsDaemonLine(rc: int)
    ensures DaemonLine(Terminal(rc)) && LogOf(Terminal(rc)) == None
    ensures Terminal(rc) == OkFlashed() <==> rc == 0
  {
    OkLines();
    ErrIsDaemonLine(FlashFailed(rc));
    hide Err;
    hide OkFlashed;
  }

  /** `flash_hex` goes on to its next log line, or returns. */
  lemma StreamingKeeps(cfg: Config, hdr: string, s: State, rest: seq<string>)
    requires s.dgot <= |s.cout| && s.cgot <= |s.dout|
    requires ClientOk(cfg, hdr, s) && HistoryOk(cfg, s) && FlashOk(cfg, s, rest)
    ensures var (d, rc) := Streaming(cfg, rest); Inv(cfg, hdr, s.(daemon := d, rc := rc))
  {
    TerminalIsDaemonLine(cfg.rc);
    if rest != [] {
      LogIsDaemonLine(rest[0]);
    }
    hide OkSend;
    hide OkFlashed;
    hide Terminal;
    hide LogLine;
    var s' := s.(daemon := Streaming(cfg, rest).0, rc := Streaming(cfg, rest).1);
    assert ClientOk(cfg, hdr, s');
    assert EndsWithPart(s.dout, s'.daemon.line, 0);
  }

  /** The daemon's handling of the complete file. */
  lemma PayloadReadKeeps(cfg: Config, hdr: string, s: State, buf: string)
    requires Understood(cfg, hdr)
    requires s.dgot <= |s.cout| && s.cgot <= |s.dout| && ClientOk(cfg, hdr, s)
    requires Guards(cfg) && Untouched(s) && HistoryOk(cfg, s)
    requires |buf| == |cfg.payload| && s.dgot == |hdr| + 1 + |buf| && buf == s.cout[|hdr| + 1..s.dgot]
    ensures Inv(cfg, hdr, PayloadRead(cfg, s, ParsedHeader(cfg), buf))
  {
    hide OkSend;
    hide OkFlashed;
    hide AfterCommand;
    hide AfterAuth;
    hide Err;
    hide Lower;
    hide IsRelay;
    SentIsPrefix(cfg, hdr, s);
    assert (Wire(hdr) + cfg.payload)[|hdr| + 1..] == cfg.payload;
    assert s.cout == Wire(hdr) + cfg.payload;
    assert buf == cfg.payload;
    var s1 := s.(calls := [cfg.payload]);
    assert ClientOk(cfg, hdr, s1);
    StreamingKeeps(cfg, hdr, s1, cfg.log);
  }

  lemma SendOverKeeps(cfg: Config, hdr: string, s: State)
    requires Understood(cfg, hdr)
    requires s.dgot <= |s.cout| && s.cgot <= |s.dout| && ClientOk(cfg, hdr, s) && HistoryOk(cfg, s)
    requires s.daemon.Replying? || s.daemon.Flashing?
    requires s.daemon.Replying? ==> ReplyOk(cfg, hdr, s, s.daemon.next)
    requires s.daemon.Flashing? ==> FlashOk(cfg, s, s.daemon.rest)
    ensures Inv(cfg, hdr, SendOver(cfg, s))
  {
    hide OkSend;
    hide OkFlashed;
    hide Understood;
    if s.daemon.Flashing? {
      StreamingKeeps(cfg, hdr, s, s.daemon.rest);
    } else if s.daemon.next.ToPayload? && cfg.payload == "" {
      assert s.cout[|hdr| + 1..s.dgot] == "";
      PayloadReadKeeps(cfg, hdr, s, "");
    } else {
      assert ClientOk(cfg, hdr, SendOver(cfg, s));
      assert s.daemon.next.ToPayload? ==> s.cout[|hdr| + 1..s.dgot] == "";
    }
  }

  lemma DaemonSendsPart(cfg: Config, hdr: string, s: State, n: nat)
    requires Inv(cfg, hdr, s) && (s.daemon.Replying? || s.daemon.Flashing?)
    requires s.daemon.sent + n <= |s.daemon.line|
    ensures Inv(cfg, hdr, s.(dout := s.dout + Wire(s.daemon.line)[s.daemon.sent..s.daemon.sent + n],
                             daemon := s.daemon.(sent := s.daemon.sent + n)))
  {
    hide OkSend;
    hide OkFlashed;
    var line, sent := s.daemon.line, s.daemon.sent;
    var more := Wire(line)[sent..sent + n];
    MoreSent(cfg, hdr, s, more, s.daemon.(sent := sent + n));
    PartOfLine(s.dout, line, sent, n);
  }

  lemma DaemonSendsRest(cfg: Config, hdr: string, s: State)
    requires Understood(cfg, hdr) && Inv(cfg, hdr, s) && (s.daemon.Replying? || s.daemon.Flashing?)
    ensures Inv(cfg, hdr, SendOver(cfg, s.(dout := s.dout + Wire(s.daemon.line)[s.daemon.sent..])))
  {
    hide OkSend;
    hide OkFlashed;
    hide Understood;
    hide SendOver;
    var line, sent := s.daemon.line, s.daemon.sent;
    var more := Wire(line)[sent..];
    MoreSent(cfg, hdr, s, more, s.daemon);
    OnlyWholeSuccess(s.dout, line, sent);
    SendOverKeeps(cfg, hdr, s.(dout := s.dout + more));
  }

  /** What a send of the daemon's comes to. */
  lemma DaemonSendNext(cfg: Config, s: State, n: nat)
    requires DaemonMaySend(cfg, s, n)
    ensures Next(cfg, s, DaemonSend(n)).Some?
    ensures var line, sent := s.daemon.line, s.daemon.sent;
            && sent + n <= |line| + 1
            && Next(cfg, s, DaemonSend(n)).value
               == if sent + n == |line| + 1 then SendOver(cfg, s.(dout := s.dout + Wire(line)[sent..]))
                  else s.(dout := s.dout + Wire(line)[sent..sent + n], daemon := s.daemon.(sent := sent + n))
  {
    hide SendOver;
    var line, sent := s.daemon.line, s.daemon.sent;
    if sent + n == |line| + 1 {
      assert Wire(line)[sent..sent + n] == Wire(line)[sent..];
    }
  }

  lemma DaemonSendKeeps(cfg: Config, hdr: string, s: State, n: nat)
    requires Understood(cfg, hdr) && Inv(cfg, hdr, s)
    ensures Next(cfg, s, DaemonSend(n)).Some? ==> Inv(cfg, hdr, Next(cfg, s, DaemonSend(n)).value)
  {
    if Next(cfg, s, DaemonSend(n)).Some? {
      DaemonSendGuard(cfg, s, n);
      DaemonSendNext(cfg, s, n);
      hide Next;
      hide Inv;
      hide Understood;
      hide SendOver;
      if s.daemon.sent + n == |s.daemon.line| + 1 {
        DaemonSendsRest(cfg, hdr, s);
      } else {
        DaemonSendsPart(cfg, hdr, s, n);
      }
    }
  }

  lemma DaemonSendFailsKeeps(cfg: Config, hdr: string, s: State)
    requires Understood(cfg, hdr) && Inv(cfg, hdr, s)
    ensures Next(cfg, s, DaemonSendFails).Some? ==> Inv(cfg, hdr, Next(cfg, s, DaemonSendFails).value)
  {
    hide OkSend;
    hide OkFlashed;
    hide Understood;
    if Next(cfg, s, DaemonSendFails).Some? {
      SendOverKeeps(cfg, hdr, s);
    }
  }

  /** The daemon starts to send a refusal. */
  lemma RefusalKeeps(cfg: Config, hdr: string, s: State, r: Refusal)
    requires s.dgot <= |s.cout| && s.cgot <= |s.dout| && ClientOk(cfg, hdr, s) && HistoryOk(cfg, s)
    ensures Inv(cfg, hdr, s.(daemon := Reply(Err(r), ToClose)))
  {
    ErrIsDaemonLine(r);
    hide OkSend;
    hide OkFlashed;
    hide Err;
    assert EndsWithPart(s.dout, Err(r), 0);
  }

  lemma DaemonReadsLine(cfg: Config, hdr: string, s: State)
    requires Understood(cfg, hdr) && Inv(cfg, hdr, s) && s.dgot < |s.cout| && s.cout[s.dgot] == '\n'
    requires s.daemon.Authenticating? || s.daemon.ReadingCommand?
    ensures Inv(cfg, hdr, DaemonByte(cfg, s, '\n').(dgot := s.dgot + 1))
  {
    OkLines();
    hide OkSend;
    hide OkFlashed;
    hide AfterAuth;
    hide AfterCommand;
    hide Err;
    hide Lower;
    hide IsRelay;
    FirstLineIsHeader(cfg, hdr, s, s.daemon.buf);
    var s1 := s.(dgot := s.dgot + 1);
    assert ClientOk(cfg, hdr, s1);
    if s.daemon.Authenticating? {
      RefusalKeeps(cfg, hdr, s1, AuthRequired);
    } else if Offered(cfg) {
      assert EndsWithPart(s.dout, OkSend(), 0);
      assert ClientOk(cfg, hdr, DaemonByte(cfg, s, '\n').(dgot := s.dgot + 1));
    } else {
      var r :| AfterCommand(cfg, hdr) == Reply(Err(r), ToClose);
      RefusalKeeps(cfg, hdr, s1, r);
    }
  }

  lemma DaemonReadsByte(cfg: Config, hdr: string, s: State)
    requires Understood(cfg, hdr) && Inv(cfg, hdr, s) && s.dgot < |s.cout|
    requires s.daemon.Authenticating? || s.daemon.ReadingCommand?
    ensures Inv(cfg, hdr, DaemonByte(cfg, s, s.cout[s.dgot]).(dgot := s.dgot + 1))
  {
    if s.cout[s.dgot] == '\n' {
      DaemonReadsLine(cfg, hdr, s);
    } else {
      DaemonReadsMore(cfg, hdr, s);
    }
    hide Inv;
    hide Understood;
    hide DaemonByte;
  }

  lemma DaemonReadsMore(cfg: Config, hdr: string, s: State)
    requires Inv(cfg, hdr, s) && s.dgot < |s.cout| && s.cout[s.dgot] != '\n'
    requires s.daemon.Authenticating? || s.daemon.ReadingCommand?
    ensures Inv(cfg, hdr, DaemonByte(cfg, s, s.cout[s.dgot]).(dgot := s.dgot + 1))
  {
    var b := s.cout[s.dgot];
    var s' := DaemonByte(cfg, s, b).(dgot := s.dgot + 1);
    hide ClientOk;
    hide OkFlashed;
    hide Err;
    ClientIgnores(cfg, hdr, s, s.daemon, s.dgot + 1);
    assert s.(daemon := s.daemon, dgot := s.dgot + 1) == s.(dgot := s.dgot + 1);
    RefusalKeeps(cfg, hdr, s.(dgot := s.dgot + 1), AuthRequired);
    ClientIgnores(cfg, hdr, s, s'.daemon, s.dgot + 1);
    assert s.cout[..s.dgot + 1] == s.cout[..s.dgot] + [b];
    assert LineRead(s, s.daemon.buf) ==> LineRead(s', s.daemon.buf + [b]);
    hide LineRead;
  }

  /** The client's part does not depend on what the daemon has read. */
  lemma ClientIgnores(cfg: Config, hdr: string, s: State, d: Daemon, dgot: nat)
    requires s.cgot <= |s.dout| && ClientOk(cfg, hdr, s)
    ensures ClientOk(cfg, hdr, s.(daemon := d, dgot := dgot))
  {
    hide OkSend;
    hide OkFlashed;
  }

  lemma DaemonReadsChunk(cfg: Config, hdr: string, s: State, buf: string)
    requires Inv(cfg, hdr, s) && s.daemon.Receiving? && s.daemon.buf <= buf
    requires var n := |buf| - |s.daemon.buf|;
             && s.dgot + n <= |s.cout| && |buf| < s.daemon.header.nbytes
             && buf == s.daemon.buf + s.cout[s.dgot..s.dgot + n]
    ensures Inv(cfg, hdr, s.(dgot := s.dgot + |buf| - |s.daemon.buf|, daemon := s.daemon.(buf := buf)))
  {
    hide OkSend;
    hide OkFlashed;
    var n := |buf| - |s.daemon.buf|;
    assert buf == s.cout[|hdr| + 1..s.dgot + n];
    assert ClientOk(cfg, hdr, s.(dgot := s.dgot + n, daemon := s.daemon.(buf := buf)));
  }

  lemma DaemonReadsLastChunk(cfg: Config, hdr: string, s: State, n: nat)
    requires Understood(cfg, hdr) && Inv(cfg, hdr, s) && s.daemon.Receiving?
    requires s.dgot + n <= |s.cout| && |s.daemon.buf| + n == s.daemon.header.nbytes
    ensures Inv(cfg, hdr, PayloadRead(cfg, s.(dgot := s.dgot + n), s.daemon.header,
                                      s.daemon.buf + s.cout[s.dgot..s.dgot + n]))
  {
    hide OkSend;
    hide OkFlashed;
    hide Understood;
    hide PayloadRead;
    var buf := s.daemon.buf + s.cout[s.dgot..s.dgot + n];
    assert buf == s.cout[|hdr| + 1..s.dgot + n];
    assert ClientOk(cfg, hdr, s.(dgot := s.dgot + n));
    PayloadReadKeeps(cfg, hdr, s.(dgot := s.dgot + n), buf);
  }

  lemma DaemonReceiveKeeps(cfg: Config, hdr: string, s: State, n: nat)
    requires Understood(cfg, hdr) && Inv(cfg, hdr, s)
    ensures Next(cfg, s, DaemonReceive(n)).Some? ==> Inv(cfg, hdr, Next(cfg, s, DaemonReceive(n)).value)
  {
    hide Inv;
    hide Understood;
    hide DaemonByte;
    hide PayloadRead;
    if Next(cfg, s, DaemonReceive(n)).Some? {
      assert s.dgot + n <= |s.cout|;
      if s.daemon.Receiving? {
        var buf := s.daemon.buf + s.cout[s.dgot..s.dgot + n];
        assert s.daemon.buf <= buf;
        if |buf| == s.daemon.header.nbytes {
          DaemonReadsLastChunk(cfg, hdr, s, n);
        } else {
          DaemonReadsChunk(cfg, hdr, s, buf);
        }
      } else {
        DaemonReadsByte(cfg, hdr, s);
      }
    }
  }

  lemma DaemonReadFailsKeeps(cfg: Config, hdr: string, s: State)
    requires Inv(cfg, hdr, s) && Next(cfg, s, DaemonReadFails).Some?
    ensures Inv(cfg, hdr, Next(cfg, s, DaemonReadFails).value)
  {
    RefusalKeeps(cfg, hdr, s, AuthRequired);
    RefusalKeeps(cfg, hdr, s, ShortPayload);
    hide OkSend;
    hide OkFlashed;
    hide Err;
    assert ClientOk(cfg, hdr, s.(daemon := Closed));
  }

  lemma DaemonDiesKeeps(cfg: Config, hdr: string, s: State)
    requires Inv(cfg, hdr, s)
    ensures Inv(cfg, hdr, s.(daemon := Closed))
  {
    hide OkSend;
    hide OkFlashed;
    assert ClientOk(cfg, hdr, s.(daemon := Closed));
  }

  lemma DaemonSendGuard(cfg: Config, s: State, n: nat)
    requires Next(cfg, s, DaemonSend(n)).Some?
    ensures DaemonMaySend(cfg, s, n)
  {
    hide SendOver;
  }

  lemma DyingCloses(cfg: Config, s: State)
    ensures Next(cfg, s, DaemonDies) == Some(s.(daemon := Closed))
  {
  }
}
