/**
  The daemon's side of keeping to the script in a fault-free FLASH exchange.

  It reads the client's header and nothing of what follows it, because it reads one byte
  at a time up to the newline; it answers `OK send`; it takes exactly the bytes the
  header announced, in chunks of any size, so that what it has then is the client's
  file; it hands that to `flash_hex`, sends one line for each message logged, and ends
  with the line that tells the result.

  A line goes out in parts of any size, as the stream has room.  Where the daemon is on
  the script is therefore a line number and a number of bytes of that line; a part adds
  to the second, and a part that ends in the newline moves the first.
 */
module FlashWireTalk {
  import opened Text
  import opened Roles
  import opened FlashWire
  import opened FlashWireInvariant
  import opened FlashWireScript

  /** The daemon goes on to the next line of the script. */
  lemma StreamingExact(cfg: Config, hdr: string, s: State, rest: seq<string>)
    requires AllRead(cfg, hdr, s) && s.cgot <= |s.dout| && ClientExact(cfg, s)
    requires |rest| <= |cfg.log| && rest == cfg.log[|cfg.log| - |rest|..]
    requires Lines(s.dout) == Script(cfg)[..|cfg.log| - |rest| + 1] && Tail(s.dout) == ""
    ensures var (d, rc) := Streaming(cfg, rest); var s' := s.(daemon := d, rc := rc);
            OnScript(cfg, s'.dout) && DaemonExact(cfg, hdr, s') && ClientExact(cfg, s')
  {
    var (d, rc) := Streaming(cfg, rest);
    ScriptAt(cfg);
    hide Script;
    hide OkSend;
    hide LogLine;
    hide Terminal;
    var at := |cfg.log| - |rest| + 1;
    assert d.line[..0] == "";
    assert rest != [] ==> rest[0] == cfg.log[at - 1] && rest[1..] == cfg.log[at..];
    assert Saying(cfg, s.dout, d.line, 0, at);
    SayingIsOnScript(cfg, s.dout, d.line, 0, at);
  }

  /** The daemon has the whole file and starts to write it. */
  lemma PayloadReadExact(cfg: Config, hdr: string, s: State)
    requires Understood(cfg, hdr) && AllRead(cfg, hdr, s) && s.cgot <= |s.dout| && ClientExact(cfg, s)
    requires Lines(s.dout) == [OkSend()] && Tail(s.dout) == ""
    ensures var s' := PayloadRead(cfg, s, ParsedHeader(cfg), cfg.payload);
            OnScript(cfg, s'.dout) && DaemonExact(cfg, hdr, s') && ClientExact(cfg, s')
  {
    ScriptAt(cfg);
    hide OkSend;
    hide AfterCommand;
    hide AfterAuth;
    hide Lower;
    hide Script;
    assert cfg.log[0..] == cfg.log;
    assert Script(cfg)[..1] == [OkSend()];
    var s1 := s.(calls := s.calls + [cfg.payload]);
    StreamingExact(cfg, hdr, s1, cfg.log);
  }

  /** Part of a line of the script goes out. */
  lemma PartSaid(cfg: Config, dout: string, line: string, sent: nat, n: nat, at: nat)
    requires Saying(cfg, dout, line, sent, at) && OneLine(line) && sent + n <= |line|
    ensures Saying(cfg, dout + Wire(line)[sent..sent + n], line, sent + n, at)
    ensures OnScript(cfg, dout + Wire(line)[sent..sent + n])
  {
    hide Script;
    var part := line[sent..sent + n];
    assert Wire(line)[sent..sent + n] == part;
    AppendWithinLine(dout, part);
    assert line[..sent] + part == line[..sent + n];
    SayingIsOnScript(cfg, dout + part, line, sent + n, at);
  }

  /** Which line of the script a talking daemon is at. */
  function AtLine(cfg: Config, d: Daemon): nat {
    match d
    case Flashing(_, _, rest) => if |rest| <= |cfg.log| then |cfg.log| - |rest| else 0
    case Replying(_, _, ToClose) => |cfg.log| + 1
    case _ => 0
  }

  /** Where a talking daemon is on the script, and what it does next. */
  lemma TalkingNow(cfg: Config, hdr: string, s: State)
    requires Exact(cfg, hdr, s) && (s.daemon.Replying? || s.daemon.Flashing?)
    ensures var at := AtLine(cfg, s.daemon);
            && Saying(cfg, s.dout, s.daemon.line, s.daemon.sent, at) && OneLine(s.daemon.line)
            && (s.daemon.Flashing? ==>
                  AllRead(cfg, hdr, s) && |s.daemon.rest| < |cfg.log|
                  && s.daemon.rest == cfg.log[|cfg.log| - |s.daemon.rest|..] && at == |cfg.log| - |s.daemon.rest|)
            && (s.daemon.Replying? ==> match s.daemon.next
                                       case ToCommand => false
                                       case ToPayload(h) =>
                                         h == ParsedHeader(cfg) && s.dgot == |hdr| + 1 && at == 0
                                       case ToClose => AllRead(cfg, hdr, s) && at == |cfg.log| + 1)
  {
    hide Script;
    hide OkSend;
    hide OkFlashed;
    hide Saying;
    hide OnScript;
    hide ClientExact;
    hide ClientOk;
    hide HistoryOk;
  }

  /** More output changes nothing for a client that has not read it. */
  lemma ClientUnmoved(cfg: Config, s: State, more: string, d: Daemon)
    requires s.cgot <= |s.dout| && ClientExact(cfg, s)
    ensures ClientExact(cfg, s.(dout := s.dout + more, daemon := d))
  {
    hide Script;
    assert (s.dout + more)[..s.cgot] == s.dout[..s.cgot];
  }

  lemma StillTalking(cfg: Config, hdr: string, s: State, dout: string, sent: nat)
    requires (s.daemon.Replying? || s.daemon.Flashing?) && DaemonExact(cfg, hdr, s)
    requires Saying(cfg, dout, s.daemon.line, sent, AtLine(cfg, s.daemon))
    ensures DaemonExact(cfg, hdr, s.(dout := dout, daemon := s.daemon.(sent := sent)))
  {
    hide Saying;
    hide Script;
  }

  lemma DaemonSendsPartExact(cfg: Config, hdr: string, s: State, n: nat)
    requires Exact(cfg, hdr, s) && (s.daemon.Replying? || s.daemon.Flashing?)
    ensures s.daemon.sent + n <= |s.daemon.line| ==>
              var s' := s.(dout := s.dout + Wire(s.daemon.line)[s.daemon.sent..s.daemon.sent + n],
                           daemon := s.daemon.(sent := s.daemon.sent + n));
              OnScript(cfg, s'.dout) && DaemonExact(cfg, hdr, s') && s.cgot <= |s'.dout| && ClientExact(cfg, s')
  {
    hide DaemonExact;
    hide ClientExact;
    hide OnScript;
    hide Saying;
    hide ClientOk;
    hide DaemonOk;
    hide HistoryOk;
    hide OneLine;
    var line, sent := s.daemon.line, s.daemon.sent;
    TalkingNow(cfg, hdr, s);
    if sent + n <= |line| {
      var more := Wire(line)[sent..sent + n];
      PartSaid(cfg, s.dout, line, sent, n, AtLine(cfg, s.daemon));
      StillTalking(cfg, hdr, s, s.dout + more, sent + n);
      ClientUnmoved(cfg, s, more, s.daemon.(sent := sent + n));
    }
  }

  /** A line of the script goes out whole. */
  lemma WholeLineSaid(cfg: Config, dout: string, line: string, sent: nat, at: nat)
    requires Saying(cfg, dout, line, sent, at) && OneLine(line)
    ensures var dout' := dout + Wire(line)[sent..];
            Lines(dout') == Script(cfg)[..at + 1] && Tail(dout') == "" && OnScript(cfg, dout')
  {
    hide Script;
    var more := line[sent..];
    assert Wire(line)[sent..] == more + ['\n'];
    assert dout + (more + ['\n']) == (dout + more) + ['\n'];
    AppendWithinLine(dout, more);
    Text.Snoc(dout + more, '\n');
    assert line[..sent] + more == line;
    assert Script(cfg)[..at] + [line] == Script(cfg)[..at + 1];
  }

  /** What follows a whole line. */
  lemma SendOverExact(cfg: Config, hdr: string, s: State, at: nat)
    requires Willing(cfg, hdr) && s.cgot <= |s.dout| && s.dgot <= |s.cout| && ClientExact(cfg, s)
    requires at < |Script(cfg)| && Lines(s.dout) == Script(cfg)[..at + 1] && Tail(s.dout) == "" && OnScript(cfg, s.dout)
    requires s.daemon.Replying? || s.daemon.Flashing?
    requires s.daemon.Flashing? ==>
               AllRead(cfg, hdr, s) && |s.daemon.rest| < |cfg.log|
               && s.daemon.rest == cfg.log[|cfg.log| - |s.daemon.rest|..] && at == |cfg.log| - |s.daemon.rest|
    requires s.daemon.Replying? ==> match s.daemon.next
                                    case ToCommand => false
                                    case ToPayload(h) => h == ParsedHeader(cfg) && s.dgot == |hdr| + 1 && at == 0
                                    case ToClose => AllRead(cfg, hdr, s) && at == |cfg.log| + 1
    ensures var s' := SendOver(cfg, s);
            OnScript(cfg, s'.dout) && DaemonExact(cfg, hdr, s') && ClientExact(cfg, s')
  {
    ScriptAt(cfg);
    hide Script;
    hide OkSend;
    hide Understood;
    hide PayloadRead;
    hide Streaming;
    if s.daemon.Flashing? {
      StreamingExact(cfg, hdr, s, s.daemon.rest);
    } else if s.daemon.next.ToPayload? {
      assert Script(cfg)[..1] == [OkSend()];
      if cfg.payload == "" {
        PayloadReadExact(cfg, hdr, s);
      }
    } else if s.daemon.next.ToClose? {
      assert Script(cfg)[..at + 1] == Script(cfg);
    }
  }

  lemma DaemonSendsRestExact(cfg: Config, hdr: string, s: State)
    requires Willing(cfg, hdr) && Exact(cfg, hdr, s) && (s.daemon.Replying? || s.daemon.Flashing?)
    ensures var s' := SendOver(cfg, s.(dout := s.dout + Wire(s.daemon.line)[s.daemon.sent..]));
            OnScript(cfg, s'.dout) && DaemonExact(cfg, hdr, s') && ClientExact(cfg, s')
  {
    var line, sent := s.daemon.line, s.daemon.sent;
    var at := AtLine(cfg, s.daemon);
    hide DaemonExact;
    hide ClientExact;
    hide OnScript;
    hide Saying;
    hide ClientOk;
    hide DaemonOk;
    hide HistoryOk;
    hide OneLine;
    hide Willing;
    hide SendOver;
    TalkingNow(cfg, hdr, s);
    WholeLineSaid(cfg, s.dout, line, sent, at);
    ClientUnmoved(cfg, s, Wire(line)[sent..], s.daemon);
    var s' := s.(dout := s.dout + Wire(line)[sent..]);
    assert s' == s.(dout := s.dout + Wire(line)[sent..], daemon := s.daemon);
    assert at < |Script(cfg)|;
    SendOverExact(cfg, hdr, s', at);
  }

  /** The daemon reads a byte of the header line. */
  lemma DaemonReadsByteExact(cfg: Config, hdr: string, s: State)
    requires Willing(cfg, hdr) && Exact(cfg, hdr, s) && s.dgot < |s.cout| && s.daemon.ReadingCommand?
    ensures var s' := DaemonByte(cfg, s, s.cout[s.dgot]).(dgot := s.dgot + 1);
            OnScript(cfg, s'.dout) && DaemonExact(cfg, hdr, s') && ClientExact(cfg, s')
  {
    ScriptAt(cfg);
    hide Script;
    hide OkSend;
    hide OkFlashed;
    hide AfterCommand;
    hide AfterAuth;
    hide IsRelay;
    hide Lower;
    if s.cout[s.dgot] == '\n' {
      FirstLineIsHeader(cfg, hdr, s, s.daemon.buf);
      assert OkSend()[..0] == "";
    } else {
      ShortOfHeader(cfg, hdr, s);
    }
  }

  /** Until its newline arrives, what the daemon has read is shorter than the header. */
  lemma ShortOfHeader(cfg: Config, hdr: string, s: State)
    requires Inv(cfg, hdr, s) && s.daemon.ReadingCommand?
    requires s.dgot < |s.cout| ==> s.cout[s.dgot] != '\n'
    ensures s.dgot < |s.cout| ==> s.dgot < |hdr|
    ensures s.dgot <= |hdr|
  {
    hide OkSend;
    hide OkFlashed;
    SentIsPrefix(cfg, hdr, s);
    NoNewlineBefore(s.cout, s.dgot);
    assert (Wire(hdr) + cfg.payload)[|hdr|] == '\n';
    if |hdr| < |s.cout| {
      assert s.cout[|hdr|] == '\n';
    }
  }

  /** The last chunk completes the file. */
  lemma WholeFile(cfg: Config, hdr: string, s: State, n: nat)
    requires Willing(cfg, hdr) && Exact(cfg, hdr, s) && s.daemon.Receiving? && s.dgot + n <= |s.cout|
    ensures |s.daemon.buf| + n == s.daemon.header.nbytes ==>
              var s' := PayloadRead(cfg, s.(dgot := s.dgot + n), s.daemon.header,
                                    s.daemon.buf + s.cout[s.dgot..s.dgot + n]);
              OnScript(cfg, s'.dout) && DaemonExact(cfg, hdr, s') && ClientExact(cfg, s')
  {
    hide Script;
    hide OkSend;
    hide OkFlashed;
    hide Understood;
    hide PayloadRead;
    if |s.daemon.buf| + n == s.daemon.header.nbytes {
      SentIsPrefix(cfg, hdr, s);
      var buf := s.daemon.buf + s.cout[s.dgot..s.dgot + n];
      assert buf == s.cout[|hdr| + 1..s.dgot + n];
      assert (Wire(hdr) + cfg.payload)[|hdr| + 1..] == cfg.payload;
      assert s.cout == Wire(hdr) + cfg.payload;
      assert buf == cfg.payload;
      PayloadReadExact(cfg, hdr, s.(dgot := s.dgot + n));
    }
  }

  lemma DaemonReadsPartExact(cfg: Config, hdr: string, s: State, n: nat, buf: string)
    requires Exact(cfg, hdr, s) && s.daemon.Receiving?
    ensures var s' := s.(dgot := s.dgot + n, daemon := s.daemon.(buf := buf));
            OnScript(cfg, s'.dout) && DaemonExact(cfg, hdr, s') && ClientExact(cfg, s')
  {
    hide Script;
    hide OkSend;
    hide Inv;
  }

  lemma DaemonReceiveNext(cfg: Config, s: State, n: nat)
    requires Next(cfg, s, DaemonReceive(n)).Some?
    ensures s.dgot + n <= |s.cout| && 1 <= n
    ensures s.daemon.Authenticating? || s.daemon.ReadingCommand? || s.daemon.Receiving?
    ensures Next(cfg, s, DaemonReceive(n)).value
            == if !s.daemon.Receiving? then DaemonByte(cfg, s, s.cout[s.dgot]).(dgot := s.dgot + 1)
               else
                 var buf := s.daemon.buf + s.cout[s.dgot..s.dgot + n];
                 var s' := s.(dgot := s.dgot + n);
                 if |buf| == s.daemon.header.nbytes then PayloadRead(cfg, s', s.daemon.header, buf)
                 else s'.(daemon := s.daemon.(buf := buf))
  {
    hide DaemonByte;
    hide PayloadRead;
  }

  lemma DaemonReceiveExact(cfg: Config, hdr: string, s: State, n: nat)
    requires Willing(cfg, hdr) && Exact(cfg, hdr, s) && Next(cfg, s, DaemonReceive(n)).Some?
    ensures Exact(cfg, hdr, Next(cfg, s, DaemonReceive(n)).value)
  {
    DaemonReceiveKeeps(cfg, hdr, s, n);
    DaemonReceiveNext(cfg, s, n);
    assert !s.daemon.Authenticating?;
    hide Next;
    hide Willing;
    hide DaemonExact;
    hide ClientExact;
    hide OnScript;
    hide PayloadRead;
    hide DaemonByte;
    hide Inv;
    if s.daemon.Receiving? {
      WholeFile(cfg, hdr, s, n);
      DaemonReadsPartExact(cfg, hdr, s, n, s.daemon.buf + s.cout[s.dgot..s.dgot + n]);
    } else {
      DaemonReadsByteExact(cfg, hdr, s);
    }
  }
}
