/**
  What a fault-free FLASH exchange says and hears.

  The script is every line the daemon will send: `OK send`, one line for each message
  that `flash_hex` logs, and the line that tells its result.  A state is exact when the
  daemon's output so far is a beginning of the script, the daemon is where that output
  puts it, and the client, if it has returned, has read the script to its end or up to
  the first line that is too long for it.

  Here is the client's side of keeping to the script: as long as it reads only what is
  on it, every line it finishes is the script's next one, and it returns at the last, or
  gives up in the middle of one that is too long.
 */
module FlashWireScript {
  import opened Wrappers
  import opened Text
  import opened FlashWire
  import opened FlashWireInvariant

  /** Every line the daemon sends in a fault-free exchange. */
  function Script(cfg: Config): seq<string> {
    [OkSend()] + LogLines(cfg.log) + [Terminal(cfg.rc)]
  }

  /** Nothing is refused, and the header fits its reader's limit. */
  ghost predicate Willing(cfg: Config, hdr: string) {
    && Understood(cfg, hdr) && Guards(cfg)
    && cfg.capacity >= 1
    && |hdr| <= DAEMON_LINE_LIMIT
  }

  /** Every line is within the client's limit. */
  predicate Short(lines: seq<string>) {
    forall i :: 0 <= i < |lines| ==> |lines[i]| <= CLIENT_LINE_LIMIT
  }

  /** The client has returned with the first `k` lines of the script read: all of them,
      or all before one that is too long, at which it gives up. */
  predicate EndsAfter(cfg: Config, k: nat, code: int, relayed: seq<string>) {
    if k == |Script(cfg)| then relayed == cfg.log && code == (if cfg.rc == 0 then 0 else 1)
    else
      && 1 <= k < |Script(cfg)| && k - 1 <= |cfg.log| && |Script(cfg)[k]| > CLIENT_LINE_LIMIT
      && relayed == cfg.log[..k - 1] && code == 1
  }

  /** The daemon's output is an initial part of the script. */
  ghost predicate OnScript(cfg: Config, dout: string) {
    var done := |Lines(dout)|;
    && Lines(dout) <= Script(cfg)
    && (done < |Script(cfg)| ==> Tail(dout) <= Script(cfg)[done])
    && (done == |Script(cfg)| ==> Tail(dout) == "")
  }

  /** The daemon is `sent` bytes into line number `at` of the script. */
  ghost predicate Saying(cfg: Config, dout: string, line: string, sent: nat, at: nat) {
    && at < |Script(cfg)| && line == Script(cfg)[at]
    && Lines(dout) == Script(cfg)[..at]
    && sent <= |line| && Tail(dout) == line[..sent]
  }

  ghost predicate AllRead(cfg: Config, hdr: string, s: State) {
    s.dgot == |hdr| + 1 + |cfg.payload|
  }

  ghost predicate DaemonExact(cfg: Config, hdr: string, s: State) {
    match s.daemon
    case Authenticating(_) => false
    case ReadingCommand(_) => s.dout == ""
    case Replying(line, sent, ToCommand) => false
    case Replying(line, sent, ToPayload(_)) => Saying(cfg, s.dout, line, sent, 0)
    case Receiving(_, _) => Lines(s.dout) == [OkSend()] && Tail(s.dout) == ""
    case Flashing(line, sent, rest) =>
      && AllRead(cfg, hdr, s) && |rest| < |cfg.log| && rest == cfg.log[|cfg.log| - |rest|..]
      && Saying(cfg, s.dout, line, sent, |cfg.log| - |rest|)
    case Replying(line, sent, ToClose) =>
      AllRead(cfg, hdr, s) && Saying(cfg, s.dout, line, sent, |cfg.log| + 1)
    case Closed => AllRead(cfg, hdr, s) && Lines(s.dout) == Script(cfg) && Tail(s.dout) == ""
  }

  ghost predicate ClientExact(cfg: Config, s: State)
    requires s.cgot <= |s.dout|
  {
    && Short(Received(s))
    && match s.client
       case SendingHeader(p) => p != ""
       case SendingPayload(p) => p != ""
       case AwaitingReply(buf) => |buf| <= CLIENT_LINE_LIMIT
       case AwaitingLines(buf) => |buf| <= CLIENT_LINE_LIMIT
       case Returned(code) => Received(s) <= Script(cfg) && EndsAfter(cfg, |Received(s)|, code, s.relayed)
  }

  /** A state of a fault-free exchange. */
  ghost predicate Exact(cfg: Config, hdr: string, s: State) {
    && Inv(cfg, hdr, s)
    && OnScript(cfg, s.dout)
    && DaemonExact(cfg, hdr, s)
    && ClientExact(cfg, s)
  }

  // ---------------------------------------------------------------------------
  // The script and the bytes
  // ---------------------------------------------------------------------------

  /** What the client holds of an unfinished line is the beginning of that line. */
  lemma {:induction false} PartialIsPrefix(s: string, n: nat)
    requires n <= |s|
    ensures var k := |Lines(s[..n])|;
            && k <= |Lines(s)|
            && Tail(s[..n]) <= if k < |Lines(s)| then Lines(s)[k] else Tail(s)
  {
    LinesOfPrefix(s, n);
    if n < |s| {
      var u := s[..|s| - 1];
      PartialIsPrefix(u, n);
      assert u[..n] == s[..n];
      assert s == u + [s[|s| - 1]];
      Text.Snoc(u, s[|s| - 1]);
    } else {
      assert s[..n] == s;
    }
  }

  /** Bytes sent never exceed the script's. */
  lemma OutputBounded(cfg: Config, dout: string)
    requires OnScript(cfg, dout)
    ensures |dout| <= Size(Script(cfg))
  {
    hide Script;
    SizeOfLines(dout);
    var done := |Lines(dout)|;
    if done < |Script(cfg)| {
      var upto := Script(cfg)[..done + 1];
      assert upto[..|upto| - 1] == Lines(dout);
      assert Lines(dout) == Script(cfg)[..done];
      assert Size(upto) == Size(Lines(dout)) + |Script(cfg)[done]| + 1;
      SizeOfPrefix(Script(cfg), done + 1);
    } else {
      assert Lines(dout) == Script(cfg);
    }
  }

  lemma ScriptAt(cfg: Config)
    ensures |Script(cfg)| == |cfg.log| + 2
    ensures Script(cfg)[0] == OkSend()
    ensures forall i :: 0 <= i < |cfg.log| ==> Script(cfg)[i + 1] == LogLine(cfg.log[i])
    ensures Script(cfg)[|cfg.log| + 1] == Terminal(cfg.rc)
  {
    hide OkSend;
    hide LogLine;
    hide Terminal;
  }

  /** What a client has relayed so far, given the lines it has received. */
  lemma {:induction false} RelayedSoFar(cfg: Config, relayed: seq<string>)
    requires [OkSend()] + LogLines(relayed) <= Script(cfg)
    requires forall i :: 0 <= i < |cfg.log| ==> OneLine(cfg.log[i])
    ensures relayed <= cfg.log
  {
    ScriptAt(cfg);
    TerminalIsDaemonLine(cfg.rc);
    var got := [OkSend()] + LogLines(relayed);
    hide OkSend;
    hide Terminal;
    hide OkFlashed;
    hide Script;
    hide DaemonLine;
    forall i | 0 <= i < |relayed| ensures i < |cfg.log| && relayed[i] == cfg.log[i] {
      assert got[i + 1] == LogLine(relayed[i]);
      LogOfLogLine(relayed[i]);
      if i < |cfg.log| {
        LogOfLogLine(cfg.log[i]);
      }
    }
  }

  lemma LogOfLogLine(m: string)
    ensures LogOf(LogLine(m)) == Some(m)
  {
    assert LogLine(m)[4..] == m;
  }

  /** The script's last line is never a log line. */
  lemma ScriptIsNotLogs(cfg: Config, relayed: seq<string>)
    ensures [OkSend()] + LogLines(relayed) != Script(cfg)
  {
    ScriptAt(cfg);
    TerminalIsDaemonLine(cfg.rc);
    hide OkSend;
    hide OkFlashed;
    hide Terminal;
    hide Script;
    var got := [OkSend()] + LogLines(relayed);
    if |relayed| == |cfg.log| + 1 {
      LogOfLogLine(relayed[|cfg.log|]);
      assert got[|cfg.log| + 1] == LogLine(relayed[|cfg.log|]);
    }
  }

  // ---------------------------------------------------------------------------
  // Every fault-free step keeps the exchange exact
  // ---------------------------------------------------------------------------

  lemma SayingIsOnScript(cfg: Config, dout: string, line: string, sent: nat, at: nat)
    requires Saying(cfg, dout, line, sent, at)
    ensures OnScript(cfg, dout)
  {
    hide Script;
  }

  lemma ClientSendExact(cfg: Config, hdr: string, s: State, n: nat)
    requires Willing(cfg, hdr) && Exact(cfg, hdr, s) && Next(cfg, s, ClientSend(n)).Some?
    ensures Exact(cfg, hdr, Next(cfg, s, ClientSend(n)).value)
  {
    ClientSendKeeps(cfg, hdr, s, n);
    hide Inv;
    hide Script;
    hide Understood;
    hide Saying;
  }

  /** The line the client is reading is the script's next one. */
  lemma ReadingTheScript(cfg: Config, hdr: string, s: State, n: nat)
    requires Willing(cfg, hdr) && OnScript(cfg, s.dout) && n <= |s.dout|
    ensures var k := |Lines(s.dout[..n])|;
            && Lines(s.dout[..n]) <= Script(cfg)
            && (k < |Script(cfg)| ==> Tail(s.dout[..n]) <= Script(cfg)[k])
            && (k == |Script(cfg)| ==> Tail(s.dout[..n]) == "")
  {
    hide Script;
    hide Understood;
    PartialIsPrefix(s.dout, n);
    LinesOfPrefix(s.dout, n);
    var k := |Lines(s.dout[..n])|;
    if k < |Lines(s.dout)| {
      assert Lines(s.dout)[k] == Script(cfg)[k];
    }
  }

  lemma ClientLineNext(cfg: Config, s: State)
    requires (s.client.AwaitingReply? || s.client.AwaitingLines?) && s.cgot < |s.dout| && s.dout[s.cgot] == '\n'
    ensures Next(cfg, s, ClientReceive) == Some(s.(client := ClientLine(cfg, s.client, s.client.buf).0,
                                                   cgot := s.cgot + 1,
                                                   relayed := s.relayed + ClientLine(cfg, s.client, s.client.buf).1))
  {
    hide ClientLine;
  }

  /** What an exact state says of a client that is reading. */
  lemma ReadingNow(cfg: Config, hdr: string, s: State)
    requires Willing(cfg, hdr) && Exact(cfg, hdr, s) && (s.client.AwaitingReply? || s.client.AwaitingLines?)
    ensures s.cgot <= |s.dout| && OnScript(cfg, s.dout) && Short(Received(s))
    ensures s.client.buf == Partial(s) && |s.client.buf| <= CLIENT_LINE_LIMIT
    ensures if s.client.AwaitingReply? then Received(s) == [] && s.relayed == []
            else Received(s) == [OkSend()] + LogLines(s.relayed)
    ensures forall i :: 0 <= i < |cfg.log| ==> OneLine(cfg.log[i])
  {
    hide OkSend;
    hide OkFlashed;
    hide Script;
    hide DaemonOk;
    hide DaemonExact;
    hide HistoryOk;
    hide OnScript;
    hide Short;
  }

  /** One more byte of the daemon's output read: a line finished, or one byte longer. */
  lemma ReadsOneMore(s: State)
    requires s.cgot < |s.dout|
    ensures var b := s.dout[s.cgot]; var read := s.dout[..s.cgot + 1];
            if b == '\n' then Lines(read) == Received(s) + [Partial(s)] && Tail(read) == ""
            else Lines(read) == Received(s) && Tail(read) == Partial(s) + [b]
  {
    assert s.dout[..s.cgot + 1] == s.dout[..s.cgot] + [s.dout[s.cgot]];
    Text.Snoc(s.dout[..s.cgot], s.dout[s.cgot]);
  }

  /** The client finishes a line of the script. */
  lemma ClientLineExact(cfg: Config, hdr: string, s: State)
    requires Willing(cfg, hdr) && Exact(cfg, hdr, s) && s.cgot < |s.dout| && s.dout[s.cgot] == '\n'
    requires s.client.AwaitingReply? || s.client.AwaitingLines?
    ensures ClientExact(cfg, Next(cfg, s, ClientReceive).value)
  {
    hide Next;
    hide Exact;
    hide Willing;
    hide OkSend;
    hide OkFlashed;
    hide Script;
    hide OnScript;
    hide ClientLine;
    hide LogLines;
    hide Lines;
    hide Tail;
    ReadingNow(cfg, hdr, s);
    ClientLineNext(cfg, s);
    ReadsOneMore(s);
    ReadingTheScript(cfg, hdr, s, s.cgot + 1);
    ScriptLineTaken(cfg, s, s.client.AwaitingLines?, s.client.buf);
    assert Short(Received(s) + [s.client.buf]);
    hide Short;
  }

  /** What the client makes of the next line of the script. */
  lemma ScriptLineTaken(cfg: Config, s: State, later: bool, line: string)
    requires s.cgot <= |s.dout| && (if later then s.client.AwaitingLines? else s.client.AwaitingReply?)
    requires if later then Received(s) == [OkSend()] + LogLines(s.relayed) else Received(s) == []
    requires !later ==> s.relayed == []
    requires Received(s) + [line] <= Script(cfg)
    requires forall i :: 0 <= i < |cfg.log| ==> OneLine(cfg.log[i])
    ensures var (c, out) := ClientLine(cfg, s.client, line);
            && (c.SendingPayload? ==> c.pending != "") && !c.SendingHeader?
            && (c.AwaitingReply? || c.AwaitingLines? ==> c.buf == "")
            && (c.Returned? ==>
                  Received(s) + [line] == Script(cfg) && s.relayed + out == cfg.log
                  && c.code == (if cfg.rc == 0 then 0 else 1))
  {
    hide Script;
    hide OkSend;
    hide OkFlashed;
    hide LogLine;
    hide Terminal;
    var got := Received(s);
    ScriptAt(cfg);
    assert line == (got + [line])[|got|] == Script(cfg)[|got|];
    if later {
      var done := |s.relayed|;
      assert got <= Script(cfg) by {
        assert got <= got + [line];
      }
      RelayedSoFar(cfg, s.relayed);
      assert |got| == done + 1;
      if done < |cfg.log| {
        LogOfLogLine(cfg.log[done]);
        hide LogOf;
      } else {
        TerminalIsDaemonLine(cfg.rc);
        hide LogOf;
        assert s.relayed == cfg.log;
      }
    }
  }

  lemma OkSendIsShort()
    ensures |OkSend()| <= CLIENT_LINE_LIMIT
  {
  }

  /** The line that is too long is the message after those relayed, or the result. */
  lemma GivesUpAt(cfg: Config, s: State, buf: string)
    requires s.cgot <= |s.dout| && |buf| > CLIENT_LINE_LIMIT
    requires s.client.AwaitingReply? || s.client.AwaitingLines?
    requires if s.client.AwaitingReply? then Received(s) == [] && s.relayed == []
             else Received(s) == [OkSend()] + LogLines(s.relayed)
    requires Received(s) <= Script(cfg)
    requires var k := |Received(s)|; if k < |Script(cfg)| then buf <= Script(cfg)[k] else buf == ""
    requires forall i :: 0 <= i < |cfg.log| ==> OneLine(cfg.log[i])
    ensures EndsAfter(cfg, |Received(s)|, 1, s.relayed)
  {
    ScriptAt(cfg);
    OkSendIsShort();
    hide Script;
    hide OkSend;
    hide LogLine;
    hide Terminal;
    assert s.client.AwaitingLines?;
    RelayedSoFar(cfg, s.relayed);
    assert s.relayed == cfg.log[..|s.relayed|];
  }

  lemma ClientByteNext(cfg: Config, s: State)
    requires (s.client.AwaitingReply? || s.client.AwaitingLines?) && s.cgot < |s.dout| && s.dout[s.cgot] != '\n'
    ensures var buf := s.client.buf + [s.dout[s.cgot]]; var s' := Next(cfg, s, ClientReceive);
            s' == Some(s.(cgot := s.cgot + 1,
                          client := if |buf| > CLIENT_LINE_LIMIT then Returned(1)
                                    else if s.client.AwaitingReply? then AwaitingReply(buf) else AwaitingLines(buf)))
  {
    assert s.relayed + [] == s.relayed;
  }

  /** The client takes one more byte of a line, or gives the line up. */
  lemma ClientByteExact(cfg: Config, hdr: string, s: State)
    requires Willing(cfg, hdr) && Exact(cfg, hdr, s) && s.cgot < |s.dout| && s.dout[s.cgot] != '\n'
    requires s.client.AwaitingReply? || s.client.AwaitingLines?
    ensures ClientExact(cfg, Next(cfg, s, ClientReceive).value)
  {
    hide Next;
    hide Exact;
    hide Willing;
    hide OkSend;
    hide Script;
    hide OnScript;
    hide EndsAfter;
    hide LogLines;
    hide Short;
    hide Lines;
    hide Tail;
    ReadingNow(cfg, hdr, s);
    ClientByteNext(cfg, s);
    ReadsOneMore(s);
    ReadingTheScript(cfg, hdr, s, s.cgot + 1);
    var buf := s.client.buf + [s.dout[s.cgot]];
    if |buf| > CLIENT_LINE_LIMIT {
      GivesUpAt(cfg, s, buf);
    }
  }

  lemma ClientReceiveExact(cfg: Config, hdr: string, s: State)
    requires Willing(cfg, hdr) && Exact(cfg, hdr, s) && Next(cfg, s, ClientReceive).Some?
    ensures Exact(cfg, hdr, Next(cfg, s, ClientReceive).value)
  {
    ClientReceiveKeeps(cfg, hdr, s);
    assert s.client.AwaitingReply? || s.client.AwaitingLines?;
    if s.dout[s.cgot] == '\n' {
      ClientLineExact(cfg, hdr, s);
    } else {
      ClientByteExact(cfg, hdr, s);
    }
    ReceivingMovesClient(cfg, s);
    hide Next;
    hide Inv;
    hide Understood;
    hide OnScript;
    hide ClientExact;
    hide Saying;
  }

  lemma ReceivingMovesClient(cfg: Config, s: State)
    requires Next(cfg, s, ClientReceive).Some?
    ensures var s' := Next(cfg, s, ClientReceive).value;
            s' == s.(client := s'.client, cgot := s.cgot + 1, relayed := s'.relayed)
  {
    hide ClientByte;
  }
}
