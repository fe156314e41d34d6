/** The daemon's side of the FLASH exchange against any client: whatever bytes arrive, in
    whatever pieces and with whatever faults. */
module FlashWireDaemon {
  import opened Wrappers
  import opened Text
  import opened FlashHeader
  import opened FlashWire
  import opened Roles

  /** A daemon that has just been connected to by `client`. */
  function Connected(cfg: Config, client: Client): State {
    State(client, if cfg.token.Some? then Authenticating("") else ReadingCommand(""), "", 0, "", 0, [], None, [])
  }

  function Heard(s: State): string
    requires s.dgot <= |s.cout|
  {
    s.cout[..s.dgot]
  }

  /** What has to come before a command. */
  function Preface(cfg: Config): string {
    if cfg.token.Some? then Wire("AUTH " + cfg.token.value) else ""
  }

  /** `line` asks for a flash that nothing forbids. */
  predicate Accepts(cfg: Config, line: string, h: Header) {
    && ParseHeader(Strip(line)) == Some(h)
    && !cfg.noFlash && !cfg.busy && (IsRelay(cfg.role) ==> h.forceRelay)
  }

  /** One line within the daemon's limit. */
  predicate Readable(line: string) {
    OneLine(line) && |line| <= DAEMON_LINE_LIMIT
  }

  /** What was heard is the preface, an accepted command, and then `payload`. */
  ghost predicate Asked(cfg: Config, heard: string, h: Header, payload: string) {
    exists line :: heard == Preface(cfg) + Wire(line) + payload && Readable(line) && Accepts(cfg, line, h)
  }

  predicate Intact(cfg: Config, h: Header, payload: string) {
    |payload| == h.nbytes && (h.sha256.Some? ==> cfg.digest(payload) == Lower(h.sha256.value))
  }

  /** The one payload handed on is the one asked for, whole. */
  ghost predicate Earned(cfg: Config, heard: string, calls: seq<string>) {
    |calls| == 1 && exists h :: Asked(cfg, heard, h, calls[0]) && Intact(cfg, h, calls[0])
  }

  ghost predicate DaemonInv(cfg: Config, s: State) {
    && s.dgot <= |s.cout|
    && (s.calls == [] || Earned(cfg, Heard(s), s.calls))
    && match s.daemon
       case Authenticating(buf) => cfg.token.Some? && Heard(s) == buf && s.calls == []
       case ReadingCommand(buf) => Heard(s) == Preface(cfg) + buf && Readable(buf) && s.calls == []
       case Replying(_, _, ToCommand) => Heard(s) == Preface(cfg) && s.calls == []
       case Replying(_, _, ToPayload(h)) => Asked(cfg, Heard(s), h, "") && s.calls == []
       case Receiving(h, buf) => Asked(cfg, Heard(s), h, buf) && |buf| < h.nbytes && s.calls == []
       case _ => true
  }

  // ---------------------------------------------------------------------------
  // What is answered
  // ---------------------------------------------------------------------------

  /** Only the very token lets a client through. */
  lemma OnlyTheTokenAuthenticates(cfg: Config, line: string)
    ensures AfterAuth(cfg, line) == Reply("OK", ToCommand)
            <==> cfg.token.Some? && line == "AUTH " + cfg.token.value
    ensures AfterAuth(cfg, line) != Reply("OK", ToCommand) ==> AfterAuth(cfg, line) == Reply(Err(AuthRequired), ToClose)
  {
    assert StartsWith(line, "AUTH ") ==> line == "AUTH " + line[5..];
    assert cfg.token.Some? ==> ("AUTH " + cfg.token.value)[5..] == cfg.token.value;
  }

  /** The command a line holds, if it holds one. */
  function Command(line: string): Option<string> {
    var words := Split(Strip(line));
    if words == [] then None else Some(words[0])
  }

  /** An accepted command is a FLASH command. */
  lemma AcceptedIsFlash(cfg: Config, line: string, h: Header)
    requires Accepts(cfg, line, h)
    ensures Command(line) == Some("FLASH")
  {
    hide Split;
    hide Strip;
  }

  /** A payload is asked for exactly after an accepted command. */
  lemma AcceptedIff(cfg: Config, line: string, h: Header)
    ensures AfterCommand(cfg, line) == Reply(OkSend(), ToPayload(h)) <==> Accepts(cfg, line, h)
  {
    hide Split;
    hide Strip;
    hide IsRelay;
    hide ParseNat;
    hide IsDigits;
    hide Options;
  }

  /** INFO is answered with no regard to what else goes on; with flashing disabled every
      FLASH is told so, whatever else is wrong with it; a bad header is told before a
      relay is refused, and that before the board is found busy. */
  lemma CommandAnswers(cfg: Config, line: string)
    ensures var said := AfterCommand(cfg, line); var header := ParseHeader(Strip(line));
            match Command(line)
            case None => said == Closed
            case Some(command) =>
              && (command == "INFO" ==> said == Reply("OK " + cfg.info, ToClose))
              && (command != "INFO" && command != "FLASH" ==> said == Reply(Err(UnknownCommand), ToClose))
              && (command == "FLASH" && cfg.noFlash ==> said == Reply(Err(FlashDisabled), ToClose))
              && (command == "FLASH" && !cfg.noFlash && header == None ==> said == Reply(Err(BadHeader), ToClose))
              && (command == "FLASH" && !cfg.noFlash && header.Some? ==>
                    var refused := IsRelay(cfg.role) && !header.value.forceRelay;
                    && (refused ==> said == Reply(Err(RelayRefused), ToClose))
                    && (!refused && cfg.busy ==> said == Reply(Err(Busy), ToClose))
                    && (!refused && !cfg.busy ==> Accepts(cfg, line, header.value)))
  {
    hide Split;
    hide Strip;
    hide IsRelay;
    hide ParseHeader;
  }

  lemma {:induction false} StripsTheEnd(line: string, c: char)
    requires IsSpace(c)
    ensures Strip(line + [c]) == Strip(line)
  {
    if line == "" {
      assert line + [c] == [c] && [c][1..] == "";
    } else if IsSpace(line[0]) {
      assert (line + [c])[1..] == line[1..] + [c];
      StripsTheEnd(line[1..], c);
    } else {
      assert (line + [c])[..|line|] == line;
    }
  }

  /** White space at the end of a command line, such as a carriage return, makes no
      difference. */
  lemma LineEndsMakeNoDifference(cfg: Config, line: string)
    ensures AfterCommand(cfg, line + "\r") == AfterCommand(cfg, line) == AfterCommand(cfg, line + "\t")
  {
    StripsTheEnd(line, '\r');
    StripsTheEnd(line, '\t');
    hide Strip;
    hide Split;
    hide ParseHeader;
  }

  /** No two refusals are told in the same words. */
  lemma RefusalsDiffer(r: Refusal, q: Refusal)
    requires r != q && !(r.FlashFailed? && q.FlashFailed?)
    ensures Err(r) != Err(q)
  {
    assert |Err(AuthRequired)| == 17 && |Err(UnknownCommand)| == 19 && |Err(FlashDisabled)| == 18;
    assert |Err(BadHeader)| == 14 && |Err(Busy)| == 8 && |Err(ShortPayload)| == 17 && |Err(HashMismatch)| == 19;
    assert Err(AuthRequired)[4] == 'a' && Err(ShortPayload)[4] == 's';
    assert Err(UnknownCommand)[4] == 'u' && Err(HashMismatch)[4] == 's';
    assert Err(RelayRefused)[4] == 'r' && |Err(RelayRefused)| > 20;
    assert r.FlashFailed? ==> Err(r)[4] == 'f' && Err(r)[10] == 'f' && Err(r)[5] == 'l' && Err(r)[9] == ' ';
    assert q.FlashFailed? ==> Err(q)[4] == 'f' && Err(q)[10] == 'f' && Err(q)[5] == 'l' && Err(q)[9] == ' ';
    assert Err(FlashDisabled)[10] == 'd';
    assert Err(BadHeader)[4] == 'b' && Err(Busy)[4] == 'b';
  }

  /** Which header the daemon receives a payload for, or is about to. */
  function Expected(d: Daemon): Option<Header> {
    match d
    case Receiving(h, _) => Some(h)
    case Replying(_, _, ToPayload(h)) => Some(h)
    case _ => None
  }

  /** In any state whatever: a step that hands a payload on hands on one, of the size
      and, if one was declared, with the digest that the daemon was told. */
  lemma OnlyIntactPayloads(cfg: Config, s: State, a: Action)
    requires Next(cfg, s, a).Some? && Next(cfg, s, a).value.calls != s.calls
    ensures var h := Expected(s.daemon); var s' := Next(cfg, s, a).value;
            h.Some? && exists buf :: s'.calls == s.calls + [buf] && Intact(cfg, h.value, buf)
  {
    hide AfterAuth;
    hide AfterCommand;
    hide ClientByte;
    hide Streaming;
  }

  /** A payload that arrives whole is handed on exactly if its digest is the declared one,
      and answered with the mismatch otherwise. */
  lemma WholePayload(cfg: Config, s: State, n: nat)
    requires s.daemon.Receiving? && 1 <= n <= CHUNK && s.dgot + n <= |s.cout|
    requires |s.daemon.buf| + n == s.daemon.header.nbytes
    ensures var h := s.daemon.header; var buf := s.daemon.buf + s.cout[s.dgot..s.dgot + n];
            var s' := Next(cfg, s, DaemonReceive(n));
            && s'.Some? && s'.value.dgot == s.dgot + n
            && (Intact(cfg, h, buf) ==>
                  s'.value.calls == s.calls + [buf]
                  && s'.value.daemon == if cfg.log == [] then Reply(Terminal(cfg.rc), ToClose)
                                        else Flashing(LogLine(cfg.log[0]), 0, cfg.log[1..]))
            && (!Intact(cfg, h, buf) ==>
                  s'.value.calls == s.calls && s'.value.daemon == Reply(Err(HashMismatch), ToClose))
  {
    hide AfterAuth;
    hide AfterCommand;
  }

  /** One that breaks off is answered as short, and not handed on. */
  lemma BrokenPayload(cfg: Config, s: State)
    requires s.daemon.Receiving?
    ensures Next(cfg, s, DaemonReadFails) == Some(s.(daemon := Reply(Err(ShortPayload), ToClose)))
  {
  }

  /** A line that cannot be sent is as good as sent: the daemon goes on as if it had been. */
  lemma BrokenSendGoesOn(cfg: Config, s: State, n: nat)
    requires Next(cfg, s, DaemonSend(n)).Some? && s.daemon.sent + n == |s.daemon.line| + 1
    ensures Next(cfg, s, DaemonSendFails) == Some(Next(cfg, s, DaemonSend(n)).value.(dout := s.dout))
  {
    hide Streaming;
  }

  // ---------------------------------------------------------------------------
  // Any client, any run
  // ---------------------------------------------------------------------------

  /** Steps of the client tell the daemon nothing until it receives. */
  lemma ClientKeeps(cfg: Config, s: State, s': State)
    requires DaemonInv(cfg, s)
    requires s'.daemon == s.daemon && s'.calls == s.calls && s'.dgot == s.dgot && s.cout <= s'.cout
    ensures DaemonInv(cfg, s')
  {
    assert Heard(s') == Heard(s);
    hide Asked;
    hide Earned;
  }

  lemma ClientExtends(cfg: Config, s: State, a: Action)
    requires Next(cfg, s, a).Some?
    requires a.ClientSend? || a.ClientReceive? || a.ClientSendFails? || a.ClientReadFails?
    ensures var s' := Next(cfg, s, a).value;
            s'.daemon == s.daemon && s'.calls == s.calls && s'.dgot == s.dgot && s.cout <= s'.cout
  {
    hide ClientByte;
  }

  /** The payload is complete. */
  lemma PayloadKeeps(cfg: Config, s: State, h: Header, buf: string)
    requires s.dgot <= |s.cout| && s.calls == [] && Asked(cfg, Heard(s), h, buf) && |buf| == h.nbytes
    ensures DaemonInv(cfg, PayloadRead(cfg, s, h, buf))
  {
    hide Asked;
    var s' := PayloadRead(cfg, s, h, buf);
    assert Heard(s') == Heard(s);
    if s'.calls != [] {
      assert Asked(cfg, Heard(s'), h, s'.calls[0]) && Intact(cfg, h, s'.calls[0]);
    }
  }

  lemma SendOverInv(cfg: Config, s: State)
    requires DaemonInv(cfg, s) && (s.daemon.Replying? || s.daemon.Flashing?)
    ensures DaemonInv(cfg, SendOver(cfg, s))
  {
    hide Earned;
    hide Asked;
    if s.daemon.Replying? && s.daemon.next.ToPayload? && s.daemon.next.header.nbytes == 0 {
      PayloadKeeps(cfg, s, s.daemon.next.header, "");
      hide PayloadRead;
    }
    assert Heard(SendOver(cfg, s)) == Heard(s) by {
      hide PayloadRead;
      SendOverHears(cfg, s);
    }
    hide PayloadRead;
    assert Preface(cfg) + "" == Preface(cfg);
  }

  lemma SendOverHears(cfg: Config, s: State)
    requires s.daemon.Replying? || s.daemon.Flashing?
    ensures SendOver(cfg, s).cout == s.cout && SendOver(cfg, s).dgot == s.dgot
  {
  }

  lemma {:induction false} RunInv(cfg: Config, s: State, run: seq<Action>)
    requires DaemonInv(cfg, s) && Run(cfg, s, run).Some?
    ensures DaemonInv(cfg, Run(cfg, s, run).value)
    decreases |run|
  {
    hide Next;
    hide DaemonInv;
    if run != [] {
      NextInv(cfg, s, run[0]);
      RunInv(cfg, Next(cfg, s, run[0]).value, run[1..]);
    }
  }

  lemma NextInv(cfg: Config, s: State, a: Action)
    requires DaemonInv(cfg, s) && Next(cfg, s, a).Some?
    ensures DaemonInv(cfg, Next(cfg, s, a).value)
  {
    var s' := Next(cfg, s, a).value;
    match a
    case ClientSend(_) => ClientExtends(cfg, s, a); hide Next; ClientKeeps(cfg, s, s');
    case ClientReceive => ClientExtends(cfg, s, a); hide Next; ClientKeeps(cfg, s, s');
    case ClientSendFails(_) => ClientExtends(cfg, s, a); hide Next; ClientKeeps(cfg, s, s');
    case ClientReadFails => ClientExtends(cfg, s, a); hide Next; ClientKeeps(cfg, s, s');
    case DaemonSend(n) => DaemonSendInv(cfg, s, n);
    case DaemonReceive(n) => DaemonReceiveInv(cfg, s, n);
    case DaemonSendFails => SendOverInv(cfg, s); hide DaemonInv; hide SendOver;
    case DaemonReadFails => hide Asked; hide Earned; assert Heard(s') == Heard(s);
    case DaemonDies => hide Asked; hide Earned; assert Heard(s') == Heard(s);
  }

  lemma DaemonSendInv(cfg: Config, s: State, n: nat)
    requires DaemonInv(cfg, s) && Next(cfg, s, DaemonSend(n)).Some?
    ensures DaemonInv(cfg, Next(cfg, s, DaemonSend(n)).value)
  {
    var said := s.(dout := s.dout + Wire(s.daemon.line)[s.daemon.sent..s.daemon.sent + n]);
    assert Heard(said) == Heard(s);
    hide Asked;
    hide Earned;
    assert DaemonInv(cfg, said);
    if s.daemon.sent + n == |s.daemon.line| + 1 {
      SendOverInv(cfg, said);
      hide SendOver;
      hide DaemonInv;
    } else {
      assert Heard(Next(cfg, s, DaemonSend(n)).value) == Heard(s);
      hide SendOver;
    }
  }

  lemma DaemonReceiveInv(cfg: Config, s: State, n: nat)
    requires DaemonInv(cfg, s) && Next(cfg, s, DaemonReceive(n)).Some?
    ensures DaemonInv(cfg, Next(cfg, s, DaemonReceive(n)).value)
  {
    var more := s.cout[s.dgot..s.dgot + n];
    assert s.cout[..s.dgot + n] == s.cout[..s.dgot] + more;
    if s.daemon.Receiving? {
      var h, buf := s.daemon.header, s.daemon.buf + more;
      var got := s.(dgot := s.dgot + n);
      AskedMore(cfg, Heard(s), h, s.daemon.buf, more);
      assert Heard(got) == Heard(s) + more;
      if |buf| == h.nbytes {
        PayloadKeeps(cfg, got, h, buf);
        hide PayloadRead;
        hide DaemonInv;
      } else {
        hide PayloadRead;
        hide Asked;
        hide Earned;
        assert Heard(Next(cfg, s, DaemonReceive(n)).value) == Heard(s) + more;
      }
      hide DaemonByte;
    } else {
      assert n == 1 && more == [s.cout[s.dgot]];
      DaemonByteInv(cfg, s);
      hide DaemonByte;
      hide DaemonInv;
    }
  }

  lemma AskedMore(cfg: Config, heard: string, h: Header, buf: string, more: string)
    requires Asked(cfg, heard, h, buf)
    ensures Asked(cfg, heard + more, h, buf + more)
  {
    var line :| heard == Preface(cfg) + Wire(line) + buf && Readable(line) && Accepts(cfg, line, h);
    hide Accepts;
    assert heard + more == Preface(cfg) + Wire(line) + (buf + more);
  }

  lemma DaemonByteInv(cfg: Config, s: State)
    requires DaemonInv(cfg, s) && s.dgot < |s.cout| && (s.daemon.Authenticating? || s.daemon.ReadingCommand?)
    ensures DaemonInv(cfg, DaemonByte(cfg, s, s.cout[s.dgot]).(dgot := s.dgot + 1))
  {
    var b, buf := s.cout[s.dgot], s.daemon.buf;
    var s' := DaemonByte(cfg, s, b).(dgot := s.dgot + 1);
    assert s'.calls == [] && s'.cout == s.cout by {
      hide AfterAuth;
      hide AfterCommand;
    }
    assert Heard(s') == Heard(s) + [b];
    hide Asked;
    hide Earned;
    if s.daemon.Authenticating? {
      OnlyTheTokenAuthenticates(cfg, buf);
      hide AfterAuth;
      assert b == '\n' ==> Heard(s') == Wire(buf);
    } else if b == '\n' {
      assert Heard(s') == Preface(cfg) + Wire(buf) + "";
      AfterCommandInv(cfg, Heard(s'), buf);
      hide AfterCommand;
    } else {
      assert Heard(s) + [b] == Preface(cfg) + (buf + [b]);
    }
  }

  lemma AfterCommandInv(cfg: Config, heard: string, line: string)
    requires heard == Preface(cfg) + Wire(line) + "" && Readable(line)
    ensures match AfterCommand(cfg, line)
            case Closed => true
            case Replying(_, _, ToClose) => true
            case Replying(_, _, ToPayload(h)) => Asked(cfg, heard, h, "")
            case _ => false
  {
    CommandAnswers(cfg, line);
    if AfterCommand(cfg, line).Replying? && AfterCommand(cfg, line).next.ToPayload? {
      var h := AfterCommand(cfg, line).next.header;
      assert Accepts(cfg, line, h) by {
        hide Split;
        hide Strip;
        hide ParseHeader;
      }
    }
    hide Split;
    hide Strip;
    hide ParseHeader;
    hide Accepts;
    hide IsRelay;
  }

  /** Whoever the client is and whatever goes wrong: `flash_hex` is called at most once,
      after the token if one is set, after an accepted command, and with exactly the
      bytes that followed it, as many as it declared, and of its digest. */
  lemma OnlyEarnedWrites(cfg: Config, client: Client, run: seq<Action>)
    requires Run(cfg, Connected(cfg, client), run).Some?
    ensures var s := Run(cfg, Connected(cfg, client), run).value;
            s.dgot <= |s.cout| && (s.calls == [] || Earned(cfg, Heard(s), s.calls))
  {
    assert DaemonInv(cfg, Connected(cfg, client));
    RunInv(cfg, Connected(cfg, client), run);
    hide Run;
    hide Earned;
  }
}
