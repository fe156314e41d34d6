/** Every fault-free step of the FLASH exchange keeps to the script and moves bytes, and
    whoever is waited for can go on. */
module FlashWireProgress {
  import opened Text
  import opened FlashWire
  import opened FlashWireInvariant
  import opened FlashWireScript
  import opened FlashWireTalk

  lemma ExactParts(cfg: Config, hdr: string, s: State)
    ensures Exact(cfg, hdr, s)
            <==> Inv(cfg, hdr, s) && OnScript(cfg, s.dout) && DaemonExact(cfg, hdr, s) && ClientExact(cfg, s)
    ensures Exact(cfg, hdr, s) ==> s.cgot <= |s.dout|
  {
  }

  lemma NextExact(cfg: Config, hdr: string, s: State, a: Action)
    requires Willing(cfg, hdr) && Exact(cfg, hdr, s) && !IsFault(a) && Next(cfg, s, a).Some?
    ensures Exact(cfg, hdr, Next(cfg, s, a).value)
  {
    assert Understood(cfg, hdr);
    hide Willing;
    hide Exact;
    hide Next;
    hide Inv;
    hide OnScript;
    hide DaemonExact;
    hide ClientExact;
    hide Understood;
    hide SendOver;
    hide Saying;
    hide OneLine;
    match a
    case ClientSend(n) => ClientSendExact(cfg, hdr, s, n);
    case ClientReceive => ClientReceiveExact(cfg, hdr, s);
    case DaemonSend(n) =>
      DaemonSendGuard(cfg, s, n);
      ExactParts(cfg, hdr, s);
      DaemonSendKeeps(cfg, hdr, s, n);
      DaemonSendNext(cfg, s, n);
      if s.daemon.sent + n == |s.daemon.line| + 1 {
        DaemonSendsRestExact(cfg, hdr, s);
      } else {
        DaemonSendsPartExact(cfg, hdr, s, n);
      }
      ExactParts(cfg, hdr, Next(cfg, s, a).value);
    case DaemonReceive(n) => DaemonReceiveExact(cfg, hdr, s, n);
  }

  // ---------------------------------------------------------------------------
  // Every run ends, and none gets stuck before the client has its answer
  // ---------------------------------------------------------------------------

  /** Bytes still to be sent or received, both ways. */
  function BytesToGo(cfg: Config, hdr: string, s: State): int {
    2 * (|hdr| + 1 + |cfg.payload| + Size(Script(cfg))) - |s.cout| - s.dgot - |s.dout| - s.cgot
  }

  lemma BytesLeft(cfg: Config, hdr: string, s: State)
    requires Exact(cfg, hdr, s)
    ensures BytesToGo(cfg, hdr, s) >= 0
  {
    hide Script;
    hide OkSend;
    hide OkFlashed;
    SentIsPrefix(cfg, hdr, s);
    OutputBounded(cfg, s.dout);
  }

  lemma EachStepMovesBytes(cfg: Config, hdr: string, s: State, a: Action)
    requires !IsFault(a) && Next(cfg, s, a).Some?
    ensures BytesToGo(cfg, hdr, Next(cfg, s, a).value) < BytesToGo(cfg, hdr, s)
  {
    hide Script;
    hide Size;
    hide OkSend;
    hide OkFlashed;
    hide AfterCommand;
    hide AfterAuth;
  }

  /** Sent but not yet received by the daemon: the daemon is reading. */
  lemma DaemonCanRead(cfg: Config, hdr: string, s: State)
    requires Willing(cfg, hdr) && Exact(cfg, hdr, s) && s.dgot < |s.cout|
    requires s.client.SendingHeader? || s.client.SendingPayload?
    ensures Next(cfg, s, DaemonReceive(1)).Some?
  {
    hide OkSend;
    hide OkFlashed;
    hide Understood;
    hide Script;
    assert |s.cout| < |Wire(hdr)| + |cfg.payload|;
    assert s.client.SendingHeader? ==> |s.cout| < |Wire(hdr)|;
    if s.client.SendingPayload? && s.daemon.Replying? && s.daemon.next.ToPayload? {
      assert Received(s) == [OkSend()];
      LinesOfPrefix(s.dout, s.cgot);
    }
    hide PayloadRead;
    hide DaemonByte;
  }

  /** A daemon with something to say can say it once the client has taken all it said. */
  lemma TalkersMaySend(cfg: Config, hdr: string, s: State)
    requires Willing(cfg, hdr) && Exact(cfg, hdr, s) && s.cgot == |s.dout|
    requires s.daemon.Replying? || s.daemon.Flashing?
    ensures DaemonMaySend(cfg, s, 1)
  {
    TalkingNow(cfg, hdr, s);
    hide Exact;
    hide Understood;
    hide Script;
  }

  /** A daemon that waits for the client while the client waits for it has bytes to read. */
  lemma ReadersMayRead(cfg: Config, hdr: string, s: State)
    requires Willing(cfg, hdr) && Exact(cfg, hdr, s) && s.cgot == |s.dout|
    requires s.client.AwaitingReply? || s.client.AwaitingLines?
    requires s.daemon.ReadingCommand? || s.daemon.Receiving?
    ensures Next(cfg, s, DaemonReceive(1)).Some?
  {
    assert s.dout[..s.cgot] == s.dout;
    hide HistoryOk;
    hide OnScript;
    hide OkSend;
    hide OkFlashed;
    hide Understood;
    hide Script;
    hide DaemonByte;
    hide PayloadRead;
    if s.daemon.ReadingCommand? {
      assert Lines("") == [];
      if s.dgot == |s.cout| {
        ShortOfHeader(cfg, hdr, s);
      }
    }
  }

  /** A daemon that has closed has said all, and the client has its answer. */
  lemma NotClosedYet(cfg: Config, hdr: string, s: State)
    requires Willing(cfg, hdr) && Exact(cfg, hdr, s) && s.cgot == |s.dout|
    requires s.client.AwaitingReply? || s.client.AwaitingLines?
    ensures s.daemon.ReadingCommand? || s.daemon.Receiving? || s.daemon.Replying? || s.daemon.Flashing?
  {
    ScriptAt(cfg);
    assert s.dout[..s.cgot] == s.dout;
    hide HistoryOk;
    hide OnScript;
    hide OkSend;
    hide OkFlashed;
    hide Understood;
    hide Script;
    hide Saying;
    ScriptIsNotLogs(cfg, s.relayed);
  }
}
