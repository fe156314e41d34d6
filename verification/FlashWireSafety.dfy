/** End-to-end safety of the FLASH exchange: a client that reports success has had exactly
    its own file written, once, with every access control satisfied. */
module FlashWireSafety {
  import opened Wrappers
  import opened Text
  import opened Roles
  import opened FlashWire
  import opened FlashWireInvariant

  /** Every step of either machine, faulty or not, keeps the invariant. */
  lemma NextKeeps(cfg: Config, hdr: string, s: State, a: Action)
    requires Understood(cfg, hdr) && Inv(cfg, hdr, s) && Next(cfg, s, a).Some?
    ensures Inv(cfg, hdr, Next(cfg, s, a).value)
  {
    hide *;
    match a
    case ClientSend(n) => ClientSendKeeps(cfg, hdr, s, n);
    case ClientReceive => ClientReceiveKeeps(cfg, hdr, s);
    case DaemonSend(n) => DaemonSendKeeps(cfg, hdr, s, n);
    case DaemonReceive(n) => DaemonReceiveKeeps(cfg, hdr, s, n);
    case ClientSendFails(n) => ClientSendFailsKeeps(cfg, hdr, s, n);
    case ClientReadFails => ClientReadFailsKeeps(cfg, hdr, s);
    case DaemonSendFails => DaemonSendFailsKeeps(cfg, hdr, s);
    case DaemonReadFails => DaemonReadFailsKeeps(cfg, hdr, s);
    case DaemonDies =>
      DaemonDiesKeeps(cfg, hdr, s);
      DyingCloses(cfg, s);
  }

  lemma {:induction false} RunKeeps(cfg: Config, hdr: string, s: State, run: seq<Action>)
    requires Understood(cfg, hdr) && Inv(cfg, hdr, s) && Run(cfg, s, run).Some?
    ensures Inv(cfg, hdr, Run(cfg, s, run).value)
    decreases |run|
  {
    hide Next;
    hide Inv;
    hide Understood;
    if run != [] {
      NextKeeps(cfg, hdr, s, run[0]);
      RunKeeps(cfg, hdr, Next(cfg, s, run[0]).value, run[1..]);
    }
  }

  lemma StartsInv(cfg: Config, hdr: string)
    requires hdr == ClientHeader(cfg)
    ensures Inv(cfg, hdr, Init(cfg))
  {
    hide OkSend;
    hide OkFlashed;
    hide ClientHeader;
    assert "" + Wire(hdr) == Wire(hdr);
    assert Lines("") == [];
  }

  // ---------------------------------------------------------------------------
  // The theorems
  // ---------------------------------------------------------------------------

  /**
    If the client returns 0, then on this connection `flash_hex` ran exactly once,
    on byte for byte the client's file, and returned 0; and the daemon had no token
    and no `--no-flash`, and its board was no relay unless force-relay was sent.
   */
  lemma SuccessMeansFlashed(cfg: Config, run: seq<Action>)
    requires ValidConfig(cfg) && Run(cfg, Init(cfg), run).Some?
    requires Run(cfg, Init(cfg), run).value.client == Returned(0)
    ensures var s := Run(cfg, Init(cfg), run).value;
            s.calls == [cfg.payload] && s.rc == Some(0)
    ensures cfg.rc == 0 && cfg.token == None && !cfg.noFlash && (!IsRelay(cfg.role) || cfg.force)
  {
    hide OkSend;
    hide OkFlashed;
    hide Understood;
    hide ClientHeader;
    hide IsRelay;
    HeaderUnderstood(cfg);
    StartsInv(cfg, ClientHeader(cfg));
    RunKeeps(cfg, ClientHeader(cfg), Init(cfg), run);
    var s := Run(cfg, Init(cfg), run).value;
    LinesOfPrefix(s.dout, s.cgot);
  }

  /** Success or not, nothing but the client's file is ever written, at most once,
      and never past an access control. */
  lemma OnlyTheFileIsWritten(cfg: Config, run: seq<Action>)
    requires ValidConfig(cfg) && Run(cfg, Init(cfg), run).Some?
    ensures var s := Run(cfg, Init(cfg), run).value;
            s.calls == [] || (s.calls == [cfg.payload] && Guards(cfg))
  {
    hide OkSend;
    hide OkFlashed;
    hide Understood;
    hide ClientHeader;
    hide IsRelay;
    HeaderUnderstood(cfg);
    StartsInv(cfg, ClientHeader(cfg));
    RunKeeps(cfg, ClientHeader(cfg), Init(cfg), run);
  }
}
