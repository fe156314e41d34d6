/** Fault-free completeness of the FLASH exchange: every run ends, with the client having
    reported exactly what `flash_hex` returned and relayed exactly what it logged. */
module FlashWireCompletion {
  import opened Text
  import opened FlashWire
  import opened FlashWireInvariant
  import opened FlashWireSafety
  import opened FlashWireScript
  import opened FlashWireProgress

  /** Until the client has its answer, some fault-free step is possible. */
  lemma NeverStuck(cfg: Config, hdr: string, s: State) returns (a: Action)
    requires Willing(cfg, hdr) && Exact(cfg, hdr, s) && !s.client.Returned?
    ensures !IsFault(a) && Next(cfg, s, a).Some?
  {
    hide OkSend;
    hide OkFlashed;
    hide Understood;
    hide Script;
    hide PayloadRead;
    hide DaemonByte;
    hide SendOver;
    hide ClientByte;
    if s.client.SendingHeader? || s.client.SendingPayload? {
      if |s.cout| < s.dgot + cfg.capacity {
        a := ClientSend(1);
      } else {
        DaemonCanRead(cfg, hdr, s);
        a := DaemonReceive(1);
      }
    } else if s.cgot < |s.dout| {
      a := ClientReceive;
    } else {
      NotClosedYet(cfg, hdr, s);
      if s.daemon.ReadingCommand? || s.daemon.Receiving? {
        ReadersMayRead(cfg, hdr, s);
        a := DaemonReceive(1);
      } else {
        TalkersMaySend(cfg, hdr, s);
        a := DaemonSend(1);
      }
    }
  }

  predicate FaultFree(run: seq<Action>) {
    forall i :: 0 <= i < |run| ==> !IsFault(run[i])
  }

  lemma {:induction false} RunExact(cfg: Config, hdr: string, s: State, run: seq<Action>)
    requires Willing(cfg, hdr) && Exact(cfg, hdr, s) && FaultFree(run) && Run(cfg, s, run).Some?
    ensures Exact(cfg, hdr, Run(cfg, s, run).value)
    ensures |run| <= BytesToGo(cfg, hdr, s) - BytesToGo(cfg, hdr, Run(cfg, s, run).value)
    decreases |run|
  {
    hide Willing;
    hide Exact;
    hide Next;
    hide BytesToGo;
    if run != [] {
      var s' := Next(cfg, s, run[0]).value;
      NextExact(cfg, hdr, s, run[0]);
      EachStepMovesBytes(cfg, hdr, s, run[0]);
      RunExact(cfg, hdr, s', run[1..]);
    }
  }

  /** The exchange starts exact. */
  lemma StartsExact(cfg: Config)
    requires Willing(cfg, ClientHeader(cfg))
    ensures Exact(cfg, ClientHeader(cfg), Init(cfg))
  {
    StartsInv(cfg, ClientHeader(cfg));
    ScriptAt(cfg);
    hide Script;
    hide ClientHeader;
    hide Understood;
    hide Inv;
    assert Lines("") == [] && Tail("") == "";
  }

  /** No token, no `--no-flash`, no relay refusal, no competing flash; a header within
      its reader's limit; streams that hold at least a byte. */
  ghost predicate Unhindered(cfg: Config) {
    && ValidConfig(cfg) && Guards(cfg)
    && cfg.capacity >= 1
    && |ClientHeader(cfg)| <= DAEMON_LINE_LIMIT
  }

  /** The client can read this message. */
  predicate Fits(m: string) {
    |LogLine(m)| <= CLIENT_LINE_LIMIT
  }

  /** The messages before the first one that the client cannot read. */
  function Readable(log: seq<string>): seq<string> {
    if log == [] || !Fits(log[0]) then [] else [log[0]] + Readable(log[1..])
  }

  predicate AllFit(log: seq<string>) {
    forall i :: 0 <= i < |log| ==> Fits(log[i])
  }

  lemma {:induction false} ReadableIs(log: seq<string>, n: nat)
    requires n <= |log| && AllFit(log[..n]) && (n < |log| ==> !Fits(log[n]))
    ensures Readable(log) == log[..n]
    decreases n
  {
    hide Fits;
    if n > 0 {
      var rest := log[1..][..n - 1];
      assert log[..n] == [log[0]] + rest;
      assert Fits(log[..n][0]);
      forall i | 0 <= i < n - 1 ensures Fits(rest[i]) {
        assert rest[i] == log[..n][i + 1];
      }
      ReadableIs(log[1..], n - 1);
    }
  }

  /** What a client has that was given the script to read. */
  lemma ReadsWhatFits(cfg: Config, received: seq<string>, code: int, relayed: seq<string>)
    requires received <= Script(cfg) && Short(received) && EndsAfter(cfg, |received|, code, relayed)
    ensures code == (if cfg.rc == 0 && AllFit(cfg.log) then 0 else 1)
    ensures relayed == Readable(cfg.log)
  {
    ScriptAt(cfg);
    hide Script;
    hide OkSend;
    hide LogLine;
    var n := |relayed|;
    assert relayed == cfg.log[..n];
    forall i | 0 <= i < n ensures Fits(cfg.log[i]) {
      assert received[i + 1] == LogLine(cfg.log[i]);
    }
    ReadableIs(cfg.log, n);
  }

  lemma AnswerIs(cfg: Config, hdr: string, s: State)
    requires Exact(cfg, hdr, s) && s.client.Returned?
    ensures s.client.code == (if cfg.rc == 0 && AllFit(cfg.log) then 0 else 1)
    ensures s.relayed == Readable(cfg.log)
  {
    hide Inv;
    hide OnScript;
    hide DaemonExact;
    hide Script;
    hide EndsAfter;
    hide Short;
    hide Received;
    ExactParts(cfg, hdr, s);
    ReadsWhatFits(cfg, Received(s), s.client.code, s.relayed);
  }

  /**
    A fault-free run is never longer than the bytes both machines have to send and
    receive, and it cannot stop before the client has returned.  When the client returns,
    it has relayed, in order, the messages `flash_hex` logged before the first that is
    too long for a line; it returns 0 exactly when `flash_hex` did and there was none.
   */
  lemma FaultFreeRunsComplete(cfg: Config, run: seq<Action>)
    requires Unhindered(cfg) && FaultFree(run) && Run(cfg, Init(cfg), run).Some?
    ensures |run| <= 2 * (|ClientHeader(cfg)| + 1 + |cfg.payload| + Size(Script(cfg)))
    ensures var s := Run(cfg, Init(cfg), run).value;
            && (s.client.Returned? ==>
                  && s.client.code == (if cfg.rc == 0 && AllFit(cfg.log) then 0 else 1)
                  && s.relayed == Readable(cfg.log))
            && (!s.client.Returned? ==> exists a :: !IsFault(a) && Next(cfg, s, a).Some?)
  {
    HeaderUnderstood(cfg);
    var hdr := ClientHeader(cfg);
    hide ClientHeader;
    hide Understood;
    hide Script;
    hide Next;
    StartsExact(cfg);
    RunExact(cfg, hdr, Init(cfg), run);
    hide Exact;
    var s := Run(cfg, Init(cfg), run).value;
    BytesLeft(cfg, hdr, s);
    if s.client.Returned? {
      AnswerIs(cfg, hdr, s);
    } else {
      var a := NeverStuck(cfg, hdr, s);
    }
  }

  /** A log that the client can read is relayed whole. */
  lemma AllFitIsReadable(log: seq<string>)
    ensures AllFit(log) <==> Readable(log) == log
  {
    hide Fits;
    var n := 0;
    while n < |log| && Fits(log[n])
      invariant n <= |log| && AllFit(log[..n])
    {
      assert log[..n + 1] == log[..n] + [log[n]];
      n := n + 1;
    }
    ReadableIs(log, n);
    assert log[..|log|] == log;
  }

  /** From anywhere in a fault-free exchange, the rest of it exists. */
  lemma {:induction false} SomeRunCompletes(cfg: Config, hdr: string, s: State) returns (run: seq<Action>)
    requires Willing(cfg, hdr) && Exact(cfg, hdr, s)
    ensures FaultFree(run) && Run(cfg, s, run).Some? && Run(cfg, s, run).value.client.Returned?
    decreases BytesToGo(cfg, hdr, s)
  {
    hide Willing;
    hide Next;
    hide Script;
    if s.client.Returned? {
      run := [];
    } else {
      var a := NeverStuck(cfg, hdr, s);
      NextExact(cfg, hdr, s, a);
      EachStepMovesBytes(cfg, hdr, s, a);
      BytesLeft(cfg, hdr, s);
      var s' := Next(cfg, s, a).value;
      BytesLeft(cfg, hdr, s');
      var rest := SomeRunCompletes(cfg, hdr, s');
      run := [a] + rest;
      assert run[1..] == rest;
    }
  }
}
