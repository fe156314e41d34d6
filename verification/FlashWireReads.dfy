/** The daemon's two read loops are what its machine does in the FLASH exchange: whatever
    a loop may answer for the bytes it took, the machine can do with the same bytes. */
module FlashWireReads {
  import opened Wrappers
  import opened Text
  import opened FlashWire
  import opened Sockets

  /** `used` is what comes next on the way to the daemon. */
  predicate Arriving(s: State, used: string) {
    s.dgot + |used| <= |s.cout| && s.cout[s.dgot..s.dgot + |used|] == used
  }

  function Singles(n: nat): seq<Action> {
    if n == 0 then [] else [DaemonReceive(1)] + Singles(n - 1)
  }

  /** What the handler goes on with after its line read answered `line`. */
  function AfterLine(cfg: Config, s: State, line: Option<string>): Daemon {
    if s.daemon.Authenticating? then
      (match line case Some(l) => AfterAuth(cfg, l) case None => Reply(Err(AuthRequired), ToClose))
    else
      (match line case Some(l) => AfterCommand(cfg, l) case None => Closed)
  }

  /** `s` with `n` more bytes read, and `buf` in its line buffer. */
  function LineSoFar(s: State, buf: string, n: nat): State {
    s.(dgot := s.dgot + n, daemon := if s.daemon.Authenticating? then Authenticating(buf) else ReadingCommand(buf))
  }

  lemma ByteOfLine(cfg: Config, s: State)
    requires (s.daemon.Authenticating? || s.daemon.ReadingCommand?) && s.dgot < |s.cout|
    requires s.cout[s.dgot] != '\n' && |s.daemon.buf| < DAEMON_LINE_LIMIT
    ensures Next(cfg, s, DaemonReceive(1)) == Some(LineSoFar(s, s.daemon.buf + [s.cout[s.dgot]], 1))
  {
    hide AfterAuth;
    hide AfterCommand;
  }

  /** A run that begins with a step. */
  lemma StepFirst(cfg: Config, s: State, a: Action, s': State, rest: seq<Action>)
    requires Next(cfg, s, a) == Some(s')
    ensures Run(cfg, s, [a] + rest) == Run(cfg, s', rest)
  {
    hide Next;
    assert ([a] + rest)[1..] == rest;
  }

  lemma NoSteps(cfg: Config, s: State)
    ensures Run(cfg, s, Singles(0)) == Some(s)
  {
  }

  lemma {:induction false} BytesOfLine(cfg: Config, s: State, bytes: string)
    requires s.daemon.Authenticating? || s.daemon.ReadingCommand?
    requires Arriving(s, bytes) && OneLine(bytes) && |s.daemon.buf| + |bytes| <= DAEMON_LINE_LIMIT
    ensures Run(cfg, s, Singles(|bytes|)) == Some(LineSoFar(s, s.daemon.buf + bytes, |bytes|))
    decreases |bytes|
  {
    hide Run;
    hide Next;
    if bytes == "" {
      assert s.daemon.buf + bytes == s.daemon.buf;
      NoSteps(cfg, s);
    } else {
      var b := s.cout[s.dgot];
      assert b == bytes[0] && b != '\n';
      var s' := LineSoFar(s, s.daemon.buf + [b], 1);
      ByteOfLine(cfg, s);
      assert Arriving(s', bytes[1..]);
      BytesOfLine(cfg, s', bytes[1..]);
      StepFirst(cfg, s, DaemonReceive(1), s', Singles(|bytes| - 1));
      assert s'.daemon.buf + bytes[1..] == s.daemon.buf + bytes;
      SoFarMore(s, s.daemon.buf + [b], 1, s.daemon.buf + bytes, |bytes| - 1);
      hide LineSoFar;
      hide Arriving;
    }
  }

  lemma {:induction false} RunAppend(cfg: Config, s: State, r: seq<Action>, q: seq<Action>)
    requires Run(cfg, s, r).Some?
    ensures Run(cfg, s, r + q) == Run(cfg, Run(cfg, s, r).value, q)
    decreases |r|
  {
    hide Next;
    if r == [] {
      assert r + q == q;
    } else {
      assert (r + q)[1..] == r[1..] + q;
      RunAppend(cfg, Next(cfg, s, r[0]).value, r[1..], q);
    }
  }

  lemma OneMore(cfg: Config, s: State, r: seq<Action>, a: Action)
    requires Run(cfg, s, r).Some?
    ensures Run(cfg, s, r + [a]) == Next(cfg, Run(cfg, s, r).value, a)
  {
    RunAppend(cfg, s, r, [a]);
    hide Next;
    assert [a][1..] == [];
  }

  /** The newline, or one byte too many. */
  lemma LastOfLine(cfg: Config, s: State)
    requires (s.daemon.Authenticating? || s.daemon.ReadingCommand?) && s.dgot < |s.cout|
    ensures s.cout[s.dgot] == '\n' ==>
              Next(cfg, s, DaemonReceive(1))
              == Some(s.(dgot := s.dgot + 1, daemon := AfterLine(cfg, s, Some(s.daemon.buf))))
    ensures s.cout[s.dgot] != '\n' && |s.daemon.buf| == DAEMON_LINE_LIMIT ==>
              Next(cfg, s, DaemonReceive(1)) == Some(s.(dgot := s.dgot + 1, daemon := AfterLine(cfg, s, None)))
  {
    hide AfterAuth;
    hide AfterCommand;
  }

  lemma LineFails(cfg: Config, s: State)
    requires s.daemon.Authenticating? || s.daemon.ReadingCommand?
    ensures Next(cfg, s, DaemonReadFails) == Some(s.(daemon := AfterLine(cfg, s, None)))
  {
  }

  /** What arrives, arrives byte by byte. */
  lemma FrontArrives(s: State, used: string, n: nat)
    requires Arriving(s, used) && n <= |used|
    ensures Arriving(s, used[..n])
    ensures n < |used| ==> s.dgot + n < |s.cout| && s.cout[s.dgot + n] == used[n]
  {
    var all := s.cout[s.dgot..s.dgot + |used|];
    assert all == used;
    forall i | 0 <= i < n ensures s.cout[s.dgot + i] == used[i] {
      assert all[i] == s.cout[s.dgot + i];
    }
    assert n < |used| ==> all[n] == s.cout[s.dgot + n];
  }

  lemma SoFarMore(s: State, buf: string, n: nat, more: string, m: nat)
    ensures LineSoFar(LineSoFar(s, buf, n), more, m) == LineSoFar(s, more, n + m)
  {
  }

  /** From the end of its line on, all that counts is the answer. */
  lemma AnswersAlike(cfg: Config, s: State, buf: string, n: nat, m: nat, line: Option<string>)
    ensures var s' := LineSoFar(s, buf, n);
            s'.(dgot := s'.dgot + m, daemon := AfterLine(cfg, s', line))
            == s.(dgot := s.dgot + n + m, daemon := AfterLine(cfg, s, line))
  {
    hide AfterAuth;
    hide AfterCommand;
  }

  lemma LineComesWhole(cfg: Config, s: State, bytes: string, c: char, line: Option<string>) returns (run: seq<Action>)
    requires (s.daemon.Authenticating? || s.daemon.ReadingCommand?) && s.daemon.buf == ""
    requires OneLine(bytes) && |bytes| <= DAEMON_LINE_LIMIT && Arriving(s, bytes)
    requires s.dgot + |bytes| < |s.cout| && s.cout[s.dgot + |bytes|] == c
    requires if c == '\n' then line == Some(bytes) else line == None && |bytes| == DAEMON_LINE_LIMIT
    ensures Run(cfg, s, run) == Some(s.(dgot := s.dgot + |bytes| + 1, daemon := AfterLine(cfg, s, line)))
  {
    hide Run;
    hide Next;
    hide AfterLine;
    hide Singles;
    hide Arriving;
    hide OneLine;
    assert "" + bytes == bytes;
    BytesOfLine(cfg, s, bytes);
    run := Singles(|bytes|) + [DaemonReceive(1)];
    OneMore(cfg, s, Singles(|bytes|), DaemonReceive(1));
    LastOfLine(cfg, LineSoFar(s, bytes, |bytes|));
    AnswersAlike(cfg, s, bytes, |bytes|, 1, line);
  }

  lemma LineBreaksOff(cfg: Config, s: State, bytes: string) returns (run: seq<Action>)
    requires (s.daemon.Authenticating? || s.daemon.ReadingCommand?) && s.daemon.buf == ""
    requires OneLine(bytes) && |bytes| <= DAEMON_LINE_LIMIT && Arriving(s, bytes)
    ensures Run(cfg, s, run) == Some(s.(dgot := s.dgot + |bytes|, daemon := AfterLine(cfg, s, None)))
  {
    hide Run;
    hide Next;
    hide AfterLine;
    hide Singles;
    hide Arriving;
    hide OneLine;
    assert "" + bytes == bytes;
    BytesOfLine(cfg, s, bytes);
    run := Singles(|bytes|) + [DaemonReadFails];
    OneMore(cfg, s, Singles(|bytes|), DaemonReadFails);
    LineFails(cfg, LineSoFar(s, bytes, |bytes|));
    AnswersAlike(cfg, s, bytes, |bytes|, 0, None);
  }

  /** `_read_line`, over whatever chunks and polls, answers `line` for `used`; then the
      machine, started on the same bytes, goes on with the same answer. */
  lemma LineReadsAgree(cfg: Config, s: State, line: Option<string>, used: string) returns (run: seq<Action>)
    requires (s.daemon.Authenticating? || s.daemon.ReadingCommand?) && s.daemon.buf == ""
    requires LineTaken(line, used, DAEMON_LINE_LIMIT) && Arriving(s, used)
    ensures Run(cfg, s, run) == Some(s.(dgot := s.dgot + |used|, daemon := AfterLine(cfg, s, line)))
  {
    hide Run;
    hide AfterLine;
    if line.Some? || |used| == DAEMON_LINE_LIMIT + 1 {
      var n := |used| - 1;
      FrontArrives(s, used, n);
      assert line.Some? ==> used[..n] == line.value;
      run := LineComesWhole(cfg, s, used[..n], used[n], line);
    } else {
      run := LineBreaksOff(cfg, s, used);
    }
  }

  lemma {:induction false} BytesOfPayload(cfg: Config, s: State, bytes: string)
    requires s.daemon.Receiving? && Arriving(s, bytes) && |s.daemon.buf| + |bytes| < s.daemon.header.nbytes
    ensures Run(cfg, s, Singles(|bytes|))
            == Some(s.(dgot := s.dgot + |bytes|, daemon := s.daemon.(buf := s.daemon.buf + bytes)))
    decreases |bytes|
  {
    hide PayloadRead;
    if bytes == "" {
      assert s.daemon.buf + bytes == s.daemon.buf;
    } else {
      assert s.cout[s.dgot..s.dgot + 1] == [bytes[0]];
      var s' := s.(dgot := s.dgot + 1, daemon := s.daemon.(buf := s.daemon.buf + [bytes[0]]));
      assert Next(cfg, s, DaemonReceive(1)) == Some(s');
      assert Arriving(s', bytes[1..]);
      BytesOfPayload(cfg, s', bytes[1..]);
      assert s.daemon.buf + [bytes[0]] + bytes[1..] == s.daemon.buf + bytes;
      assert Singles(|bytes|)[1..] == Singles(|bytes| - 1);
    }
  }

  lemma PayloadEnds(cfg: Config, s: State, s': State, bytes: string, buf: string)
    requires s.daemon.Receiving? && |buf| == s.daemon.header.nbytes == |bytes| + 1 && buf[..|bytes|] == bytes
    requires s' == s.(dgot := s.dgot + |bytes|, daemon := Receiving(s.daemon.header, bytes))
    requires s'.dgot < |s.cout| && s.cout[s'.dgot] == buf[|bytes|]
    ensures Next(cfg, s', DaemonReceive(1)) == Some(PayloadRead(cfg, s.(dgot := s.dgot + |buf|), s.daemon.header, buf))
  {
    hide Streaming;
    assert bytes + s.cout[s'.dgot..s'.dgot + 1] == buf;
  }

  lemma PayloadFails(cfg: Config, s: State, s': State, buf: string)
    requires s.daemon.Receiving? && |buf| < s.daemon.header.nbytes
    requires s' == s.(dgot := s.dgot + |buf|, daemon := Receiving(s.daemon.header, buf))
    ensures Next(cfg, s', DaemonReadFails) == Some(PayloadRead(cfg, s.(dgot := s.dgot + |buf|), s.daemon.header, buf))
  {
  }

  /** `_read_exact` answers `buf`, short or not; the machine goes on with the same. */
  lemma PayloadReadsAgree(cfg: Config, s: State, buf: string) returns (run: seq<Action>)
    requires s.daemon.Receiving? && s.daemon.buf == "" && s.daemon.header.nbytes > 0
    requires |buf| <= s.daemon.header.nbytes && Arriving(s, buf)
    ensures Run(cfg, s, run) == Some(PayloadRead(cfg, s.(dgot := s.dgot + |buf|), s.daemon.header, buf))
  {
    hide Run;
    hide Next;
    hide PayloadRead;
    hide Singles;
    var whole := |buf| == s.daemon.header.nbytes;
    var bytes := if whole then buf[..|buf| - 1] else buf;
    FrontArrives(s, buf, |bytes|);
    assert "" + bytes == bytes;
    BytesOfPayload(cfg, s, bytes);
    var s' := s.(dgot := s.dgot + |bytes|, daemon := Receiving(s.daemon.header, bytes));
    if whole {
      run := Singles(|bytes|) + [DaemonReceive(1)];
      OneMore(cfg, s, Singles(|bytes|), DaemonReceive(1));
      PayloadEnds(cfg, s, s', bytes, buf);
    } else {
      run := Singles(|bytes|) + [DaemonReadFails];
      OneMore(cfg, s, Singles(|bytes|), DaemonReadFails);
      PayloadFails(cfg, s, s', buf);
    }
  }
}
