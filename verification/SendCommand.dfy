/** The one-shot exchange: send a line, collect the reply until it goes quiet. */
module OneShot {
  /** One read: when it was started, what it gave, when it ended. */
  datatype Read = Read(begun: nat, raw: string, ended: nat)

  /** A port as `send_command` sees it: reads take time, and the device will not say
      something non-empty more often than `talk` times. */
  class Port {
    var now: nat
    var talk: nat
    ghost var history: seq<Read>

    constructor (now: nat, talk: nat)
      ensures this.now == now && this.talk == talk && history == []
    {
      this.now, this.talk, history := now, talk, [];
    }

    /** A line, a part of one, or nothing; only a silent read is sure to take time. */
    method ReadLine() returns (raw: string)
      modifies this
      ensures now >= old(now) && history == old(history) + [Read(old(now), raw, now)]
      ensures raw == "" ==> now > old(now) && talk == old(talk)
      ensures raw != "" ==> talk < old(talk)
    {
      var begun := now;
      var waited: nat :| 0 <= waited;
      now := now + waited;
      var said: string :| |said| >= 0;
      if talk == 0 || said == "" {
        now := now + 1;
        raw := "";
      } else {
        talk := talk - 1;
        raw := said;
      }
      history := history + [Read(begun, raw, now)];
    }
  }

  /** `raw.rstrip("\r\n")`. */
  function Chomp(raw: string): string {
    if raw != "" && (raw[|raw| - 1] == '\r' || raw[|raw| - 1] == '\n') then Chomp(raw[..|raw| - 1]) else raw
  }

  predicate IsEol(c: char) {
    c == '\r' || c == '\n'
  }

  /** Only line ends go, and all of them. */
  lemma {:induction false} ChompShape(raw: string)
    ensures var text := Chomp(raw);
            && text <= raw && (forall i :: |text| <= i < |raw| ==> IsEol(raw[i]))
            && (text != "" ==> !IsEol(text[|text| - 1]))
  {
    if raw != "" && IsEol(raw[|raw| - 1]) {
      ChompShape(raw[..|raw| - 1]);
    }
  }

  /** The non-blank lines among the reads, in order. */
  function Heard(history: seq<Read>): seq<string> {
    if history == [] then []
    else
      var text := Chomp(history[|history| - 1].raw);
      Heard(history[..|history| - 1]) + if text != "" then [text] else []
  }

  /** When the device last gave any bytes, blank lines included. */
  function LastHeard(history: seq<Read>, none: nat): nat {
    if history == [] then none
    else if history[|history| - 1].raw != "" then history[|history| - 1].ended
    else LastHeard(history[..|history| - 1], none)
  }

  /** When read `i` was started, nothing had been said yet, or something was still due. */
  predicate StillDue(history: seq<Read>, i: nat, idleGap: nat)
    requires i < |history|
  {
    Heard(history[..i]) == [] || history[i].begun < LastHeard(history[..i], 0) + idleGap
  }

  /**
    The reply is exactly the non-blank lines read, in order.  No read is started at
    or after the deadline, nor once something was said and the device has been quiet
    for `idleGap` since it last gave any bytes; and before the deadline the exchange
    ends only then.
   */
  method SendCommand(port: Port, timeout: nat, idleGap: nat) returns (lines: seq<string>)
    modifies port
    ensures old(port.history) <= port.history
    ensures var history := port.history[|old(port.history)|..]; var deadline := old(port.now) + timeout;
            && lines == Heard(history)
            && (forall i :: 0 <= i < |history| ==> history[i].begun < deadline && StillDue(history, i, idleGap))
            && (port.now < deadline ==> lines != [] && port.now >= LastHeard(history, 0) + idleGap)
  {
    lines := [];
    var deadline := port.now + timeout;
    var quietAfter := deadline;
    ghost var history: seq<Read> := [];
    while true
      invariant port.history == old(port.history) + history
      invariant lines == Heard(history)
      invariant forall i :: 0 <= i < |history| ==> history[i].begun < deadline && StillDue(history, i, idleGap)
      invariant lines != [] ==> quietAfter == LastHeard(history, 0) + idleGap
      decreases port.talk, deadline - port.now
    {
      if port.now >= deadline || (lines != [] && port.now >= quietAfter) {
        assert port.history[|old(port.history)|..] == history;
        return;
      }
      ghost var begun := port.now;
      var raw := port.ReadLine();
      ghost var more := history + [Read(begun, raw, port.now)];
      assert more[..|history|] == history;
      assert forall i :: 0 <= i < |history| ==> more[..i] == history[..i];
      history := more;
      if raw == "" {
        continue;
      }
      var text := Chomp(raw);
      if text != "" {
        lines := lines + [text];
      }
      quietAfter := port.now + idleGap;
    }
  }
}
