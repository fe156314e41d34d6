/**
  The FLASH exchange as two machines: `deploy_over_network` and `serve_flash`,
  joined by two FIFO byte streams of bounded capacity.

  A send moves any number of bytes the stream has room for, a line read moves one
  byte, and a payload read moves any chunk that has arrived.  Any send may break
  off after any prefix, any read may fail, and the daemon's handler may die at any
  moment; a daemon whose send broke off carries on as if nothing had happened,
  because `_send_line` swallows the error.
 */
module FlashWire {
  import opened Wrappers
  import opened Text
  import opened FlashHeader
  import opened Roles

  const CLIENT_LINE_LIMIT: nat := 65536
  const DAEMON_LINE_LIMIT: nat := 8192
  const CHUNK: nat := 4096

  /** Everything fixed before the exchange: the client's file and flag, the
      daemon's settings, whether the board turns out busy, and what `flash_hex`
      would log and return. */
  datatype Config = Config(
    payload: string, force: bool,
    token: Option<string>, noFlash: bool, role: Option<string>, info: string, busy: bool,
    log: seq<string>, rc: int,
    digest: string -> string,
    capacity: nat)

  ghost predicate ValidConfig(cfg: Config) {
    && (forall p :: |cfg.digest(p)| == 64 && IsLowerHex(cfg.digest(p)))
    && (forall i :: 0 <= i < |cfg.log| ==> OneLine(cfg.log[i]))
    && OneLine(cfg.info)
  }

  function ClientHeader(cfg: Config): string {
    HeaderLine(|cfg.payload|, cfg.digest(cfg.payload), cfg.force)
  }

  // ---------------------------------------------------------------------------
  // The words of the protocol
  // ---------------------------------------------------------------------------

  function OkSend(): string { "OK send" }

  function OkFlashed(): string { "OK flashed" }

  function LogLine(msg: string): string { "LOG " + msg }

  /** If `line` is a LOG line, the message it carries. */
  function LogOf(line: string): Option<string> {
    if StartsWith(line, "LOG ") then Some(line[4..]) else None
  }

  datatype Refusal =
    | AuthRequired | UnknownCommand | FlashDisabled | BadHeader | RelayRefused | Busy
    | ShortPayload | HashMismatch | FlashFailed(rc: int)

  function Err(r: Refusal): string {
    match r
    case AuthRequired => "ERR auth required"
    case UnknownCommand => "ERR unknown command"
    case FlashDisabled => "ERR flash disabled"
    case BadHeader => "ERR bad header"
    case RelayRefused => "ERR relay refused \U{2014} send force-relay"
    case Busy => "ERR busy"
    case ShortPayload => "ERR short payload"
    case HashMismatch => "ERR sha256 mismatch"
    case FlashFailed(rc) => "ERR flash failed (exit " + SignedDec(rc) + ")"
  }

  function Terminal(rc: int): string {
    if rc == 0 then OkFlashed() else Err(FlashFailed(rc))
  }

  // ---------------------------------------------------------------------------
  // The client
  // ---------------------------------------------------------------------------

  datatype Client =
    | SendingHeader(pending: string)
    | AwaitingReply(buf: string)
    | SendingPayload(pending: string)
    | AwaitingLines(buf: string)
    | Returned(code: int)

  /** After sending `n` more bytes of what is pending. */
  function ClientSent(c: Client, n: nat): Client
    requires (c.SendingHeader? || c.SendingPayload?) && n <= |c.pending|
  {
    var rest := c.pending[n..];
    if rest != "" then (if c.SendingHeader? then SendingHeader(rest) else SendingPayload(rest))
    else if c.SendingHeader? then AwaitingReply("") else AwaitingLines("")
  }

  /** What the client makes of a whole line, and what it relays to stderr. */
  function ClientLine(cfg: Config, c: Client, line: string): (Client, seq<string>)
    requires c.AwaitingReply? || c.AwaitingLines?
  {
    if c.AwaitingReply? then
      (if line != OkSend() then (Returned(1), [])
       else if cfg.payload == "" then (AwaitingLines(""), [])
       else (SendingPayload(cfg.payload), []))
    else if LogOf(line).Some? then (AwaitingLines(""), [LogOf(line).value])
    else if line == OkFlashed() then (Returned(0), [])
    else (Returned(1), [])
  }

  function ClientByte(cfg: Config, c: Client, b: char): (Client, seq<string>)
    requires c.AwaitingReply? || c.AwaitingLines?
  {
    if b == '\n' then ClientLine(cfg, c, c.buf)
    else if |c.buf| + 1 > CLIENT_LINE_LIMIT then (Returned(1), [])
    else (if c.AwaitingReply? then AwaitingReply(c.buf + [b]) else AwaitingLines(c.buf + [b]), [])
  }

  // ---------------------------------------------------------------------------
  // The daemon
  // ---------------------------------------------------------------------------

  /** What follows a reply line. */
  datatype Then = ToCommand | ToPayload(header: Header) | ToClose

  /** A line being sent has `sent` of its bytes on the stream, counting its newline. */
  datatype Daemon =
    | Authenticating(buf: string)
    | ReadingCommand(buf: string)
    | Replying(line: string, sent: nat, next: Then)
    | Receiving(header: Header, buf: string)
    | Flashing(line: string, sent: nat, rest: seq<string>)
    | Closed

  function Reply(line: string, next: Then): Daemon {
    Replying(line, 0, next)
  }

  function AfterAuth(cfg: Config, line: string): Daemon {
    if StartsWith(line, "AUTH ") && cfg.token == Some(line[5..]) then Reply("OK", ToCommand)
    else Reply(Err(AuthRequired), ToClose)
  }

  function AfterCommand(cfg: Config, line: string): Daemon {
    var text := Strip(line);
    var words := Split(text);
    if words == [] then Closed
    else if words[0] == "INFO" then Reply("OK " + cfg.info, ToClose)
    else if words[0] != "FLASH" then Reply(Err(UnknownCommand), ToClose)
    else if cfg.noFlash then Reply(Err(FlashDisabled), ToClose)
    else match ParseHeader(text)
         case None => Reply(Err(BadHeader), ToClose)
         case Some(h) =>
           if IsRelay(cfg.role) && !h.forceRelay then Reply(Err(RelayRefused), ToClose)
           else if cfg.busy then Reply(Err(Busy), ToClose)
           else Reply(OkSend(), ToPayload(h))
  }

  /** `flash_hex` logs the rest of its lines, then returns. */
  function Streaming(cfg: Config, rest: seq<string>): (Daemon, Option<int>) {
    if rest == [] then (Reply(Terminal(cfg.rc), ToClose), Some(cfg.rc))
    else (Flashing(LogLine(rest[0]), 0, rest[1..]), None)
  }

  datatype State = State(client: Client, daemon: Daemon,
                         cout: string, dgot: nat,    // client -> daemon: sent, and how much of it received
                         dout: string, cgot: nat,    // daemon -> client
                         calls: seq<string>,         // payloads handed to flash_hex
                         rc: Option<int>,            // what flash_hex returned
                         relayed: seq<string>)       // log lines the client printed

  /** The payload is complete, or will never be. */
  function PayloadRead(cfg: Config, s: State, h: Header, buf: string): State {
    if |buf| < h.nbytes then s.(daemon := Reply(Err(ShortPayload), ToClose))
    else if h.sha256.Some? && cfg.digest(buf) != Lower(h.sha256.value) then
      s.(daemon := Reply(Err(HashMismatch), ToClose))
    else
      var (d, rc) := Streaming(cfg, cfg.log);
      s.(daemon := d, calls := s.calls + [buf], rc := rc)
  }

  /** The daemon's current send is over, whole or not. */
  function SendOver(cfg: Config, s: State): State
    requires s.daemon.Replying? || s.daemon.Flashing?
  {
    if s.daemon.Flashing? then
      var (d, rc) := Streaming(cfg, s.daemon.rest);
      s.(daemon := d, rc := rc)
    else
      match s.daemon.next
      case ToClose => s.(daemon := Closed)
      case ToCommand => s.(daemon := ReadingCommand(""))
      case ToPayload(h) =>
        if h.nbytes == 0 then PayloadRead(cfg, s, h, "") else s.(daemon := Receiving(h, ""))
  }

  function DaemonByte(cfg: Config, s: State, b: char): State
    requires s.daemon.Authenticating? || s.daemon.ReadingCommand?
  {
    var buf := s.daemon.buf;
    if s.daemon.Authenticating? then
      if b == '\n' then s.(daemon := AfterAuth(cfg, buf))
      else if |buf| + 1 > DAEMON_LINE_LIMIT then s.(daemon := Reply(Err(AuthRequired), ToClose))
      else s.(daemon := Authenticating(buf + [b]))
    else
      if b == '\n' then s.(daemon := AfterCommand(cfg, buf))
      else if |buf| + 1 > DAEMON_LINE_LIMIT then s.(daemon := Closed)
      else s.(daemon := ReadingCommand(buf + [b]))
  }

  /** A line being sent, with its newline. */
  function Wire(line: string): string {
    line + "\n"
  }

  // ---------------------------------------------------------------------------
  // Steps
  // ---------------------------------------------------------------------------

  datatype Action =
    | ClientSend(n: nat)
    | ClientReceive
    | DaemonSend(n: nat)
    | DaemonReceive(n: nat)
    // faults
    | ClientSendFails(n: nat)
    | ClientReadFails
    | DaemonSendFails
    | DaemonReadFails
    | DaemonDies

  predicate IsFault(a: Action) {
    a.ClientSendFails? || a.ClientReadFails? || a.DaemonSendFails? || a.DaemonReadFails? || a.DaemonDies?
  }

  function Init(cfg: Config): State {
    State(SendingHeader(Wire(ClientHeader(cfg))),
          if cfg.token.Some? then Authenticating("") else ReadingCommand(""),
          "", 0, "", 0, [], None, [])
  }

  /** The daemon has `n` more bytes to send, and the stream has room for them. */
  predicate DaemonMaySend(cfg: Config, s: State, n: nat) {
    && (s.daemon.Replying? || s.daemon.Flashing?)
    && 1 <= n && s.daemon.sent + n <= |s.daemon.line| + 1
    && |s.dout| + n <= s.cgot + cfg.capacity
  }

  /** The state after `a`, or `None` where `a` cannot happen. */
  function Next(cfg: Config, s: State, a: Action): Option<State> {
    var c := s.client;
    var d := s.daemon;
    match a
    case ClientSend(n) =>
      if (c.SendingHeader? || c.SendingPayload?) && 1 <= n <= |c.pending|
         && |s.cout| + n <= s.dgot + cfg.capacity
      then Some(s.(client := ClientSent(c, n), cout := s.cout + c.pending[..n]))
      else None
    case ClientReceive =>
      if (c.AwaitingReply? || c.AwaitingLines?) && s.cgot < |s.dout|
      then var (c', out) := ClientByte(cfg, c, s.dout[s.cgot]);
           Some(s.(client := c', cgot := s.cgot + 1, relayed := s.relayed + out))
      else None
    case DaemonSend(n) =>
      if DaemonMaySend(cfg, s, n)
      then var s' := s.(dout := s.dout + Wire(d.line)[d.sent..d.sent + n]);
           if d.sent + n == |d.line| + 1 then Some(SendOver(cfg, s'))
           else Some(s'.(daemon := d.(sent := d.sent + n)))
      else None
    case DaemonReceive(n) =>
      if 1 <= n && s.dgot + n <= |s.cout| then
        (if d.Authenticating? || d.ReadingCommand? then
           (if n == 1 then Some(DaemonByte(cfg, s, s.cout[s.dgot]).(dgot := s.dgot + 1)) else None)
         else if d.Receiving? && n <= CHUNK && |d.buf| + n <= d.header.nbytes then
           var buf := d.buf + s.cout[s.dgot..s.dgot + n];
           var s' := s.(dgot := s.dgot + n);
           if |buf| == d.header.nbytes then Some(PayloadRead(cfg, s', d.header, buf))
           else Some(s'.(daemon := d.(buf := buf)))
         else None)
      else None
    case ClientSendFails(n) =>
      if (c.SendingHeader? || c.SendingPayload?) && n <= |c.pending|
      then Some(s.(client := Returned(1), cout := s.cout + c.pending[..n])) else None
    case ClientReadFails =>
      if c.AwaitingReply? || c.AwaitingLines? then Some(s.(client := Returned(1))) else None
    case DaemonSendFails =>
      if d.Replying? || d.Flashing? then Some(SendOver(cfg, s)) else None
    case DaemonReadFails =>
      (match d
       case Authenticating(_) => Some(s.(daemon := Reply(Err(AuthRequired), ToClose)))
       case ReadingCommand(_) => Some(s.(daemon := Closed))
       case Receiving(_, _) => Some(s.(daemon := Reply(Err(ShortPayload), ToClose)))
       case _ => None)
    case DaemonDies => Some(s.(daemon := Closed))
  }

  /** The state after a whole run from `s`, or `None` if some action was impossible. */
  function Run(cfg: Config, s: State, run: seq<Action>): Option<State>
    decreases |run|
  {
    if run == [] then Some(s)
    else match Next(cfg, s, run[0])
         case None => None
         case Some(s') => Run(cfg, s', run[1..])
  }
}
