/**
  A connected socket as an oracle, and the daemon's two read loops over it.

  `rest` is what the peer still has to say before it closes.  A receive hands out
  any chunk of it, or times out, or fails; nothing else is assumed, except that a
  timed-out receive takes time.
 */
module Sockets {
  import opened Wrappers
  import opened Text

  datatype Received = Data(bytes: string) | TimedOut | Eof | Failed

  class Socket {
    var rest: string
    var now: nat
    ghost var received: string
    ghost var receives: nat
    /** What the latest receive answered. */
    ghost var last: Received
    /** Blocking receives neither time out nor fail; no receive fails. */
    const faultless: bool

    constructor (stream: string, faultless: bool)
      ensures rest == stream && received == "" && receives == 0 && now == 0
      ensures this.faultless == faultless
    {
      rest, received, receives, now := stream, "", 0, 0;
      last := TimedOut;
      this.faultless := faultless;
    }

    method Receive(n: nat, blocking: bool) returns (r: Received)
      requires n > 0
      modifies this
      ensures receives == old(receives) + 1 && now >= old(now) && last == r
      ensures r.Data? ==> 1 <= |r.bytes| <= n && old(rest) == r.bytes + rest && received == old(received) + r.bytes
      ensures !r.Data? ==> rest == old(rest) && received == old(received)
      ensures r.Eof? ==> rest == ""
      ensures r.TimedOut? && blocking ==> now > old(now)
      ensures faultless ==> !r.Failed? && (blocking ==> !r.TimedOut?)
    {
      receives := receives + 1;
      var waited: nat :| 0 <= waited;
      var luck: nat :| 0 <= luck;
      now := now + waited;
      if luck == 0 && !faultless {
        r := Failed;
      } else if luck == 1 && !(faultless && blocking) {
        now := now + 1;
        r := TimedOut;
      } else if rest == "" {
        r := Eof;
      } else {
        var k: nat :| 1 <= k <= n && k <= |rest|;
        r := Data(rest[..k]);
        received := received + rest[..k];
        rest := rest[k..];
      }
      last := r;
    }
  }

  /** What a line read answers for the bytes it used: the line, with its newline and
      nothing after it, or nothing, with no newline among them. */
  predicate LineTaken(line: Option<string>, used: string, maxLen: nat) {
    match line
    case Some(l) => used == l + "\n" && OneLine(l) && |l| <= maxLen
    case None => OneLine(used) && |used| <= maxLen + 1
  }

  /** One newline-terminated line, one byte at a time, and not a byte more; `None` on
      end of stream, error, deadline or a line longer than `maxLen`, and only then. */
  method ReadLine(conn: Socket, timeout: nat, maxLen: nat) returns (line: Option<string>, ghost used: string)
    modifies conn
    ensures old(conn.rest) == used + conn.rest && conn.received == old(conn.received) + used
    ensures LineTaken(line, used, maxLen)
    ensures line.None? && conn.now < old(conn.now) + timeout ==>
              |used| == maxLen + 1 || conn.last.Failed? || (conn.last.Eof? && conn.rest == "")
    ensures conn.faultless && conn.now < old(conn.now) + timeout ==> !conn.last.Failed?
  {
    var deadline := conn.now + timeout;
    var buf := "";
    used := "";
    while true
      invariant used == buf && OneLine(buf) && |buf| <= maxLen
      invariant old(conn.rest) == used + conn.rest && conn.received == old(conn.received) + used
      decreases |conn.rest|, deadline - conn.now
    {
      if conn.now >= deadline {
        return None, used;
      }
      ghost var before := conn.rest;
      var r := conn.Receive(1, true);
      match r {
        case TimedOut =>
        case Failed => return None, used;
        case Eof => return None, used;
        case Data(b) =>
          assert used + before == used + b + conn.rest;
          used := used + b;
          if b == "\n" {
            return Some(buf), used;
          }
          assert b[0] != '\n' by {
            assert b == [b[0]];
          }
          buf := buf + b;
          if |buf| > maxLen {
            return None, used;
          }
      }
    }
  }

  /** Up to exactly `n` bytes: fewer only when the stream ended, failed or ran late. */
  method ReadExact(conn: Socket, n: nat, timeout: nat) returns (buf: string)
    modifies conn
    ensures |buf| <= n
    ensures |buf| < n && conn.now < old(conn.now) + timeout ==>
              conn.last.Failed? || (conn.last.Eof? && conn.rest == "")
    ensures |buf| < n && conn.faultless && conn.now < old(conn.now) + timeout ==> conn.rest == ""
    ensures old(conn.rest) == buf + conn.rest && conn.received == old(conn.received) + buf
  {
    var deadline := conn.now + timeout;
    buf := "";
    while |buf| < n
      invariant |buf| <= n
      invariant old(conn.rest) == buf + conn.rest && conn.received == old(conn.received) + buf
      decreases |conn.rest|, deadline - conn.now
    {
      if conn.now >= deadline {
        break;
      }
      ghost var before := conn.rest;
      var r := conn.Receive(if n - |buf| < 4096 then n - |buf| else 4096, true);
      match r {
        case TimedOut =>
        case Failed => break;
        case Eof => break;
        case Data(chunk) =>
          assert buf + before == buf + chunk + conn.rest;
          buf := buf + chunk;
      }
    }
  }
}
