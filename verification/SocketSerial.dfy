/** The adapter that makes a socket look like an open serial port. */
module SerialAdapter {
  import opened Text
  import opened Sockets

  /** What became of the bytes taken off the socket, in order. */
  datatype Piece = Returned(bytes: string) | Discarded(bytes: string)

  ghost function Flat(log: seq<Piece>): string {
    if log == [] then "" else Flat(log[..|log| - 1]) + log[|log| - 1].bytes
  }

  lemma FlatGrows(log: seq<Piece>, p: Piece, buf: string, n: nat)
    requires n <= |buf| && p.bytes == buf[..n]
    ensures Flat(log + [p]) + buf[n..] == Flat(log) + buf
  {
    assert (log + [p])[..|log|] == log;
    assert buf[..n] + buf[n..] == buf;
  }

  /** `s` up to and including its first newline, or all of it. */
  function FirstLine(s: string): (line: string)
    ensures line <= s
    ensures s != "" ==> line != ""
  {
    if s == "" then "" else if s[0] == '\n' then [s[0]] else [s[0]] + FirstLine(s[1..])
  }

  /** The first `n` answers of `readline` to a stream `s`. */
  function LineStream(s: string, n: nat): seq<string>
    decreases n
  {
    if n == 0 then [] else [FirstLine(s)] + LineStream(s[|FirstLine(s)|..], n - 1)
  }

  /** One more answer taken from the front of the stream. */
  lemma StreamAnswers(line: string, rest: string, left: string, lines: seq<string>, n: nat)
    requires left == line + rest
    ensures n > 0 && line == FirstLine(left) ==>
              lines + LineStream(left, n) == (lines + [line]) + LineStream(rest, n - 1)
    ensures lines == [] ==> lines + LineStream(left, n) == LineStream(left, n)
    ensures n == 0 ==> lines + LineStream(left, n) == lines
  {
    assert left[|line|..] == rest;
  }

  method Find(s: string, c: char) returns (idx: int)
    ensures idx == -1 ==> c !in s
    ensures idx != -1 ==> 0 <= idx < |s| && s[idx] == c && c !in s[..idx]
  {
    for i := 0 to |s|
      invariant c !in s[..i]
    {
      if s[i] == c {
        return i;
      }
    }
    return -1;
  }

  lemma {:induction false} FirstLineAt(s: string, i: nat)
    requires i < |s| && s[i] == '\n' && OneLine(s[..i])
    ensures FirstLine(s) == s[..i + 1]
  {
    if i > 0 {
      assert s[..i][0] == s[0];
      assert s[1..][..i - 1] == s[..i][1..];
      FirstLineAt(s[1..], i - 1);
    }
  }

  lemma {:induction false} FirstLineOfUnended(s: string)
    requires OneLine(s)
    ensures FirstLine(s) == s
  {
    if s != "" {
      FirstLineOfUnended(s[1..]);
    }
  }

  lemma {:induction false} FirstLineGrows(s: string, t: string, i: nat)
    requires i < |s| && s[i] == '\n' && OneLine(s[..i])
    ensures FirstLine(s + t) == s[..i + 1]
  {
    assert (s + t)[..i] == s[..i];
    FirstLineAt(s + t, i);
    assert (s + t)[..i + 1] == s[..i + 1];
  }

  class SocketSerial {
    const sock: Socket
    var buf: string
    var eof: bool
    ghost var log: seq<Piece>

    /** Returned and discarded bytes and the buffer, in order, are the bytes received. */
    ghost predicate Valid()
      reads this, sock
    {
      && Flat(log) + buf == sock.received
      && (sock.faultless && eof ==> sock.rest == "")
    }

    /** What is still to come: buffered, then yet to be received. */
    ghost function Pending(): string
      reads this, sock
    {
      buf + sock.rest
    }

    constructor (sock: Socket)
      requires sock.received == ""
      ensures Valid() && this.sock == sock && buf == "" && !eof && log == []
    {
      this.sock := sock;
      buf, eof, log := "", false, [];
    }

    /** Hand `n` buffered bytes to the caller. */
    method Consume(n: nat) returns (bytes: string)
      requires Valid() && n <= |buf|
      modifies this`buf, this`log
      ensures Valid() && bytes == old(buf)[..n] && buf == old(buf)[n..]
      ensures log == old(log) + [Returned(bytes)]
    {
      FlatGrows(log, Returned(buf[..n]), buf, n);
      hide Flat;
      bytes := buf[..n];
      buf := buf[n..];
      log := log + [Returned(bytes)];
    }

    /** One receive: its bytes join the buffer, its end or failure is remembered. */
    method Pull(n: nat, blocking: bool) returns (r: Received)
      requires Valid() && !eof && n > 0
      modifies this`buf, this`eof, sock
      ensures Valid() && Pending() == old(Pending()) && log == old(log)
      ensures r.Data? ==> |sock.rest| < old(|sock.rest|) && !eof
      ensures !r.Data? ==> buf == old(buf) && sock.rest == old(sock.rest)
      ensures eof <==> r.Eof? || r.Failed?
      ensures sock.last == r && sock.receives == old(sock.receives) + 1
      ensures sock.faultless ==> !r.Failed? && (blocking ==> !r.TimedOut?)
    {
      ghost var before := sock.rest;
      r := sock.Receive(n, blocking);
      eof := r.Eof? || r.Failed?;
      if r.Data? {
        assert buf + before == buf + r.bytes + sock.rest;
        assert Flat(log) + buf + r.bytes == Flat(log) + (buf + r.bytes);
        buf := buf + r.bytes;
      }
    }

    /** Hand over the whole buffer: it holds no newline, or nothing more will come. */
    method ConsumeAll() returns (bytes: string)
      requires Valid()
      modifies this`buf, this`log
      ensures Valid() && bytes == old(buf) && buf == "" && log == old(log) + [Returned(bytes)]
      ensures old(Pending()) == bytes + Pending()
    {
      bytes := Consume(|buf|);
      assert bytes + (buf + sock.rest) == old(Pending());
    }

    /** One line with its newline, or what there is at end of stream or timeout. */
    method ReadLine() returns (line: string)
      requires Valid()
      modifies this, sock
      ensures Valid() && log == old(log) + [Returned(line)]
      ensures old(Pending()) == line + Pending()
      ensures old(eof) ==> eof && sock.receives == old(sock.receives)
      ensures line != "" ==> OneLine(line[..|line| - 1])
      ensures OneLine(line) ==> buf == "" && (eof || sock.last.TimedOut?)
      ensures sock.faultless ==> line == FirstLine(old(Pending()))
    {
      hide FirstLine;
      hide LineStream;
      hide Flat;
      while true
        invariant Valid() && Pending() == old(Pending()) && log == old(log)
        invariant old(eof) ==> eof && sock.receives == old(sock.receives)
        decreases |sock.rest|, !eof
      {
        var idx := Find(buf, '\n');
        if idx != -1 {
          FirstLineGrows(buf, sock.rest, idx);
          line := Consume(idx + 1);
          assert line[..|line| - 1] == old(Pending())[..idx];
          assert line + (buf + sock.rest) == old(Pending());
          return;
        }
        FirstLineOfUnended(buf);
        assert buf + "" == buf;
        if eof {
          line := ConsumeAll();
          return;
        }
        var r := Pull(4096, true);
        if r.TimedOut? || r.Failed? {
          line := ConsumeAll();
          return;
        }
      }
    }

    /** Up to `size` bytes. */
    method Read(size: int) returns (data: string)
      requires Valid()
      modifies this, sock
      ensures Valid() && (if size <= 0 then data == "" && log == old(log) else log == old(log) + [Returned(data)])
      ensures old(Pending()) == data + Pending()
      ensures old(eof) ==> eof && sock.receives == old(sock.receives)
      ensures size > 0 ==> |data| <= size
      ensures |data| < size ==> buf == "" && (eof || sock.last.TimedOut?)
      ensures sock.faultless && size > 0 ==> |data| == if size < |old(Pending())| then size else |old(Pending())|
    {
      hide Flat;
      if size <= 0 {
        return "";
      }
      while |buf| < size && !eof
        invariant Valid() && Pending() == old(Pending()) && log == old(log)
        invariant old(eof) ==> eof && sock.receives == old(sock.receives)
        decreases |sock.rest|, !eof
      {
        var r := Pull(65536, true);
        if !r.Data? {
          break;
        }
      }
      data := Consume(if size < |buf| then size else |buf|);
      assert data + (buf + sock.rest) == old(Pending());
    }

    /** Pull in whatever has arrived, without blocking: unless the stream is known to have
        ended, it stops only at a receive that had nothing to give. */
    method DrainNonblocking()
      requires Valid()
      modifies this`buf, this`eof, sock
      ensures Valid() && Pending() == old(Pending()) && log == old(log)
      ensures old(eof) ==> eof && sock.receives == old(sock.receives) && buf == old(buf)
      ensures !old(eof) ==> sock.receives > old(sock.receives) && !sock.last.Data?
    {
      hide Flat;
      if eof {
        return;
      }
      while true
        invariant Valid() && !eof && Pending() == old(Pending()) && log == old(log)
        invariant sock.receives >= old(sock.receives)
        decreases |sock.rest|
      {
        var r := Pull(65536, false);
        if !r.Data? {
          break;
        }
      }
    }

    method InWaiting() returns (n: nat)
      requires Valid()
      modifies this`buf, this`eof, sock
      ensures Valid() && Pending() == old(Pending()) && log == old(log) && n == |buf|
      ensures old(eof) ==> eof && sock.receives == old(sock.receives)
      ensures !old(eof) ==> sock.receives > old(sock.receives) && !sock.last.Data?
    {
      DrainNonblocking();
      n := |buf|;
    }

    /** What is discarded is an initial part of what was still to come. */
    method ResetInputBuffer()
      requires Valid()
      modifies this, sock
      ensures Valid() && buf == ""
      ensures exists gone :: log == old(log) + [Discarded(gone)] && old(Pending()) == gone + Pending()
      ensures old(eof) ==> eof && sock.receives == old(sock.receives)
      ensures !old(eof) ==> sock.receives > old(sock.receives) && !sock.last.Data?
    {
      DrainNonblocking();
      ghost var gone := buf;
      log := log + [Discarded(gone)];
      assert log[..|log| - 1] == old(log);
      buf := "";
      assert gone + Pending() == old(Pending());
    }

    /** However the stream is chunked and wherever `in_waiting` is asked in between,
        `readline` answers the lines of the stream. */
    method ReadLines(n: nat, poke: nat -> bool) returns (lines: seq<string>)
      requires Valid() && sock.faultless
      modifies this, sock
      ensures Valid() && lines == LineStream(old(Pending()), n)
    {
      hide FirstLine;
      hide Flat;
      lines := [];
      ghost var start := Pending();
      ghost var left := start;
      StreamAnswers("", start, start, [], n);
      hide LineStream;
      for i := 0 to n
        invariant Valid() && left == Pending()
        invariant lines + LineStream(left, n - i) == LineStream(start, n)
      {
        if poke(i) {
          var waiting := InWaiting();
        }
        var line := ReadLine();
        StreamAnswers(line, Pending(), left, lines, n - i);
        lines := lines + [line];
        left := Pending();
      }
      StreamAnswers("", left, left, lines, 0);
    }
  }

  // ---------------------------------------------------------------------------
  // What the answers are
  // ---------------------------------------------------------------------------

  /** Splitting off the first line splits off the first of the finished lines. */
  lemma {:induction false} FirstOfLines(l: string, q: string)
    requires OneLine(l)
    ensures Lines(l + "\n" + q) == [l] + Lines(q)
    ensures Tail(l + "\n" + q) == Tail(q)
  {
    if q == "" {
      AppendWithinLine("", l);
      assert l + "\n" + q == l + ['\n'];
      assert "" + l == l;
      Snoc(l, '\n');
    } else {
      var r := q[..|q| - 1];
      FirstOfLines(l, r);
      assert l + "\n" + q == (l + "\n" + r) + [q[|q| - 1]];
      Snoc(l + "\n" + r, q[|q| - 1]);
      assert q == r + [q[|q| - 1]];
      Snoc(r, q[|q| - 1]);
    }
  }

  /** A stream is one line and the rest, or one unfinished line. */
  lemma FirstLineSplits(s: string)
    ensures var rest := s[|FirstLine(s)|..];
            if OneLine(s) then FirstLine(s) == s && rest == "" && Lines(s) == [] && Tail(s) == s
            else Lines(s) != [] && FirstLine(s) == Lines(s)[0] + "\n"
                 && Lines(rest) == Lines(s)[1..] && Tail(rest) == Tail(s)
  {
    hide Lines;
    hide Tail;
    hide FirstLine;
    if k: nat :| k < |s| && s[k] == '\n' && OneLine(s[..k]) {
      FirstLineAt(s, k);
      var head, rest := s[..k], s[k + 1..];
      FirstOfLines(head, rest);
      assert s == head + "\n" + rest && s[..k + 1] == head + "\n";
      assert '\n' in s;
    } else {
      NoFirstNewline(s);
      FirstLineOfUnended(s);
      UnendedIsTail(s);
    }
  }

  lemma UnendedIsTail(s: string)
    requires OneLine(s)
    ensures Lines(s) == [] && Tail(s) == s
  {
    AppendWithinLine("", s);
    assert "" + s == s;
  }

  /** The answers of `readline` are the newline-terminated lines of the stream, then
      its unfinished tail, then nothing for ever. */
  lemma {:induction false} LineStreamIsSplit(s: string, n: nat, i: nat)
    requires i < n
    ensures |LineStream(s, n)| == n
    ensures LineStream(s, n)[i] == if i < |Lines(s)| then Lines(s)[i] + "\n"
                                   else if i == |Lines(s)| then Tail(s) else ""
    decreases n
  {
    hide Lines;
    hide Tail;
    var rest := s[|FirstLine(s)|..];
    LineStreamLength(s, n);
    FirstLineSplits(s);
    if i > 0 {
      LineStreamIsSplit(rest, n - 1, i - 1);
      if OneLine(s) {
        FirstLineSplits("");
      }
    }
  }

  lemma {:induction false} LineStreamLength(s: string, n: nat)
    ensures |LineStream(s, n)| == n
    decreases n
  {
    if n > 0 {
      LineStreamLength(s[|FirstLine(s)|..], n - 1);
    }
  }

  lemma {:induction false} NoFirstNewline(s: string)
    requires forall k: nat :: k < |s| && s[k] == '\n' ==> !OneLine(s[..k])
    ensures OneLine(s)
  {
    var k := 0;
    while k < |s|
      invariant k <= |s| && OneLine(s[..k])
    {
      assert s[..k + 1] == s[..k] + [s[k]];
      k := k + 1;
    }
    assert s[..|s|] == s;
  }
}
