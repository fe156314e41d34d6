/**
  `flash_hex`: flash, retry once what looks transient, mass-erase only what looks
  locked, reset -- over every script of subprocess results.
 */
module FlashRecovery {
  import opened Wrappers
  import opened Text

  // ---------------------------------------------------------------------------
  // Failure signatures
  // ---------------------------------------------------------------------------

  const TRANSIENT_SIGNATURES: seq<string> := [
    "timeout reading from probe",
    "probe timeout",
    "communication failure",
    "communication fault",
    "transfer fault",
    "transfer error",
    "dapaccess"
  ]

  const LOCKED_SIGNATURES: seq<string> := [
    "0x67",
    "flash erase sector failure",
    "approtect",
    "access port protection",
    "authentication failed",
    "not authenticated",
    "device is locked",
    "target is locked"
  ]

  predicate Names(output: string, signatures: seq<string>) {
    exists sig :: sig in signatures && Contains(Lower(output), sig)
  }

  predicate LooksTransient(output: string) {
    Names(output, TRANSIENT_SIGNATURES)
  }

  predicate LooksLocked(output: string) {
    Names(output, LOCKED_SIGNATURES)
  }

  /** `"\n".join(lines)`. */
  function Joined(lines: seq<string>): string {
    if lines == [] then ""
    else if |lines| == 1 then lines[0]
    else Joined(lines[..|lines| - 1]) + "\n" + lines[|lines| - 1]
  }

  lemma LowerOfParts(a: string, b: string, c: string)
    ensures Lower(a + b + c) == Lower(a) + Lower(b) + Lower(c)
  {
  }

  lemma SurroundedStillNames(a: string, b: string, c: string, signatures: seq<string>)
    requires Names(b, signatures)
    ensures Names(a + b + c, signatures)
  {
    var sig :| sig in signatures && Contains(Lower(b), sig);
    var i :| 0 <= i <= |Lower(b)| && OccursAt(Lower(b), sig, i);
    LowerOfParts(a, b, c);
    var whole := Lower(a + b + c);
    assert whole[|a| + i..|a| + i + |sig|] == Lower(b)[i..i + |sig|];
    assert OccursAt(whole, sig, |a| + i);
  }

  /** One line that names a signature makes the whole output name it. */
  lemma {:induction false} OneLineSuffices(lines: seq<string>, k: nat, signatures: seq<string>)
    requires k < |lines| && Names(lines[k], signatures)
    ensures Names(Joined(lines), signatures)
  {
    var last := |lines| - 1;
    if last > 0 {
      var init := Joined(lines[..last]);
      if k == last {
        SurroundedStillNames(init + "\n", lines[last], "", signatures);
        assert init + "\n" + lines[last] + "" == Joined(lines);
      } else {
        OneLineSuffices(lines[..last], k, signatures);
        SurroundedStillNames("", init, "\n" + lines[last], signatures);
        assert "" + init + ("\n" + lines[last]) == Joined(lines);
      }
    }
  }

  lemma TooLongToOccur(s: string, sub: string)
    requires |s| < |sub|
    ensures !Contains(s, sub)
  {
  }

  /** A signature is recognised wherever it stands and in whatever case. */
  lemma SignatureAnywhere(before: string, word: string, after: string, signatures: seq<string>)
    requires Lower(word) in signatures
    ensures Names(before + word + after, signatures)
  {
    assert OccursAt(Lower(word), Lower(word), 0) by {
      assert Lower(word)[0..|Lower(word)|] == Lower(word);
    }
    LowerAgain(word);
    assert Contains(Lower(word), Lower(word));
    SurroundedStillNames(before, word, after, signatures);
  }

  lemma LowerAgain(s: string)
    ensures Lower(Lower(s)) == Lower(s)
  {
  }

  /** A sector erase failure and protection look locked, and what is no more than that
      does not look transient. */
  lemma LockedIsNotTransient(before: string, word: string, after: string)
    requires Lower(word) == "0x67" || Lower(word) == "flash erase sector failure" || Lower(word) == "approtect"
             || Lower(word) == "device is locked" || Lower(word) == "target is locked"
             || Lower(word) == "access port protection" || Lower(word) == "authentication failed"
             || Lower(word) == "not authenticated"
    ensures LooksLocked(before + word + after)
    ensures !LooksTransient("(0x67)")
  {
    SignatureAnywhere(before, word, after, LOCKED_SIGNATURES);
    forall sig | sig in TRANSIENT_SIGNATURES ensures !Contains(Lower("(0x67)"), sig) {
      TooLongToOccur(Lower("(0x67)"), sig);
    }
  }

  /** A probe or transfer error looks transient, and one that names only the probe layer
      does not look locked. */
  lemma TransientIsNotLocked(before: string, word: string, after: string)
    requires Lower(word) == "timeout reading from probe" || Lower(word) == "probe timeout"
             || Lower(word) == "communication failure" || Lower(word) == "communication fault"
             || Lower(word) == "transfer fault" || Lower(word) == "transfer error" || Lower(word) == "dapaccess"
    ensures LooksTransient(before + word + after)
    ensures !LooksLocked("DAPAccess")
  {
    SignatureAnywhere(before, word, after, TRANSIENT_SIGNATURES);
    var said := Lower("DAPAccess");
    assert said == "dapaccess";
    forall sig | sig in LOCKED_SIGNATURES ensures !Contains(said, sig) {
      NotInProbeLayer(said, sig);
    }
  }

  lemma NotInProbeLayer(said: string, sig: string)
    requires said == "dapaccess" && (|sig| > 9 || sig == "0x67" || sig == "approtect")
    ensures !Contains(said, sig)
  {
    if sig == "0x67" {
      forall i | 0 <= i <= |said| ensures !OccursAt(said, sig, i) {
        assert i + 4 <= |said| ==> said[i..i + 4][0] == said[i] != '0';
      }
    } else if sig == "approtect" {
      forall i | 0 <= i <= |said| ensures !OccursAt(said, sig, i) {
        assert i == 0 ==> said[0..9][0] == 'd' && sig[0] == 'a';
      }
    }
  }

  /** A failure that says none of these things is neither, so that it is not erased for. */
  lemma UnknownIsNeither(output: string)
    requires forall sig :: sig in TRANSIENT_SIGNATURES + LOCKED_SIGNATURES ==> !Contains(Lower(output), sig)
    ensures !LooksTransient(output) && !LooksLocked(output)
  {
  }

  // ---------------------------------------------------------------------------
  // Processes and the log
  // ---------------------------------------------------------------------------

  /** A write names the contents of the hex file it is given. */
  datatype Command = Flash(file: string) | MassErase | Reset

  /** One finished process: the board it was told to work on, what it was told to do,
      its exit code and its output. */
  datatype Ran = Ran(uid: string, command: Command, rc: int, lines: seq<string>)

  datatype Status =
    | InvalidHex(why: string)
    | RetryingTransient
    | AttemptingErase
    | EraseFailed(rc: int)
    | NoFirmware(name: string, rc: int)
    | NotErasing(rc: int)

  /** What the log callback is given: a line of a process, or one of our own. */
  datatype Entry = Output(line: string) | Note(status: Status)

  function OutputOf(log: seq<Entry>): seq<string> {
    if log == [] then []
    else OutputOf(log[..|log| - 1]) + (if log[|log| - 1].Output? then [log[|log| - 1].line] else [])
  }

  function NotesOf(log: seq<Entry>): seq<Status> {
    if log == [] then []
    else NotesOf(log[..|log| - 1]) + (if log[|log| - 1].Note? then [log[|log| - 1].status] else [])
  }

  lemma LogGrows(log: seq<Entry>, e: Entry)
    ensures OutputOf(log + [e]) == if e.Output? then OutputOf(log) + [e.line] else OutputOf(log)
    ensures NotesOf(log + [e]) == if e.Note? then NotesOf(log) + [e.status] else NotesOf(log)
  {
    assert (log + [e])[..|log|] == log;
    assert OutputOf(log) + [] == OutputOf(log) && NotesOf(log) + [] == NotesOf(log);
  }

  function LinesOf(runs: seq<Ran>): seq<string> {
    if runs == [] then [] else LinesOf(runs[..|runs| - 1]) + runs[|runs| - 1].lines
  }

  lemma OutputGrows(before: seq<Entry>, log: seq<Entry>, line: string)
    requires OnlyOutputSince(before, log)
    ensures OnlyOutputSince(before, log + [Output(line)])
  {
  }

  /** pyocd as a script: the n-th process started gives `results(n)`. */
  class Pyocd {
    const results: nat -> (int, seq<string>)
    ghost var runs: seq<Ran>
    var started: nat
    var log: seq<Entry>

    ghost predicate Valid()
      reads this
    {
      && started == |runs|
      && OutputOf(log) == LinesOf(runs)
      && forall i :: 0 <= i < |runs| ==> (runs[i].rc, runs[i].lines) == results(i)
    }

    constructor (results: nat -> (int, seq<string>))
      ensures Valid() && runs == [] && log == [] && this.results == results
    {
      this.results := results;
      runs, started, log := [], 0, [];
    }

    method Say(status: Status)
      requires Valid()
      modifies this`log
      ensures Valid() && log == old(log) + [Note(status)] && NotesOf(log) == NotesOf(old(log)) + [status]
    {
      LogGrows(log, Note(status));
      hide OutputOf;
      hide NotesOf;
      hide LinesOf;
      log := log + [Note(status)];
    }

    /** Run one process, passing every line of its output on as it comes. */
    method RunStreamed(uid: string, command: Command) returns (rc: int, output: string)
      requires Valid()
      modifies this
      ensures Valid()
      ensures rc == results(old(started)).0 && output == Joined(results(old(started)).1)
      ensures runs == old(runs) + [Ran(uid, command, rc, results(old(started)).1)]
      ensures OnlyOutputSince(old(log), log) && NotesOf(log) == NotesOf(old(log))
    {
      var result := results(started);
      rc := result.0;
      var lines := StreamLines(result.1);
      runs := runs + [Ran(uid, command, rc, lines)];
      assert runs[..|runs| - 1] == old(runs);
      started := started + 1;
      output := Joined(lines);
    }

    /** The loop over one process's output. */
    method StreamLines(produced: seq<string>) returns (lines: seq<string>)
      modifies this`log
      ensures lines == produced
      ensures OutputOf(log) == OutputOf(old(log)) + produced
      ensures OnlyOutputSince(old(log), log) && NotesOf(log) == NotesOf(old(log))
    {
      hide OutputOf;
      hide NotesOf;
      lines := [];
      assert OutputOf(log) + [] == OutputOf(log);
      for i := 0 to |produced|
        invariant lines == produced[..i]
        invariant OutputOf(log) == OutputOf(old(log)) + lines
        invariant OnlyOutputSince(old(log), log) && NotesOf(log) == NotesOf(old(log))
      {
        var stripped := produced[i];
        LogGrows(log, Output(stripped));
        OutputGrows(old(log), log, stripped);
        hide OnlyOutputSince;
        lines := lines + [stripped];
        log := log + [Output(stripped)];
        assert produced[..i + 1] == produced[..i] + [stripped];
      }
      assert produced[..|produced|] == produced;
    }
  }

  /** `log` continues `before` with output lines only. */
  predicate OnlyOutputSince(before: seq<Entry>, log: seq<Entry>) {
    && |before| <= |log| && log[..|before|] == before
    && forall i :: |before| <= i < |log| ==> log[i].Output?
  }

  // ---------------------------------------------------------------------------
  // What a run of flash_hex may look like
  // ---------------------------------------------------------------------------

  predicate Failed(r: Ran) {
    r.rc != 0
  }

  predicate Transient(r: Ran) {
    Failed(r) && LooksTransient(Joined(r.lines))
  }

  predicate Locked(r: Ran) {
    Failed(r) && LooksLocked(Joined(r.lines))
  }

  /** The attempt the erase decision is made on: the retry, if there was one. */
  function Deciding(runs: seq<Ran>): nat
    requires runs != []
  {
    if Transient(runs[0]) then 1 else 0
  }

  /** Every process works on this board, and whatever is written is this file. */
  predicate OnlyFor(runs: seq<Ran>, uid: string, file: string) {
    forall i :: 0 <= i < |runs| ==>
                  runs[i].uid == uid && (runs[i].command.Flash? ==> runs[i].command.file == file)
  }

  lemma OnlyForBoth(a: seq<Ran>, b: seq<Ran>, uid: string, file: string)
    requires OnlyFor(a, uid, file) && OnlyFor(b, uid, file)
    ensures OnlyFor(a + b, uid, file)
  {
  }

  lemma ResetIsFor(r: Ran, uid: string, file: string)
    requires r.uid == uid && r.command == Reset
    ensures OnlyFor([r], uid, file)
  {
  }

  predicate Succeeded(runs: seq<Ran>, command: Command) {
    exists i :: 0 <= i < |runs| && runs[i].command == command && !Failed(runs[i])
  }

  /** The last firmware write of the run. */
  function LastFlash(runs: seq<Ran>): Option<Ran> {
    if runs == [] then None
    else if runs[|runs| - 1].command.Flash? then Some(runs[|runs| - 1])
    else LastFlash(runs[..|runs| - 1])
  }

  /** Everything promised of the processes a valid hex file leads to, where `d` is
      the attempt the erase decision is made on. */
  predicate RecoveryFrom(runs: seq<Ran>, d: nat, rc: int) {
    && d < |runs| <= 5
    && (forall i :: 0 <= i <= d ==> runs[i].command.Flash?)
    // an erase happens exactly when the deciding attempt looks locked, right after it
    && (forall i :: 0 <= i < |runs| && runs[i].command == MassErase ==> i == d + 1 && Locked(runs[d]))
    && (Locked(runs[d]) ==> d + 1 < |runs| && runs[d + 1].command == MassErase)
    // any other failure ends the run at once
    && (Failed(runs[d]) && !Locked(runs[d]) ==> |runs| == d + 1)
    // a failed erase ends the run; a successful one is followed by exactly one write
    && (Locked(runs[d]) ==>
          if Failed(runs[d + 1]) then |runs| == d + 2
          else d + 2 < |runs| && runs[d + 2].command.Flash?
               && forall i :: d + 2 < i < |runs| ==> runs[i].command == Reset)
    // a reset happens exactly when the last firmware write succeeded, and ends the run
    && (forall i :: 0 <= i < |runs| && runs[i].command == Reset ==> i == |runs| - 1)
    && LastFlash(runs).Some?
    && (runs[|runs| - 1].command == Reset <==> !Failed(LastFlash(runs).value))
    // the answer is that of the last process
    && rc == runs[|runs| - 1].rc
  }

  predicate Recovery(runs: seq<Ran>, rc: int) {
    runs != [] && RecoveryFrom(runs, Deciding(runs), rc)
  }

  /** The board was erased and no later write took. */
  predicate LeftEmpty(runs: seq<Ran>) {
    Succeeded(runs, MassErase) && runs[|runs| - 1].command.Flash? && Failed(runs[|runs| - 1])
  }

  /** What `flash_hex` itself says about a run of a valid hex file, told from the
      processes alone: each retry, erase and giving up is announced once, in order. */
  function Remarks(runs: seq<Ran>, name: string): seq<Status> {
    if runs == [] then []
    else
      var d := Deciding(runs);
      (if d == 1 then [RetryingTransient] else [])
      + (if |runs| <= d || !Failed(runs[d]) then []
         else if !Locked(runs[d]) then [NotErasing(runs[d].rc)]
         else [AttemptingErase]
              + (if |runs| == d + 2 then [EraseFailed(runs[d + 1].rc)]
                 else if |runs| == d + 3 then [NoFirmware(name, runs[d + 2].rc)]
                 else []))
  }

  /** The processes are a recovery, the log says of them what it should, and "no
      firmware" is said exactly when the board was left without. */
  predicate Accounted(runs: seq<Ran>, log: seq<Entry>, rc: int, name: string) {
    && Recovery(runs, rc)
    && (SaysNoFirmware(log) <==> LeftEmpty(runs))
    && NotesOf(log) == Remarks(runs, name)
  }

  predicate SaysNoFirmware(log: seq<Entry>) {
    exists i :: 0 <= i < |log| && log[i].Note? && log[i].status.NoFirmware?
  }

  lemma NothingClaimed(before: seq<Entry>, log: seq<Entry>)
    requires !SaysNoFirmware(before) && OnlyOutputSince(before, log)
    ensures !SaysNoFirmware(log)
  {
    forall i | 0 <= i < |log| ensures !(log[i].Note? && log[i].status.NoFirmware?) {
      assert i < |before| ==> log[..|before|][i] == before[i];
    }
  }

  lemma Regroup(a: seq<Ran>, more: seq<Ran>, last: Ran)
    ensures (a + more) + [last] == a + (more + [last])
  {
  }

  lemma OtherRemark(log: seq<Entry>, status: Status)
    requires !SaysNoFirmware(log) && !status.NoFirmware?
    ensures !SaysNoFirmware(log + [Note(status)])
  {
  }

  /** The one or two writes before the erase decision. */
  predicate Attempts(a: seq<Ran>) {
    && 1 <= |a| <= 2
    && a[0].command.Flash? && a[|a| - 1].command.Flash?
    && (|a| == 2 <==> Transient(a[0]))
  }

  /** What may follow the attempts. */
  predicate Follows(last: Ran, tail: seq<Ran>) {
    if !Failed(last) then |tail| == 1 && tail[0].command == Reset
    else if !Locked(last) then tail == []
    else
      && 1 <= |tail| <= 3 && tail[0].command == MassErase
      && (Failed(tail[0]) <==> |tail| == 1)
      && (|tail| > 1 ==> tail[1].command.Flash? && (Failed(tail[1]) <==> |tail| == 2))
      && (|tail| == 3 ==> tail[2].command == Reset)
  }

  lemma {:induction false} LastFlashOf(a: seq<Ran>, b: seq<Ran>)
    ensures LastFlash(a + b) == if LastFlash(b).Some? then LastFlash(b) else LastFlash(a)
  {
    if b == [] {
      assert a + b == a;
    } else {
      assert (a + b)[..|a + b| - 1] == a + b[..|b| - 1];
      LastFlashOf(a, b[..|b| - 1]);
    }
  }

  lemma ShapeLastFlash(a: seq<Ran>, tail: seq<Ran>)
    requires Attempts(a) && Follows(a[|a| - 1], tail)
    ensures LastFlash(a + tail) == Some(if |tail| > 1 then tail[1] else a[|a| - 1])
  {
    hide Transient;
    hide Locked;
    LastFlashOf(a, tail);
    assert LastFlash(a) == Some(a[|a| - 1]);
    if |tail| == 1 {
      assert tail[..0] == [];
    } else if |tail| == 3 {
      assert tail[..2][1] == tail[1];
    }
  }

  lemma AttemptsAreFlashes(a: seq<Ran>, i: nat)
    requires Attempts(a) && i < |a|
    ensures a[i].command.Flash?
  {
    assert i == 0 || i == |a| - 1;
  }

  lemma ShapeIsRecovery(a: seq<Ran>, tail: seq<Ran>, rc: int)
    requires Attempts(a) && Follows(a[|a| - 1], tail)
    requires rc == (a + tail)[|a + tail| - 1].rc
    ensures Recovery(a + tail, rc)
  {
    ShapeLastFlash(a, tail);
    hide LastFlash;
    hide Transient;
    hide Locked;
    var runs := a + tail;
    var d := Deciding(runs);
    assert d == |a| - 1;
    forall i | 0 <= i < |runs| ensures runs[i] == if i <= d then a[i] else tail[i - d - 1] {
    }
    forall i | 0 <= i <= d ensures runs[i].command.Flash? {
      AttemptsAreFlashes(a, i);
    }
    assert |tail| > 0 ==> runs[d + 1] == tail[0];
    assert |tail| > 1 ==> runs[d + 2] == tail[1];
  }

  lemma ShapeLeavesEmpty(a: seq<Ran>, tail: seq<Ran>)
    requires Attempts(a) && Follows(a[|a| - 1], tail)
    ensures LeftEmpty(a + tail) <==> |tail| == 2
  {
    hide LooksLocked;
    hide LooksTransient;
    hide Joined;
    hide Transient;
    hide Locked;
    if |tail| == 2 {
      assert (a + tail)[|a|].command == MassErase;
    }
    forall i | 0 <= i < |a| ensures (a + tail)[i].command.Flash? {
      assert i == 0 || i == |a| - 1;
    }
  }

  /** Everything promised of a run follows from its shape. */
  lemma Concludes(a: seq<Ran>, tail: seq<Ran>, runs: seq<Ran>, log: seq<Entry>, rc: int, name: string)
    requires Attempts(a) && Follows(a[|a| - 1], tail) && runs == a + tail
    requires rc == runs[|runs| - 1].rc
    requires SaysNoFirmware(log) <==> |tail| == 2
    requires NotesOf(log) == Told(a, tail, name)
    ensures Accounted(runs, log, rc, name)
  {
    ShapeIsRecovery(a, tail, rc);
    ShapeLeavesEmpty(a, tail);
    ShapeRemarks(a, tail, name);
  }

  /** What is said of a mass erase and the one write after it. */
  function ErasureNotes(tail: seq<Ran>, name: string): seq<Status>
    requires tail != []
  {
    [AttemptingErase]
    + (if |tail| == 1 then [EraseFailed(tail[0].rc)]
       else if Failed(tail[1]) then [NoFirmware(name, tail[1].rc)]
       else [])
  }

  function Told(a: seq<Ran>, tail: seq<Ran>, name: string): seq<Status>
    requires a != []
  {
    (if |a| == 2 then [RetryingTransient] else [])
    + (if tail == [] then [NotErasing(a[|a| - 1].rc)]
       else if tail[0].command == Reset then []
       else ErasureNotes(tail, name))
  }

  /** The last firmware write succeeded. */
  predicate ResetDue(a: seq<Ran>, more: seq<Ran>) {
    && Attempts(a)
    && (more == [] ==> !Failed(a[|a| - 1]))
    && (more != [] ==>
          Locked(a[|a| - 1]) && Erasure(more) && !Failed(more[|more| - 1]))
  }

  /** A final reset goes without a word. */
  lemma ResetConcludes(a: seq<Ran>, more: seq<Ran>, last: Ran, log: seq<Entry>, name: string)
    requires ResetDue(a, more) && last.command == Reset && !SaysNoFirmware(log)
    requires NotesOf(log) == (if |a| == 2 then [RetryingTransient] else [])
                             + (if more == [] then [] else ErasureNotes(more, name))
    ensures Accounted((a + more) + [last], log, last.rc, name)
  {
    var tail := more + [last];
    Regroup(a, more, last);
    hide Transient;
    hide LooksLocked;
    hide Accounted;
    hide NotesOf;
    Concludes(a, tail, a + tail, log, last.rc, name);
  }

  /** A mass erase, or the write after it, failed. */
  lemma ErasureConcludes(a: seq<Ran>, more: seq<Ran>, log: seq<Entry>, rc: int, name: string)
    requires Attempts(a) && Locked(a[|a| - 1]) && Erasure(more) && Failed(more[|more| - 1])
    requires rc == more[|more| - 1].rc && (SaysNoFirmware(log) <==> |more| == 2)
    requires NotesOf(log) == (if |a| == 2 then [RetryingTransient] else []) + ErasureNotes(more, name)
    ensures Accounted(a + more, log, rc, name)
  {
    hide Transient;
    hide LooksLocked;
    hide Accounted;
    hide NotesOf;
    assert (a + more)[|a + more| - 1] == more[|more| - 1];
    Concludes(a, more, a + more, log, rc, name);
  }

  /** The last attempt failed and does not look locked. */
  lemma GivingUpConcludes(a: seq<Ran>, log: seq<Entry>, name: string)
    requires Attempts(a) && Failed(a[|a| - 1]) && !Locked(a[|a| - 1]) && !SaysNoFirmware(log)
    requires NotesOf(log) == (if |a| == 2 then [RetryingTransient] else []) + [NotErasing(a[|a| - 1].rc)]
    ensures Accounted(a, log, a[|a| - 1].rc, name)
  {
    hide Transient;
    hide Locked;
    hide Accounted;
    hide NotesOf;
    assert a + [] == a;
    Concludes(a, [], a, log, a[|a| - 1].rc, name);
  }

  /** A mass erase and, if that worked, one write. */
  predicate Erasure(more: seq<Ran>) {
    && 1 <= |more| <= 2 && more[0].command == MassErase
    && (Failed(more[0]) <==> |more| == 1)
    && (|more| == 2 ==> more[1].command.Flash?)
  }

  lemma ShapeRemarks(a: seq<Ran>, tail: seq<Ran>, name: string)
    requires Attempts(a) && Follows(a[|a| - 1], tail)
    ensures Remarks(a + tail, name) == Told(a, tail, name)
  {
    hide Transient;
    hide Locked;
    var runs := a + tail;
    assert runs[0] == a[0];
    assert Deciding(runs) == |a| - 1;
    assert runs[|a| - 1] == a[|a| - 1];
  }

  /** All that is promised of one call: a file that is not valid is refused before any
      process runs; of a valid one, what `Accounted` says, on this board alone and with
      this file alone; and every output line is logged once, in order. */
  predicate Outcome(uid: string, file: string, invalid: Option<string>, name: string,
                    runs: seq<Ran>, log: seq<Entry>, rc: int) {
    && OutputOf(log) == LinesOf(runs)
    && match invalid
       case Some(why) => rc == 1 && runs == [] && log == [Note(InvalidHex(why))]
       case None => OnlyFor(runs, uid, file) && Accounted(runs, log, rc, name)
  }

  /** Flash the file, recovering where that is safe.  A board without a name is spoken
      of by its UID. */
  method FlashHex(pyocd: Pyocd, uid: string, file: string, invalid: Option<string>, boardName: string)
    returns (rc: int)
    requires pyocd.Valid() && pyocd.runs == [] && pyocd.log == []
    modifies pyocd
    ensures pyocd.Valid()
    ensures Outcome(uid, file, invalid, if boardName != "" then boardName else uid, pyocd.runs, pyocd.log, rc)
  {
    hide Told;
    hide Accounted;
    hide SaysNoFirmware;
    hide OnlyOutputSince;
    hide OnlyFor;
    hide Attempts;
    hide ErasureNotes;
    hide LooksLocked;
    hide LooksTransient;
    hide Joined;
    hide OutputOf;
    hide NotesOf;
    hide LinesOf;
    if invalid.Some? {
      pyocd.Say(InvalidHex(invalid.value));
      return 1;
    }
    var name := if boardName != "" then boardName else uid;
    var ok;
    var output;
    rc, output := Attempt(pyocd, uid, file);
    ghost var a, more := pyocd.runs, [];
    if rc != 0 && LooksLocked(output) {
      rc, ok, more := EraseAndReflash(pyocd, uid, file, name);
      OnlyForBoth(a, more, uid, file);
      if !ok {
        ErasureConcludes(a, more, pyocd.log, rc, name);
        return;
      }
    } else if rc != 0 {
      ghost var l1 := pyocd.log;
      pyocd.Say(NotErasing(rc));
      OtherRemark(l1, NotErasing(rc));
      GivingUpConcludes(a, pyocd.log, name);
      return;
    }
    assert more == [] ==> pyocd.runs == a + more && NotesOf(pyocd.log) == NotesOf(pyocd.log) + [];
    rc := ResetBoard(pyocd, a, more, uid, file, name);
  }

  /** The last step: reset the board that was just written. */
  method ResetBoard(pyocd: Pyocd, ghost a: seq<Ran>, ghost more: seq<Ran>, uid: string, ghost file: string,
                    name: string)
    returns (rc: int)
    requires pyocd.Valid() && pyocd.runs == a + more && ResetDue(a, more) && !SaysNoFirmware(pyocd.log)
    requires OnlyFor(pyocd.runs, uid, file)
    requires NotesOf(pyocd.log) == (if |a| == 2 then [RetryingTransient] else [])
                                   + (if more == [] then [] else ErasureNotes(more, name))
    modifies pyocd
    ensures pyocd.Valid() && Accounted(pyocd.runs, pyocd.log, rc, name) && OnlyFor(pyocd.runs, uid, file)
  {
    hide OutputOf;
    hide NotesOf;
    hide LinesOf;
    hide OnlyOutputSince;
    hide OnlyFor;
    hide ResetDue;
    hide Accounted;
    hide SaysNoFirmware;
    hide ErasureNotes;
    ghost var before := pyocd.log;
    var output;
    rc, output := pyocd.RunStreamed(uid, Reset);
    NothingClaimed(before, pyocd.log);
    ghost var last := pyocd.runs[|pyocd.runs| - 1];
    OnlyForBoth(a + more, [last], uid, file) by {
      ResetIsFor(last, uid, file);
    }
    ResetConcludes(a, more, last, pyocd.log, name);
  }

  /** The first write and, if it looked transient, one blind retry. */
  method Attempt(pyocd: Pyocd, uid: string, file: string) returns (rc: int, output: string)
    requires pyocd.Valid() && pyocd.runs == [] && pyocd.log == []
    modifies pyocd
    ensures pyocd.Valid() && Attempts(pyocd.runs) && !SaysNoFirmware(pyocd.log)
    ensures OnlyFor(pyocd.runs, uid, file)
    ensures NotesOf(pyocd.log) == if |pyocd.runs| == 2 then [RetryingTransient] else []
    ensures var last := pyocd.runs[|pyocd.runs| - 1]; rc == last.rc && output == Joined(last.lines)
  {
    assert NotesOf([]) == [] && !SaysNoFirmware([]);
    hide LooksTransient;
    hide Joined;
    hide OutputOf;
    hide NotesOf;
    hide LinesOf;
    hide OnlyOutputSince;
    hide SaysNoFirmware;
    ghost var l0 := pyocd.log;
    rc, output := pyocd.RunStreamed(uid, Flash(file));
    NothingClaimed(l0, pyocd.log);
    if rc != 0 && LooksTransient(output) {
      ghost var l1 := pyocd.log;
      pyocd.Say(RetryingTransient);
      OtherRemark(l1, RetryingTransient);
      ghost var l2 := pyocd.log;
      rc, output := pyocd.RunStreamed(uid, Flash(file));
      NothingClaimed(l2, pyocd.log);
    }
  }

  /** The mass erase and the one write after it; `ok` unless either failed. */
  method EraseAndReflash(pyocd: Pyocd, uid: string, file: string, name: string)
    returns (rc: int, ok: bool, ghost tail: seq<Ran>)
    requires pyocd.Valid() && !SaysNoFirmware(pyocd.log)
    modifies pyocd
    ensures pyocd.Valid()
    ensures pyocd.runs == old(pyocd.runs) + tail && Erasure(tail) && OnlyFor(tail, uid, file)
    ensures rc == tail[|tail| - 1].rc && (ok <==> !Failed(tail[|tail| - 1]))
    ensures SaysNoFirmware(pyocd.log) <==> |tail| == 2 && !ok
    ensures NotesOf(pyocd.log) == NotesOf(old(pyocd.log)) + ErasureNotes(tail, name)
  {
    hide OutputOf;
    hide NotesOf;
    hide LinesOf;
    hide Joined;
    pyocd.Say(AttemptingErase);
    ghost var l2 := pyocd.log;
    var output;
    rc, output := pyocd.RunStreamed(uid, MassErase);
    NothingClaimed(l2, pyocd.log);
    tail := [pyocd.runs[|pyocd.runs| - 1]];
    if rc != 0 {
      pyocd.Say(EraseFailed(rc));
      return rc, false, tail;
    }
    ghost var l3 := pyocd.log;
    rc, output := pyocd.RunStreamed(uid, Flash(file));
    NothingClaimed(l3, pyocd.log);
    tail := tail + [pyocd.runs[|pyocd.runs| - 1]];
    if rc != 0 {
      pyocd.Say(NoFirmware(name, rc));
      assert pyocd.log[|pyocd.log| - 1] == Note(NoFirmware(name, rc));
      return rc, false, tail;
    }
    return rc, true, tail;
  }
}
