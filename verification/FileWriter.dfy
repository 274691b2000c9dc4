/** The hub's file, which is written in the background: no change of what it keeps is lost
    between marks, writes that take a while or fail, and closing. */
module FileWriter {
  import opened Options

  /** What its lock guards, and whether its goroutine was nudged. */
  datatype Writer = Writer(pending: bool, failing: bool, nudged: bool)

  function Marked(w: Writer): Writer {
    w.(pending := true, nudged := true)
  }

  function Taken(w: Writer): Writer {
    w.(pending := false)
  }

  /** After a write: one that failed leaves the change pending. */
  function Finished(w: Writer, ok: bool): Writer {
    if ok then w.(failing := false) else w.(pending := true, failing := true)
  }

  class Persister {
    var pending: bool
    var failing: bool
    var nudged: bool

    function View(): Writer
      reads this
    {
      Writer(pending, failing, nudged)
    }

    constructor ()
      ensures View() == Writer(false, false, false)
    {
      pending, failing, nudged := false, false, false;
    }

    /** Says that the file is behind. */
    method Mark()
      modifies this
      ensures View() == Marked(old(View()))
    {
      pending := true;
      nudged := true;
    }

    /** The first part of a flush: whether there is anything to write. */
    method TakePending() returns (write: bool)
      modifies this`pending
      ensures View() == Taken(old(View())) && write == old(pending)
    {
      write := pending;
      pending := false;
    }

    /** The last part of one that wrote. */
    method Finish(ok: bool)
      modifies this
      ensures View() == Finished(old(View()), ok)
    {
      if !ok {
        pending := true;
        failing := true;
        return;
      }
      failing := false;
    }
  }

  // ---- Interleavings ----

  /** Who flushes: the goroutine, one who asked for it, or close. */
  datatype Who = Background | Asker | Closer

  /** How far the flush is that holds the write lock; version is what was there when it was called. */
  datatype Flush =
    | Entered(who: Who, version: nat)
    | Reading(who: Who, version: nat)
    | Writing(who: Who, version: nat, data: nat)
    /** It returned, without an error or with one. */
    | Returning(who: Who, version: nat, ok: bool)

  /** Where the goroutine is. */
  datatype Loop = Idle | Timing | Flushing | Ended

  /** version counts the changes of what the file keeps; file is the version it has. Askers and
      closers called at the versions given and wait for the write lock; those done returned
      without an error. */
  datatype System = System(w: Writer, version: nat, file: nat, flush: Option<Flush>, loop: Loop, closing: bool,
    askers: seq<nat>, closers: seq<nat>, done: set<nat>)

  const NewSystem := System(Writer(false, false, false), 0, 0, None, Idle, false, [], [], {})

  datatype Step =
    /** A change, with the lock of what changes held until it is marked. */
    | Change
    /** The goroutine takes the nudge, or sees that it is closed; its timer ends; it gets the write lock. */
    | Nudge
    | SeeClosed
    | Tick
    | Enter
    /** Someone flushes or closes, and gets the write lock. */
    | Ask
    | EnterAsker(i: nat)
    | Close
    | EnterCloser(i: nat)
    /** The steps of the flush that has the lock. */
    | Take
    | Snapshot
    | Write(ok: bool)
    | Return

  function Without(s: seq<nat>, i: nat): seq<nat>
    requires i < |s|
  {
    s[..i] + s[i + 1..]
  }

  /** The system after a step; one that isn't possible now does nothing. */
  function Next(y: System, step: Step): System {
    match step
    case Change => y.(version := y.version + 1, w := Marked(y.w))
    case Nudge => if y.loop == Idle && y.w.nudged then y.(loop := Timing, w := y.w.(nudged := false)) else y
    case SeeClosed => if y.loop == Idle && y.closing then y.(loop := Ended) else y
    case Tick => if y.loop == Timing then y.(loop := Flushing) else y
    case Enter =>
      if y.loop == Flushing && y.flush.None? then y.(flush := Some(Entered(Background, y.version))) else y
    case Ask => y.(askers := y.askers + [y.version])
    case EnterAsker(i) =>
      if i < |y.askers| && y.flush.None?
        then y.(flush := Some(Entered(Asker, y.askers[i])), askers := Without(y.askers, i)) else y
    case Close => y.(closing := true, closers := y.closers + [y.version])
    case EnterCloser(i) =>
      if i < |y.closers| && y.loop == Ended && y.flush.None? then
        y.(flush := Some(Entered(Closer, y.closers[i])), closers := Without(y.closers, i))
      else y
    case Take =>
      if y.flush.None? || !y.flush.value.Entered? then y
      else
        var f := y.flush.value;
        y.(w := Taken(y.w), flush :=
          Some(if y.w.pending then Reading(f.who, f.version) else Returning(f.who, f.version, true)))
    case Snapshot =>
      if y.flush.None? || !y.flush.value.Reading? then y
      else y.(flush := Some(Writing(y.flush.value.who, y.flush.value.version, y.version)))
    case Write(ok) =>
      if y.flush.None? || !y.flush.value.Writing? then y
      else
        var f := y.flush.value;
        y.(w := Finished(y.w, ok), file := if ok then f.data else y.file,
          flush := Some(Returning(f.who, f.version, ok)))
    case Return =>
      if y.flush.None? || !y.flush.value.Returning? then y
      else
        var f := y.flush.value;
        y.(flush := None, loop := if f.who == Background then Idle else y.loop,
          done := if f.ok then y.done + {f.version} else y.done)
  }

  function Run(steps: seq<Step>): System {
    if |steps| == 0 then NewSystem else Next(Run(steps[..|steps| - 1]), steps[|steps| - 1])
  }

  /** The flush under way will bring, or brings, the file up to version. */
  predicate Brings(f: Flush, version: nat) {
    f.Reading? || (f.Writing? && f.data >= version)
  }

  /** The file has the last change, or it is pending, or a flush is about to write it. */
  predicate Kept(y: System) {
    y.w.pending || y.file == y.version || (y.flush.Some? && Brings(y.flush.value, y.version))
  }

  /** A flush that took what was pending writes at least what was there when it was called. */
  predicate FlushFine(y: System, f: Flush) {
    && f.version <= y.version
    && (f.Writing? ==> f.version <= f.data <= y.version && y.file <= f.data)
    && (f.Returning? && f.ok ==> f.version <= y.file)
    && (f.who == Background ==> y.loop == Flushing)
    && (f.who == Closer ==> y.loop == Ended)
  }

  /** While a change is pending that no write of failed, the goroutine is on its way to it. */
  predicate OnItsWay(y: System) {
    y.w.nudged || y.loop == Timing
      || (y.loop == Flushing && !(y.flush.Some? && y.flush.value.who == Background && !y.flush.value.Entered?))
  }

  /** A flush took what was pending: what is pending now was marked since. */
  predicate Working(y: System) {
    y.flush.Some? && (y.flush.value.Reading? || y.flush.value.Writing?)
  }

  ghost predicate Ok(y: System) {
    && y.file <= y.version && Kept(y)
    && (y.flush.Some? ==> FlushFine(y, y.flush.value))
    && (forall i :: 0 <= i < |y.askers| ==> y.askers[i] <= y.version)
    && (forall i :: 0 <= i < |y.closers| ==> y.closers[i] <= y.version)
    && (forall v :: v in y.done ==> v <= y.file)
    && (y.w.pending && (!y.w.failing || Working(y)) && y.loop != Ended ==> OnItsWay(y))
    && (y.loop == Ended ==> y.closing)
  }

  lemma {:induction false} FlushKeeps(y: System, step: Step)
    requires Ok(y) && (step.Take? || step.Snapshot? || step.Write? || step.Return?)
    ensures Ok(Next(y, step)) && Next(y, step).file >= y.file
  {
  }

  lemma {:induction false} EnterKeeps(y: System, step: Step)
    requires Ok(y) && (step.Enter? || step.EnterAsker? || step.EnterCloser?)
    ensures Ok(Next(y, step)) && Next(y, step).file >= y.file
  {
  }

  lemma {:induction false} NextOk(y: System, step: Step)
    requires Ok(y)
    ensures Ok(Next(y, step)) && Next(y, step).file >= y.file
  {
    if step.Take? || step.Snapshot? || step.Write? || step.Return? {
      FlushKeeps(y, step);
    } else if step.Enter? || step.EnterAsker? || step.EnterCloser? {
      EnterKeeps(y, step);
    }
  }

  lemma {:induction false} RunOk(steps: seq<Step>)
    ensures Ok(Run(steps))
  {
    if |steps| > 0 {
      hide Ok, Next;
      RunOk(steps[..|steps| - 1]);
      NextOk(Run(steps[..|steps| - 1]), steps[|steps| - 1]);
    }
  }

  /** No change is lost, however changes, writes and closing interleave: once none is pending and no
      flush is under way, the file has the last; a flush or a close that returned without an error
      left the file with all there was when it was called; and while a change is pending, the
      goroutine is on its way to write it, unless a write failed or it ended, closed. */
  lemma NoLostChange(steps: seq<Step>, version: nat)
    ensures var y := Run(steps);
      && (!y.w.pending && y.flush.None? ==> y.file == y.version)
      && (version in y.done ==> y.file >= version)
      && (y.w.pending && !y.w.failing && !y.closing ==> OnItsWay(y))
  {
    RunOk(steps);
  }

  /** What the file has is never older than it was. */
  lemma NeverOlder(steps: seq<Step>, step: Step)
    ensures Run(steps + [step]).file >= Run(steps).file
  {
    RunOk(steps);
    assert (steps + [step])[..|steps|] == steps;
    NextOk(Run(steps), step);
  }

  /** A write that failed leaves the change pending. */
  lemma FailedIsPending(steps: seq<Step>)
    requires var y := Run(steps); y.flush.Some? && y.flush.value.Writing?
    ensures Next(Run(steps), Write(false)).w.pending
    ensures Next(Next(Run(steps), Write(false)), Return).done == Run(steps).done
  {
  }
}
