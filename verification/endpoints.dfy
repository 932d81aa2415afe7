/** One connection endpoint: its reader and writer goroutines, its queue, and the call that
    closes it once. It is the process behind the goroutines that the node accounts for. */
module Endpoints {
  import opened Types
  import opened Messages

  /** What waits in the endpoint's queue: a message to write, or the order to close. */
  datatype In = Write(m: Msg) | CloseMsg

  /** `signalled` says that the reader's channel is closed, `closed` that the close-once
      function has run, and `reports` are the messages to the Central controller about the
      end of a goroutine. */
  datatype Endp = Endp(
    name: Endpoint,
    queue: seq<In>,
    signalled: bool,
    closed: bool,
    reader: bool,
    writer: bool,
    written: seq<Msg>,
    reports: seq<Msg>)

  datatype EndpStep = CallClose | Enqueue(m: Msg) | ReaderLooks | ReaderPanics | WriterTakes | WriterPanics

  function Fresh(name: Endpoint): Endp {
    Endp(name, [], false, false, true, true, [], [])
  }

  predicate CanStep(e: Endp, step: EndpStep) {
    match step
    case CallClose => true
    case Enqueue(_) => true
    case ReaderLooks => e.reader
    case ReaderPanics => e.reader
    case WriterTakes => e.writer && e.queue != []
    case WriterPanics => e.writer
  }

  function Report(e: Endp, isReader: bool, crashed: bool): seq<Msg> {
    e.reports + [EndpointClosed(Routine(e.name, isReader), crashed)]
  }

  /** Closing runs its body once however often it is called. */
  function Closed(e: Endp): Endp {
    if e.closed then e else e.(closed := true, queue := e.queue + [CloseMsg], signalled := true)
  }

  /** The reader looks at its channel between two reads; the writer takes one message. */
  function Step(e: Endp, step: EndpStep): Endp
    requires CanStep(e, step)
  {
    match step
    case CallClose => Closed(e)
    case Enqueue(m) => e.(queue := e.queue + [Write(m)])
    case ReaderLooks => if e.signalled then e.(reader := false, reports := Report(e, true, false)) else e
    case ReaderPanics => e.(reader := false, reports := Report(e, true, true))
    case WriterTakes =>
      var rest := e.(queue := e.queue[1..]);
      if e.queue[0].CloseMsg? then rest.(writer := false, reports := Report(e, false, false))
      else rest.(written := e.written + [e.queue[0].m])
    case WriterPanics => e.(writer := false, reports := Report(e, false, true))
  }

  predicate IsRun(e: Endp, steps: seq<EndpStep>)
    decreases |steps|
  {
    steps == [] || (CanStep(e, steps[0]) && IsRun(Step(e, steps[0]), steps[1..]))
  }

  function After(e: Endp, steps: seq<EndpStep>): Endp
    requires IsRun(e, steps)
    decreases |steps|
  {
    if steps == [] then e else After(Step(e, steps[0]), steps[1..])
  }

  // ---- What every run keeps --------------------------------------------------------

  ghost function ReportsOf(e: Endp, isReader: bool): nat {
    multiset(e.reports)[EndpointClosed(Routine(e.name, isReader), true)]
    + multiset(e.reports)[EndpointClosed(Routine(e.name, isReader), false)]
  }

  ghost function CloseMsgs(q: seq<In>): nat {
    multiset(q)[CloseMsg]
  }

  /** A goroutine runs or has reported its end, once; the channel is closed at most once;
      and a running writer of a closed endpoint has exactly one order to close ahead. */
  ghost predicate EndpOk(e: Endp) {
    && ReportsOf(e, true) == (if e.reader then 0 else 1)
    && ReportsOf(e, false) == (if e.writer then 0 else 1)
    && (e.signalled <==> e.closed)
    && (e.writer ==> CloseMsgs(e.queue) == if e.closed then 1 else 0)
  }

  lemma QueueTail(q: seq<In>)
    requires q != []
    ensures CloseMsgs(q) == CloseMsgs(q[1..]) + if q[0].CloseMsg? then 1 else 0
  {
    assert q == [q[0]] + q[1..];
  }

  lemma StepOk(e: Endp, step: EndpStep)
    requires EndpOk(e) && CanStep(e, step)
    ensures EndpOk(Step(e, step)) && Step(e, step).name == e.name
  {
    if step.WriterTakes? {
      WriterTakesOk(e);
    }
  }

  lemma WriterTakesOk(e: Endp)
    requires EndpOk(e) && CanStep(e, WriterTakes)
    ensures EndpOk(Step(e, WriterTakes)) && Step(e, WriterTakes).name == e.name
  {
    QueueTail(e.queue);
  }

  /** Each goroutine of an endpoint reports its end exactly once, whatever happens. */
  lemma {:induction false} RunOk(e: Endp, steps: seq<EndpStep>)
    requires EndpOk(e) && IsRun(e, steps)
    ensures EndpOk(After(e, steps)) && After(e, steps).name == e.name
    decreases |steps|
  {
    if steps != [] {
      StepOk(e, steps[0]);
      RunOk(Step(e, steps[0]), steps[1..]);
    }
  }

  lemma EachRoutineReportsOnce(name: Endpoint, steps: seq<EndpStep>, isReader: bool)
    requires IsRun(Fresh(name), steps)
    ensures var e := After(Fresh(name), steps);
      && ReportsOf(e, isReader) <= 1
      && (ReportsOf(e, isReader) == 1 <==> !(if isReader then e.reader else e.writer))
  {
    RunOk(Fresh(name), steps);
  }

  predicate IsPanic(step: EndpStep, isReader: bool) {
    if isReader then step.ReaderPanics? else step.WriterPanics?
  }

  lemma StepReports(e: Endp, step: EndpStep, isReader: bool)
    requires CanStep(e, step)
    ensures var crash := EndpointClosed(Routine(e.name, isReader), true);
      crash in Step(e, step).reports <==> crash in e.reports || IsPanic(step, isReader)
  {
  }

  lemma StepName(e: Endp, step: EndpStep)
    requires CanStep(e, step)
    ensures Step(e, step).name == e.name
  {
  }

  /** The report of a goroutine says that it crashed exactly if it did. */
  lemma {:induction false} CrashReportedIff(e: Endp, steps: seq<EndpStep>, isReader: bool)
    requires IsRun(e, steps)
    ensures var crash := EndpointClosed(Routine(e.name, isReader), true);
      crash in After(e, steps).reports <==> crash in e.reports || exists s :: s in steps && IsPanic(s, isReader)
    decreases |steps|
  {
    hide Step, CanStep, IsPanic;
    if steps != [] {
      StepReports(e, steps[0], isReader);
      StepName(e, steps[0]);
      CrashReportedIff(Step(e, steps[0]), steps[1..], isReader);
      assert steps == [steps[0]] + steps[1..];
      if exists s :: s in steps[1..] && IsPanic(s, isReader) {
        var s :| s in steps[1..] && IsPanic(s, isReader);
        assert s in steps;
      }
    }
  }

  // ---- What is written -------------------------------------------------------------

  /** The messages in a queue, without the order to close. */
  function Waiting(q: seq<In>): seq<Msg> {
    if q == [] then [] else (if q[0].CloseMsg? then [] else [q[0].m]) + Waiting(q[1..])
  }

  /** The messages handed to the endpoint during these steps. */
  function Enqueued(steps: seq<EndpStep>): seq<Msg> {
    if steps == [] then [] else (if steps[0].Enqueue? then [steps[0].m] else []) + Enqueued(steps[1..])
  }

  lemma {:induction false} WaitingMore(q: seq<In>, i: In)
    ensures Waiting(q + [i]) == Waiting(q) + if i.CloseMsg? then [] else [i.m]
  {
    if q == [] {
      assert q + [i] == [i] && [i][1..] == [];
    } else {
      assert (q + [i])[1..] == q[1..] + [i];
      WaitingMore(q[1..], i);
    }
  }

  lemma StepWrites(e: Endp, step: EndpStep)
    requires CanStep(e, step)
    ensures var e1 := Step(e, step);
      e1.written + Waiting(e1.queue) == e.written + Waiting(e.queue) + if step.Enqueue? then [step.m] else []
  {
    hide Waiting, Report;
    match step
    case Enqueue(m) => WaitingMore(e.queue, Write(m));
    case CallClose => WaitingMore(e.queue, CloseMsg);
    case WriterTakes => TakeWrites(e);
    case _ =>
  }

  lemma TakeWrites(e: Endp)
    requires CanStep(e, WriterTakes)
    ensures var e1 := Step(e, WriterTakes); e1.written + Waiting(e1.queue) == e.written + Waiting(e.queue)
  {
  }

  /** On every run what was written and what waits are together exactly what was handed to the
      endpoint, in order. */
  lemma {:induction false} WritesInOrder(e: Endp, steps: seq<EndpStep>)
    requires IsRun(e, steps)
    ensures After(e, steps).written + Waiting(After(e, steps).queue) == e.written + Waiting(e.queue) + Enqueued(steps)
    decreases |steps|
  {
    if steps != [] {
      StepWrites(e, steps[0]);
      WritesInOrder(Step(e, steps[0]), steps[1..]);
    }
  }

  // ---- After the call to close -----------------------------------------------------

  /** Number of messages that the writer takes until it is told to close. */
  function UntilClose(q: seq<In>): nat {
    if q == [] || q[0].CloseMsg? then 0 else 1 + UntilClose(q[1..])
  }

  function Payloads(q: seq<In>): seq<Msg> {
    if q == [] || q[0].CloseMsg? then [] else [q[0].m] + Payloads(q[1..])
  }

  /** The number of steps that the two goroutines have left, and what is left to write. */
  function Left(e: Endp): nat {
    (if e.writer then UntilClose(e.queue) + 1 else 0) + if e.reader then 1 else 0
  }

  function Unwritten(e: Endp): seq<Msg> {
    if e.writer then Payloads(e.queue) else []
  }

  predicate IsOwn(step: EndpStep) {
    !step.CallClose? && !step.Enqueue?
  }

  function OwnSteps(steps: seq<EndpStep>): nat {
    if steps == [] then 0 else (if IsOwn(steps[0]) then 1 else 0) + OwnSteps(steps[1..])
  }

  lemma {:induction false} BehindClose(q: seq<In>, m: Msg)
    requires CloseMsg in q
    ensures UntilClose(q + [Write(m)]) == UntilClose(q) && Payloads(q + [Write(m)]) == Payloads(q)
    decreases |q|
  {
    if !q[0].CloseMsg? {
      assert (q + [Write(m)])[1..] == q[1..] + [Write(m)];
      BehindClose(q[1..], m);
    }
  }

  /** Each step of a goroutine brings the end nearer, and nothing else delays it; unless the
      writer crashes, what is written and what is left to write stay the same together. */
  lemma StepDrains(e: Endp, step: EndpStep)
    requires EndpOk(e) && e.closed && CanStep(e, step)
    ensures Left(Step(e, step)) + (if IsOwn(step) then 1 else 0) <= Left(e)
    ensures !step.WriterPanics? ==> Left(Step(e, step)) + (if IsOwn(step) then 1 else 0) == Left(e)
    ensures !step.WriterPanics? ==> Step(e, step).written + Unwritten(Step(e, step)) == e.written + Unwritten(e)
    ensures Step(e, step).closed
  {
    if step.Enqueue? && e.writer {
      assert CloseMsg in e.queue;
      BehindClose(e.queue, step.m);
    }
  }

  /** Once it is told to close, an endpoint stops by itself under every schedule: until both
      goroutines have ended one of them can step, and together they take no more steps than
      were left at first, whatever else is queued meanwhile. Unless the writer crashes they
      take exactly these, and what was queued before the order to close is written in order. */
  lemma {:induction false} ClosedEndpointDrains(e: Endp, steps: seq<EndpStep>)
    requires EndpOk(e) && e.closed && IsRun(e, steps)
    ensures var f := After(e, steps);
      && (f.reader ==> CanStep(f, ReaderLooks)) && (f.writer ==> CanStep(f, WriterTakes))
      && (Left(f) == 0 <==> !f.reader && !f.writer)
      && OwnSteps(steps) + Left(f) <= Left(e)
      && (WriterPanics !in steps ==> OwnSteps(steps) + Left(f) == Left(e))
      && (WriterPanics !in steps ==> f.written + Unwritten(f) == e.written + Unwritten(e))
    decreases |steps|
  {
    if steps == [] {
      assert e.writer ==> CloseMsg in e.queue;
    } else {
      StepOk(e, steps[0]);
      StepDrains(e, steps[0]);
      ClosedEndpointDrains(Step(e, steps[0]), steps[1..]);
      assert steps == [steps[0]] + steps[1..];
    }
  }

  // ---- The object ------------------------------------------------------------------

  /** The endpoint's state as the Central controller and the writer goroutine change it. */
  class P2PEndpoint {
    const name: Endpoint
    var MsgInQueue: seq<In>
    var sigChClosed: bool
    var closeOnceDone: bool
    var readerRuns: bool
    var writerRuns: bool
    var written: seq<Msg>
    var reports: seq<Msg>

    ghost function Abs(): Endp
      reads this
    {
      Endp(name, MsgInQueue, sigChClosed, closeOnceDone, readerRuns, writerRuns, written, reports)
    }

    constructor (name: Endpoint)
      ensures Abs() == Fresh(name)
    {
      this.name := name;
      MsgInQueue, sigChClosed, closeOnceDone, readerRuns, writerRuns, written, reports :=
        [], false, false, true, true, [], [];
    }

    /** Closing a closed channel would panic; the close-once flag rules that out. */
    method Close()
      requires EndpOk(Abs())
      modifies this`closeOnceDone, this`MsgInQueue, this`sigChClosed
      ensures Abs() == Closed(old(Abs())) && EndpOk(Abs())
    {
      StepOk(Abs(), CallClose);
      if !closeOnceDone {
        closeOnceDone := true;
        MsgInQueue := MsgInQueue + [CloseMsg];
        assert !sigChClosed;
        sigChClosed := true;
      }
    }

    /** The writer goroutine, up to where it ends or its queue runs dry. */
    method WriterRoutine()
      requires writerRuns
      modifies this`MsgInQueue, this`writerRuns, this`written, this`reports
      ensures written == old(written) + Payloads(old(MsgInQueue))
      ensures MsgInQueue == old(MsgInQueue)[Min(UntilClose(old(MsgInQueue)) + 1, |old(MsgInQueue)|)..]
      ensures !writerRuns <==> CloseMsg in old(MsgInQueue)
      ensures reports == old(reports) + if writerRuns then [] else [EndpointClosed(Routine(name, false), false)]
    {
      ghost var q, before := MsgInQueue, written;
      ghost var i: nat := 0;
      var done := false;
      while !done && MsgInQueue != []
        invariant writerRuns && reports == old(reports) && i <= |q|
        invariant done ==> i > 0 && q[i - 1].CloseMsg? && MsgInQueue == q[i..]
        invariant done ==> i == UntilClose(q) + 1 && written == before + Payloads(q)
        invariant !done ==> MsgInQueue == q[i..] && UntilClose(q) == i + UntilClose(MsgInQueue) && CloseMsg !in q[..i]
        invariant !done ==> before + Payloads(q) == written + Payloads(MsgInQueue)
        decreases |MsgInQueue|, !done
      {
        var im := MsgInQueue[0];
        assert q[..i + 1] == q[..i] + [q[i]];
        MsgInQueue := MsgInQueue[1..];
        i := i + 1;
        if im.CloseMsg? {
          done := true;
        } else {
          written := written + [im.m];
        }
      }
      if done {
        reports := reports + [EndpointClosed(Routine(name, false), false)];
        writerRuns := false;
      } else {
        assert q[..i] == q;
      }
    }
  }
}
