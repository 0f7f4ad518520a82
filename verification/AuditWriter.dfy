// The asynchronous audit writer (audit/async.go): writers, draining workers and
// Shutdown callers over one mutex, one bounded channel and one WaitGroup, in every
// interleaving of their single operations.
module AuditWriter {

  type Entry = int

  // Where a Write call is while it holds the mutex.
  datatype WriterAt = Checking | Adding | Sending | Sent | Full | Dropped | Refused

  // Where the close of the channel is while it holds the mutex.
  datatype CloserAt = Entered | Flagged | Closed

  datatype Mutex = Free | Writer(entry: Entry, at: WriterAt) | Closer(owner: nat, stage: CloserAt)

  // The sync.Once around the close.
  datatype Once = NotRun | Running(caller: nat) | Ran

  datatype Worker = Ready | Writing(entry: Entry) | Wrote | Leaving | Exited

  // Where a Shutdown call is, once it is past entering the Once. Waiting and Woken
  // are the goroutine on the WaitGroup; Returned says whether the call returned nil.
  datatype Caller = InOnce | Waiting | Woken | Returned(flushed: bool)

  // taken are the entries received from the channel and handed those given to the
  // underlying repository, in order; accepted are those sent and acked those whose
  // Write returned nil.
  datatype State = State(
    capacity: nat, mu: Mutex, once: Once, closed: bool, chanClosed: bool,
    queue: seq<Entry>, count: int, workers: seq<Worker>, callers: map<nat, Caller>,
    accepted: seq<Entry>, taken: seq<Entry>, handed: seq<Entry>, acked: multiset<Entry>,
    panicked: bool)

  // NewAsyncRepository: a buffer of 100 and one worker unless more is asked for.
  function New(buffer: int, workers: int): State {
    State(if buffer <= 0 then 100 else buffer, Free, NotRun, false, false, [],
          if workers < 1 then 1 else workers, seq(if workers < 1 then 1 else workers, i => Ready), map[],
          [], [], [], multiset{}, false)
  }

  datatype Step =
    // Write: lock, look at closed, wg.Add, the select, wg.Done of a full queue, unlock.
    | Lock(entry: Entry) | Check | Add | Send | Drop | Unlock
    // A worker: receive, write, wg.Done, end of the range, deferred wg.Done.
    | Receive(k: nat) | Hand(k: nat) | Finish(k: nat) | EndRange(k: nat) | Exit(k: nat)
    // Shutdown: enter the Once, lock, set closed, close the channel, unlock, find the
    // Once already run, wg.Wait returning, return nil, time out.
    | Begin(s: nat) | LockToClose(s: nat) | SetClosed | CloseChan | UnlockClosed
    | Join(s: nat) | Wake(s: nat) | ReturnNil(s: nat) | TimeOut(s: nat)

  predicate WriterIs(st: State, at: WriterAt) {
    st.mu.Writer? && st.mu.at == at
  }

  predicate CloserIs(st: State, stage: CloserAt) {
    st.mu.Closer? && st.mu.stage == stage
  }

  predicate CallerIs(st: State, s: nat, at: Caller) {
    s in st.callers && st.callers[s] == at
  }

  predicate Enabled(st: State, step: Step) {
    !st.panicked &&
    match step
    case Lock(e) => st.mu.Free?
    case Check => WriterIs(st, Checking)
    case Add => WriterIs(st, Adding)
    case Send => WriterIs(st, Sending)
    case Drop => WriterIs(st, Full)
    case Unlock => WriterIs(st, Sent) || WriterIs(st, Dropped) || WriterIs(st, Refused)
    case Receive(k) => k < |st.workers| && st.workers[k].Ready? && st.queue != []
    case Hand(k) => k < |st.workers| && st.workers[k].Writing?
    case Finish(k) => k < |st.workers| && st.workers[k].Wrote?
    case EndRange(k) => k < |st.workers| && st.workers[k].Ready? && st.queue == [] && st.chanClosed
    case Exit(k) => k < |st.workers| && st.workers[k].Leaving?
    case Begin(s) => s !in st.callers && st.once.NotRun?
    case LockToClose(s) => st.mu.Free? && st.once == Running(s) && CallerIs(st, s, InOnce)
    case SetClosed => CloserIs(st, Entered)
    case CloseChan => CloserIs(st, Flagged)
    case UnlockClosed => CloserIs(st, Closed)
    case Join(s) => s !in st.callers && st.once.Ran?
    case Wake(s) => CallerIs(st, s, Waiting) && st.count == 0
    case ReturnNil(s) => CallerIs(st, s, Woken)
    case TimeOut(s) => CallerIs(st, s, Waiting) || CallerIs(st, s, Woken)
  }

  // wg.Done: a count that would fall below zero panics.
  function DoneOne(st: State): State {
    if st.count <= 0 then st.(panicked := true) else st.(count := st.count - 1)
  }

  // The select of Write: a send on a closed channel panics, a full queue takes the default.
  function Select(st: State, e: Entry): State {
    if st.chanClosed then st.(panicked := true)
    else if |st.queue| < st.capacity then st.(mu := Writer(e, Sent), queue := st.queue + [e], accepted := st.accepted + [e])
    else st.(mu := Writer(e, Full))
  }

  function WriterStep(st: State, step: Step): State
    requires Enabled(st, step) && (step.Lock? || step.Check? || step.Add? || step.Send? || step.Drop? || step.Unlock?)
  {
    match step
    case Lock(e) => st.(mu := Writer(e, Checking))
    case Check => st.(mu := Writer(st.mu.entry, if st.closed then Refused else Adding))
    case Add => st.(mu := Writer(st.mu.entry, Sending), count := st.count + 1)
    case Send => Select(st, st.mu.entry)
    case Drop => DoneOne(st.(mu := Writer(st.mu.entry, Dropped)))
    case Unlock => st.(mu := Free, acked := st.acked + if st.mu.at.Sent? then multiset{st.mu.entry} else multiset{})
  }

  function WorkerStep(st: State, step: Step): State
    requires Enabled(st, step) && (step.Receive? || step.Hand? || step.Finish? || step.EndRange? || step.Exit?)
  {
    match step
    case Receive(k) => st.(workers := st.workers[k := Writing(st.queue[0])], queue := st.queue[1..], taken := st.taken + [st.queue[0]])
    case Hand(k) => st.(workers := st.workers[k := Wrote], handed := st.handed + [st.workers[k].entry])
    case Finish(k) => DoneOne(st.(workers := st.workers[k := Ready]))
    case EndRange(k) => st.(workers := st.workers[k := Leaving])
    case Exit(k) => DoneOne(st.(workers := st.workers[k := Exited]))
  }

  function ShutdownStep(st: State, step: Step): State
    requires Enabled(st, step)
    requires step.Begin? || step.LockToClose? || step.SetClosed? || step.CloseChan? || step.UnlockClosed? ||
             step.Join? || step.Wake? || step.ReturnNil? || step.TimeOut?
  {
    match step
    case Begin(s) => st.(once := Running(s), callers := st.callers[s := InOnce])
    case LockToClose(s) => st.(mu := Closer(s, Entered))
    case SetClosed => st.(mu := st.mu.(stage := Flagged), closed := true)
    case CloseChan => if st.chanClosed then st.(panicked := true) else st.(mu := st.mu.(stage := Closed), chanClosed := true)
    case UnlockClosed => st.(mu := Free, once := Ran, callers := st.callers[st.mu.owner := Waiting])
    case Join(s) => st.(callers := st.callers[s := Waiting])
    case Wake(s) => st.(callers := st.callers[s := Woken])
    case ReturnNil(s) => st.(callers := st.callers[s := Returned(true)])
    case TimeOut(s) => st.(callers := st.callers[s := Returned(false)])
  }

  function Next(st: State, step: Step): State
    requires Enabled(st, step)
  {
    match step
    case Lock(_) => WriterStep(st, step)
    case Check => WriterStep(st, step)
    case Add => WriterStep(st, step)
    case Send => WriterStep(st, step)
    case Drop => WriterStep(st, step)
    case Unlock => WriterStep(st, step)
    case Receive(_) => WorkerStep(st, step)
    case Hand(_) => WorkerStep(st, step)
    case Finish(_) => WorkerStep(st, step)
    case EndRange(_) => WorkerStep(st, step)
    case Exit(_) => WorkerStep(st, step)
    case _ => ShutdownStep(st, step)
  }

  // What every interleaving keeps --------------------------------------------------------

  // What a worker holds of the WaitGroup: its own Add, and the entry in process.
  function Share(w: Worker): nat {
    match w
    case Exited => 0
    case Writing(_) => 2
    case Wrote => 2
    case _ => 1
  }

  function Shares(ws: seq<Worker>): nat {
    if ws == [] then 0 else Shares(ws[..|ws| - 1]) + Share(ws[|ws| - 1])
  }

  // How many times a worker has the entry in hand.
  function InHand(w: Worker, e: Entry): nat {
    if w == Writing(e) then 1 else 0
  }

  function AllInHand(ws: seq<Worker>, e: Entry): nat {
    if ws == [] then 0 else AllInHand(ws[..|ws| - 1], e) + InHand(ws[|ws| - 1], e)
  }

  // A writer between wg.Add and the send, or about to take its Add back.
  function MidSend(mu: Mutex): nat {
    if mu.Writer? && (mu.at.Sending? || mu.at.Full?) then 1 else 0
  }

  // A writer that sent and has not returned yet.
  function Unacked(mu: Mutex): multiset<Entry> {
    if mu.Writer? && mu.at.Sent? then multiset{mu.entry} else multiset{}
  }

  // The count is the live workers, the queued entries, those in process and a writer mid-send.
  predicate Counted(st: State) {
    st.count == Shares(st.workers) + |st.queue| + MidSend(st.mu)
  }

  // Entries are taken in the order they were accepted, each by one worker, and each
  // is in hand or handed over.
  ghost predicate Conserved(st: State) {
    && st.accepted == st.taken + st.queue
    && (forall e: Entry :: multiset(st.taken)[e] == multiset(st.handed)[e] + AllInHand(st.workers, e))
    && multiset(st.accepted) == st.acked + Unacked(st.mu)
  }

  // How far the close has come.
  predicate Closing(st: State) {
    match st.once
    case NotRun => !st.closed && !st.chanClosed && !st.mu.Closer?
    case Running(s) =>
      && (st.closed <==> CloserIs(st, Flagged) || CloserIs(st, Closed))
      && (st.chanClosed <==> CloserIs(st, Closed))
      && (st.mu.Closer? ==> st.mu.owner == s)
    case Ran => st.closed && st.chanClosed && !st.mu.Closer?
  }

  predicate WriterAllowed(st: State) {
    st.closed && st.mu.Writer? ==> st.mu.at.Checking? || st.mu.at.Refused?
  }

  predicate WorkersAllowed(st: State) {
    forall k :: 0 <= k < |st.workers| && (st.workers[k].Leaving? || st.workers[k].Exited?) ==> st.chanClosed && st.queue == []
  }

  predicate CallersAllowed(st: State) {
    && (forall s :: s in st.callers && st.callers[s] != InOnce ==> st.once.Ran?)
    && (forall s :: s in st.callers && (st.callers[s] == Woken || st.callers[s] == Returned(true)) ==> st.count == 0)
  }

  ghost predicate Inv(st: State) {
    && !st.panicked
    && 0 < |st.workers|
    && |st.queue| <= st.capacity
    && Counted(st)
    && Conserved(st)
    && Closing(st)
    && WriterAllowed(st)
    && WorkersAllowed(st)
    && CallersAllowed(st)
  }

  lemma {:induction false} SharesUpdate(ws: seq<Worker>, k: nat, w: Worker)
    requires k < |ws|
    ensures Shares(ws[k := w]) == Shares(ws) - Share(ws[k]) + Share(w)
  {
    var last := |ws| - 1;
    if k < last {
      SharesUpdate(ws[..last], k, w);
      assert ws[k := w][..last] == ws[..last][k := w];
    } else {
      assert ws[k := w][..last] == ws[..last];
    }
  }

  lemma {:induction false} InHandUpdate(ws: seq<Worker>, k: nat, w: Worker, e: Entry)
    requires k < |ws|
    ensures AllInHand(ws[k := w], e) == AllInHand(ws, e) - InHand(ws[k], e) + InHand(w, e)
  {
    var last := |ws| - 1;
    if k < last {
      InHandUpdate(ws[..last], k, w, e);
      assert ws[k := w][..last] == ws[..last][k := w];
    } else {
      assert ws[k := w][..last] == ws[..last];
    }
  }

  lemma {:induction false} SharesCover(ws: seq<Worker>, k: nat)
    requires k < |ws|
    ensures Shares(ws) >= Share(ws[k])
  {
    if k < |ws| - 1 {
      SharesCover(ws[..|ws| - 1], k);
    }
  }

  lemma {:induction false} AllReady(n: nat, e: Entry)
    ensures Shares(seq(n, i => Ready)) == n
    ensures AllInHand(seq(n, i => Ready), e) == 0
  {
    var ws := seq(n, i => Ready);
    if n > 0 {
      AllReady(n - 1, e);
      assert ws[..n - 1] == seq(n - 1, i => Ready);
    }
  }

  lemma NewIsOk(buffer: int, workers: int)
    ensures Inv(New(buffer, workers))
    ensures New(buffer, workers).capacity == (if buffer > 0 then buffer else 100)
    ensures |New(buffer, workers).workers| == (if workers > 0 then workers else 1) == New(buffer, workers).count
    ensures !New(buffer, workers).closed && New(buffer, workers).queue == [] && New(buffer, workers).accepted == []
  {
    var ws := New(buffer, workers).workers;
    forall e: Entry ensures AllInHand(ws, e) == 0 {
      AllReady(|ws|, e);
    }
    AllReady(|ws|, 0);
  }

  // Nothing about entries changes.
  lemma SameEntriesConserve(st: State, st': State)
    requires Conserved(st) && st'.workers == st.workers && st'.queue == st.queue && st'.acked == st.acked
    requires st'.accepted == st.accepted && st'.taken == st.taken && st'.handed == st.handed
    requires Unacked(st'.mu) == Unacked(st.mu)
    ensures Conserved(st')
  {
  }

  // An unlock acknowledges what was sent.
  lemma UnlockConserves(st: State)
    requires Conserved(st) && Enabled(st, Unlock)
    ensures Conserved(WriterStep(st, Unlock))
  {
    assert st.acked + multiset{} == st.acked;
  }

  lemma WriterConserves(st: State, step: Step)
    requires Inv(st) && Enabled(st, step) && (step.Lock? || step.Check? || step.Add? || step.Drop? || step.Unlock?)
    ensures Conserved(WriterStep(st, step))
  {
    if step.Unlock? {
      UnlockConserves(st);
    } else {
      SameEntriesConserve(st, WriterStep(st, step));
    }
  }

  lemma WriterCounts(st: State, step: Step)
    requires Counted(st) && Enabled(st, step) && (step.Lock? || step.Check? || step.Add? || step.Drop? || step.Unlock?)
    ensures Counted(WriterStep(st, step)) && !WriterStep(st, step).panicked
  {
  }

  lemma WriterKeepsPlaces(st: State, step: Step)
    requires Inv(st) && Enabled(st, step) && (step.Lock? || step.Check? || step.Add? || step.Drop? || step.Unlock?)
    ensures var st' := WriterStep(st, step); Closing(st') && WriterAllowed(st') && WorkersAllowed(st') && CallersAllowed(st')
  {
    WriterCounts(st, step);
  }

  lemma WriterKeepsInv(st: State, step: Step)
    requires Inv(st) && Enabled(st, step)
    requires step.Lock? || step.Check? || step.Add? || step.Send? || step.Drop? || step.Unlock?
    ensures Inv(WriterStep(st, step))
  {
    if step.Send? {
      SendKeepsInv(st);
    } else {
      WriterConserves(st, step);
      WriterCounts(st, step);
      WriterKeepsPlaces(st, step);
    }
  }

  lemma SendKeepsInv(st: State)
    requires Inv(st) && Enabled(st, Send)
    ensures Inv(WriterStep(st, Send))
  {
    SendConserves(st, st.mu.entry);
    SendKeepsPlaces(st, st.mu.entry);
  }

  lemma SendKeepsPlaces(st: State, e: Entry)
    requires Inv(st) && st.mu == Writer(e, Sending)
    ensures var st' := Select(st, e);
            !st'.panicked && Counted(st') && Closing(st') && WriterAllowed(st') && WorkersAllowed(st') && CallersAllowed(st')
  {
    assert !st.closed && !st.chanClosed;
  }

  lemma SendConserves(st: State, e: Entry)
    requires Conserved(st) && st.mu == Writer(e, Sending)
    ensures Conserved(Select(st, e))
  {
    assert st.acked + multiset{} == st.acked;
    if !st.chanClosed && |st.queue| < st.capacity {
      assert (st.taken + st.queue) + [e] == st.taken + (st.queue + [e]);
      assert multiset(st.accepted + [e]) == st.acked + multiset{e};
    }
  }

  // A worker's move changes what is in hand by what it had and has.
  lemma MoveInHand(ws: seq<Worker>, k: nat, w: Worker)
    requires k < |ws|
    ensures forall e: Entry :: AllInHand(ws[k := w], e) == AllInHand(ws, e) - InHand(ws[k], e) + InHand(w, e)
  {
    forall e: Entry ensures AllInHand(ws[k := w], e) == AllInHand(ws, e) - InHand(ws[k], e) + InHand(w, e) {
      InHandUpdate(ws, k, w, e);
    }
  }

  lemma ReceiveConserves(st: State, k: nat)
    requires Conserved(st) && Enabled(st, Receive(k))
    ensures Conserved(WorkerStep(st, Receive(k)))
  {
    MoveInHand(st.workers, k, Writing(st.queue[0]));
    assert (st.taken + [st.queue[0]]) + st.queue[1..] == st.taken + st.queue;
  }

  // A worker that is still live keeps the count above zero.
  lemma WorkerCounts(st: State, step: Step)
    requires Counted(st) && Enabled(st, step)
    requires step.Receive? || step.Hand? || step.Finish? || step.EndRange? || step.Exit?
    ensures st.count > 0
    ensures Counted(WorkerStep(st, step)) && !WorkerStep(st, step).panicked
  {
    var k := step.k;
    SharesCover(st.workers, k);
    SharesUpdate(st.workers, k, WorkerStep(st, step).workers[k]);
  }

  lemma HandConserves(st: State, k: nat)
    requires Conserved(st) && Enabled(st, Hand(k))
    ensures Conserved(WorkerStep(st, Hand(k)))
  {
    MoveInHand(st.workers, k, Wrote);
  }

  // The other moves of a worker hand nothing on.
  lemma QuietConserves(st: State, st': State, k: nat, w: Worker)
    requires Conserved(st) && k < |st.workers| && !st.workers[k].Writing? && !w.Writing?
    requires st'.workers == st.workers[k := w] && st'.mu == st.mu && st'.acked == st.acked && st'.queue == st.queue
    requires st'.accepted == st.accepted && st'.taken == st.taken && st'.handed == st.handed
    ensures Conserved(st')
  {
    MoveInHand(st.workers, k, w);
  }

  lemma WorkerConserves(st: State, step: Step)
    requires Counted(st) && Conserved(st) && Enabled(st, step)
    requires step.Receive? || step.Hand? || step.Finish? || step.EndRange? || step.Exit?
    ensures Conserved(WorkerStep(st, step))
  {
    WorkerCounts(st, step);
    match step
    case Receive(k) => ReceiveConserves(st, k);
    case Hand(k) => HandConserves(st, k);
    case Finish(k) => QuietConserves(st, WorkerStep(st, step), k, Ready);
    case EndRange(k) => QuietConserves(st, WorkerStep(st, step), k, Leaving);
    case Exit(k) => QuietConserves(st, WorkerStep(st, step), k, Exited);
  }

  // A worker ends its range only on a closed and empty channel.
  lemma WorkerKeepsPlaces(st: State, step: Step)
    requires Inv(st) && Enabled(st, step)
    requires step.Receive? || step.Hand? || step.Finish? || step.EndRange? || step.Exit?
    ensures var st' := WorkerStep(st, step);
            Closing(st') && WriterAllowed(st') && WorkersAllowed(st') && |st'.queue| <= st'.capacity
  {
    WorkerCounts(st, step);
    var st' := WorkerStep(st, step);
    assert forall j :: 0 <= j < |st.workers| && j != step.k ==> st'.workers[j] == st.workers[j];
  }

  lemma WorkerKeepsInv(st: State, step: Step)
    requires Inv(st) && Enabled(st, step)
    requires step.Receive? || step.Hand? || step.Finish? || step.EndRange? || step.Exit?
    ensures Inv(WorkerStep(st, step))
  {
    WorkerCounts(st, step);
    WorkerConserves(st, step);
    WorkerKeepsPlaces(st, step);
  }

  // Setting closed, closing the channel and waiting move no entry.
  lemma ShutdownConserves(st: State, step: Step)
    requires Inv(st) && Enabled(st, step)
    requires step.Begin? || step.LockToClose? || step.SetClosed? || step.CloseChan? || step.UnlockClosed? ||
             step.Join? || step.Wake? || step.ReturnNil? || step.TimeOut?
    ensures Conserved(ShutdownStep(st, step)) && Counted(ShutdownStep(st, step)) && !ShutdownStep(st, step).panicked
  {
  }

  lemma ShutdownKeepsPlaces(st: State, step: Step)
    requires Inv(st) && Enabled(st, step)
    requires step.Begin? || step.LockToClose? || step.SetClosed? || step.CloseChan? || step.UnlockClosed? ||
             step.Join? || step.Wake? || step.ReturnNil? || step.TimeOut?
    ensures var st' := ShutdownStep(st, step); Closing(st') && WriterAllowed(st') && WorkersAllowed(st')
  {
  }

  lemma ShutdownKeepsCallers(st: State, step: Step)
    requires Inv(st) && Enabled(st, step)
    requires step.Begin? || step.LockToClose? || step.SetClosed? || step.CloseChan? || step.UnlockClosed? ||
             step.Join? || step.Wake? || step.ReturnNil? || step.TimeOut?
    ensures CallersAllowed(ShutdownStep(st, step))
  {
  }

  lemma ShutdownKeepsInv(st: State, step: Step)
    requires Inv(st) && Enabled(st, step)
    requires step.Begin? || step.LockToClose? || step.SetClosed? || step.CloseChan? || step.UnlockClosed? ||
             step.Join? || step.Wake? || step.ReturnNil? || step.TimeOut?
    ensures Inv(ShutdownStep(st, step))
  {
    ShutdownConserves(st, step);
    ShutdownKeepsPlaces(st, step);
    ShutdownKeepsCallers(st, step);
  }

  lemma StepKeepsInv(st: State, step: Step)
    requires Inv(st) && Enabled(st, step)
    ensures Inv(Next(st, step))
  {
    match step
    case Lock(_) => WriterKeepsInv(st, step);
    case Check => WriterKeepsInv(st, step);
    case Add => WriterKeepsInv(st, step);
    case Send => WriterKeepsInv(st, step);
    case Drop => WriterKeepsInv(st, step);
    case Unlock => WriterKeepsInv(st, step);
    case Receive(_) => WorkerKeepsInv(st, step);
    case Hand(_) => WorkerKeepsInv(st, step);
    case Finish(_) => WorkerKeepsInv(st, step);
    case EndRange(_) => WorkerKeepsInv(st, step);
    case Exit(_) => WorkerKeepsInv(st, step);
    case _ => ShutdownKeepsInv(st, step);
  }

  // Over whole runs ------------------------------------------------------------------------

  ghost predicate IsRun(ss: seq<State>, steps: seq<Step>, buffer: int, workers: int) {
    && |ss| == |steps| + 1
    && ss[0] == New(buffer, workers)
    && forall i: nat {:trigger steps[i]} :: i < |steps| ==> Enabled(ss[i], steps[i]) && ss[i + 1] == Next(ss[i], steps[i])
  }

  lemma {:induction false} RunKeepsInv(ss: seq<State>, steps: seq<Step>, buffer: int, workers: int, i: nat)
    requires IsRun(ss, steps, buffer, workers) && i < |ss|
    ensures Inv(ss[i])
  {
    if i == 0 {
      NewIsOk(buffer, workers);
    } else {
      RunKeepsInv(ss, steps, buffer, workers, i - 1);
      assert ss[i] == Next(ss[i - 1], steps[i - 1]);
      StepKeepsInv(ss[i - 1], steps[i - 1]);
    }
  }

  lemma {:induction false} AllExited(ws: seq<Worker>, e: Entry)
    requires Shares(ws) == 0
    ensures AllInHand(ws, e) == 0
    ensures forall k :: 0 <= k < |ws| ==> ws[k].Exited?
  {
    if ws != [] {
      AllExited(ws[..|ws| - 1], e);
    }
  }

  // A count of zero: nothing is queued or in hand and every worker has left.
  lemma ZeroMeansFlushed(st: State)
    requires Inv(st) && st.count == 0
    ensures st.queue == [] && forall k :: 0 <= k < |st.workers| ==> st.workers[k].Exited?
    ensures multiset(st.handed) == multiset(st.accepted)
  {
    forall e: Entry ensures multiset(st.handed)[e] == multiset(st.accepted)[e] {
      AllExited(st.workers, e);
      assert st.accepted == st.taken;
    }
    AllExited(st.workers, 0);
  }

  // In every interleaving: once a Shutdown call has returned nil, every entry whose
  // Write returned nil was handed to the underlying repository, each exactly as often
  // as it was accepted, and no more are.
  lemma ShutdownFlushes(ss: seq<State>, steps: seq<Step>, buffer: int, workers: int, i: nat, s: nat)
    requires IsRun(ss, steps, buffer, workers) && i < |ss| && CallerIs(ss[i], s, Returned(true))
    ensures multiset(ss[i].handed) == multiset(ss[i].accepted) == ss[i].acked
    ensures ss[i].queue == [] && ss[i].closed
  {
    RunKeepsInv(ss, steps, buffer, workers, i);
    ZeroMeansFlushed(ss[i]);
  }

  // In every interleaving the writer panics nowhere: no send and no close meets a
  // closed channel and the WaitGroup never goes below zero. Its count is always the
  // live workers, the queued entries, those in process and a writer mid-send.
  lemma NeverPanics(ss: seq<State>, steps: seq<Step>, buffer: int, workers: int, i: nat)
    requires IsRun(ss, steps, buffer, workers) && i < |ss|
    ensures !ss[i].panicked
    ensures ss[i].count == Shares(ss[i].workers) + |ss[i].queue| + MidSend(ss[i].mu)
    ensures MidSend(ss[i].mu) > 0 ==> !ss[i].closed
  {
    RunKeepsInv(ss, steps, buffer, workers, i);
  }

  // One Write call ---------------------------------------------------------------------------

  // The steps from i on before t are those of one Write call and of whoever runs beside
  // it: it locked at i and has not unlocked.
  ghost predicate Holds(steps: seq<Step>, i: nat, t: nat, e: Entry) {
    && i < t <= |steps| && steps[i] == Lock(e)
    && forall k: nat {:trigger steps[k]} :: i < k < t ==> steps[k] != Unlock
  }

  // The call found room when it came to send.
  ghost predicate SentWithRoom(ss: seq<State>, steps: seq<Step>, i: nat, t: nat) {
    exists k: nat {:trigger steps[k]} :: i < k < t <= |steps| < |ss| && steps[k] == Send && |ss[k].queue| < ss[k].capacity
  }

  // What is known of the call before step t: where it is, that nobody closed the writer or
  // sent meanwhile, and how it came there.
  ghost predicate CallSoFar(before: State, st: State, e: Entry, room: bool) {
    && st.mu.Writer? && st.mu.entry == e
    && st.closed == before.closed && st.capacity == before.capacity && st.acked == before.acked
    && st.accepted == before.accepted + (if st.mu.at.Sent? then [e] else [])
    && (st.mu.at.Sent? <==> room)
    && (st.mu.at.Refused? ==> before.closed)
    && (!st.mu.at.Refused? && !st.mu.at.Checking? ==> !before.closed)
    && (st.mu.at.Checking? || st.mu.at.Adding? || st.mu.at.Sending? ==> |st.queue| <= |before.queue|)
    && (st.mu.at.Full? || st.mu.at.Dropped? ==> before.capacity <= |before.queue|)
  }

  lemma CallWrites(before: State, st: State, step: Step, e: Entry, room: bool)
    requires Inv(st) && Enabled(st, step) && CallSoFar(before, st, e, room) && (step.Check? || step.Add? || step.Send? || step.Drop?)
    ensures CallSoFar(before, WriterStep(st, step), e, room || (step == Send && |st.queue| < st.capacity))
  {
    assert before.accepted + [] == before.accepted;
  }

  // Whoever runs beside it sends nothing and closes nothing.
  lemma CallWaits(before: State, st: State, step: Step, e: Entry, room: bool)
    requires Enabled(st, step) && CallSoFar(before, st, e, room)
    requires !step.Lock? && !step.Check? && !step.Add? && !step.Send? && !step.Drop? && !step.Unlock?
    ensures CallSoFar(before, Next(st, step), e, room)
  {
  }

  lemma CallGoesOn(before: State, st: State, step: Step, e: Entry, room: bool)
    requires Inv(st) && Enabled(st, step) && step != Unlock && CallSoFar(before, st, e, room)
    ensures CallSoFar(before, Next(st, step), e, room || (step == Send && |st.queue| < st.capacity))
  {
    if step.Check? || step.Add? || step.Send? || step.Drop? {
      CallWrites(before, st, step, e, room);
    } else {
      CallWaits(before, st, step, e, room);
    }
  }

  lemma {:induction false} CallIsFollowed(ss: seq<State>, steps: seq<Step>, buffer: int, workers: int, i: nat, t: nat, e: Entry)
    requires IsRun(ss, steps, buffer, workers) && Holds(steps, i, t, e)
    ensures CallSoFar(ss[i], ss[t], e, SentWithRoom(ss, steps, i, t))
  {
    if t == i + 1 {
      assert ss[t] == Next(ss[i], steps[i]);
    } else {
      var k := t - 1;
      CallIsFollowed(ss, steps, buffer, workers, i, k, e);
      RunKeepsInv(ss, steps, buffer, workers, k);
      assert ss[t] == Next(ss[k], steps[k]) && steps[k] != Unlock;
      CallGoesOn(ss[i], ss[k], steps[k], e, SentWithRoom(ss, steps, i, k));
    }
  }

  // In every interleaving a Write call ends in one of two ways: it returns nil, having put
  // its entry on the queue once, or it returns an error and left everything as it was. It
  // returns nil exactly when there was room as it came to send; always when it found the
  // writer open with room as it locked, never when it found it closed.
  lemma WriteOutcome(ss: seq<State>, steps: seq<Step>, buffer: int, workers: int, i: nat, j: nat, e: Entry)
    requires IsRun(ss, steps, buffer, workers) && j < |steps| && Holds(steps, i, j, e) && steps[j] == Unlock
    ensures ss[j + 1].mu.Free?
    ensures SentWithRoom(ss, steps, i, j) ==>
              ss[j + 1].acked == ss[i].acked + multiset{e} && ss[j + 1].accepted == ss[i].accepted + [e]
    ensures !SentWithRoom(ss, steps, i, j) ==> ss[j + 1].acked == ss[i].acked && ss[j + 1].accepted == ss[i].accepted
    ensures !ss[i].closed && |ss[i].queue| < ss[i].capacity ==> SentWithRoom(ss, steps, i, j)
    ensures ss[i].closed ==> !SentWithRoom(ss, steps, i, j)
  {
    CallIsFollowed(ss, steps, buffer, workers, i, j, e);
    assert Enabled(ss[j], steps[j]) && ss[j + 1] == Next(ss[j], steps[j]);
  }

  // Once it is closed, the queue drains ---------------------------------------------------

  // Worker steps still to come.
  function Effort(w: Worker): nat {
    match w
    case Exited => 0
    case Leaving => 1
    case Ready => 2
    case Wrote => 3
    case Writing(_) => 4
  }

  function Efforts(ws: seq<Worker>): nat {
    if ws == [] then 0 else Efforts(ws[..|ws| - 1]) + Effort(ws[|ws| - 1])
  }

  function Remaining(st: State): nat {
    4 * |st.queue| + Efforts(st.workers)
  }

  lemma {:induction false} EffortsUpdate(ws: seq<Worker>, k: nat, w: Worker)
    requires k < |ws|
    ensures Efforts(ws[k := w]) == Efforts(ws) - Effort(ws[k]) + Effort(w)
  {
    var last := |ws| - 1;
    if k < last {
      EffortsUpdate(ws[..last], k, w);
      assert ws[k := w][..last] == ws[..last][k := w];
    } else {
      assert ws[k := w][..last] == ws[..last];
    }
  }

  // Every worker step brings the end nearer.
  lemma WorkerProgress(st: State, step: Step)
    requires Inv(st) && Enabled(st, step)
    requires step.Receive? || step.Hand? || step.Finish? || step.EndRange? || step.Exit?
    ensures Remaining(Next(st, step)) < Remaining(st)
  {
    WorkerCounts(st, step);
    EffortsUpdate(st.workers, step.k, WorkerStep(st, step).workers[step.k]);
  }

  // The step a live worker of a closed writer can take.
  function NextOf(st: State, k: nat): Step
    requires k < |st.workers|
  {
    match st.workers[k]
    case Writing(_) => Hand(k)
    case Wrote => Finish(k)
    case Leaving => Exit(k)
    case _ => if st.queue == [] then EndRange(k) else Receive(k)
  }

  // While the WaitGroup of a closed writer is up, some worker is live.
  lemma PendingIsLive(st: State)
    requires Inv(st) && st.chanClosed && st.count > 0
    ensures Shares(st.workers) > 0
  {
    var w := st.workers[0];
    if Shares(st.workers) == 0 {
      AllExited(st.workers, 0);
    }
  }

  // No deadlock: after the close, while the WaitGroup holds a Shutdown call back some
  // worker can go on.
  lemma ClosedDrains(st: State)
    requires Inv(st) && st.chanClosed && st.count > 0
    ensures exists k: nat :: k < |st.workers| && Enabled(st, NextOf(st, k))
  {
    PendingIsLive(st);
    var k := LiveWorker(st.workers);
    assert Enabled(st, NextOf(st, k));
  }

  lemma {:induction false} LiveWorker(ws: seq<Worker>) returns (k: nat)
    requires Shares(ws) > 0
    ensures k < |ws| && !ws[k].Exited?
  {
    k := |ws| - 1;
    if ws[k].Exited? {
      k := LiveWorker(ws[..k]);
    }
  }
}
