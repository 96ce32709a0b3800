/**
 The capture that turns a multi-partition scan into one cache entry.

 Each partition's job streams its batches into the shared capture and completes
 its partition at the end of the stream. The last completion decides whether the
 whole result is stored, in memory, on disk, in both, or not at all.
 */
module ScanCapture {
  import opened Wrappers

  datatype Batch = Batch(rows: seq<int>, bytes: nat)

  datatype Control = Control(policy: nat)

  datatype Outcome = NoWork | Scanned(control: Option<Control>)

  /** The cache's live limits. */
  datatype Limits = Limits(maxEntryBytes: nat, maxTotalBytes: nat, maxEntries: nat)

  /** Until when a result is fresh, as seen while it is being committed. */
  datatype Freshness = Refused | Until(immediatelyStale: bool, expired: bool, remaining: bool)

  /** What the surroundings decide while the last partition completes. */
  datatype Surroundings = Surroundings(freshness: Freshness, diskCommits: bool, limits: Limits)

  datatype State = State(
    partitions: seq<seq<Batch>>,
    outcomes: seq<Option<Outcome>>,
    started: seq<bool>,
    memoryBytes: nat,
    memoryAbandoned: bool,
    disk: Option<seq<seq<Batch>>>,
    diskStarted: bool,
    aborted: bool,
    committed: bool,
    memoryEntry: Option<seq<Batch>>,
    diskEntry: Option<seq<seq<Batch>>>,
    flight: Option<bool>)

  const USIZE_MAX: nat := 0xFFFF_FFFF_FFFF_FFFF

  function Saturate(n: nat): nat {
    if n > USIZE_MAX then USIZE_MAX else n
  }

  function Concat(parts: seq<seq<Batch>>): seq<Batch> {
    if parts == [] then [] else parts[0] + Concat(parts[1..])
  }

  function Empties(n: nat): seq<seq<Batch>> {
    seq(n, _ => [])
  }

  function Initial(n: nat, memoryEntry: Option<seq<Batch>>, diskEntry: Option<seq<seq<Batch>>>): State {
    State(Empties(n), seq(n, _ => None), seq(n, _ => false), 0, false, None, false, false, false, memoryEntry, diskEntry, None)
  }

  predicate Shaped(s: State, n: nat) {
    |s.partitions| == |s.outcomes| == |s.started| == n && (s.disk.Some? ==> |s.disk.value| == n)
  }

  predicate Closed(s: State) {
    s.aborted || s.committed
  }

  // ---------------------------------------------------------------------
  // What each operation does

  function Clear(s: State): State {
    s.(partitions := Empties(|s.partitions|), disk := None, aborted := true)
  }

  /** Only the first finish of the flight counts. */
  function Tell(s: State, stored: bool): State {
    if s.flight.None? then s.(flight := Some(stored)) else s
  }

  function Aborted(s: State): State {
    if Closed(s) then s else Tell(Clear(s), false)
  }

  function Revalidated(s: State): State {
    if Closed(s) then s else Tell(s.(disk := None, committed := true), true)
  }

  function Discarded(s: State): State {
    if Closed(s) || true in s.started then s else Clear(s)
  }

  function Started(s: State, p: nat, diskOpens: bool): State {
    var begun := if !s.diskStarted && !Closed(s) then
                    s.(diskStarted := true, disk := if diskOpens then Some(Empties(|s.partitions|)) else None)
                  else
                    s;
    if p < |s.started| then begun.(started := s.started[p := true]) else begun
  }

  function Pushed(s: State, p: nat, batch: Batch, diskWrites: bool, maxEntryBytes: nat): State
    requires Shaped(s, |s.partitions|)
  {
    if Closed(s) || p >= |s.partitions| then
      s
    else
      var disk := if s.disk.None? || !diskWrites then None else Some(s.disk.value[p := s.disk.value[p] + [batch]]);
      if s.memoryAbandoned then
        s.(disk := disk)
      else
        var bytes := Saturate(s.memoryBytes + batch.bytes);
        if bytes > maxEntryBytes then
          s.(disk := disk, memoryBytes := bytes, partitions := Empties(|s.partitions|), memoryAbandoned := true)
        else
          s.(disk := disk, memoryBytes := bytes, partitions := s.partitions[p := s.partitions[p] + [batch]])
  }

  /** The policy that all scanned partitions agree on, if they do. */
  function CompletedControl(outcomes: seq<Option<Outcome>>): Result<Control, string> {
    var controls := ScannedControls(outcomes);
    if controls == [] || controls[0].None? then
      Err("worker did not opt result into caching")
    else if exists i :: 0 <= i < |controls| && controls[i] != controls[0] then
      Err("split cache controls disagreed or were missing")
    else
      Ok(controls[0].value)
  }

  function ScannedControls(outcomes: seq<Option<Outcome>>): seq<Option<Control>> {
    if outcomes == [] then []
    else (if outcomes[0].Some? && outcomes[0].value.Scanned? then [outcomes[0].value.control] else []) + ScannedControls(outcomes[1..])
  }

  /** A completed result without a usable policy also revokes what was cached. */
  function RefusedCompletion(s: State): State {
    Tell(Clear(s).(memoryEntry := None), false)
  }

  /** The freshness policy refuses the result. */
  function RefusedFreshness(s: State): State {
    Tell(s.(aborted := true, disk := None, memoryEntry := None), false)
  }

  /** The disk tier takes the result and it has not expired meanwhile. */
  predicate DiskKept(s: State, around: Surroundings)
    requires around.freshness.Until?
  {
    s.disk.Some? && around.diskCommits && (around.freshness.immediatelyStale || !around.freshness.expired)
  }

  /** The memory tier takes the result. */
  predicate MemoryKept(s: State, around: Surroundings)
    requires around.freshness.Until?
  {
    && (around.freshness.immediatelyStale || around.freshness.remaining)
    && !s.memoryAbandoned && around.limits.maxEntries > 0
    && s.memoryBytes <= around.limits.maxEntryBytes && s.memoryBytes <= around.limits.maxTotalBytes
  }

  function DiskCommitted(s: State, around: Surroundings): State
    requires around.freshness.Until?
  {
    s.(disk := None,
       diskEntry := if DiskKept(s, around) then s.disk else if s.disk.Some? && around.diskCommits then None else s.diskEntry)
  }

  function Stored(s: State, around: Surroundings): State
    requires around.freshness.Until?
  {
    var s' := DiskCommitted(s, around);
    var s'' := if MemoryKept(s, around) then s'.(memoryEntry := Some(Concat(s.partitions))) else s';
    if MemoryKept(s, around) || DiskKept(s, around) then Tell(s''.(committed := true), true) else Tell(s''.(aborted := true), false)
  }

  function Completed(s: State, p: nat, outcome: Outcome, around: Surroundings): State
    requires Shaped(s, |s.partitions|)
  {
    if Closed(s) || p >= |s.partitions| || s.outcomes[p].Some? then
      s
    else
      var s' := s.(outcomes := s.outcomes[p := Some(outcome)]);
      if None in s'.outcomes then s'
      else if CompletedControl(s'.outcomes).Err? then RefusedCompletion(s')
      else if around.freshness.Refused? then RefusedFreshness(s')
      else Stored(s', around)
  }

  // ---------------------------------------------------------------------
  // The capture's methods

  class ScanCacheCapture {
    var partitions: seq<seq<Batch>>
    var outcomes: seq<Option<Outcome>>
    var started: seq<bool>
    var memoryBytes: nat
    var memoryAbandoned: bool
    var disk: Option<seq<seq<Batch>>>
    var diskStarted: bool
    var aborted: bool
    var committed: bool
    /** The cache tiers' entries for this capture's key. */
    var memoryEntry: Option<seq<Batch>>
    var diskEntry: Option<seq<seq<Batch>>>
    /** What the followers of this scan were told: stored, or aborted. */
    var flight: Option<bool>

    ghost function Value(): State
      reads this
    {
      State(partitions, outcomes, started, memoryBytes, memoryAbandoned, disk, diskStarted, aborted, committed,
            memoryEntry, diskEntry, flight)
    }

    ghost predicate Valid()
      reads this
    {
      Shaped(Value(), |partitions|)
    }

    constructor (n: nat, memoryEntry: Option<seq<Batch>>, diskEntry: Option<seq<seq<Batch>>>)
      ensures Valid() && Value() == Initial(n, memoryEntry, diskEntry)
    {
      partitions, outcomes, started := seq(n, _ => []), seq(n, _ => None), seq(n, _ => false);
      memoryBytes, memoryAbandoned, disk, diskStarted := 0, false, None, false;
      aborted, committed, flight := false, false, None;
      this.memoryEntry, this.diskEntry := memoryEntry, diskEntry;
      new;
      assert partitions == Empties(n);
    }

    method FinishFlight(stored: bool)
      modifies this`flight
      ensures Value() == Tell(old(Value()), stored)
    {
      if flight.None? {
        flight := Some(stored);
      }
    }

    method ClearPartitions()
      modifies this`partitions
      ensures Value() == old(Value()).(partitions := Empties(|partitions|)) && |partitions| == old(|partitions|)
    {
      partitions := seq(|partitions|, _ => []);
      assert partitions == Empties(|partitions|);
    }

    method Abort()
      requires Valid()
      modifies this
      ensures Valid() && Value() == Aborted(old(Value()))
    {
      if !aborted && !committed {
        aborted := true;
        ClearPartitions();
        disk := None;
        FinishFlight(false);
      }
    }

    method Revalidate()
      requires Valid()
      modifies this
      ensures Valid() && Value() == Revalidated(old(Value()))
    {
      if aborted || committed {
        return;
      }
      disk := None;
      committed := true;
      FinishFlight(true);
    }

    method DiscardUnstarted()
      requires Valid()
      modifies this
      ensures Valid() && Value() == Discarded(old(Value()))
    {
      if aborted || committed || true in started {
        return;
      }
      aborted := true;
      ClearPartitions();
      disk := None;
    }

    method Start(p: nat, diskOpens: bool)
      requires Valid()
      modifies this
      ensures Valid() && Value() == Started(old(Value()), p, diskOpens)
    {
      if !diskStarted && !aborted && !committed {
        diskStarted := true;
        disk := if diskOpens then Some(Empties(|partitions|)) else None;
      }
      if p < |started| {
        started := started[p := true];
      }
    }

    method PushBatch(p: nat, batch: Batch, diskWrites: bool, maxEntryBytes: nat)
      requires Valid()
      modifies this
      ensures Valid() && Value() == Pushed(old(Value()), p, batch, diskWrites, maxEntryBytes)
    {
      if aborted || committed || p >= |partitions| {
        return;
      }
      if disk.Some? {
        disk := if diskWrites then Some(disk.value[p := disk.value[p] + [batch]]) else None;
      }
      if memoryAbandoned {
        return;
      }
      memoryBytes := Saturate(memoryBytes + batch.bytes);
      if memoryBytes > maxEntryBytes {
        ClearPartitions();
        memoryAbandoned := true;
        return;
      }
      partitions := partitions[p := partitions[p] + [batch]];
    }

    method RefuseCompleted()
      requires Valid()
      modifies this
      ensures Valid() && Value() == RefusedCompletion(old(Value()))
    {
      aborted := true;
      ClearPartitions();
      memoryEntry := None;
      disk := None;
      FinishFlight(false);
    }

    method Complete(p: nat, outcome: Outcome, around: Surroundings)
      requires Valid()
      modifies this
      ensures Valid() && Value() == Completed(old(Value()), p, outcome, around)
    {
      if aborted || committed || p >= |partitions| || outcomes[p].Some? {
        return;
      }
      outcomes := outcomes[p := Some(outcome)];
      if None in outcomes {
        return;
      }
      if CompletedControl(outcomes).Err? {
        RefuseCompleted();
        return;
      }
      if around.freshness.Refused? {
        aborted := true;
        memoryEntry := None;
        disk := None;
        FinishFlight(false);
        return;
      }
      Store(around);
    }

    /** Publish the disk capture; one that expired meanwhile is reaped at once. */
    method CommitDisk(around: Surroundings) returns (kept: bool)
      requires Valid() && around.freshness.Until?
      modifies this`disk, this`diskEntry
      ensures Value() == DiskCommitted(old(Value()), around)
      ensures kept == DiskKept(old(Value()), around)
    {
      kept := disk.Some? && around.diskCommits;
      if kept {
        diskEntry := disk;
      }
      disk := None;
      if !around.freshness.immediatelyStale && around.freshness.expired && kept {
        diskEntry := None;
        kept := false;
      }
    }

    method Store(around: Surroundings)
      requires Valid() && around.freshness.Until?
      modifies this
      ensures Valid() && Value() == Stored(old(Value()), around)
    {
      var batches := Concat(partitions);
      var diskStored := CommitDisk(around);
      var limits := around.limits;
      var memoryStored := (around.freshness.immediatelyStale || around.freshness.remaining) && !memoryAbandoned
        && limits.maxEntries > 0 && memoryBytes <= limits.maxEntryBytes && memoryBytes <= limits.maxTotalBytes;
      if memoryStored {
        memoryEntry := Some(batches);
      }
      if memoryStored || diskStored {
        committed := true;
        FinishFlight(true);
      } else {
        aborted := true;
        FinishFlight(false);
      }
    }
  }

  // ---------------------------------------------------------------------
  // The policy of a complete result

  lemma {:induction false} ScannedControlsAre(outcomes: seq<Option<Outcome>>, c: Option<Control>)
    ensures c in ScannedControls(outcomes) <==> Some(Scanned(c)) in outcomes
  {
    if outcomes != [] {
      ScannedControlsAre(outcomes[1..], c);
      assert Some(Scanned(c)) in outcomes <==> outcomes[0] == Some(Scanned(c)) || Some(Scanned(c)) in outcomes[1..];
    }
  }

  // A result has a policy exactly when some partition scanned and all that did
  // report that same policy.
  lemma CompletedControlIff(outcomes: seq<Option<Outcome>>, c: Control)
    ensures CompletedControl(outcomes) == Ok(c) <==>
      Some(Scanned(Some(c))) in outcomes && forall d :: Some(Scanned(d)) in outcomes ==> d == Some(c)
  {
    var controls := ScannedControls(outcomes);
    forall d
      ensures d in controls <==> Some(Scanned(d)) in outcomes
    {
      ScannedControlsAre(outcomes, d);
    }
    if CompletedControl(outcomes) == Ok(c) {
      assert controls[0] in controls;
      forall d | d in controls
        ensures d == Some(c)
      {
        var i :| 0 <= i < |controls| && controls[i] == d;
      }
    } else if Some(Scanned(Some(c))) in outcomes && forall d :: Some(Scanned(d)) in outcomes ==> d == Some(c) {
      assert Some(c) in controls && controls[0] in controls;
      assert forall i :: 0 <= i < |controls| ==> controls[i] in controls;
    }
  }

  // ---------------------------------------------------------------------
  // Any number of jobs, in any interleaving

  /** What a partition's worker has to deliver. */
  datatype Work = Nothing | Stream(batches: seq<Batch>, control: Option<Control>)

  datatype Job =
    | Idle
    | Streaming(pushed: nat, emitted: nat)
    | LimitReached
    | Ended(completed: bool)

  datatype System = System(capture: State, jobs: seq<Job>)

  datatype Move =
    | Begin(p: nat, diskOpens: bool)
    | SkipPartition(p: nat, around: Surroundings)
    | Deliver(p: nat, diskWrites: bool, limits: Limits)
    | FinishStream(p: nat, around: Surroundings)
    | StopAtLimit(p: nat)
    | FailOrCancel(p: nat)
    | ServeCached(p: nat)
    | Discard

  function RowsOf(batch: Batch, emitted: nat, limit: Option<nat>): Batch {
    if limit.Some? && emitted <= limit.value < emitted + |batch.rows| then
      batch.(rows := batch.rows[..limit.value - emitted])
    else
      batch
  }

  /** What a job may do next. */
  predicate JobCanMove(work: Work, limit: Option<nat>, job: Job, m: Move) {
    match m
    case Begin(_, _) => job.Idle?
    case SkipPartition(_, _) => job.Streaming? && work.Nothing?
    case Deliver(_, _, _) =>
      job.Streaming? && work.Stream? && job.pushed < |work.batches| && (limit.Some? ==> job.emitted <= limit.value)
    case FinishStream(_, _) =>
      job.Streaming? && work.Stream? && job.pushed == |work.batches| && (limit.Some? ==> job.emitted < limit.value)
    case StopAtLimit(_) =>
      job.LimitReached?
      || (job.Streaming? && work.Stream? && job.pushed == |work.batches| && limit.Some? && job.emitted >= limit.value)
    case FailOrCancel(_) => !job.Ended?
    case ServeCached(_) => job.Streaming? && job.emitted == 0
    case Discard => false
  }

  function JobAfter(work: Work, limit: Option<nat>, job: Job, m: Move): Job
    requires JobCanMove(work, limit, job, m)
  {
    match m
    case Begin(_, _) => Streaming(0, 0)
    case SkipPartition(_, _) => Ended(true)
    case Deliver(_, _, _) =>
      var emitted := job.emitted + |RowsOf(work.batches[job.pushed], job.emitted, limit).rows|;
      if limit.Some? && emitted >= limit.value then LimitReached else Streaming(job.pushed + 1, emitted)
    case FinishStream(_, _) => Ended(true)
    case _ => Ended(false)
  }

  /** What the job's move does to the capture. */
  function CaptureAfter(work: Work, limit: Option<nat>, job: Job, capture: State, m: Move): State
    requires JobCanMove(work, limit, job, m) && Shaped(capture, |capture.partitions|)
  {
    match m
    case Begin(p, diskOpens) => Started(capture, p, diskOpens)
    case SkipPartition(p, around) => Completed(capture, p, NoWork, around)
    case Deliver(p, diskWrites, limits) =>
      Pushed(capture, p, RowsOf(work.batches[job.pushed], job.emitted, limit), diskWrites, limits.maxEntryBytes)
    case FinishStream(p, around) => Completed(capture, p, Scanned(work.control), around)
    // At the limit the scan is abandoned; an empty tail is just left uncompleted.
    case StopAtLimit(p) => if job.LimitReached? then Aborted(capture) else capture
    case FailOrCancel(p) => Aborted(capture)
    case ServeCached(p) => Revalidated(capture)
    case Discard => capture
  }

  /** The capture may also be discarded when a cache tier answers the whole plan. */
  predicate CanMove(work: seq<Work>, limit: Option<nat>, s: System, m: Move) {
    m.Discard? || (m.p < |s.jobs| && |s.jobs| == |work| && JobCanMove(work[m.p], limit, s.jobs[m.p], m))
  }

  function After(work: seq<Work>, limit: Option<nat>, s: System, m: Move): System
    requires CanMove(work, limit, s, m) && Shaped(s.capture, |s.jobs|)
  {
    if m.Discard? then
      s.(capture := Discarded(s.capture))
    else
      System(CaptureAfter(work[m.p], limit, s.jobs[m.p], s.capture, m),
             s.jobs[m.p := JobAfter(work[m.p], limit, s.jobs[m.p], m)])
  }

  function Output(work: Work): seq<Batch> {
    if work.Nothing? then [] else work.batches
  }

  /** Everything that the workers have to deliver, by partition. */
  function Whole(work: seq<Work>): seq<seq<Batch>> {
    seq(|work|, p requires 0 <= p < |work| => Output(work[p]))
  }

  function ExpectedOutcome(work: Work): Outcome {
    if work.Nothing? then NoWork else Scanned(work.control)
  }

  predicate OutcomeMatches(work: Work, job: Job, outcome: Option<Outcome>) {
    if job == Ended(true) then outcome == Some(ExpectedOutcome(work)) else outcome.None?
  }

  /** What an open capture holds of a partition is what its job has pushed. */
  predicate CapturedMatches(work: Work, job: Job, captured: seq<Batch>) {
    match job
    case Idle => captured == []
    case Streaming(pushed, _) =>
      if work.Nothing? then captured == [] else pushed <= |work.batches| && captured == work.batches[..pushed]
    case LimitReached => true
    case Ended(completed) => completed ==> captured == Output(work)
  }

  ghost predicate AllCaptured(work: seq<Work>, jobs: seq<Job>, captured: seq<seq<Batch>>) {
    |jobs| == |captured| == |work| && forall p :: 0 <= p < |work| ==> CapturedMatches(work[p], jobs[p], captured[p])
  }

  ghost predicate AllOutcomes(work: seq<Work>, jobs: seq<Job>, outcomes: seq<Option<Outcome>>) {
    |jobs| == |outcomes| == |work| && forall p :: 0 <= p < |work| ==> OutcomeMatches(work[p], jobs[p], outcomes[p])
  }

  ghost predicate Open(work: seq<Work>, s: System) {
    && AllOutcomes(work, s.jobs, s.capture.outcomes)
    && (!s.capture.memoryAbandoned ==> AllCaptured(work, s.jobs, s.capture.partitions))
    && (s.capture.disk.Some? ==> AllCaptured(work, s.jobs, s.capture.disk.value))
    && (!s.capture.diskStarted ==> s.capture.disk.None? && forall p :: 0 <= p < |s.jobs| ==> s.jobs[p].Idle?)
    && s.capture.flight.None?
  }

  /** An entry is what it was before the scan, gone, or the whole result. */
  predicate NeverPartial<T(==)>(entry: Option<T>, before: Option<T>, whole: T) {
    entry == before || entry.None? || entry == Some(whole)
  }

  /** Every partition completed, some scanned, and those agree on one policy. */
  ghost predicate Agreed(work: seq<Work>) {
    exists c: Control ::
      && (exists p :: 0 <= p < |work| && work[p].Stream?)
      && forall p :: 0 <= p < |work| && work[p].Stream? ==> work[p].control == Some(c)
  }

  ghost predicate StoredWhole(work: seq<Work>, s: State) {
    && Agreed(work)
    && s.outcomes == seq(|work|, p requires 0 <= p < |work| => Some(ExpectedOutcome(work[p])))
    && (s.memoryEntry == Some(Concat(Whole(work))) || s.diskEntry == Some(Whole(work)))
  }

  ghost predicate Sound(work: seq<Work>, before: State, s: System) {
    && |s.jobs| == |work| && Shaped(s.capture, |work|)
    && !(s.capture.aborted && s.capture.committed)
    && NeverPartial(s.capture.memoryEntry, before.memoryEntry, Concat(Whole(work)))
    && NeverPartial(s.capture.diskEntry, before.diskEntry, Whole(work))
    && (!Closed(s.capture) ==> Open(work, s) && SameEntries(s.capture, before))
    && (s.capture.flight == Some(true) <==> s.capture.committed)
    && (s.capture.committed ==> SameEntries(s.capture, before) || StoredWhole(work, s.capture))
  }

  predicate SameEntries(s: State, t: State) {
    s.memoryEntry == t.memoryEntry && s.diskEntry == t.diskEntry
  }

  // ----- the last completion

  lemma AgreedControl(work: seq<Work>, outcomes: seq<Option<Outcome>>, c: Control)
    requires outcomes == seq(|work|, p requires 0 <= p < |work| => Some(ExpectedOutcome(work[p])))
    requires CompletedControl(outcomes) == Ok(c)
    ensures Agreed(work)
  {
    CompletedControlIff(outcomes, c);
    var p :| 0 <= p < |outcomes| && outcomes[p] == Some(Scanned(Some(c)));
    assert work[p].Stream?;
    forall q | 0 <= q < |work| && work[q].Stream?
      ensures work[q].control == Some(c)
    {
      assert outcomes[q] == Some(Scanned(work[q].control)) && outcomes[q] in outcomes;
    }
  }

  // The commit of a complete capture stores the whole result or nothing.
  lemma StoreIsWhole(work: seq<Work>, before: State, s: System, around: Surroundings)
    requires |s.jobs| == |work| && Shaped(s.capture, |work|) && !Closed(s.capture) && s.capture.flight.None?
    requires SameEntries(s.capture, before) && around.freshness.Until?
    requires !s.capture.memoryAbandoned ==> s.capture.partitions == Whole(work)
    requires s.capture.disk.Some? ==> s.capture.disk.value == Whole(work)
    requires Agreed(work) && s.capture.outcomes == seq(|work|, p requires 0 <= p < |work| => Some(ExpectedOutcome(work[p])))
    ensures Sound(work, before, s.(capture := Stored(s.capture, around)))
  {
  }

  lemma CompleteKeepsOpen(work: seq<Work>, before: State, s: System, p: nat, around: Surroundings)
    requires Sound(work, before, s) && !Closed(s.capture) && p < |work| && s.jobs[p].Streaming?
    requires work[p].Stream? ==> s.jobs[p].pushed == |work[p].batches|
    ensures var t := System(s.capture.(outcomes := s.capture.outcomes[p := Some(ExpectedOutcome(work[p]))]), s.jobs[p := Ended(true)]);
      Open(work, t) && Shaped(t.capture, |work|) && s.capture.outcomes[p].None?
  {
  }

  lemma CompleteKeepsSound(work: seq<Work>, before: State, s: System, p: nat, around: Surroundings)
    requires Sound(work, before, s) && p < |work| && s.jobs[p].Streaming?
    requires work[p].Stream? ==> s.jobs[p].pushed == |work[p].batches|
    ensures Sound(work, before, System(Completed(s.capture, p, ExpectedOutcome(work[p]), around), s.jobs[p := Ended(true)]))
  {
    if !Closed(s.capture) {
      CompleteKeepsOpen(work, before, s, p, around);
      var jobs := s.jobs[p := Ended(true)];
      var c := s.capture.(outcomes := s.capture.outcomes[p := Some(ExpectedOutcome(work[p]))]);
      if None !in c.outcomes {
        LastCompletion(work, c, jobs);
        if CompletedControl(c.outcomes).Ok? && around.freshness.Until? {
          AgreedControl(work, c.outcomes, CompletedControl(c.outcomes).value);
          StoreIsWhole(work, before, System(c, jobs), around);
        }
      }
    }
  }

  lemma LastCompletion(work: seq<Work>, c: State, jobs: seq<Job>)
    requires Open(work, System(c, jobs)) && Shaped(c, |work|) && None !in c.outcomes
    ensures c.outcomes == seq(|work|, p requires 0 <= p < |work| => Some(ExpectedOutcome(work[p])))
    ensures !c.memoryAbandoned ==> c.partitions == Whole(work)
    ensures c.disk.Some? ==> c.disk.value == Whole(work)
  {
  }

  lemma AgreedIsOk(work: seq<Work>, outcomes: seq<Option<Outcome>>)
    requires outcomes == seq(|work|, p requires 0 <= p < |work| => Some(ExpectedOutcome(work[p]))) && Agreed(work)
    ensures CompletedControl(outcomes).Ok?
  {
    var c: Control :|
      && (exists p :: 0 <= p < |work| && work[p].Stream?)
      && forall p :: 0 <= p < |work| && work[p].Stream? ==> work[p].control == Some(c);
    var p :| 0 <= p < |work| && work[p].Stream?;
    assert outcomes[p] == Some(Scanned(Some(c)));
    forall d | Some(Scanned(d)) in outcomes
      ensures d == Some(c)
    {
      var q :| 0 <= q < |outcomes| && outcomes[q] == Some(Scanned(d));
    }
    CompletedControlIff(outcomes, c);
  }

  // Exactly when the completion of the last partition stores the result.
  lemma LastCompletionCommitsIff(work: seq<Work>, before: State, s: System, p: nat, around: Surroundings)
    requires Sound(work, before, s) && !Closed(s.capture) && p < |work| && s.jobs[p].Streaming?
    requires work[p].Stream? ==> s.jobs[p].pushed == |work[p].batches|
    requires forall q :: 0 <= q < |work| && q != p ==> s.jobs[q] == Ended(true)
    ensures Completed(s.capture, p, ExpectedOutcome(work[p]), around).committed <==>
      Agreed(work) && around.freshness.Until? && (MemoryKept(s.capture, around) || DiskKept(s.capture, around))
  {
    CompleteKeepsOpen(work, before, s, p, around);
    var jobs := s.jobs[p := Ended(true)];
    var c := s.capture.(outcomes := s.capture.outcomes[p := Some(ExpectedOutcome(work[p]))]);
    forall q | 0 <= q < |work|
      ensures c.outcomes[q] == Some(ExpectedOutcome(work[q]))
    {
      assert OutcomeMatches(work[q], jobs[q], c.outcomes[q]);
    }
    assert None !in c.outcomes;
    LastCompletion(work, c, jobs);
    if Agreed(work) {
      AgreedIsOk(work, c.outcomes);
    }
    if CompletedControl(c.outcomes).Ok? {
      AgreedControl(work, c.outcomes, CompletedControl(c.outcomes).value);
    }
  }

  // ----- the other moves

  lemma BeginKeepsSound(work: seq<Work>, before: State, s: System, p: nat, diskOpens: bool)
    requires Sound(work, before, s) && p < |work| && s.jobs[p].Idle?
    ensures Sound(work, before, System(Started(s.capture, p, diskOpens), s.jobs[p := Streaming(0, 0)]))
  {
  }

  lemma DeliverKeepsSound(work: seq<Work>, limit: Option<nat>, before: State, s: System, m: Move)
    requires Sound(work, before, s) && m.Deliver? && CanMove(work, limit, s, m)
    ensures Sound(work, before, After(work, limit, s, m))
  {
  }

  lemma EndKeepsSound(work: seq<Work>, limit: Option<nat>, before: State, s: System, m: Move)
    requires Sound(work, before, s) && CanMove(work, limit, s, m)
    requires m.StopAtLimit? || m.FailOrCancel? || m.ServeCached? || m.Discard?
    ensures Sound(work, before, After(work, limit, s, m))
  {
  }

  lemma MoveKeepsSound(work: seq<Work>, limit: Option<nat>, before: State, s: System, m: Move)
    requires Sound(work, before, s) && CanMove(work, limit, s, m)
    ensures Sound(work, before, After(work, limit, s, m))
  {
    match m
    case Begin(p, diskOpens) => BeginKeepsSound(work, before, s, p, diskOpens);
    case SkipPartition(p, around) => CompleteKeepsSound(work, before, s, p, around);
    case Deliver(_, _, _) => DeliverKeepsSound(work, limit, before, s, m);
    case FinishStream(p, around) => CompleteKeepsSound(work, before, s, p, around);
    case _ => EndKeepsSound(work, limit, before, s, m);
  }

  // ----- whole runs

  ghost predicate IsRun(work: seq<Work>, limit: Option<nat>, run: seq<System>, moves: seq<Move>) {
    && |run| == |moves| + 1
    && run[0].capture == Initial(|work|, run[0].capture.memoryEntry, run[0].capture.diskEntry)
    && run[0].jobs == seq(|work|, _ => Idle)
    && forall i :: 0 <= i < |moves| ==>
         && Shaped(run[i].capture, |run[i].jobs|) && CanMove(work, limit, run[i], moves[i])
         && run[i + 1] == After(work, limit, run[i], moves[i])
  }

  lemma {:induction false} RunIsSound(work: seq<Work>, limit: Option<nat>, run: seq<System>, moves: seq<Move>, i: nat)
    requires IsRun(work, limit, run, moves) && i < |run|
    ensures Sound(work, run[0].capture, run[i])
    decreases i
  {
    if i == 0 {
      assert Open(work, run[0]);
    } else {
      RunIsSound(work, limit, run, moves, i - 1);
      MoveKeepsSound(work, limit, run[0].capture, run[i - 1], moves[i - 1]);
    }
  }

  /** Nothing about a closed capture that anyone can see changes any more. */
  predicate SameVerdict(s: State, t: State) {
    SameEntries(s, t) && s.aborted == t.aborted && s.committed == t.committed && (s.flight.Some? ==> s.flight == t.flight)
  }

  lemma ClosedStaysClosed(work: seq<Work>, limit: Option<nat>, s: System, m: Move)
    requires Shaped(s.capture, |s.jobs|) && CanMove(work, limit, s, m) && Closed(s.capture)
    ensures SameVerdict(s.capture, After(work, limit, s, m).capture)
  {
  }

  lemma {:induction false} VerdictIsFinal(work: seq<Work>, limit: Option<nat>, run: seq<System>, moves: seq<Move>, i: nat, j: nat)
    requires IsRun(work, limit, run, moves) && i <= j < |run| && Closed(run[i].capture)
    ensures SameVerdict(run[i].capture, run[j].capture)
    decreases j - i
  {
    if i < j {
      VerdictIsFinal(work, limit, run, moves, i, j - 1);
      ClosedStaysClosed(work, limit, run[j - 1], moves[j - 1]);
    }
  }

  // A job completes its partition only after pushing the whole stream: followers
  // are told "stored" only for the whole agreed result or an entry that was there.
  lemma FollowersGetTheWholeResult(work: seq<Work>, limit: Option<nat>, run: seq<System>, moves: seq<Move>, i: nat)
    requires IsRun(work, limit, run, moves) && i < |run| && run[i].capture.flight == Some(true)
    ensures run[i].capture.committed && !run[i].capture.aborted
    ensures SameEntries(run[i].capture, run[0].capture) || StoredWhole(work, run[i].capture)
  {
    RunIsSound(work, limit, run, moves, i);
  }

  // Whatever happens, the cache never holds a part of the result.
  lemma CacheNeverHoldsAPart(work: seq<Work>, limit: Option<nat>, run: seq<System>, moves: seq<Move>, i: nat)
    requires IsRun(work, limit, run, moves) && i < |run|
    ensures NeverPartial(run[i].capture.memoryEntry, run[0].capture.memoryEntry, Concat(Whole(work)))
    ensures NeverPartial(run[i].capture.diskEntry, run[0].capture.diskEntry, Whole(work))
  {
    RunIsSound(work, limit, run, moves, i);
  }

  // ---------------------------------------------------------------------
  // One partition's job

  function RowsIn(batches: seq<Batch>): seq<int> {
    if batches == [] then [] else RowsIn(batches[..|batches| - 1]) + batches[|batches| - 1].rows
  }

  function Limited(rows: seq<int>, limit: Option<nat>): seq<int> {
    if limit.Some? && limit.value < |rows| then rows[..limit.value] else rows
  }

  lemma {:induction false} RowsOfPrefix(batches: seq<Batch>, k: nat)
    requires k <= |batches|
    ensures RowsIn(batches[..k]) <= RowsIn(batches)
    decreases |batches|
  {
    if k < |batches| {
      var n := |batches| - 1;
      RowsOfPrefix(batches[..n], k);
      assert batches[..n][..k] == batches[..k];
    } else {
      assert batches[..k] == batches;
    }
  }

  datatype Stop = Drained | Stopped | Failed

  /** How the world treats a job: when its worker fails or its consumer leaves, in batches. */
  datatype Fate = Fate(failsAt: Option<nat>, leavesAt: Option<nat>)

  /**
   A cold scan of one partition. All jobs share the capture, and any of the others
   may move between two steps of this one; this job never looks at it.
   */
  class ScanJob {
    const work: seq<Work>
    const limit: Option<nat>
    const p: nat
    ghost const before: State
    ghost var system: System
    /** The rows sent to the consumer. */
    var emitted: seq<int>

    ghost predicate Valid()
      reads this
    {
      p < |work| && Sound(work, before, system)
    }

    constructor (work: seq<Work>, limit: Option<nat>, p: nat, ghost before: State, ghost system: System)
      requires p < |work| && Sound(work, before, system) && system.jobs[p].Idle?
      ensures Valid() && this.system == system && emitted == []
      ensures this.work == work && this.limit == limit && this.p == p && this.before == before
    {
      this.work, this.limit, this.p, this.before, this.system, this.emitted := work, limit, p, before, system, [];
    }

    /** The other jobs move any number of times, and then this one does. */
    ghost method Move(m: Move)
      requires Valid() && !m.Discard? && m.p == p && JobCanMove(work[p], limit, system.jobs[p], m)
      modifies this`system
      ensures Valid() && system.jobs[p] == JobAfter(work[p], limit, old(system.jobs[p]), m)
    {
      var s: System :| Sound(work, before, s) && s.jobs[p] == system.jobs[p];
      MoveKeepsSound(work, limit, before, s, m);
      system := After(work, limit, s, m);
    }

    /** Take the next batch: push it, send it, and stop where the limit or the consumer says so. */
    method DeliverNext(k: nat, leaves: bool, limits: Limits) returns (done: bool)
      requires Valid() && work[p].Stream? && k < |work[p].batches| && system.jobs[p] == Streaming(k, |emitted|)
      requires emitted == RowsIn(work[p].batches[..k]) && (limit.Some? ==> |emitted| <= limit.value)
      modifies this
      ensures Valid()
      ensures done <==> leaves || (limit.Some? && limit.value <= |RowsIn(work[p].batches[..k + 1])|)
      ensures emitted == Limited(RowsIn(work[p].batches[..k + 1]), limit)
      ensures system.jobs[p] == if done then Ended(false) else Streaming(k + 1, |emitted|)
    {
      var batches := work[p].batches;
      assert batches[..k + 1][..k] == batches[..k];
      var batch := RowsOf(batches[k], |emitted|, limit);
      Move(Deliver(p, true, limits));
      emitted := emitted + batch.rows;
      if leaves {
        Move(FailOrCancel(p));
        return true;
      }
      done := limit.Some? && |emitted| >= limit.value;
      if done {
        Move(StopAtLimit(p));
      }
    }

    /** Deliver batch after batch, until the stream, the limit, the consumer or the worker ends it. */
    method DeliverAll(fate: Fate, limits: Limits) returns (stop: Stop)
      requires Valid() && work[p].Stream? && system.jobs[p] == Streaming(0, 0) && emitted == []
      modifies this
      ensures Valid()
      ensures stop == Drained || stop == Failed ==> emitted <= RowsIn(work[p].batches) && (limit.Some? ==> |emitted| <= limit.value)
      ensures stop == Drained ==> emitted == RowsIn(work[p].batches) && system.jobs[p] == Streaming(|work[p].batches|, |emitted|)
      ensures stop == Failed ==> system.jobs[p].Streaming?
      ensures stop == Stopped ==> system.jobs[p] == Ended(false) && emitted <= Limited(RowsIn(work[p].batches), limit)
      ensures stop == Stopped && fate.leavesAt.None? ==>
        limit.Some? && limit.value <= |RowsIn(work[p].batches)| && emitted == Limited(RowsIn(work[p].batches), limit)
      ensures stop == Failed ==> fate.failsAt.Some?
    {
      var batches := work[p].batches;
      for k := 0 to |batches|
        invariant Valid() && system.jobs[p] == Streaming(k, |emitted|)
        invariant emitted == RowsIn(batches[..k]) && (limit.Some? ==> |emitted| <= limit.value)
      {
        RowsOfPrefix(batches, k);
        if fate.failsAt == Some(k) {
          return Failed;
        }
        RowsOfPrefix(batches, k + 1);
        var done := DeliverNext(k, fate.leavesAt == Some(k), limits);
        if done {
          return Stopped;
        }
      }
      assert batches[..|batches|] == batches;
      stop := if fate.failsAt == Some(|batches|) then Failed else Drained;
    }

    /** Run the job to its end; only then, and only if nothing cut it short, is its partition complete. */
    method Run(fate: Fate, limits: Limits, around: Surroundings) returns (ok: bool)
      requires Valid() && system.jobs[p].Idle? && emitted == []
      modifies this
      ensures Valid() && system.jobs[p].Ended?
      ensures emitted <= Limited(RowsIn(Output(work[p])), limit)
      ensures ok && fate.leavesAt.None? ==> emitted == Limited(RowsIn(Output(work[p])), limit)
      ensures system.jobs[p].completed ==> ok && emitted == RowsIn(Output(work[p]))
      ensures ok && fate.leavesAt.None? ==>
        (system.jobs[p].completed <==> work[p].Nothing? || limit.None? || |RowsIn(work[p].batches)| < limit.value)
    {
      Move(Begin(p, true));
      if work[p].Nothing? {
        Move(SkipPartition(p, around));
        return true;
      }
      var stop := DeliverAll(fate, limits);
      ok := stop != Failed;
      if stop == Failed {
        Move(FailOrCancel(p));
      } else if stop == Drained {
        if limit.Some? && |emitted| >= limit.value {
          Move(StopAtLimit(p));
        } else {
          Move(FinishStream(p, around));
        }
      }
    }
  }
}
