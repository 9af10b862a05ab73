/** SVSyncCore: merging, suppression record, optimistic worker results, local publication. */
module SyncCore {
  import opened Names
  import opened StateVector
  import opened Merge

  /**
   * Everything a handler of the core reads or writes. `reports` collects the ranges handed to
   * the update callback, `raised` the ranges opened by updateSeqNo, `sent` the vectors put into
   * outgoing Sync Interests.
   */
  datatype Core = Core(vv: Vector, generation: nat, recorded: Option<Vector>, initialized: bool,
                       reports: seq<Range>, raised: seq<Range>, sent: seq<Vector>)

  /** A snapshot handed to a worker together with the remote vector it has to merge. */
  datatype Job = Job(remote: Vector, local: Vector, generation: nat)

  const INITIAL := Core(map[], 0, None, false, [], [], [])

  // ---------- handlers as functions of the state ----------

  ghost function Install(c: Core, m: MergeResult): Core {
    c.(vv := m.merged, generation := c.generation + if m.otherNew then 1 else 0)
  }

  /** After the merge: record while suppressed, reset the timer if not behind, else enter suppression. */
  ghost function React(c: Core, remote: Vector, m: MergeResult): Core {
    var c := c.(reports := c.reports + m.missing);
    if c.recorded.Some? then c.(recorded := Some(Join(c.recorded.value, remote)))
    else if !m.myNew then c
    else c.(recorded := Some(remote))
  }

  ghost function ReceiveSerial(c: Core, remote: Vector): Core {
    var m := ComputeMerge(c.vv, remote);
    React(Install(c, m), remote, m)
  }

  ghost function ReceiveResult(c: Core, job: Job): Core {
    if c.generation != job.generation then ReceiveSerial(c, job.remote)
    else
      var m := ComputeMerge(job.local, job.remote);
      React(Install(c, m), job.remote, m)
  }

  ghost function Send(c: Core): Core {
    if c.initialized then c.(sent := c.sent + [c.vv]) else c
  }

  /** retxSyncInterest(true, 0): the merge with the record keeps its missing list to itself. */
  ghost function TimerFires(c: Core): Core {
    if c.recorded.None? then Send(c)
    else
      var m := ComputeMerge(c.vv, c.recorded.value);
      var d := Install(c, m).(recorded := None);
      if m.myNew then Send(d) else d
  }

  ghost function PublicationSync(c: Core): Core {
    Send(c.(recorded := None))
  }

  ghost function UpdateSeqNo(c: Core, n: Name, b: uint64, s: uint64, batched: bool): Core {
    if s == 0 then c
    else
      var prev := Get(c.vv, n, b);
      if s <= prev then c.(vv := Put(c.vv, n, b, s))
      else
        var d := c.(vv := Put(c.vv, n, b, s), generation := c.generation + 1,
                    raised := c.raised + [Range(n, prev + 1, s, b)]);
        if batched then d else PublicationSync(d)
  }

  // ---------- the class ----------

  class SVSyncCore {
    var vv: Vector
    var stateGeneration: nat
    var recordedVv: Option<Vector>
    var initialized: bool
    ghost var reports: seq<Range>
    ghost var raised: seq<Range>
    ghost var sent: seq<Vector>

    ghost function State(): Core
      reads this
    {
      Core(vv, stateGeneration, recordedVv, initialized, reports, raised, sent)
    }

    constructor ()
      ensures State() == INITIAL
    {
      vv, stateGeneration, recordedVv, initialized := map[], 0, None, false;
      reports, raised, sent := [], [], [];
    }

    method InstallResult(m: MergeResult)
      modifies this`vv, this`stateGeneration
      ensures State() == Install(old(State()), m)
    {
      vv := m.merged;
      if m.otherNew { stateGeneration := stateGeneration + 1; }
    }

    method MergeStateVector(other: Vector) returns (m: MergeResult)
      modifies this`vv, this`stateGeneration
      ensures m == ComputeMerge(old(vv), other)
      ensures State() == Install(old(State()), m)
    {
      m := ComputeMergeStateVector(vv, other);
      InstallResult(m);
    }

    method RecordVector(other: Vector) returns (suppressed: bool)
      modifies this`recordedVv
      ensures suppressed == old(recordedVv).Some?
      ensures State() == if suppressed
                         then old(State()).(recorded := Some(Join(old(recordedVv).value, other)))
                         else old(State())
    {
      if recordedVv.None? { return false; }
      var joined, _ := MergeLoop(recordedVv.value, other);
      recordedVv := Some(joined);
      return true;
    }

    method EnterSuppressionState(other: Vector)
      modifies this`recordedVv
      ensures State()
           == if old(recordedVv).None? then old(State()).(recorded := Some(other)) else old(State())
    {
      if recordedVv.None? {
        recordedVv := Some(other);
      }
    }

    method AfterMerge(other: Vector, m: MergeResult)
      modifies this`recordedVv, this`reports
      ensures State() == React(old(State()), other, m)
    {
      reports := reports + m.missing;
      var suppressed := RecordVector(other);
      if !suppressed && m.myNew { EnterSuppressionState(other); }
    }

    method OnSyncInterestValidatedSerial(other: Vector)
      modifies this
      ensures State() == ReceiveSerial(old(State()), other)
    {
      var m := MergeStateVector(other);
      AfterMerge(other, m);
    }

    method CaptureJob(other: Vector) returns (job: Job)
      ensures job == Job(other, vv, stateGeneration)
    {
      job := Job(other, vv, stateGeneration);
    }

    /** The posted result of a worker that merged `job` on its own snapshot. */
    method ProcessSyncInterestResult(job: Job, m: MergeResult)
      requires m == ComputeMerge(job.local, job.remote)
      modifies this
      ensures State() == ReceiveResult(old(State()), job)
    {
      if stateGeneration != job.generation {
        OnSyncInterestValidatedSerial(job.remote);
        return;
      }
      InstallResult(m);
      AfterMerge(job.remote, m);
    }

    method SendSyncInterest()
      modifies this`sent
      ensures State() == Send(old(State()))
    {
      if initialized { sent := sent + [vv]; }
    }

    method RetxSyncInterest()
      modifies this
      ensures State() == TimerFires(old(State()))
    {
      var send := true;
      if recordedVv.Some? {
        var m := MergeStateVector(recordedVv.value);
        send := m.myNew;
      }
      if send { SendSyncInterest(); }
      recordedVv := None;
    }

    method SendInitialInterest()
      modifies this
      ensures State() == TimerFires(old(State()).(initialized := true))
    {
      initialized := true;
      RetxSyncInterest();
    }

    method SendLocalPublicationSyncInterest()
      modifies this
      ensures State() == PublicationSync(old(State()))
    {
      recordedVv := None;
      SendSyncInterest();
    }

    /** Sequence number 0 makes `set` throw before anything changes. */
    method Update(n: Name, b: uint64, s: uint64, batched: bool) returns (ok: bool)
      modifies this
      ensures ok == (s != 0)
      ensures State() == UpdateSeqNo(old(State()), n, b, s, batched)
    {
      if s == 0 { return false; }
      var prev := Get(vv, n, b);
      vv := Put(vv, n, b, s);
      if s > prev {
        stateGeneration := stateGeneration + 1;
        raised := raised + [Range(n, prev + 1, s, b)];
        if !batched { SendLocalPublicationSyncInterest(); }
      }
      return true;
    }
  }
}
