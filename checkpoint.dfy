/** The checkpoint store of checkpoint.go: the migration's phase pointer, the history of phases
    left behind and the id-keyed records of work done, kept in one object that the phase drivers
    update in place and persist to a single file in the work directory.

    Left abstract: the mutex, the autosave timer, the time stamps, and JSON encoding. The file is
    a `WorkDir` object whose contents are the snapshot last written, or a marker for a missing,
    unreadable or unparsable file; each file operation's outcome is a parameter. */
module Checkpoint {
  import opened Wrappers
  import opened Iot
  import Seqs

  datatype MigrationPhase = DeviceFetch | DeviceMigrate | ConfigHistory | GatewayBinding | Complete
  {
    /** The string the phase is stored as. */
    function Name(): string
    {
      match this
      case DeviceFetch => "device_fetch"
      case DeviceMigrate => "device_migrate"
      case ConfigHistory => "config_history"
      case GatewayBinding => "gateway_binding"
      case Complete => "complete"
    }

    /** Position in the forward order of the phases. */
    function Rank(): nat
    {
      match this
      case DeviceFetch => 0
      case DeviceMigrate => 1
      case ConfigHistory => 2
      case GatewayBinding => 3
      case Complete => 4
    }
  }

  /** The arguments of the run, recorded in the checkpoint (the fields of the run configuration
      that the core reads). */
  datatype RunArgs = RunArgs(
    workDir: string,
    devicesCsvFile: string,
    configHistory: bool,
    updatePublicKeys: bool,
    skipConfig: bool)

  /** Everything the checkpoint persists. The four `struct{}`-valued maps of the source are sets. */
  datatype Snapshot = Snapshot(
    currentPhase: MigrationPhase,
    completedPhases: seq<MigrationPhase>,
    devicesFetched: map<string, CbDevice>,
    devicesMigrated: set<string>,
    configsProcessed: set<string>,
    configHistory: map<string, seq<CbConfig>>,
    gatewaysProcessed: set<string>,
    totalDevices: int,
    args: RunArgs)

  /** The state of a run that starts without a checkpoint. */
  function Fresh(args: RunArgs): (s: Snapshot)
    ensures s.currentPhase == DeviceFetch && s.completedPhases == []
    ensures s.devicesFetched == map[] && s.devicesMigrated == {} && s.configsProcessed == {}
    ensures s.configHistory == map[] && s.gatewaysProcessed == {}
  {
    Snapshot(DeviceFetch, [], map[], {}, {}, map[], {}, 0, args)
  }

  /** SetPhase's effect on the state. */
  function AfterSetPhase(s: Snapshot, p: MigrationPhase): Snapshot
  {
    s.(currentPhase := p,
       completedPhases := if s.currentPhase != p then s.completedPhases + [s.currentPhase] else s.completedPhases)
  }

  /** Complete's effect on the state: it appends "complete" itself, not the phase it leaves. */
  function AfterComplete(s: Snapshot): Snapshot
  {
    s.(currentPhase := Complete, completedPhases := s.completedPhases + [Complete])
  }

  /** Moving to a phase records the phase left behind, and only that. */
  lemma SetPhaseHistory(s: Snapshot, p: MigrationPhase, q: MigrationPhase)
    ensures AfterSetPhase(s, p).currentPhase == p
    ensures q in AfterSetPhase(s, p).completedPhases <==>
      q in s.completedPhases || (q == s.currentPhase && q != p)
  {
  }

  /** Setting the same phase twice records nothing more than setting it once. */
  lemma SetPhaseIdempotent(s: Snapshot, p: MigrationPhase)
    ensures AfterSetPhase(AfterSetPhase(s, p), p) == AfterSetPhase(s, p)
  {
  }

  /** A run that only moves forward: the history is strictly increasing in phase order and
      everything in it precedes the current phase. */
  ghost predicate Forward(s: Snapshot)
  {
    && (forall i, j :: 0 <= i < j < |s.completedPhases| ==>
          s.completedPhases[i].Rank() < s.completedPhases[j].Rank())
    && (forall i :: 0 <= i < |s.completedPhases| ==> s.completedPhases[i].Rank() < s.currentPhase.Rank())
  }

  ghost predicate NoDuplicates(phases: seq<MigrationPhase>)
  {
    forall i, j :: 0 <= i < j < |phases| ==> phases[i] != phases[j]
  }

  /** The phases visited by a sequence of SetPhase calls. */
  function SetPhases(s: Snapshot, phases: seq<MigrationPhase>): Snapshot
  {
    if |phases| == 0 then s else AfterSetPhase(SetPhases(s, phases[..|phases| - 1]), phases[|phases| - 1])
  }

  ghost predicate NonDecreasing(s: Snapshot, phases: seq<MigrationPhase>)
  {
    && (forall i :: 0 <= i < |phases| ==> s.currentPhase.Rank() <= phases[i].Rank())
    && (forall i, j :: 0 <= i < j < |phases| ==> phases[i].Rank() <= phases[j].Rank())
  }

  lemma ForwardSetPhase(s: Snapshot, p: MigrationPhase)
    requires Forward(s) && s.currentPhase.Rank() <= p.Rank()
    ensures Forward(AfterSetPhase(s, p))
  {
  }

  /** Checkpoint monotonicity: a fresh run that only ever sets phases at or after the current one,
      and then completes, never records a phase twice. */
  lemma {:induction false} ForwardRunHasNoDuplicates(args: RunArgs, phases: seq<MigrationPhase>)
    requires NonDecreasing(Fresh(args), phases)
    ensures Forward(SetPhases(Fresh(args), phases))
    ensures NoDuplicates(AfterComplete(SetPhases(Fresh(args), phases)).completedPhases)
  {
    ForwardPrefix(Fresh(args), phases);
  }

  lemma {:induction false} ForwardPrefix(s: Snapshot, phases: seq<MigrationPhase>)
    requires Forward(s) && NonDecreasing(s, phases)
    ensures Forward(SetPhases(s, phases))
    ensures |phases| > 0 ==> SetPhases(s, phases).currentPhase == phases[|phases| - 1]
    ensures |phases| == 0 ==> SetPhases(s, phases) == s
  {
    if |phases| > 0 {
      var init := phases[..|phases| - 1];
      assert NonDecreasing(s, init);
      ForwardPrefix(s, init);
      ForwardSetPhase(SetPhases(s, init), phases[|phases| - 1]);
    }
  }

  /** Complete records "complete", but not the phase it leaves: after SetPhase(gateway_binding)
      and Complete, gateway_binding is not among the completed phases. */
  lemma CompleteHistory(s: Snapshot)
    ensures AfterComplete(s).currentPhase == Complete
    ensures Complete in AfterComplete(s).completedPhases
    ensures s.currentPhase != Complete && s.currentPhase !in s.completedPhases ==>
      s.currentPhase !in AfterComplete(s).completedPhases
  {
  }

  /** What is in the checkpoint file. */
  datatype StoredFile = Missing | Unreadable(reason: string) | Unparsable(reason: string) | Stored(snapshot: Snapshot)

  /** The outcome of writing the file. Creating the work directory or encoding may fail before
      the file is touched. os.WriteFile opens the file truncating it, writes, and closes it: the
      open may fail (nothing changes), the write may stop short (the file is left holding a
      truncated text, which does not parse), or every byte may land and the close still fail. */
  datatype WriteOutcome =
    | WriteOk
    | MkdirFailed(reason: string)
    | MarshalFailed(reason: string)
    | OpenFailed(reason: string)
    | WriteFailed(reason: string, parseError: string)
    | CloseFailed(reason: string)
  {
    predicate FileWriteFailed()
    {
      OpenFailed? || WriteFailed? || CloseFailed?
    }
  }

  /** What the checkpoint file holds after a Save of `s` that had this outcome. */
  function FileAfterSave(file: StoredFile, s: Snapshot, outcome: WriteOutcome): StoredFile
  {
    match outcome
    case WriteOk => Stored(s)
    case MkdirFailed(_) => file
    case MarshalFailed(_) => file
    case OpenFailed(_) => file
    case WriteFailed(_, parseError) => Unparsable(parseError)
    case CloseFailed(_) => Stored(s)
  }

  /** A save never leaves a torn snapshot: afterwards the file holds either what it held before,
      the saved state, or text that does not parse; it holds the saved state whenever the save
      reports success. */
  lemma SaveNeverTears(file: StoredFile, s: Snapshot, outcome: WriteOutcome)
    ensures var after := FileAfterSave(file, s, outcome);
      after == file || after == Stored(s) || after.Unparsable?
    ensures outcome.WriteOk? ==> FileAfterSave(file, s, outcome) == Stored(s)
    ensures FileAfterSave(file, s, outcome).Stored? && FileAfterSave(file, s, outcome) != file ==>
      FileAfterSave(file, s, outcome) == Stored(s)
  {
  }

  /** The work directory holding migration_checkpoint.json. */
  class WorkDir {
    var file: StoredFile

    constructor (file: StoredFile)
      ensures this.file == file
    {
      this.file := file;
    }
  }

  class CheckpointState {
    var currentPhase: MigrationPhase
    var completedPhases: seq<MigrationPhase>
    var devicesFetched: map<string, CbDevice>
    var devicesMigrated: set<string>
    var configsProcessed: set<string>
    var configHistory: map<string, seq<CbConfig>>
    var gatewaysProcessed: set<string>
    var totalDevices: int
    var args: RunArgs
    /** Changed since the last successful Save. Not persisted. */
    var dirty: bool

    function State(): Snapshot
      reads this
    {
      Snapshot(currentPhase, completedPhases, devicesFetched, devicesMigrated, configsProcessed,
               configHistory, gatewaysProcessed, totalDevices, args)
    }

    /** NewCheckpointState. */
    constructor (args: RunArgs)
      ensures State() == Fresh(args) && !dirty
    {
      currentPhase := DeviceFetch;
      completedPhases := [];
      devicesFetched := map[];
      devicesMigrated := {};
      configsProcessed := {};
      configHistory := map[];
      gatewaysProcessed := {};
      totalDevices := 0;
      this.args := args;
      dirty := false;
    }

    /** The state decoded from a checkpoint file. */
    constructor Decoded(s: Snapshot)
      ensures State() == s && !dirty
    {
      currentPhase := s.currentPhase;
      completedPhases := s.completedPhases;
      devicesFetched := s.devicesFetched;
      devicesMigrated := s.devicesMigrated;
      configsProcessed := s.configsProcessed;
      configHistory := s.configHistory;
      gatewaysProcessed := s.gatewaysProcessed;
      totalDevices := s.totalDevices;
      args := s.args;
      dirty := false;
    }

    /** Save: on success the file holds this state and the state is clean; on failure the error
        is returned, the state stays dirty as it was, and the file is as the failed step left it. */
    method Save(dir: WorkDir, outcome: WriteOutcome) returns (err: Option<string>)
      modifies this, dir
      ensures State() == old(State())
      ensures dir.file == FileAfterSave(old(dir.file), State(), outcome)
      ensures err.None? <==> outcome.WriteOk?
      ensures outcome.WriteOk? ==> !dirty
      ensures !outcome.WriteOk? ==> dirty == old(dirty)
      ensures outcome.MkdirFailed? ==> err == Some("failed to create work directory: " + outcome.reason)
      ensures outcome.MarshalFailed? ==> err == Some("failed to marshal checkpoint state: " + outcome.reason)
      ensures outcome.FileWriteFailed() ==> err == Some("failed to write checkpoint file: " + outcome.reason)
    {
      match outcome
      case MkdirFailed(reason) =>
        return Some("failed to create work directory: " + reason);
      case MarshalFailed(reason) =>
        return Some("failed to marshal checkpoint state: " + reason);
      case OpenFailed(reason) =>
        return Some("failed to write checkpoint file: " + reason);
      case WriteFailed(reason, parseError) =>
        dir.file := Unparsable(parseError);
        return Some("failed to write checkpoint file: " + reason);
      case CloseFailed(reason) =>
        dir.file := Stored(State());
        return Some("failed to write checkpoint file: " + reason);
      case WriteOk =>
        dir.file := Stored(State());
        dirty := false;
        return None;
    }

    method MarkDirty()
      modifies this
      ensures State() == old(State()) && dirty
    {
      dirty := true;
    }

    /** FlushToDisk: saves only when there are unsaved changes. */
    method FlushToDisk(dir: WorkDir, outcome: WriteOutcome) returns (err: Option<string>)
      modifies this, dir
      ensures State() == old(State())
      ensures !old(dirty) ==> err.None? && dir.file == old(dir.file) && !dirty
      ensures old(dirty) && outcome.WriteOk? ==> err.None? && dir.file == Stored(State()) && !dirty
      ensures old(dirty) && !outcome.WriteOk? ==>
        err.Some? && dir.file == FileAfterSave(old(dir.file), State(), outcome) && dirty
    {
      if dirty {
        err := Save(dir, outcome);
      } else {
        err := None;
      }
    }

    /** SetPhase. A failed save ends the process (log.Fatalf); the model returns that error. */
    method SetPhase(phase: MigrationPhase, dir: WorkDir, outcome: WriteOutcome) returns (fatal: Option<string>)
      modifies this, dir
      ensures State() == AfterSetPhase(old(State()), phase)
      ensures currentPhase == phase
      ensures fatal.None? <==> outcome.WriteOk?
      ensures dir.file == FileAfterSave(old(dir.file), State(), outcome)
      ensures outcome.WriteOk? ==> !dirty
    {
      if currentPhase != phase {
        completedPhases := completedPhases + [currentPhase];
      }
      currentPhase := phase;
      fatal := Save(dir, outcome);
    }

    method AddFetchedDevice(device: CbDevice)
      modifies this
      ensures State() == old(State()).(devicesFetched := old(devicesFetched)[device.id := device])
      ensures dirty
    {
      devicesFetched := devicesFetched[device.id := device];
      MarkDirty();
    }

    method AddMigratedDevice(deviceId: string)
      modifies this
      ensures State() == old(State()).(devicesMigrated := old(devicesMigrated) + {deviceId})
      ensures dirty
    {
      devicesMigrated := devicesMigrated + {deviceId};
      MarkDirty();
    }

    method AddProcessedConfig(deviceId: string, deviceConfig: seq<CbConfig>)
      modifies this
      ensures State() == old(State()).(configsProcessed := old(configsProcessed) + {deviceId},
                                       configHistory := old(configHistory)[deviceId := deviceConfig])
      ensures dirty
    {
      configsProcessed := configsProcessed + {deviceId};
      configHistory := configHistory[deviceId := deviceConfig];
      MarkDirty();
    }

    method AddProcessedGateway(gatewayId: string)
      modifies this
      ensures State() == old(State()).(gatewaysProcessed := old(gatewaysProcessed) + {gatewayId})
      ensures dirty
    {
      gatewaysProcessed := gatewaysProcessed + {gatewayId};
      MarkDirty();
    }

    method SetTotalDevices(count: int)
      modifies this
      ensures State() == old(State()).(totalDevices := count)
      ensures dirty
    {
      totalDevices := count;
      MarkDirty();
    }

    method IsPhaseCompleted(phase: MigrationPhase) returns (completed: bool)
      ensures completed <==> phase in completedPhases
    {
      var i := 0;
      while i < |completedPhases|
        invariant 0 <= i <= |completedPhases|
        invariant phase !in completedPhases[..i]
      {
        if completedPhases[i] == phase {
          return true;
        }
        assert completedPhases[..i + 1] == completedPhases[..i] + [completedPhases[i]];
        i := i + 1;
      }
      assert completedPhases[..i] == completedPhases;
      return false;
    }

    /** The ids not yet fetched, in input order, duplicates kept. */
    method GetUnfetchedDeviceIds(deviceIds: seq<string>) returns (unfetched: seq<string>)
      ensures unfetched == Seqs.Without(deviceIds, devicesFetched.Keys)
    {
      var fetched := devicesFetched.Keys;
      unfetched := [];
      var i := 0;
      while i < |deviceIds|
        invariant 0 <= i <= |deviceIds|
        invariant unfetched == Seqs.Without(deviceIds[..i], fetched)
      {
        Seqs.FilterSnoc(deviceIds[..i], deviceIds[i], (x: string) => x !in fetched);
        assert deviceIds[..i + 1] == deviceIds[..i] + [deviceIds[i]];
        if deviceIds[i] !in fetched {
          unfetched := unfetched + [deviceIds[i]];
        }
        i := i + 1;
      }
      assert deviceIds[..i] == deviceIds;
    }

    /** The fetched devices: one record per stored entry, in map order. `ids` names the entry each
        record comes from, so every key is visited exactly once. */
    method GetFetchedDevices() returns (devices: seq<CbDevice>, ghost ids: seq<string>)
      ensures |devices| == |devicesFetched| && |ids| == |devices|
      ensures forall i, j :: 0 <= i < j < |ids| ==> ids[i] != ids[j]
      ensures forall id :: id in ids <==> id in devicesFetched
      ensures forall i :: 0 <= i < |ids| ==> ids[i] in devicesFetched && devices[i] == devicesFetched[ids[i]]
      ensures forall id :: id in devicesFetched ==> devicesFetched[id] in devices
      ensures forall d :: d in devices ==> d in devicesFetched.Values
    {
      devices := [];
      ids := [];
      var keys := devicesFetched.Keys;
      while keys != {}
        invariant keys <= devicesFetched.Keys
        invariant |devices| == |ids| && |ids| + |keys| == |devicesFetched.Keys|
        invariant forall i, j :: 0 <= i < j < |ids| ==> ids[i] != ids[j]
        invariant forall id :: id in ids <==> id in devicesFetched.Keys - keys
        invariant forall i :: 0 <= i < |ids| ==> ids[i] in devicesFetched && devices[i] == devicesFetched[ids[i]]
        decreases keys
      {
        var id :| id in keys;
        assert id !in ids;
        devices := devices + [devicesFetched[id]];
        ids := ids + [id];
        keys := keys - {id};
      }
      assert |devicesFetched.Keys| == |devicesFetched|;
      forall id | id in devicesFetched
        ensures devicesFetched[id] in devices
      {
        assert id in ids;
        var i :| 0 <= i < |ids| && ids[i] == id;
        assert devices[i] == devicesFetched[id];
      }
    }

    method GetConfigHistory() returns (history: map<string, seq<CbConfig>>)
      ensures history == configHistory
    {
      history := configHistory;
    }

    /** The gateways not yet processed: every key of the bindings map not in GatewaysProcessed,
        each exactly once, in map order. */
    method GetUnprocessedGateways(gatewayBindings: map<string, seq<CbDevice>>) returns (unprocessed: seq<string>)
      ensures forall g :: g in unprocessed <==> g in gatewayBindings && g !in gatewaysProcessed
      ensures forall i, j :: 0 <= i < j < |unprocessed| ==> unprocessed[i] != unprocessed[j]
    {
      unprocessed := [];
      var keys := gatewayBindings.Keys;
      while keys != {}
        invariant keys <= gatewayBindings.Keys
        invariant forall g :: g in unprocessed <==> g in gatewayBindings.Keys - keys && g !in gatewaysProcessed
        invariant forall i, j :: 0 <= i < j < |unprocessed| ==> unprocessed[i] != unprocessed[j]
        decreases keys
      {
        var g :| g in keys;
        if g !in gatewaysProcessed {
          unprocessed := unprocessed + [g];
        }
        keys := keys - {g};
      }
    }

    method GetRemainingDevicesForMigration(allDevices: seq<CbDevice>) returns (remaining: seq<CbDevice>)
      ensures remaining == Remaining(allDevices, devicesMigrated)
    {
      remaining := RemainingAfter(allDevices, devicesMigrated);
    }

    method GetRemainingDevicesForConfig(allDevices: seq<CbDevice>) returns (remaining: seq<CbDevice>)
      ensures remaining == Remaining(allDevices, configsProcessed)
    {
      remaining := RemainingAfter(allDevices, configsProcessed);
    }

    /** Complete: records the terminal phase, saves, and removes the file. A failed save is
        returned as the error; a failed removal only warns and leaves the saved file behind. */
    method Complete(dir: WorkDir, outcome: WriteOutcome, removed: bool) returns (err: Option<string>)
      modifies this, dir
      ensures State() == AfterComplete(old(State()))
      ensures err.None? <==> outcome.WriteOk?
      ensures outcome.WriteOk? && removed ==> dir.file == Missing
      ensures outcome.WriteOk? && !removed ==> dir.file == Stored(State())
      ensures !outcome.WriteOk? ==> dir.file == FileAfterSave(old(dir.file), State(), outcome)
      ensures outcome.WriteOk? ==> !dirty
    {
      currentPhase := MigrationPhase.Complete;
      completedPhases := completedPhases + [MigrationPhase.Complete];
      err := Save(dir, outcome);
      if err.Some? {
        return;
      }
      if removed {
        dir.file := Missing;
      }
    }
  }

  /** The destination devices whose id is not among those done, in order. */
  function Remaining(allDevices: seq<CbDevice>, done: set<string>): seq<CbDevice>
  {
    Seqs.Filter(allDevices, (d: CbDevice) => d.id !in done)
  }

  /** The loop shared by the two GetRemaining queries. */
  method RemainingAfter(allDevices: seq<CbDevice>, done: set<string>) returns (remaining: seq<CbDevice>)
    ensures remaining == Remaining(allDevices, done)
  {
    remaining := [];
    var i := 0;
    while i < |allDevices|
      invariant 0 <= i <= |allDevices|
      invariant remaining == Remaining(allDevices[..i], done)
    {
      Seqs.FilterSnoc(allDevices[..i], allDevices[i], (d: CbDevice) => d.id !in done);
      assert allDevices[..i + 1] == allDevices[..i] + [allDevices[i]];
      if allDevices[i].id !in done {
        remaining := remaining + [allDevices[i]];
      }
      i := i + 1;
    }
    assert allDevices[..i] == allDevices;
  }

  /** The remaining devices are exactly those whose id is not done, in their original order. */
  lemma RemainingExact(allDevices: seq<CbDevice>, done: set<string>, d: CbDevice)
    ensures d in Remaining(allDevices, done) <==> d in allDevices && d.id !in done
    ensures Seqs.IsSubsequence(Remaining(allDevices, done), allDevices)
  {
    Seqs.FilterMembership(allDevices, (x: CbDevice) => x.id !in done, d);
    Seqs.FilterIsSubsequence(allDevices, (x: CbDevice) => x.id !in done);
  }

  /** The unfetched ids are exactly the input ids not fetched, each as often as in the input. */
  lemma UnfetchedExact(deviceIds: seq<string>, fetched: set<string>, id: string)
    ensures id in Seqs.Without(deviceIds, fetched) <==> id in deviceIds && id !in fetched
    ensures id !in fetched ==> multiset(Seqs.Without(deviceIds, fetched))[id] == multiset(deviceIds)[id]
  {
    Seqs.FilterMembership(deviceIds, (x: string) => x !in fetched, id);
    Seqs.FilterMultiplicity(deviceIds, (x: string) => x !in fetched, id);
  }

  /** Resuming from a later checkpoint never leaves more work, and leaves strictly less when a
      device of the input was recorded in between. */
  lemma ResumeLeavesLess(allDevices: seq<CbDevice>, before: Snapshot, after: Snapshot)
    requires before.devicesMigrated <= after.devicesMigrated
    ensures |Remaining(allDevices, after.devicesMigrated)| <= |Remaining(allDevices, before.devicesMigrated)|
    ensures (exists d :: d in allDevices && d.id in after.devicesMigrated - before.devicesMigrated) ==>
      |Remaining(allDevices, after.devicesMigrated)| < |Remaining(allDevices, before.devicesMigrated)|
  {
    DevicesWithoutShrinks(allDevices, before.devicesMigrated, after.devicesMigrated);
  }

  lemma {:induction false} DevicesWithoutShrinks(s: seq<CbDevice>, done: set<string>, more: set<string>)
    requires done <= more
    ensures |Remaining(s, more)| <= |Remaining(s, done)|
    ensures (exists d :: d in s && d.id in more - done) ==> |Remaining(s, more)| < |Remaining(s, done)|
  {
    if |s| > 0 {
      var s' := s[..|s| - 1];
      var x := s[|s| - 1];
      assert s == s' + [x];
      DevicesWithoutShrinks(s', done, more);
      assert forall y :: y in s ==> y in s' || y == x;
    }
  }

  /** LoadCheckpoint: no file means no prior run (no state and no error); a file that cannot be
      read or parsed is an error; otherwise the stored state, clean. */
  method LoadCheckpoint(dir: WorkDir) returns (r: Result<Option<CheckpointState>, string>)
    ensures dir.file.Missing? ==> r == Success(None)
    ensures dir.file.Unreadable? ==> r == Failure("failed to read checkpoint file: " + dir.file.reason)
    ensures dir.file.Unparsable? ==> r == Failure("failed to parse checkpoint file: " + dir.file.reason)
    ensures dir.file.Stored? ==> r.Success? && r.value.Some? && fresh(r.value.value)
    ensures dir.file.Stored? ==> r.value.value.State() == dir.file.snapshot && !r.value.value.dirty
  {
    if dir.file.Missing? {
      return Success(None);
    } else if dir.file.Unreadable? {
      return Failure("failed to read checkpoint file: " + dir.file.reason);
    } else if dir.file.Unparsable? {
      return Failure("failed to parse checkpoint file: " + dir.file.reason);
    }
    var state := new CheckpointState.Decoded(dir.file.snapshot);
    return Success(Some(state));
  }

  /** InitializeCheckpointSystem: resume from the file when there is one, start fresh (and save)
      when there is none, and fail on a file that cannot be loaded. */
  method InitializeCheckpointSystem(dir: WorkDir, args: RunArgs, outcome: WriteOutcome)
    returns (r: Result<CheckpointState, string>)
    modifies dir
    ensures old(dir.file).Unreadable? || old(dir.file).Unparsable? ==> r.Failure? && dir.file == old(dir.file)
    ensures old(dir.file).Stored? ==>
      && r.Success? && r.value.State() == old(dir.file).snapshot
      && dir.file == old(dir.file) && fresh(r.value) && !r.value.dirty
    ensures old(dir.file).Missing? && outcome.WriteOk? ==>
      && r.Success? && r.value.State() == Fresh(args) && dir.file == Stored(Fresh(args))
      && fresh(r.value) && !r.value.dirty
    ensures old(dir.file).Missing? && !outcome.WriteOk? ==>
      r.Failure? && dir.file == FileAfterSave(Missing, Fresh(args), outcome)
  {
    var loaded := LoadCheckpoint(dir);
    if loaded.Failure? {
      return Failure("failed to load checkpoint: " + loaded.error);
    }
    if loaded.value.Some? {
      return Success(loaded.value.value);
    }
    var state := new CheckpointState(args);
    var err := state.Save(dir, outcome);
    if err.Some? {
      return Failure("failed to save initial checkpoint: " + err.value);
    }
    return Success(state);
  }
}
