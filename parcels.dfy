/** The parcel (the versioned software bundle) lifecycle: validation with
    repository remediation, then download, distribution and activation,
    each polled until the parcel reaches an accepted stage. */
module Parcels {
  import opened Outcomes
  import opened Names
  import opened ControlPlane
  import Retry

  /** The stages the control plane reports, in lifecycle order. */
  datatype Stage =
    | AvailableRemotely | Downloading | Downloaded | Distributing
    | Distributed | Activating | Activated | InUse

  /** The position of a stage in the lifecycle. */
  function Rank(s: Stage): nat {
    match s
    case AvailableRemotely => 0
    case Downloading => 1
    case Downloaded => 2
    case Distributing => 3
    case Distributed => 4
    case Activating => 5
    case Activated => 6
    case InUse => 7
  }

  /** The stage's name in the client library. */
  function StageName(s: Stage): string {
    match s
    case AvailableRemotely => "AVAILABLE_REMOTELY"
    case Downloading => "DOWNLOADING"
    case Downloaded => "DOWNLOADED"
    case Distributing => "DISTRIBUTING"
    case Distributed => "DISTRIBUTED"
    case Activating => "ACTIVATING"
    case Activated => "ACTIVATED"
    case InUse => "INUSE"
  }

  /** A stage in which the control plane is still working. */
  predicate InTransit(s: Stage) {
    s == Downloading || s == Distributing || s == Activating
  }

  /** What one lookup of the parcel shows: its stage, its error list and its
      progress counters. */
  datatype ParcelStatus = ParcelStatus(stage: Stage, errors: seq<string>, progress: nat, totalProgress: nat)

  datatype Phase = Download | Distribute | Activate

  /** The stage a phase drives the parcel to. */
  function Goal(ph: Phase): Stage {
    match ph
    case Download => Downloaded
    case Distribute => Distributed
    case Activate => Activated
  }

  /** The list of stages each phase accepts, in the order the module writes
      them (the first names the goal in the waiting message). */
  function Targets(ph: Phase): seq<Stage> {
    match ph
    case Download => [Downloaded, Distributed, Activated, InUse]
    case Distribute => [Distributed, Activated, InUse]
    case Activate => [Activated, InUse]
  }

  /** `check_error`: a parcel that reports errors ends the run, with those
      errors; one without errors passes. */
  function CheckError(p: ParcelStatus): (o: Outcome<()>)
    ensures o.Ok? <==> |p.errors| == 0
    ensures o.Raise? ==> o.exc == Fatal(p.errors)
  {
    if |p.errors| > 0 then Raise(Fatal(p.errors)) else Ok(())
  }

  /** One call of `check_state`'s body. `lookup` is how reading the parcel
      ended (the lookup itself raises `ApiException` when the parcel is not
      known). Errors are checked before the stage; a stage outside `states`
      raises `ApiException`, which the surrounding `retry` repeats. With an
      empty `states` the waiting message's `states[0]` raises `IndexError`. */
  function CheckStage(lookup: Outcome<ParcelStatus>, states: seq<Stage>): (o: Outcome<()>)
    ensures lookup.Ok? && |lookup.value.errors| > 0 ==> o == Raise(Fatal(lookup.value.errors))
    ensures lookup.Ok? ==> (o.Ok? <==> |lookup.value.errors| == 0 && lookup.value.stage in states)
    ensures lookup.Ok? && states != [] ==> (Retry.Transient(o) <==> |lookup.value.errors| == 0 && lookup.value.stage !in states)
    ensures lookup.Raise? ==> o == Raise(lookup.exc)
  {
    match lookup
    case Raise(e) => Raise(e)
    case Ok(p) =>
      if |p.errors| > 0 then Raise(Fatal(p.errors))
      else if p.stage in states then Ok(())
      else if states == [] then Raise(Error(IndexOutOfRange))
      else Raise(ApiError("Waiting on parcel to get to state " + StageName(states[0])))
  }

  /** `check_state` with its `retry(attempts=20, delay=30)`, over the
      successive lookups `polls`: at least one and at most twenty lookups,
      a sleep between two of them, and always an outcome. */
  function CheckState(polls: nat -> Outcome<ParcelStatus>, states: seq<Stage>): (run: Retry.Run<()>)
    ensures 1 <= run.calls <= 20 && run.sleeps == run.calls - 1
    ensures !run.result.NoneReturned?
  {
    Retry.RetryBounds(i => CheckStage(polls(i), states), 20);
    Retry.Retry(i => CheckStage(polls(i), states), 20)
  }

  /** A phase accepts exactly the settled stages at or beyond its goal: a
      parcel still moving towards a later stage (say DISTRIBUTING during the
      download check) is waited for. */
  lemma AcceptsAtOrBeyond(ph: Phase, p: ParcelStatus)
    ensures CheckStage(Ok(p), Targets(ph)).Ok? <==>
      |p.errors| == 0 && Rank(p.stage) >= Rank(Goal(ph)) && !InTransit(p.stage)
  {
  }

  /** The accepted stages of the three phases are nested, so a parcel a
      later phase accepts is accepted by every earlier one. */
  lemma TargetsNested(lookup: Outcome<ParcelStatus>)
    ensures CheckStage(lookup, Targets(Activate)).Ok? ==> CheckStage(lookup, Targets(Distribute)).Ok?
    ensures CheckStage(lookup, Targets(Distribute)).Ok? ==> CheckStage(lookup, Targets(Download)).Ok?
  {
  }

  /** A re-run against a parcel that is already active: each phase's check
      returns on its first lookup, without sleeping. */
  lemma AdvancedParcelPassesAtOnce(ph: Phase, polls: nat -> Outcome<ParcelStatus>)
    requires polls(0).Ok? && |polls(0).value.errors| == 0
    requires polls(0).value.stage == Activated || polls(0).value.stage == InUse
    ensures CheckState(polls, Targets(ph)) == Retry.Run(Retry.Returned(()), 1, 0)
  {
    var call := i => CheckStage(polls(i), Targets(ph));
    assert !Retry.Transient(call(0));
    Retry.RetrySettles(call, 20, 0);
  }

  /** A parcel reporting errors ends the phase after one lookup, with the
      errors, whatever its stage: errors are never waited out. */
  lemma ErrorsAreFatalAtOnce(states: seq<Stage>, polls: nat -> Outcome<ParcelStatus>)
    requires polls(0).Ok? && |polls(0).value.errors| > 0
    ensures CheckState(polls, states) == Retry.Run(Retry.Raised(Fatal(polls(0).value.errors)), 1, 0)
  {
    var call := i => CheckStage(polls(i), states);
    assert !Retry.Transient(call(0));
    Retry.RetrySettles(call, 20, 0);
  }

  /** A parcel that never reaches an accepted stage within the twenty
      lookups makes the phase raise the waiting `ApiException`. */
  lemma NeverReadyExhausts(ph: Phase, polls: nat -> Outcome<ParcelStatus>)
    requires forall i :: 0 <= i < 20 ==> polls(i).Ok? && |polls(i).value.errors| == 0 && polls(i).value.stage !in Targets(ph)
    ensures CheckState(polls, Targets(ph)).calls == 20 && CheckState(polls, Targets(ph)).sleeps == 19
    ensures CheckState(polls, Targets(ph)).result == Retry.Raised(ApiError("Waiting on parcel to get to state " + StageName(Goal(ph))))
  {
    var call := i => CheckStage(polls(i), Targets(ph));
    forall i | 0 <= i < 20 ensures Retry.Transient(call(i)) {
    }
    Retry.RetryExhausted(call, 20);
  }

  /** The repository list after remediation: the current value, or the
      default while the value is unset or empty, with `repo` joined on. Its
      entries are every configured entry, in order, then the repository. */
  function ExtendedRepoUrls(current: Option<string>, default: string, repo: string): (urls: string)
    ensures Split(urls) == Split(if current.Some? && current.value != "" then current.value else default) + Split(repo)
  {
    var base := if current.Some? && current.value != "" then current.value else default;
    SplitJoin(base, repo);
    JoinComma(base, repo)
  }

  /** The `REMOTE_PARCEL_REPO_URLS` value `validate` leaves: extended only
      when the first read raised `ApiException` and a repository was
      given. */
  function RemediatedUrls(current: Option<string>, default: string, lookup: Outcome<ParcelStatus>, repo: Option<string>): Option<string> {
    if lookup.Raise? && lookup.exc.ApiError? && repo.Some? then Some(ExtendedRepoUrls(current, default, repo.value))
    else current
  }

  /** When `validate` passes: the parcel is read without errors, either at
      once or, after remediation, within the three retried reads. */
  predicate ParcelResolved(lookup: Outcome<ParcelStatus>, repo: Option<string>, waits: nat -> Outcome<ParcelStatus>) {
    match lookup
    case Ok(p) => |p.errors| == 0
    case Raise(e) =>
      e.ApiError? && repo.Some? &&
      match Retry.Retry(waits, 3).result
      case Returned(p) => |p.errors| == 0
      case Raised(_) => false
      case NoneReturned => true
  }

  /** The error `validate` raises when no repository offers the parcel
      and none was given. */
  const NoRepoMessage := "None of the existing repos contain the requested parcel version. Please specify a parcel repo."

  /** How `validate` ends after the retried read: the parcel's errors are
      checked, an exception propagates, and no result passes. */
  function Settle(found: Retry.Retried<ParcelStatus>): Outcome<()> {
    match found
    case Returned(p) => CheckError(p)
    case Raised(e) => Raise(e)
    case NoneReturned => Ok(())
  }

  /** `Parcels.validate`. `lookup` is the first read of the parcel; when it
      raises `ApiException` (no repository offers the version) and a
      repository was given, the repository is appended to
      `REMOTE_PARCEL_REPO_URLS` and the parcel is read again through
      `retry()` (three attempts) as `waits` shows it. */
  method Validate(remote: Remote, repo: Option<string>, lookup: Outcome<ParcelStatus>,
                  waits: nat -> Outcome<ParcelStatus>)
    returns (r: Outcome<()>)
    modifies remote`repoUrls
    ensures lookup.Ok? ==> r == CheckError(lookup.value) && remote.repoUrls == old(remote.repoUrls)
    ensures lookup.Raise? && !lookup.exc.ApiError? ==> r == Raise(lookup.exc) && remote.repoUrls == old(remote.repoUrls)
    ensures lookup.Raise? && lookup.exc.ApiError? && repo.None? ==>
      r.Raise? && r.exc.Error? && remote.repoUrls == old(remote.repoUrls)
    ensures lookup.Raise? && lookup.exc.ApiError? && repo.Some? ==>
      remote.repoUrls == Some(ExtendedRepoUrls(old(remote.repoUrls), remote.repoUrlsDefault, repo.value)) &&
      r == Settle(Retry.Retry(waits, 3).result)
    ensures remote.repoUrls == RemediatedUrls(old(remote.repoUrls), remote.repoUrlsDefault, lookup, repo)
    ensures r.Ok? <==> ParcelResolved(lookup, repo, waits)
  {
    match lookup {
      case Ok(p) =>
        r := CheckError(p);
      case Raise(e) =>
        if !e.ApiError? {
          r := Raise(e);
          return;
        }
        if repo.None? {
          r := Raise(Error(NoRepoMessage));
          return;
        }
        remote.repoUrls := Some(ExtendedRepoUrls(remote.repoUrls, remote.repoUrlsDefault, repo.value));
        var found, _, _ := Retry.RetryLoop(waits, 3);
        r := Settle(found);
    }
  }

  /** One phase: the trigger (`start_download`, `start_distribution`,
      `activate` on a fresh read of the parcel, which raises if the read
      does), then `check_state` over `polls`. */
  method RunPhase(ph: Phase, trigger: Outcome<ParcelStatus>, polls: nat -> Outcome<ParcelStatus>)
    returns (r: Outcome<()>, lookups: nat)
    ensures trigger.Raise? ==> r == Raise(trigger.exc) && lookups == 0
    ensures trigger.Ok? ==> lookups == CheckState(polls, Targets(ph)).calls && 1 <= lookups <= 20
    ensures trigger.Ok? ==> (r.Ok? <==> CheckState(polls, Targets(ph)).result.Returned?)
    ensures trigger.Ok? && r.Raise? ==> CheckState(polls, Targets(ph)).result == Retry.Raised(r.exc)
  {
    if trigger.Raise? {
      return Raise(trigger.exc), 0;
    }
    var states := Targets(ph);
    var result, calls, _ := Retry.RetryLoop(i => CheckStage(polls(i), states), 20);
    Retry.RetryBounds(i => CheckStage(polls(i), states), 20);
    lookups := calls;
    match result {
      case Returned(_) => r := Ok(());
      case Raised(e) => r := Raise(e);
      case NoneReturned => r := Ok(());
    }
  }
}
