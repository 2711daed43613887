/**
  The React export page, ui/app/components/ExportDetails.js: the run poller
  kept by the `ExportRuns` component across its lifecycle, and the decisions
  `render` makes about which rows and buttons appear.

  Timers are logical: `setInterval` hands out a fresh handle, `clearInterval`
  forgets one, and `Tick(h)` is the moment interval `h` fires. Fetching runs
  (`getRuns`) is recorded in a log of the job ids asked for; its answer comes
  back later as the `runs` argument of `DidUpdate`.
 */
module ExportDetails {
  import opened Wrappers

  /** The poller period, in milliseconds (`15e3`). */
  const PollPeriod: nat := 15000

  /** What the page knows of one run. */
  datatype Run = Run(uid: string, status: string, hdxSynced: bool)

  /** A run in status FAILED or COMPLETED needs no more polling. */
  predicate Terminal(status: string) { status == "FAILED" || status == "COMPLETED" }

  /** What `componentDidUpdate` does to the poller. */
  datatype PollerAction =
    | Restart  // the job changed: clear the poller, null it, fetch the new job's runs
    | Stop     // the newest run is terminal: clear the poller and null it
    | Start    // the newest run is still going and there is no poller: start one
    | Keep     // no runs yet, or a poller already exists: nothing happens

  function DidUpdateAction(jobChanged: bool, runs: seq<Run>, hasPoller: bool): (a: PollerAction)
    ensures a == Restart <==> jobChanged
    ensures a == Stop <==> !jobChanged && |runs| > 0 && Terminal(runs[0].status)
    ensures a == Start <==> !jobChanged && |runs| > 0 && !Terminal(runs[0].status) && !hasPoller
    ensures a == Keep <==> !jobChanged && (|runs| == 0 || (!Terminal(runs[0].status) && hasPoller))
  {
    if jobChanged then Restart
    else if |runs| > 0 then
      if Terminal(runs[0].status) then Stop
      else if !hasPoller then Start
      else Keep
    else Keep
  }

  /** An empty run list never touches the poller, whether or not one exists. */
  lemma EmptyRunsKeepPoller(hasPoller: bool)
    ensures DidUpdateAction(false, [], hasPoller) == Keep
  {
  }

  /** Whether a poller exists afterwards depends only on the action and on whether one existed before. */
  function HasPollerAfter(a: PollerAction, hadPoller: bool): bool
  {
    match a
    case Restart => false
    case Stop => false
    case Start => true
    case Keep => hadPoller
  }

  /**
    The poller is settled after one update: a second update with the same
    job and the same runs starts nothing and stops nothing new.
   */
  lemma {:induction false} DidUpdateSettles(runs: seq<Run>, hasPoller: bool)
    ensures var a := DidUpdateAction(false, runs, hasPoller);
            var b := DidUpdateAction(false, runs, HasPollerAfter(a, hasPoller));
            b != Start && HasPollerAfter(b, HasPollerAfter(a, hasPoller)) == HasPollerAfter(a, hasPoller)
  {
    var a := DidUpdateAction(false, runs, hasPoller);
    if a == Start {
      assert HasPollerAfter(a, hasPoller);
    }
  }

  /**
    The `ExportRuns` component. `poller` is `this.poller` (None for both
    `null` and the initial `undefined`); `intervals` are the live interval
    timers, each with the job id its callback captured.
   */
  class ExportRuns {
    var jobUid: string
    var poller: Option<nat>
    var intervals: map<nat, string>
    var nextHandle: nat
    var fetches: seq<string>

    /**
      At most one interval is live, it is the one `poller` holds, and it
      polls the job the component currently shows.
     */
    ghost predicate Valid()
      reads this
    {
      && (poller.None? ==> intervals == map[])
      && (poller.Some? ==> poller.value < nextHandle && intervals == map[poller.value := jobUid])
    }

    constructor (jobUid: string)
      ensures Valid()
      ensures this.jobUid == jobUid && poller == None && intervals == map[] && fetches == []
    {
      this.jobUid := jobUid;
      poller := None;
      intervals := map[];
      nextHandle := 0;
      fetches := [];
    }

    /** `clearInterval(this.poller)`: a no-op when there is no poller. */
    method ClearPoller()
      modifies this`intervals
      ensures intervals == if poller.Some? then old(intervals) - {poller.value} else old(intervals)
    {
      if poller.Some? {
        intervals := intervals - {poller.value};
      }
    }

    /** `componentWillMount`: fetch the runs of the job. */
    method WillMount()
      requires Valid()
      modifies this`fetches
      ensures Valid()
      ensures fetches == old(fetches) + [jobUid]
    {
      fetches := fetches + [jobUid];
    }

    /**
      `componentDidUpdate`, called with the new `jobUid` and `runs` props; the
      previous `jobUid` is the one the component held.
     */
    method DidUpdate(newJobUid: string, runs: seq<Run>)
      requires Valid()
      modifies this
      ensures Valid()
      ensures jobUid == newJobUid
      ensures poller.Some? <==> HasPollerAfter(DidUpdateAction(old(jobUid) != newJobUid, runs, old(poller).Some?), old(poller).Some?)
      ensures DidUpdateAction(old(jobUid) != newJobUid, runs, old(poller).Some?) == Start ==>
                poller == Some(old(nextHandle)) && intervals == map[old(nextHandle) := newJobUid]
      ensures DidUpdateAction(old(jobUid) != newJobUid, runs, old(poller).Some?) == Keep ==>
                poller == old(poller) && intervals == old(intervals)
      ensures fetches == old(fetches) + (if old(jobUid) != newJobUid then [newJobUid] else [])
      ensures nextHandle >= old(nextHandle)
    {
      var action := DidUpdateAction(jobUid != newJobUid, runs, poller.Some?);
      match action {
        case Restart =>
          ClearPoller();
          poller := None;
          fetches := fetches + [newJobUid];
        case Stop =>
          ClearPoller();
          poller := None;
        case Start =>
          poller := Some(nextHandle);
          intervals := intervals[nextHandle := newJobUid];
          nextHandle := nextHandle + 1;
        case Keep =>
      }
      jobUid := newJobUid;
    }

    /** `componentWillUnmount`: no poller survives. */
    method WillUnmount()
      requires Valid()
      modifies this
      ensures Valid()
      ensures poller == None && intervals == map[]
      ensures jobUid == old(jobUid) && fetches == old(fetches) && nextHandle == old(nextHandle)
    {
      ClearPoller();
      poller := None;
    }

    /**
      Interval `h` fires: a live one fetches the runs of the job its callback
      captured, which is always the job now shown; a cleared one does nothing.
     */
    method Tick(h: nat)
      requires Valid()
      modifies this`fetches
      ensures Valid()
      ensures h in intervals ==> poller == Some(h) && fetches == old(fetches) + [jobUid]
      ensures h !in intervals ==> fetches == old(fetches)
    {
      if h in intervals {
        fetches := fetches + [intervals[h]];
      }
    }
  }

  /** What `render` needs of the export. */
  datatype ExportInfo = ExportInfo(exportFormats: Option<seq<string>>, owner: string)

  /** `formats.some(x => REQUIRES_FEATURE_SELECTION[x])`, the flagged formats given as a set. */
  function AnyFlagged(formats: seq<string>, flagged: set<string>): (r: bool)
    ensures r <==> exists i :: 0 <= i < |formats| && formats[i] in flagged
  {
    if formats == [] then false
    else formats[0] in flagged || AnyFlagged(formats[1..], flagged)
  }

  /**
    `requiresFeatureSelection`: false without an export or without a formats
    list, otherwise whether some format is flagged.
   */
  function RequiresFeatureSelection(info: Option<ExportInfo>, flagged: set<string>): (r: bool)
    ensures r <==> info.Some? && info.value.exportFormats.Some?
                   && exists i :: 0 <= i < |info.value.exportFormats.value| && info.value.exportFormats.value[i] in flagged
  {
    match info
    case None => false
    case Some(e) => AnyFlagged(e.exportFormats.GetOr([]), flagged)
  }

  /** The buttons visible on the page; each is false when it is not rendered. */
  datatype View =
    | Spinner
    | NotFound
    | Page(group: bool, features: bool, rerun: bool, clone: bool, delete: bool)

  /**
    `render`'s decisions: a spinner while loading, "not found" without an
    export, otherwise the button group and the buttons inside it.
   */
  function Render(loading: bool, info: Option<ExportInfo>, isLoggedIn: bool, username: Option<string>,
                  flagged: set<string>): (v: View)
    ensures loading ==> v == Spinner
    ensures !loading && info.None? ==> v == NotFound
    ensures !loading && info.Some? ==> v.Page?
    ensures v.Page? ==> (v.group <==> RequiresFeatureSelection(info, flagged) || isLoggedIn)
    ensures v.Page? ==> (v.features <==> RequiresFeatureSelection(info, flagged))
    ensures v.Page? ==> (v.rerun <==> isLoggedIn) && (v.clone <==> isLoggedIn)
    ensures v.Page? ==> (v.delete <==> v.group && username == Some(info.value.owner))
  {
    if loading then Spinner
    else if info.None? then NotFound
    else
      var rfs := RequiresFeatureSelection(info, flagged);
      var group := rfs || isLoggedIn;
      Page(group, group && rfs, group && isLoggedIn, group && isLoggedIn,
           group && username == Some(info.value.owner))
  }

  /**
    The button group is rendered exactly when it has a button in it, and the
    owner of an export that needs no feature selection sees Delete only when
    logged in.
   */
  lemma GroupNeverEmpty(loading: bool, info: Option<ExportInfo>, isLoggedIn: bool, username: Option<string>,
                        flagged: set<string>)
    ensures var v := Render(loading, info, isLoggedIn, username, flagged);
            v.Page? ==> (v.group <==> v.features || v.rerun || v.clone || v.delete)
    ensures var v := Render(loading, info, isLoggedIn, username, flagged);
            v.Page? && !isLoggedIn && !RequiresFeatureSelection(info, flagged) ==> !v.delete
  {
  }

  /** The force-stop row: only for a SUBMITTED or RUNNING run, and only with the `auth.add_user` permission. */
  predicate ForceStopShown(status: string, canAddUser: bool)
  {
    (status == "SUBMITTED" || status == "RUNNING") && canAddUser
  }

  /**
    A run offered a force stop is never terminal, so when it is the newest
    run of the shown job the poller keeps running after the update.
   */
  lemma ForceStopKeepsPolling(runs: seq<Run>, hasPoller: bool, canAddUser: bool)
    requires |runs| > 0 && ForceStopShown(runs[0].status, canAddUser)
    ensures !Terminal(runs[0].status)
    ensures HasPollerAfter(DidUpdateAction(false, runs, hasPoller), hasPoller)
  {
    assert runs[0].status[0] == 'S' || runs[0].status[0] == 'R';
  }

  /** The HDX sync row: its caption and whether its button is disabled. */
  datatype HdxRow = HdxRow(caption: string, disabled: bool)

  /** The HDX sync row, shown only with the HDX export-region permissions. */
  function HdxSyncRow(run: Run, canManageHdx: bool): (r: Option<HdxRow>)
    ensures r.Some? <==> canManageHdx
    ensures r.Some? ==> (r.value.disabled <==> run.hdxSynced)
    ensures r.Some? ==> (r.value.caption == "Uploaded " <==> r.value.disabled)
  {
    if canManageHdx then Some(HdxRow(if run.hdxSynced then "Uploaded " else "Not Uploaded ", run.hdxSynced))
    else None
  }
}
