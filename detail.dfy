/**
  The legacy job-detail page, ui/static/ui/js/detail.js: the timer that polls
  for the submitted run, the panels it keeps for submitted and completed runs,
  and the row shown for each task of a run.

  Timers are logical. `StartRunCheckInterval` schedules a start that happens
  at `DelayElapsed` (the 2 s `setTimeout`); that start creates a live interval
  whose firings are `Tick(h)` (the 3 s `setInterval`). Requests are recorded
  in a log, and their answers arrive as the arguments of the `...Answered` and
  `...Loaded` methods. The page's markup is reduced to the facts the script
  reads or writes: the rerun button's `disabled`, the submitted panel's
  visibility, and the panels with their rows.
 */
module RunDetail {
  import opened Wrappers
  import opened Text

  /** The delay before the check interval starts, and its period, in milliseconds. */
  const StartDelay: nat := 2000
  const CheckPeriod: nat := 3000

  /** What a row shows in a cell with no value. */
  const Dashes := " -- "

  /**
    A task of a run. `duration` is the duration as `numeral` formats it and
    `hasDuration` whether `task.duration` is truthy; `url` and `size` come
    from `task.result`.
   */
  datatype Task = Task(uid: string, name: string, status: string, hasDuration: bool, duration: string,
                       url: string, size: string)

  datatype Run = Run(uid: string, status: string, tasks: seq<Task>)

  /** The statuses shown without a download link. */
  predicate InProgress(status: string) { status == "PENDING" || status == "RUNNING" || status == "FAILED" }

  /** The task names the page has a row for. */
  datatype TaskKind = OverpassQuery | Kml | Osm2Pbf | Shapefile | Obf | Garmin | Sqlite | OsmSchema

  function KindOf(name: string): Option<TaskKind>
  {
    if name == "OverpassQuery" then Some(OverpassQuery)
    else if name == "KML Export" then Some(Kml)
    else if name == "OSM2PBF" then Some(Osm2Pbf)
    else if name == "Shapefile Export" then Some(Shapefile)
    else if name == "OBF Export" then Some(Obf)
    else if name == "Garmin Export" then Some(Garmin)
    else if name == "SQLITE Export" then Some(Sqlite)
    else if name == "OSMSchema" then Some(OsmSchema)
    else None
  }

  /** The tasks that produce a downloadable file; the other two never get a link. */
  predicate IsFile(k: TaskKind) { k != OverpassQuery && k != OsmSchema }

  /** The first cell of a row without a link (the Garmin text is misspelt in the source). */
  function PlainCaption(k: TaskKind): string
  {
    match k
    case OverpassQuery => "Extract OpenStreetMap Data"
    case Kml => "Google Earth (KMZ)"
    case Osm2Pbf => "OpenStreetMap (PBF) File"
    case Shapefile => "ESRI Shapefile (SHP)"
    case Obf => "OSMAnd (OBF) File"
    case Garmin => "Garamin Map (IMG) File"
    case Sqlite => "SQlite Database File"
    case OsmSchema => "Generate OpenStreetMap Schema"
  }

  /** The text of the download link. */
  function LinkCaption(k: TaskKind): string
    requires IsFile(k)
  {
    match k
    case Kml => "Google Earth (KMZ) File"
    case Osm2Pbf => "OpenStreetMap (PBF) File"
    case Shapefile => "ESRI Shapefile (SHP)"
    case Obf => "OSMAnd (OBF) File"
    case Garmin => "Garmin Map (IMG) File"
    case Sqlite => "SQlite Database File"
  }

  /** A row of a submitted-run table: class, first cell (a link when `link` is set), duration, size, status. */
  datatype Row = Row(cls: string, caption: string, link: Option<string>, duration: string, size: string, status: string)

  /** `task.duration ? formatted : ' -- '`. */
  function DurationText(t: Task): string
  {
    if t.hasDuration then t.duration else Dashes
  }

  /** The row of a finished task, shared by both ways of drawing the submitted panel except for OSMSchema's size. */
  function DoneRow(t: Task, k: TaskKind, schemaSize: string): Row
  {
    Row(Lower(t.status), if IsFile(k) then LinkCaption(k) else PlainCaption(k),
        if IsFile(k) then Some(t.url) else None, DurationText(t),
        if k == OsmSchema then schemaSize else t.size, t.status)
  }

  /** The kinds whose in-progress row shows the duration when the submitted panel is first drawn. */
  predicate ShowsDurationInProgress(k: TaskKind) { k == OverpassQuery || k == Kml || k == Osm2Pbf || k == Shapefile }

  /**
    The row `initSumtittedRunPanel` appends for a task. A task in progress
    gets no link and a dashed size; a finished one gets a link to its file
    when it has one. The class is the lower-cased status.
   */
  function PanelRow(t: Task): (r: Option<Row>)
    ensures r.Some? <==> KindOf(t.name).Some?
    ensures r.Some? ==> r.value.cls == Lower(t.status) && r.value.status == t.status
    ensures r.Some? && InProgress(t.status) ==> r.value.link == None && r.value.size == Dashes
    ensures r.Some? && !InProgress(t.status) ==> r.value.link == if IsFile(KindOf(t.name).value) then Some(t.url) else None
    ensures r.Some? && !t.hasDuration ==> r.value.duration == Dashes
    ensures r.Some? && InProgress(t.status) ==>
              r.value.caption == PlainCaption(KindOf(t.name).value)
              && (ShowsDurationInProgress(KindOf(t.name).value) && t.hasDuration ==> r.value.duration == t.duration)
              && (!ShowsDurationInProgress(KindOf(t.name).value) ==> r.value.duration == Dashes)
    ensures r.Some? && !InProgress(t.status) ==>
              && r.value.caption == (var k := KindOf(t.name).value; if IsFile(k) then LinkCaption(k) else PlainCaption(k))
              && r.value.size == (if KindOf(t.name) == Some(OsmSchema) then "" else t.size)
              && (t.hasDuration ==> r.value.duration == t.duration)
  {
    match KindOf(t.name)
    case None => None
    case Some(k) =>
      if InProgress(t.status) then
        Some(Row(Lower(t.status), PlainCaption(k), None,
                 if ShowsDurationInProgress(k) then DurationText(t) else Dashes, Dashes, t.status))
      else Some(DoneRow(t, k, ""))
  }

  /**
    The row `updateSubmittedRunDetails` writes over an existing one: in
    progress, both duration and size are dashed; finished, as above.
   */
  function UpdateRow(t: Task): (r: Option<Row>)
    ensures r.Some? <==> KindOf(t.name).Some?
    ensures r.Some? ==> r.value.cls == Lower(t.status) && r.value.status == t.status
    ensures r.Some? && InProgress(t.status) ==> r.value.link == None && r.value.size == Dashes && r.value.duration == Dashes
    ensures r.Some? && !InProgress(t.status) ==> r.value.link == if IsFile(KindOf(t.name).value) then Some(t.url) else None
    ensures r.Some? && !t.hasDuration ==> r.value.duration == Dashes
    ensures r.Some? && InProgress(t.status) ==> r.value.caption == PlainCaption(KindOf(t.name).value)
    ensures r.Some? && !InProgress(t.status) ==>
              && r.value.caption == (var k := KindOf(t.name).value; if IsFile(k) then LinkCaption(k) else PlainCaption(k))
              && r.value.size == (if KindOf(t.name) == Some(OsmSchema) then Dashes else t.size)
              && (t.hasDuration ==> r.value.duration == t.duration)
  {
    match KindOf(t.name)
    case None => None
    case Some(k) =>
      if InProgress(t.status) then Some(Row(Lower(t.status), PlainCaption(k), None, Dashes, Dashes, t.status))
      else Some(DoneRow(t, k, Dashes))
  }

  /**
    The two drawings of the submitted panel agree on a finished task except
    for OSMSchema's size cell, and on a task in progress except for the
    duration cell, which only the first drawing may fill.
   */
  lemma PanelAndUpdateAgree(t: Task)
    requires KindOf(t.name).Some?
    ensures !InProgress(t.status) && KindOf(t.name) != Some(OsmSchema) ==> PanelRow(t) == UpdateRow(t)
    ensures InProgress(t.status) ==> PanelRow(t).value == UpdateRow(t).value.(duration := PanelRow(t).value.duration)
    ensures !InProgress(t.status) && KindOf(t.name) == Some(OsmSchema) ==>
              PanelRow(t).value.size == "" && UpdateRow(t).value.size == Dashes
  {
  }

  /** A row of a completed-run table: a link to the file, its duration and size. */
  datatype DownloadRow = DownloadRow(caption: string, url: string, duration: string, size: string)

  /**
    The row `loadCompletedRunDetails` appends: only tasks that produce a
    file get one, and it always links to the file.
   */
  function CompletedRow(t: Task): (r: Option<DownloadRow>)
    ensures r.Some? <==> KindOf(t.name).Some? && IsFile(KindOf(t.name).value)
    ensures r.Some? ==> r.value.url == t.url && r.value.size == t.size && r.value.duration == t.duration
  {
    match KindOf(t.name)
    case None => None
    case Some(k) => if IsFile(k) then Some(DownloadRow(LinkCaption(k), t.url, t.duration, t.size)) else None
  }

  /** A finished file task with a duration reads the same in the completed table as in the submitted one. */
  lemma CompletedAgreesWithUpdate(t: Task)
    requires KindOf(t.name).Some? && IsFile(KindOf(t.name).value)
    requires !InProgress(t.status) && t.hasDuration
    ensures var u := UpdateRow(t).value;
            CompletedRow(t) == Some(DownloadRow(u.caption, u.link.value, u.duration, u.size))
  {
  }

  /** A submitted-panel row and the id of the task it belongs to. */
  datatype TaskRow = TaskRow(taskUid: string, row: Row)

  /** The rows of one run's table in the submitted panel: one per task with a known name, in order. */
  function PanelRows(tasks: seq<Task>): (r: seq<TaskRow>)
    ensures |r| <= |tasks|
  {
    if tasks == [] then []
    else
      var t := tasks[|tasks| - 1];
      PanelRows(tasks[..|tasks| - 1]) + (match PanelRow(t) case Some(row) => [TaskRow(t.uid, row)] case None => [])
  }

  /** Every row of the submitted panel belongs to a task and carries that task's panel row. */
  lemma {:induction false} PanelRowsFromTasks(tasks: seq<Task>)
    ensures forall r :: r in PanelRows(tasks) ==> exists t :: t in tasks && r.taskUid == t.uid && PanelRow(t) == Some(r.row)
  {
    if tasks != [] {
      PanelRowsFromTasks(tasks[..|tasks| - 1]);
      var t := tasks[|tasks| - 1];
      assert forall u :: u in tasks[..|tasks| - 1] ==> u in tasks;
      assert t in tasks;
    }
  }

  /** The rows of one run's table in a completed panel: one per file task, in order. */
  function DownloadRows(tasks: seq<Task>): (r: seq<DownloadRow>)
    ensures |r| <= |tasks|
  {
    if tasks == [] then []
    else
      var t := tasks[|tasks| - 1];
      DownloadRows(tasks[..|tasks| - 1]) + (match CompletedRow(t) case Some(row) => [row] case None => [])
  }

  method BuildPanelRows(tasks: seq<Task>) returns (rows: seq<TaskRow>)
    ensures rows == PanelRows(tasks)
  {
    rows := [];
    for i := 0 to |tasks|
      invariant rows == PanelRows(tasks[..i])
    {
      assert tasks[..i + 1][..i] == tasks[..i];
      var t := tasks[i];
      match PanelRow(t) {
        case Some(row) => rows := rows + [TaskRow(t.uid, row)];
        case None =>
      }
    }
    assert tasks[..|tasks|] == tasks;
  }

  method BuildDownloadRows(tasks: seq<Task>) returns (rows: seq<DownloadRow>)
    ensures rows == DownloadRows(tasks)
  {
    rows := [];
    for i := 0 to |tasks|
      invariant rows == DownloadRows(tasks[..i])
    {
      assert tasks[..i + 1][..i] == tasks[..i];
      match CompletedRow(tasks[i]) {
        case Some(row) => rows := rows + [row];
        case None =>
      }
    }
    assert tasks[..|tasks|] == tasks;
  }

  /** A run's panel in the submitted area: `info` for the `alert-info` status class. */
  datatype SubmittedPanel = SubmittedPanel(runUid: string, info: bool, expanded: bool, rows: seq<TaskRow>)

  /** A run's panel in the completed area: `success` for the `alert-success` status class. */
  datatype CompletedPanel = CompletedPanel(runUid: string, success: bool, expanded: bool, rows: seq<DownloadRow>)

  /**
    The submitted panel drawn from a non-empty run list: one panel per run,
    `info` exactly for a SUBMITTED run, only the first expanded.
   */
  method BuildSubmitted(data: seq<Run>) returns (panels: seq<SubmittedPanel>)
    ensures |panels| == |data|
    ensures forall i :: 0 <= i < |data| ==>
              panels[i] == SubmittedPanel(data[i].uid, data[i].status == "SUBMITTED", i == 0, PanelRows(data[i].tasks))
  {
    panels := [];
    for i := 0 to |data|
      invariant |panels| == i
      invariant forall j :: 0 <= j < i ==>
                  panels[j] == SubmittedPanel(data[j].uid, data[j].status == "SUBMITTED", j == 0, PanelRows(data[j].tasks))
    {
      var rows := BuildPanelRows(data[i].tasks);
      panels := panels + [SubmittedPanel(data[i].uid, data[i].status == "SUBMITTED", i == 0, rows)];
    }
  }

  /**
    The completed panels: one per run, `success` exactly for a COMPLETED
    run, and the first expanded only when no timer is set.
   */
  method BuildCompleted(data: seq<Run>, timerSet: bool) returns (panels: seq<CompletedPanel>)
    ensures |panels| == |data|
    ensures forall i :: 0 <= i < |data| ==>
              panels[i] == CompletedPanel(data[i].uid, data[i].status == "COMPLETED", !timerSet && i == 0,
                                          DownloadRows(data[i].tasks))
  {
    panels := [];
    for i := 0 to |data|
      invariant |panels| == i
      invariant forall j :: 0 <= j < i ==>
                  panels[j] == CompletedPanel(data[j].uid, data[j].status == "COMPLETED", !timerSet && j == 0,
                                              DownloadRows(data[j].tasks))
    {
      var rows := BuildDownloadRows(data[i].tasks);
      panels := panels + [CompletedPanel(data[i].uid, data[i].status == "COMPLETED", !timerSet && i == 0, rows)];
    }
  }

  /** Every panel `p` with `expanded` cleared, as removing the `in` class does. */
  function Collapsed(panels: seq<CompletedPanel>): (r: seq<CompletedPanel>)
    ensures |r| == |panels|
    ensures forall i :: 0 <= i < |r| ==> !r[i].expanded && r[i] == panels[i].(expanded := false)
  {
    seq(|panels|, i requires 0 <= i < |panels| => panels[i].(expanded := false))
  }

  /** Every row with id `uid` rewritten to `row`, the others kept. */
  function Rewrite(rows: seq<TaskRow>, uid: string, row: Row): (r: seq<TaskRow>)
    ensures |r| == |rows|
    ensures forall i :: 0 <= i < |rows| ==> r[i] == if rows[i].taskUid == uid then TaskRow(uid, row) else rows[i]
  {
    seq(|rows|, i requires 0 <= i < |rows| => if rows[i].taskUid == uid then TaskRow(uid, row) else rows[i])
  }

  /** The rows after `updateSubmittedRunDetails` has gone through `tasks` in order. */
  function ApplyTasks(rows: seq<TaskRow>, tasks: seq<Task>): seq<TaskRow>
  {
    if tasks == [] then rows
    else
      var t := tasks[|tasks| - 1];
      var before := ApplyTasks(rows, tasks[..|tasks| - 1]);
      match UpdateRow(t)
      case Some(row) => Rewrite(before, t.uid, row)
      case None => before
  }

  /**
    Updating rewrites rows in place: the table keeps its rows and their ids,
    and a row whose id no task carries is left as it was.
   */
  lemma {:induction false} ApplyTasksInPlace(rows: seq<TaskRow>, tasks: seq<Task>)
    ensures |ApplyTasks(rows, tasks)| == |rows|
    ensures forall i :: 0 <= i < |rows| ==> ApplyTasks(rows, tasks)[i].taskUid == rows[i].taskUid
    ensures forall i :: 0 <= i < |rows| && (forall t :: t in tasks ==> t.uid != rows[i].taskUid) ==>
              ApplyTasks(rows, tasks)[i] == rows[i]
  {
    if tasks != [] {
      var init := tasks[..|tasks| - 1];
      ApplyTasksInPlace(rows, init);
      assert forall t :: t in init ==> t in tasks;
    }
  }

  method UpdateRows(rows: seq<TaskRow>, tasks: seq<Task>) returns (r: seq<TaskRow>)
    ensures r == ApplyTasks(rows, tasks)
  {
    r := rows;
    for i := 0 to |tasks|
      invariant r == ApplyTasks(rows, tasks[..i])
    {
      assert tasks[..i + 1][..i] == tasks[..i];
      var t := tasks[i];
      match UpdateRow(t) {
        case Some(row) => r := Rewrite(r, t.uid, row);
        case None =>
      }
    }
    assert tasks[..|tasks|] == tasks;
  }

  /** The first submitted panel of run `uid`, as the id lookup `$('#' + uid)` finds it. */
  function FindPanel(panels: seq<SubmittedPanel>, uid: string): (k: Option<nat>)
    ensures k.Some? ==> k.value < |panels| && panels[k.value].runUid == uid
                        && forall j :: 0 <= j < k.value ==> panels[j].runUid != uid
    ensures k.None? ==> forall j :: 0 <= j < |panels| ==> panels[j].runUid != uid
  {
    if panels == [] then None
    else if panels[0].runUid == uid then Some(0)
    else match FindPanel(panels[1..], uid)
      case None => None
      case Some(j) => Some(j + 1)
  }

  /**
    The job id the page reads from its address, the second-to-last piece
    between slashes (the address ends in `/`); there is none when the
    address holds no slash.
   */
  function JobUidFromUrl(href: string): (r: Option<string>)
    ensures r.Some? <==> Count(href, '/') >= 1
    ensures r.Some? ==> forall j :: 0 <= j < |r.value| ==> r.value[j] != '/'
    ensures r.Some? ==> |Split(href, '/')| >= 2 && r.value == Split(href, '/')[|Split(href, '/')| - 2]
  {
    var parts := Split(href, '/');
    SplitPieces(href, '/');
    if |parts| >= 2 then Some(parts[|parts| - 2]) else None
  }

  /**
    The page's own address, `<anything>/<uid>/<last>` with the last two
    pieces free of `/` (the last one is empty for an address ending in
    `/`), gives back the job id.
   */
  lemma JobUidOfAddress(front: string, uid: string, last: string)
    requires NoChar(uid, '/') && NoChar(last, '/')
    ensures JobUidFromUrl(front + "/" + uid + "/" + last) == Some(uid)
    ensures JobUidFromUrl(uid + "/" + last) == Some(uid)
  {
    var tail := uid + ['/'] + last;
    assert front + "/" + uid + "/" + last == front + ['/'] + tail;
    SplitAround(front, '/', tail);
    SplitTwo(uid, '/', last);
    assert uid + "/" + last == tail;
  }

  /** `exports.detail.timer`: `false`, or the handle of an interval (handles are positive, so truthy). */
  datatype Timer = NoTimer | Interval(handle: nat)

  /** The requests the page sends. */
  datatype Fetch =
    | JobFetch        // the job's details
    | SubmittedFetch  // the SUBMITTED runs, on page load
    | UpdateFetch     // the SUBMITTED runs, from the check interval
    | CompletedFetch  // the COMPLETED runs
    | RerunRequest    // the re-run call

  class DetailPage {
    const jobUid: string
    var timer: Timer
    var intervals: set<nat>
    var pendingStarts: nat
    var nextHandle: nat
    var fetches: seq<Fetch>
    var rerunDisabled: bool
    var submittedShown: bool
    var submitted: seq<SubmittedPanel>
    var completed: seq<CompletedPanel>

    /** Interval handles are positive and none is handed out twice. */
    ghost predicate Valid()
      reads this
    {
      && 0 < nextHandle
      && (forall h :: h in intervals ==> 0 < h < nextHandle)
      && (timer.Interval? ==> 0 < timer.handle < nextHandle)
    }

    /**
      `init`: the timer is `false` and the job, its submitted runs and its
      completed runs are requested. The button state and the submitted
      area's visibility before the script runs come from the markup.
     */
    constructor Init(jobUid: string, rerunDisabled: bool, submittedShown: bool)
      ensures Valid()
      ensures this.jobUid == jobUid && timer == NoTimer && intervals == {} && pendingStarts == 0
      ensures fetches == [JobFetch, SubmittedFetch, CompletedFetch]
      ensures this.rerunDisabled == rerunDisabled && this.submittedShown == submittedShown
      ensures submitted == [] && completed == []
    {
      this.jobUid := jobUid;
      timer := NoTimer;
      intervals := {};
      pendingStarts := 0;
      nextHandle := 1;
      fetches := [JobFetch, SubmittedFetch, CompletedFetch];
      this.rerunDisabled := rerunDisabled;
      this.submittedShown := submittedShown;
      submitted := [];
      completed := [];
    }

    /** `clearInterval(exports.detail.timer)`: a no-op while the timer is `false`. */
    method ClearTimer()
      requires Valid()
      modifies this`intervals
      ensures Valid()
      ensures intervals == if timer.Interval? then old(intervals) - {timer.handle} else old(intervals)
    {
      if timer.Interval? {
        intervals := intervals - {timer.handle};
      }
    }

    /**
      `startRunCheckInterval`: collapses the completed panels only when no
      timer is set, then schedules the delayed start.
     */
    method StartRunCheckInterval()
      requires Valid()
      modifies this`completed, this`pendingStarts
      ensures Valid()
      ensures completed == if timer.NoTimer? then Collapsed(old(completed)) else old(completed)
      ensures pendingStarts == old(pendingStarts) + 1
    {
      if timer.NoTimer? {
        completed := Collapsed(completed);
      }
      pendingStarts := pendingStarts + 1;
    }

    /**
      A scheduled start happens: a new interval is created and its handle
      stored in `timer`. The handle it overwrites is not cleared, so an
      interval already running stays live.
     */
    method DelayElapsed()
      requires Valid() && pendingStarts > 0
      modifies this`timer, this`intervals, this`nextHandle, this`pendingStarts
      ensures Valid()
      ensures timer == Interval(old(nextHandle)) && old(nextHandle) !in old(intervals)
      ensures intervals == old(intervals) + {old(nextHandle)}
      ensures pendingStarts == old(pendingStarts) - 1 && nextHandle == old(nextHandle) + 1
    {
      timer := Interval(nextHandle);
      intervals := intervals + {nextHandle};
      nextHandle := nextHandle + 1;
      pendingStarts := pendingStarts - 1;
    }

    /** Every live interval is the one `timer` holds. */
    ghost predicate AtMostOneLive()
      reads this
    {
      forall h :: h in intervals ==> timer == Interval(h)
    }

    /**
      The evidently intended delayed start: the interval `timer` holds is
      cleared before the new handle is stored, so the new interval is the
      only one live.
     */
    method CorrectedDelayElapsed()
      requires Valid() && pendingStarts > 0
      modifies this`timer, this`intervals, this`nextHandle, this`pendingStarts
      ensures Valid()
      ensures timer == Interval(old(nextHandle))
      ensures intervals == (if old(timer).Interval? then old(intervals) - {old(timer).handle} else old(intervals))
                           + {old(nextHandle)}
      ensures old(AtMostOneLive()) ==> AtMostOneLive() && intervals == {old(nextHandle)}
      ensures pendingStarts == old(pendingStarts) - 1 && nextHandle == old(nextHandle) + 1
    {
      ClearTimer();
      timer := Interval(nextHandle);
      intervals := intervals + {nextHandle};
      nextHandle := nextHandle + 1;
      pendingStarts := pendingStarts - 1;
    }

    /** Interval `h` fires: a live one asks for the submitted runs; a cleared one does nothing. */
    method Tick(h: nat)
      requires Valid()
      modifies this`fetches
      ensures Valid()
      ensures fetches == old(fetches) + (if h in intervals then [UpdateFetch] else [])
    {
      if h in intervals {
        fetches := fetches + [UpdateFetch];
      }
    }

    /**
      The answer to the check interval's request. A non-empty answer rewrites
      only the rows of the panel of `data[0]`; an empty one stops the timer,
      resets it to `false`, reloads the completed runs and enables rerun.
     */
    method UpdateAnswered(data: seq<Run>)
      requires Valid()
      modifies this
      ensures Valid()
      ensures nextHandle == old(nextHandle) && pendingStarts == old(pendingStarts)
      ensures completed == old(completed) && submittedShown == old(submittedShown)
      ensures |data| > 0 ==>
                && timer == old(timer) && intervals == old(intervals) && fetches == old(fetches)
                && rerunDisabled == old(rerunDisabled)
                && submitted == match FindPanel(old(submitted), data[0].uid)
                                case None => old(submitted)
                                case Some(k) => old(submitted)[k := old(submitted)[k].(rows := ApplyTasks(old(submitted)[k].rows, data[0].tasks))]
      ensures |data| == 0 ==>
                && timer == NoTimer
                && intervals == (if old(timer).Interval? then old(intervals) - {old(timer).handle} else old(intervals))
                && fetches == old(fetches) + [CompletedFetch] && !rerunDisabled && submitted == old(submitted)
    {
      if |data| > 0 {
        var k := FindPanel(submitted, data[0].uid);
        if k.Some? {
          var rows := UpdateRows(submitted[k.value].rows, data[0].tasks);
          submitted := submitted[k.value := submitted[k.value].(rows := rows)];
        }
      } else {
        ClearTimer();
        timer := NoTimer;
        fetches := fetches + [CompletedFetch];
        rerunDisabled := false;
      }
    }

    /**
      `initSumtittedRunPanel`: a non-empty list shows the submitted area and
      disables rerun; an empty one clears the interval but leaves the timer
      as it was, hides the area, reloads the completed runs and enables rerun.
     */
    method InitSubmittedPanel(data: seq<Run>)
      requires Valid()
      modifies this`submitted, this`submittedShown, this`rerunDisabled, this`intervals, this`fetches
      ensures Valid()
      ensures submittedShown == (|data| > 0) && rerunDisabled == (|data| > 0)
      ensures |data| > 0 ==>
                && intervals == old(intervals) && fetches == old(fetches) && |submitted| == |data|
                && forall i :: 0 <= i < |data| ==>
                     submitted[i] == SubmittedPanel(data[i].uid, data[i].status == "SUBMITTED", i == 0, PanelRows(data[i].tasks))
      ensures |data| == 0 ==>
                && intervals == (if timer.Interval? then old(intervals) - {timer.handle} else old(intervals))
                && fetches == old(fetches) + [CompletedFetch] && submitted == []
    {
      submitted := [];
      if |data| > 0 {
        submittedShown := true;
        rerunDisabled := true;
        submitted := BuildSubmitted(data);
      } else {
        ClearTimer();
        submittedShown := false;
        fetches := fetches + [CompletedFetch];
        rerunDisabled := false;
      }
    }

    /** The answer to the page-load request for submitted runs. */
    method SubmittedLoaded(data: seq<Run>)
      requires Valid()
      modifies this
      ensures Valid()
      ensures timer == old(timer) && intervals == old(intervals) && fetches == old(fetches) && nextHandle == old(nextHandle)
      ensures |data| == 0 ==> submitted == old(submitted) && completed == old(completed) && pendingStarts == old(pendingStarts)
                              && rerunDisabled == old(rerunDisabled) && submittedShown == old(submittedShown)
      ensures |data| > 0 ==> rerunDisabled && submittedShown && |submitted| == |data| && pendingStarts == old(pendingStarts) + 1
      ensures |data| > 0 ==> forall i :: 0 <= i < |data| ==>
                submitted[i] == SubmittedPanel(data[i].uid, data[i].status == "SUBMITTED", i == 0, PanelRows(data[i].tasks))
      ensures |data| > 0 ==> completed == if timer.NoTimer? then Collapsed(old(completed)) else old(completed)
    {
      if |data| > 0 {
        InitSubmittedPanel(data);
        StartRunCheckInterval();
      }
    }

    /** The rerun button is clicked. */
    method RerunClicked()
      requires Valid()
      modifies this`fetches
      ensures Valid()
      ensures fetches == old(fetches) + [RerunRequest]
    {
      fetches := fetches + [RerunRequest];
    }

    /** The rerun call answers with the new run: it is drawn as the submitted panel and a check is scheduled. */
    method RerunAnswered(run: Run)
      requires Valid()
      modifies this
      ensures Valid()
      ensures timer == old(timer) && intervals == old(intervals) && fetches == old(fetches) && nextHandle == old(nextHandle)
      ensures rerunDisabled && submittedShown && pendingStarts == old(pendingStarts) + 1
      ensures submitted == [SubmittedPanel(run.uid, run.status == "SUBMITTED", true, PanelRows(run.tasks))]
      ensures completed == if timer.NoTimer? then Collapsed(old(completed)) else old(completed)
    {
      InitSubmittedPanel([run]);
      StartRunCheckInterval();
    }

    /**
      The answer to a request for completed runs: the completed area is
      redrawn, and the submitted area is emptied and hidden only while the
      timer is `false`.
     */
    method CompletedLoaded(data: seq<Run>)
      requires Valid()
      modifies this`completed, this`submitted, this`submittedShown
      ensures Valid()
      ensures |completed| == |data|
      ensures forall i :: 0 <= i < |data| ==>
                completed[i] == CompletedPanel(data[i].uid, data[i].status == "COMPLETED", timer.NoTimer? && i == 0,
                                               DownloadRows(data[i].tasks))
      ensures timer.NoTimer? ==> submitted == [] && !submittedShown
      ensures timer.Interval? ==> submitted == old(submitted) && submittedShown == old(submittedShown)
    {
      if timer.NoTimer? {
        submitted := [];
        submittedShown := false;
      }
      completed := BuildCompleted(data, timer.Interval?);
    }
  }

  /**
    Two rerun answers before the first check starts leave two live
    intervals; the empty answer that ends the run clears only the one the
    timer holds, so one interval keeps polling after the timer is `false`.
   */
  method TwoStartsLeaveOneInterval(jobUid: string, run: Run) returns (page: DetailPage)
    ensures page.Valid()
    ensures page.timer == NoTimer && |page.intervals| == 1 && !page.rerunDisabled
  {
    page := new DetailPage.Init(jobUid, false, false);
    page.RerunClicked();
    page.RerunClicked();
    page.RerunAnswered(run);
    page.RerunAnswered(run);
    assert page.timer == NoTimer && page.intervals == {} && page.pendingStarts == 2;
    ghost var first := page.nextHandle;
    page.DelayElapsed();
    page.DelayElapsed();
    assert page.timer == Interval(first + 1) && page.intervals == {first, first + 1};
    page.UpdateAnswered([]);
    assert page.intervals == {first};
  }

  /**
    The same events with the corrected start: every start replaces the
    interval before it, and the empty answer that ends the run stops the
    last one, so nothing keeps polling.
   */
  method CorrectedStartsLeaveNone(jobUid: string, run: Run) returns (page: DetailPage)
    ensures page.Valid() && page.AtMostOneLive()
    ensures page.timer == NoTimer && page.intervals == {} && !page.rerunDisabled
  {
    page := new DetailPage.Init(jobUid, false, false);
    page.RerunClicked();
    page.RerunClicked();
    page.RerunAnswered(run);
    page.RerunAnswered(run);
    assert page.AtMostOneLive();
    page.CorrectedDelayElapsed();
    page.CorrectedDelayElapsed();
    page.UpdateAnswered([]);
  }
}
