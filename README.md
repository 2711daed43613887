# HOT Export Tool core, modelled in Dafny

This project models the deterministic core of the HOT OpenStreetMap Export Tool and proves properties of that model.

- **Feature selection** (`FeatureSelection`, `Slug`). A YAML document maps theme names to themes. Each theme lists the OpenStreetMap keys to `select`, an optional SQL `where` filter and optional geometry `types`. The model covers:
  - `validate_schema`, checked rule by rule and stopping at the first failure;
  - the `doc` cache;
  - the accessors `themes`, `geom_types`, `filter_clause`, `key_selections` and `key_union`;
  - the table names, and the CREATE and index SQL of `tables`, `create_sql` and `sqls`;
  - the per-theme README;
  - `slugify`.
- **The React export page** (`ExportDetails`). The run poller of the `ExportRuns` component across mount, update and unmount, and the decisions `render` makes about its buttons and rows.
- **The legacy job-detail page** (`RunDetail`). The `exports.detail.timer` state machine with its 2 s delayed start and 3 s check interval, the submitted and completed run panels, and the row each task gets.
- **The export-creation page** (`CreateJob`). The `validateBounds` verdict, the four extent fields it sets or clears, the wizard's `validateTab` gate, the submit guard and the resize-handle style.
- **The export list page** (`JobList`). Parsing of the `Content-Range` and `Link` headers into pager items, the default listing address, the bounding-box `filtering` flag, the toggle that hides and restores job extents, and the `unselect` override.
- **Shared modules.** `Text` holds the string operations of Python and JavaScript that the pages use: `split` on one character, `join`, `slice`, `trim`, ASCII lower-casing, and the sorting of a set of strings. `Wrappers` holds `Option`.

Timers, requests and their answers are logical events:
- A `setInterval` hands out a fresh handle, and its firing is a `Tick(h)` method.
- A `setTimeout` is a pending count that a `...DelayElapsed` method consumes.
- A request is appended to a log, and its answer is the argument of a `...Answered` or `...Loaded` method.

Geometry (the region intersection test, the reprojection, the geodesic area) and number formatting are function parameters.

The model follows the code where it misbehaves, and each such place is a row under "## Findings":
- `sqls` declares its `"z_index"` column `TEXT`, because `col_type` compares with the unquoted name. `Selection.Sqls` and `CreateSql` emit what the code emits. `CorrectedCreateFor` gives the integer typing.
- In ui/static/ui/js/detail.js, `startRunCheckInterval` stores a new interval handle in `timer` without clearing the previous one (lines 577-581). So two starts leave two live intervals, and the empty answer that ends the run clears only one of them. `DetailPage.DelayElapsed` models the code as written. `DetailPage.CorrectedDelayElapsed` is the intended start.

## Model

| member | source | states |
|---|---|---|
| Slug.SlugifyIsSlug | feature_selection/feature_selection.py:72-77 | the slug uses only `[a-z0-9_]`, never has `_` at either end and never contains `__`; the final `[_]+` substitution changes nothing |
| Slug.SlugifyIdempotent | feature_selection/feature_selection.py:72-77 | slugifying a slug gives it back |
| FeatureSelection.Selection.constructor | feature_selection/feature_selection.py:91-95 | a new selection has no cached document, no errors and an empty `keys_from_sql` |
| FeatureSelection.Selection.FindBadKey | feature_selection/feature_selection.py:114-120 | the key loop reports the first empty key as "Missing OSM key" and the first key outside `[a-zA-Z0-9 _:]` by name; it reports nothing iff every key is non-empty and in that alphabet |
| FeatureSelection.Selection.CheckOne | feature_selection/feature_selection.py:105-134 | one theme's checks in the source's order; `keys_from_sql[theme]` is reset only once the name and select rules pass, and becomes the validator's column names when the `where` clause is valid |
| FeatureSelection.Selection.ValidateSchema | feature_selection/feature_selection.py:100-136 | a non-dict document is rejected with "YAML must be dict, not list"; the themes are checked in order; on rejection exactly one error is appended, and none otherwise |
| FeatureSelection.ThemePassesIff | feature_selection/feature_selection.py:105-134 | a theme passes iff its name is not reserved, matches `^[a-zA-Z0-9_ ]+$`, it has a `select` list of non-empty keys in the key alphabet, and its `where` clause (if any) is valid; it then contributes exactly the clause's columns |
| FeatureSelection.ReservedFirst | feature_selection/feature_selection.py:62-69 | a name in `BANNED_THEME_NAMES` or starting with `gpkg_` or `rtree_` is rejected as "Theme name reserved: " followed by the name, before the character rule, whatever the theme holds |
| FeatureSelection.ResetOnlyOnSql | feature_selection/feature_selection.py:125-130 | a failure leaves `keys_from_sql[theme]` reset iff the theme passes every other rule and its `where` clause is invalid |
| FeatureSelection.FirstBadKeyMessage | feature_selection/feature_selection.py:115-120 | a key error is "Missing OSM key", or "Invalid OSM key: " followed by a key of the list that breaks the pattern |
| FeatureSelection.AcceptedIff | feature_selection/feature_selection.py:104-136 | a dict document is accepted iff every theme passes; then `keys_from_sql` maps every theme to its `where` columns |
| FeatureSelection.RejectedAtFirstFailure | feature_selection/feature_selection.py:104-136 | a document is rejected with error `e` iff some theme fails with `e` and every theme before it passes |
| FeatureSelection.Selection.Doc | feature_selection/feature_selection.py:138-152 | a cached document is returned unchanged and nothing is recorded; a YAML error appends its problem text; a loaded document is validated, and cached only when accepted |
| FeatureSelection.Selection.IsValid | feature_selection/feature_selection.py:155-157 | `valid` holds iff a document is cached afterwards; a YAML error is never valid |
| FeatureSelection.Selection.Themes | feature_selection/feature_selection.py:163-167 | the theme names in document order, free of duplicates, once the document validates, and `[]` otherwise |
| FeatureSelection.SlugThemes | feature_selection/feature_selection.py:169-171 | one slug per theme, each of slug shape |
| FeatureSelection.AccessorDefaults | feature_selection/feature_selection.py:173-185 | `geom_types` defaults to points, lines and polygons, and `filter_clause` defaults to `1`; otherwise each returns the theme's own value |
| FeatureSelection.Lookup | feature_selection/feature_selection.py:174-182 | `self.doc[theme]` finds the theme of that name, and there is none exactly when no entry has that name |
| FeatureSelection.ZipReadme | feature_selection/feature_selection.py:187-193 | the README holds the theme's filter and one wiki line per selected key, in order, joined by newlines |
| FeatureSelection.Selection.KeyUnion | feature_selection/feature_selection.py:198-206 | reading `self.themes` first loads and validates the document as `doc` does; the result is strictly sorted (so duplicate-free); an invalid document gives `[]`; a valid one gives exactly the selected keys and `where` columns of the themes with that geometry type, or of all themes without one; `raised` iff validation raises |
| FeatureSelection.UnionOf | feature_selection/feature_selection.py:199-205 | the nested loops collect exactly the keys that some matching theme selects or mentions in its `where` clause |
| FeatureSelection.Selection.Tables | feature_selection/feature_selection.py:208-214 | the document is loaded and validated first; an invalid one gives `[]`; a valid one gives one name `slugify(theme) + '_' + geom_type` per (theme, geometry type) pair, in document order; `raised` iff validation raises |
| FeatureSelection.TablesOf | feature_selection/feature_selection.py:210-214 | the nested loops produce the table name of every table of the document, in order |
| FeatureSelection.ThemeTableNames | feature_selection/feature_selection.py:212-213 | the table names of one theme, one per geometry type, in order |
| FeatureSelection.AllTablesShape | feature_selection/feature_selection.py:211-213 | the number of tables is the total number of geometry types, and each table belongs to a theme and one of its types |
| FeatureSelection.GeomTablesAgree | feature_selection/feature_selection.py:25-41 | the WKT, OSM id and ogr2ogr table maps are defined for exactly the same three geometry types |
| FeatureSelection.ColType | feature_selection/feature_selection.py:216-219 | the corrected `col_type`: `INTEGER(4) DEFAULT 0` for `z_index`, quoted or not, and `TEXT` for every other column; `ColTypeAsWritten` is the source's rule |
| FeatureSelection.CreateSql | feature_selection/feature_selection.py:221-236 | three statements exactly when the geometry type is known (none where Python raises KeyError): a CREATE of `slugify(theme) + '_' + geom_type` over the OSM id columns and the quoted selected keys, typed by `col_type` as written, copied from `geopackage.<table>` with filter `1`; then its `gpkg_contents` row and its `gpkg_geometry_columns` row with the WKT type |
| FeatureSelection.CreateSqlColumnsMatchSqls | feature_selection/feature_selection.py:222-224 | the table of `create_sql` has the name and, less the `"z_index"` column that `sqls` appends for a z-index key, the columns of the table `sqls` builds for the same theme and type |
| FeatureSelection.CreateSqlAllText | feature_selection/feature_selection.py:216-228 | every column of `create_sql`, a selected key named `z_index` included, is typed `TEXT` by `col_type` as written, since it is passed quoted |
| FeatureSelection.ColumnsShape | feature_selection/feature_selection.py:244-254 | the columns start with the OSM id columns of the geometry type, then hold one quoted column per selected key, and `"z_index"` is appended last iff a z-index key is selected |
| FeatureSelection.KeyColumnsOf | feature_selection/feature_selection.py:244-248 | the quoted keys, with `"z_index"` appended exactly when highway, railway, bridge, tunnel or layer is selected |
| FeatureSelection.ZIndexTypedInteger | feature_selection/feature_selection.py:246-258 | with the corrected typing the `"z_index"` column of a theme that selects a z-index key is declared `INTEGER(4) DEFAULT 0`, while `col_type` as written declares it `TEXT` |
| FeatureSelection.ZIndexTypedTextAsWritten | feature_selection/feature_selection.py:216-219 | as written, `col_type` types every column `sqls` passes it, `"z_index"` included, as `TEXT` |
| FeatureSelection.CorrectionOnlyAffectsZIndex | feature_selection/feature_selection.py:216-219 | the corrected CREATE statement equals the one the source emits for every table without a `"z_index"` column |
| FeatureSelection.Selection.Sqls | feature_selection/feature_selection.py:239-267 | the document is loaded and validated first; an invalid one gives two empty lists; for a valid one the CREATE and index lists hold one statement per table of `tables`, in order, each built from that table's columns typed by `col_type` as written (so `"z_index"` is `TEXT`) and the theme's filter; `ok` is false exactly when Python raises, in validation or with KeyError at an unknown geometry type |
| FeatureSelection.Selection.ThemeNamed | feature_selection/feature_selection.py:174-182 | `self.doc[theme]` reads `doc` with all its effects first; it yields the theme only when the document validates and has a theme of that name. Otherwise Python raises: TypeError on `None[theme]`, the validation's own exception, or KeyError |
| FeatureSelection.Selection.GeomTypesNamed | feature_selection/feature_selection.py:173-176 | `geom_types(theme)` after `doc` is read: the named theme's `types`, or points, lines and polygons; nothing where the lookup raises |
| FeatureSelection.Selection.KeySelectionsNamed | feature_selection/feature_selection.py:178-179 | `key_selections(theme)` after `doc` is read: the named theme's `select` items; nothing where the lookup raises |
| FeatureSelection.Selection.FilterClauseNamed | feature_selection/feature_selection.py:181-185 | `filter_clause(theme)` after `doc` is read: the named theme's `where` clause, or `1`; nothing where the lookup raises |
| FeatureSelection.Selection.ZipReadmeNamed | feature_selection/feature_selection.py:187-193 | `zip_readme(theme)` after `doc` is read: the README of the named theme, with both lookups of the source; nothing where the first lookup raises |
| FeatureSelection.Selection.CreateSqlNamed | feature_selection/feature_selection.py:221-236 | `create_sql(theme, geom_type)` after `doc` is read: the three statements of the named theme, or nothing where the lookup or the geometry-type KeyError raises |
| FeatureSelection.SqlsOf | feature_selection/feature_selection.py:241-266 | the loops over the themes produce the statements of every table in order, or stop at the first unknown geometry type |
| FeatureSelection.ThemeSqls | feature_selection/feature_selection.py:243-266 | the statements of one theme's tables, one per geometry type in order, typed as the source types them, or failure at the first unknown geometry type |
| FeatureSelection.AppendTableSqls | feature_selection/feature_selection.py:251-266 | one table's CREATE statement (its name, WKT type, columns typed by `col_type` as written, ogr2ogr source and the theme's filter) and its index statement extend the statements of the tables before it |
| ExportDetails.DidUpdateAction | ui/app/components/ExportDetails.js:182-199 | a job change restarts; otherwise a terminal newest run stops; a running newest run without a poller starts one; no runs, or a poller already there, keeps everything |
| ExportDetails.EmptyRunsKeepPoller | ui/app/components/ExportDetails.js:190 | an empty run list leaves the poller as it is |
| ExportDetails.DidUpdateSettles | ui/app/components/ExportDetails.js:190-196 | a second update with the same job and runs starts nothing and does not change whether a poller exists |
| ExportDetails.ExportRuns.constructor | ui/app/components/ExportDetails.js:175 | a new component has no poller and no live interval |
| ExportDetails.ExportRuns.WillMount | ui/app/components/ExportDetails.js:176-180 | mounting fetches the runs of the job |
| ExportDetails.ExportRuns.ClearPoller | ui/app/components/ExportDetails.js:186 | `clearInterval(this.poller)` removes the poller's interval and is a no-op without one |
| ExportDetails.ExportRuns.DidUpdate | ui/app/components/ExportDetails.js:182-199 | whether a poller exists afterwards follows `DidUpdateAction`; a started poller is a fresh 15 s interval for this job, and the one interval alive; a job change re-fetches its runs; at most one poller ever exists |
| ExportDetails.ExportRuns.WillUnmount | ui/app/components/ExportDetails.js:201-204 | after unmounting there is no poller and no live interval |
| ExportDetails.ExportRuns.Tick | ui/app/components/ExportDetails.js:195 | a live interval is the poller and fetches the runs of the job now shown; a cleared one does nothing |
| ExportDetails.AnyFlagged | ui/app/components/ExportDetails.js:458-459 | `.some` holds iff some export format is flagged |
| ExportDetails.RequiresFeatureSelection | ui/app/components/ExportDetails.js:448-460 | true iff there is an export, it has a formats list, and some format in it is flagged |
| ExportDetails.Render | ui/app/components/ExportDetails.js:462-537 | loading shows the spinner first, then a missing export shows "not found"; the button group shows iff feature selection is required or the user is logged in; Features iff required; Re-Run and Clone iff logged in; Delete iff the group shows and the user owns the export |
| ExportDetails.GroupNeverEmpty | ui/app/components/ExportDetails.js:499-537 | the button group is rendered exactly when it holds a button; the owner of an export that needs no feature selection sees Delete only when logged in |
| ExportDetails.ForceStopKeepsPolling | ui/app/components/ExportDetails.js:228 | a run offered a force stop (SUBMITTED or RUNNING) is not terminal, so as the newest run it keeps a poller |
| ExportDetails.HdxSyncRow | ui/app/components/ExportDetails.js:263-306 | the HDX row is shown iff the user has the HDX permissions; its button is disabled iff the run is synced, exactly when the caption says "Uploaded" |
| RunDetail.PanelRow | ui/static/ui/js/detail.js:278-369 | a known task gets a row; its class is the lower-cased status; PENDING, RUNNING or FAILED tasks get the plain caption, no link and a dashed size, and the duration only for the extract, KML, PBF and Shapefile rows; other tasks get a link to their file iff they produce one, their size (empty for OSMSchema) and their duration when they have one, ` -- ` otherwise |
| RunDetail.UpdateRow | ui/static/ui/js/detail.js:430-539 | as `PanelRow`, except that in-progress rows show a dashed duration and a finished OSMSchema row a dashed size |
| RunDetail.PanelAndUpdateAgree | ui/static/ui/js/detail.js:278-369 | the two drawings of a row agree for finished tasks except OSMSchema's size cell, and for tasks in progress except the duration cell |
| RunDetail.CompletedRow | ui/static/ui/js/detail.js:148-177 | a completed-run row exists iff the task produces a file, and links to the file with its duration and size |
| RunDetail.CompletedAgreesWithUpdate | ui/static/ui/js/detail.js:148-177 | a finished file task with a duration reads the same in the completed table as in the submitted one |
| RunDetail.PanelRowsFromTasks | ui/static/ui/js/detail.js:277-370 | every submitted-panel row belongs to a task of the run and is that task's row |
| RunDetail.BuildPanelRows | ui/static/ui/js/detail.js:277-370 | the task loop appends one row per known task, in order |
| RunDetail.BuildDownloadRows | ui/static/ui/js/detail.js:147-178 | the task loop appends one row per file task, in order |
| RunDetail.BuildSubmitted | ui/static/ui/js/detail.js:264-371 | one panel per run, `alert-info` exactly for a SUBMITTED run, only the first expanded |
| RunDetail.BuildCompleted | ui/static/ui/js/detail.js:131-179 | one panel per run, `alert-success` exactly for a COMPLETED run, the first expanded only when no timer is set |
| RunDetail.Collapsed | ui/static/ui/js/detail.js:569 | every completed panel loses its `in` class and nothing else changes |
| RunDetail.Rewrite | ui/static/ui/js/detail.js:435-537 | the rows with the task's id are rewritten and the others kept |
| RunDetail.ApplyTasksInPlace | ui/static/ui/js/detail.js:430-541 | updating keeps the table's rows and their ids, and leaves a row that no task names as it was |
| RunDetail.UpdateRows | ui/static/ui/js/detail.js:430-541 | the task loop rewrites the rows as `ApplyTasks` says |
| RunDetail.FindPanel | ui/static/ui/js/detail.js:428 | `$('#' + run_uid)` finds the first panel of that run, or none when no panel has that id |
| RunDetail.JobUidFromUrl | ui/static/ui/js/detail.js:24-25 | the job id is the second-to-last piece of the address between slashes; it exists iff the address holds a slash, and it holds none |
| RunDetail.JobUidOfAddress | ui/static/ui/js/detail.js:24-25 | an address `<anything>/<uid>/<last>`, or `<uid>/<last>`, gives back `uid` |
| RunDetail.DetailPage.Init | ui/static/ui/js/detail.js:23-32 | `timer` starts `false`; the job, its submitted runs and its completed runs are requested |
| RunDetail.DetailPage.ClearTimer | ui/static/ui/js/detail.js:255 | `clearInterval(timer)` removes the timer's interval, and is a no-op while the timer is `false` |
| RunDetail.DetailPage.StartRunCheckInterval | ui/static/ui/js/detail.js:561-582 | the completed panels collapse only when no timer is set; one delayed start is scheduled |
| RunDetail.DetailPage.DelayElapsed | ui/static/ui/js/detail.js:577-581 | the delayed start stores a fresh interval handle in `timer` and keeps every interval already live |
| RunDetail.DetailPage.CorrectedDelayElapsed | ui/static/ui/js/detail.js:577-581 | the intended start clears the interval the timer holds before storing the new one; when every live interval was the timer's, the new one is the only one live |
| RunDetail.DetailPage.Tick | ui/static/ui/js/detail.js:578-580 | a live interval asks for the submitted runs; a cleared one does nothing |
| RunDetail.DetailPage.UpdateAnswered | ui/static/ui/js/detail.js:420-555 | a non-empty answer rewrites only the rows of the panel of `data[0]`; an empty one clears the interval, resets `timer` to `false`, reloads the completed runs and enables rerun |
| RunDetail.DetailPage.InitSubmittedPanel | ui/static/ui/js/detail.js:244-263 | non-empty data shows the panel and disables rerun; empty data clears the interval but leaves `timer` as it was, reloads the completed runs and enables rerun |
| RunDetail.DetailPage.SubmittedLoaded | ui/static/ui/js/detail.js:231-239 | only a non-empty answer changes the page: it draws one panel per run, in order, with its uid, the `alert-info` style exactly for a SUBMITTED run, only the first expanded and the rows of its tasks, disables rerun and schedules a check; the timer, the live intervals, the request log and the next interval handle stay as they were |
| RunDetail.DetailPage.RerunClicked | ui/static/ui/js/detail.js:102-103 | a click sends the rerun request |
| RunDetail.DetailPage.RerunAnswered | ui/static/ui/js/detail.js:104-109 | the new run is drawn as the only submitted panel, rerun is disabled and a check is scheduled |
| RunDetail.DetailPage.CompletedLoaded | ui/static/ui/js/detail.js:119-182 | the completed panels are redrawn; the submitted area is emptied and hidden only while `timer` is `false` |
| RunDetail.TwoStartsLeaveOneInterval | ui/static/ui/js/detail.js:561-582 | as written, two rerun answers, their two delayed starts and then the end of the run leave `timer` `false` and one interval still live |
| RunDetail.CorrectedStartsLeaveNone | ui/static/ui/js/detail.js:561-582 | with the corrected start, the same events leave `timer` `false` and no live interval |
| CreateJob.Classify | ui/static/ui/js/create.js:345-366 | no bounds, then outside every region, then an area strictly over 2500000 km², in that order; an area equal to the maximum is valid |
| CreateJob.OutsideBeforeArea | ui/static/ui/js/create.js:345-352 | an extent both outside every region and too large is reported as outside |
| CreateJob.OutsideIgnoresArea | ui/static/ui/js/create.js:345-351 | once the extent is outside every region, the area decides nothing |
| CreateJob.ValidateBounds | ui/static/ui/js/create.js:320-367 | no bounds gives false; the region test passes iff the extent meets at least one region; any bounds are reprojected in place to EPSG:4326; the area is in square kilometres; the result is true iff the verdict is valid |
| CreateJob.Bounds.constructor | ui/static/ui/js/create.js:148 | a bounds value holds its coordinates and their CRS |
| CreateJob.ExtentFields.SetBounds | ui/static/ui/js/create.js:284-295 | the four fields get the four formatted sides |
| CreateJob.ExtentFields.UnsetBounds | ui/static/ui/js/create.js:300-306 | the four fields are emptied |
| CreateJob.ExtentFields.ExtentChanged | ui/static/ui/js/create.js:138-165 | after a draw or a transform, all four fields are set from the reprojected bounds iff the verdict is valid, and all four emptied otherwise |
| CreateJob.ValidateTab | ui/static/ui/js/create.js:516-541 | an invalid bounding box blocks the move and re-checks the extent; otherwise only a passing step allows it; a pending bounding box does not block |
| CreateJob.TabGateIsMonotone | ui/static/ui/js/create.js:492-513 | making either container pass never blocks a move that was allowed; a pending bounding box acts as a passing one |
| CreateJob.InvalidFields | ui/static/ui/js/create.js:420-479 | no field is invalid iff name, description, event and the four extent fields are non-empty and one to five formats are chosen |
| CreateJob.FormatsBounded | ui/static/ui/js/create.js:442-449 | a submitted form has between one and five formats |
| CreateJob.RejectedExtentBlocksSubmit | ui/static/ui/js/create.js:544-550 | emptied extent fields make `xmin` invalid, so submission is prevented |
| CreateJob.GetDisplay | ui/static/ui/js/create.js:390-398 | a handle is hidden iff it is one of the seven resize handles other than the south-east one |
| JobList.At | ui/static/ui/js/list.js:479 | indexing past the end gives `undefined` |
| JobList.RangeAndTotalOf | ui/static/ui/js/list.js:468-471 | for a header `<unit> <range>/<total>`, the total is the text after `/` and the range is the second word before it |
| JobList.ParseEntry | ui/static/ui/js/list.js:491-494 | an entry parses iff it has a `;` and an `=` after it; otherwise reading it raises |
| JobList.Paginate | ui/static/ui/js/list.js:468-484 | without `Content-Range` the handler raises at once; without a `Link` header there are no pager items; at most two items |
| JobList.LinkItems | ui/static/ui/js/list.js:476-479 | only the text before the first `,` and the text between the first and second `,` are read; a header without a `,` is a single entry |
| JobList.LinkItemsAroundComma | ui/static/ui/js/list.js:476-479 | a header `x,y` with no `,` in `x` gives the items of the entry `x` and of the first piece of `y` |
| JobList.ItemsOf | ui/static/ui/js/list.js:490-521 | a present second entry is read first: if unreadable the handler raises with nothing drawn, otherwise it is the first item, always "prev"; a present first entry then becomes the last item, "prev" iff its rel is `prev`, or raises; at most two items, one per present readable entry |
| JobList.ParseLinkEntry | ui/static/ui/js/list.js:491-494 | parsing takes back the url and rel of an entry written `<url>; rel="rel"`, with any spaces in front |
| JobList.TrimPadded | ui/static/ui/js/list.js:491 | `trim` drops leading spaces and keeps a word that neither starts nor ends with one |
| JobList.PaginateTwoEntries | ui/static/ui/js/list.js:490-521 | with two entries, the second becomes "prev", then the first is "prev" iff its rel is `prev` and "next" otherwise |
| JobList.PaginateParsed | ui/static/ui/js/list.js:490-521 | two non-empty entries that both parse give the second as "prev", then the first by its rel |
| JobList.PaginateOneEntry | ui/static/ui/js/list.js:502-521 | with one entry there is one item, "prev" iff its rel is `prev` |
| JobList.PaginateSingle | ui/static/ui/js/list.js:502-521 | one non-empty entry that parses gives one item, directed by its rel |
| JobList.EntryHasNoComma | ui/static/ui/js/list.js:477 | an entry whose url and rel hold no `,` survives the split on `,` whole |
| JobList.ListUrl | ui/static/ui/js/list.js:337-341 | a falsy address falls back to the jobs endpoint; any other is used as given |
| JobList.PagerTarget | ui/static/ui/js/list.js:496-498 | a `data-url` of `'undefined'` lists the jobs endpoint |
| JobList.PagerTargetIsUsable | ui/static/ui/js/list.js:496-498 | a pager click fetches the item's own address or the jobs endpoint, never an empty or `'undefined'` one |
| JobList.GetDisplay | ui/static/ui/js/list.js:279-287 | a handle is hidden iff it is one of the n, ne, e, s, sw and w resize handles |
| JobList.GetDisplayDiffersAtNorthWest | ui/static/ui/js/list.js:279-287 | the list page's filter box and the creation page's selection box differ exactly at the north-west handle |
| JobList.Unselected | ui/static/ui/js/list.js:13-27 | a hidden extent keeps its `hidden` intent on unselect; any other goes back to `default` |
| JobList.ToggleHides | ui/static/ui/js/list.js:363-378 | a toggled visible extent ends `hidden`, even after the unselect; a hidden one ends `default`; the toggle always flips what `getVisibility` reports |
| JobList.ToggleTwice | ui/static/ui/js/list.js:363-378 | a second click undoes the first: the extent's visibility is back, a hidden one hidden again and any other at `default` |
| JobList.WarnedOthersUnchanged | ui/static/ui/js/list.js:371-375 | the toggle touches only the warning mark of the clicked job's row |
| JobList.WarnedSingle | ui/static/ui/js/list.js:363-378 | with one extent per job, the row is marked exactly when the extent was visible |
| JobList.ListPage.constructor | ui/static/ui/js/list.js:6 | `filtering` starts false |
| JobList.ListPage.SetBounds | ui/static/ui/js/list.js:734-744 | the bounds are reprojected in place, the four formatted sides are written comma-separated into the bbox field, and a search is scheduled |
| JobList.ListPage.BoxChanged | ui/static/ui/js/list.js:196-210 | drawing or transforming a box turns filtering on and sets the bounds |
| JobList.ListPage.ClearFilter | ui/static/ui/js/list.js:234-243 | acts only while filtering: it turns filtering off, sets bbox to `-180,-90,180,90` and searches with it at once |
| JobList.ListPage.SearchDelayElapsed | ui/static/ui/js/list.js:758-762 | a scheduled search runs with the box as it is then |
| JobList.ListPage.Unselect | ui/static/ui/js/list.js:13-27 | the override applies to the one extent, which leaves the selection |
| JobList.ListPage.ToggleFeature | ui/static/ui/js/list.js:363-378 | every extent of the clicked job is toggled and the others are untouched; the visible ones are unselected; the row's mark follows the loop through the extents in order |

## Left out

- YAML parsing (`yaml.safe_load`) is not modelled. A document arrives parsed. A syntax error is represented by its problem text only, without its line and column.
- Python 2 dict order is not modelled. A dict is a sequence of entries with distinct names, visited in sequence order, so which error is recorded first depends on an order Python does not fix.
- A theme whose value is not a mapping is not modelled. In the source, a string or list value does not raise at `'select' not in theme_dict` (line 111): that is a substring or membership test. So `buildings: foo` is rejected with "Each theme must have a 'select' key", and a value that passes the test raises TypeError at `theme_dict['select']`. A null, number or boolean value raises TypeError at the test.
- Theme names are strings. In the source, a non-string name (a number, boolean or null YAML key) raises AttributeError at `theme.startswith` (line 105).
- The items of `select` are strings. In the source, a non-string item raises TypeError in `re.match` (line 118), except a falsy one (0, False, null), which is rejected with "Missing OSM key" (line 115).
- A theme's `types` is a list of strings. In the source, a string `types` is iterated character by character by `tables` and `sqls` (lines 212 and 251) and tested as a substring by `key_union` (line 201). A null `types` makes `tables` and `sqls` raise TypeError, and `key_union` too when it is given a geometry type.
- `SQLValidator` becomes a function parameter returning the verdict, the error messages and the column names. Its source is not part of this model.
- `slugify` takes its input after `unicodedata.normalize` and the ASCII folding, which are not modelled.
- `lower` and `toLowerCase` are ASCII only.
- JavaScript `trim` removes only the common ASCII and Unicode spaces (`IsJsSpace`), not every character in the standard's whitespace and line-terminator sets.
- `FeatureSelection.CreateFor`: for a table of unknown geometry type it returns "". `FeatureSelection.IndexFor` does the same. `sqls` raises KeyError before it would need either, and `Selection.Sqls` reports `ok == false` there.
- The `column_names` and `errors` fields of `SQLValidator` are opaque sequences. The join of the error messages is modelled, but their text is not.
- All DOM work is left out: jQuery, Handlebars templates, React/JSX, react-intl texts, DataTables, the date pickers, the sticky-scroll handler and the tag filter. Pages are reduced to the state the scripts read or write.
- The HTML markup of rows is left out. This includes the malformed Garmin cell of an in-progress row in the submitted panel (detail.js line 340). Only its values are modelled.
- HTTP requests (`$.getJSON`, `$.ajax`, `axios`, `cancel_run`, HDX sync) are entries in a log. Their answers are method arguments.
- `setInterval` and `setTimeout` are logical events. Wall-clock time is not modelled.
- OpenLayers geometry becomes function parameters: `intersects`, the EPSG:3857 to EPSG:4326 reprojection, and `getGeodesicArea`. So do the `numeral` and `moment` formatting.
- The aliasing between the bounds a handler clones and the map feature is not modelled. Each handler owns its `Bounds` object.
- The id lookup `$('#' + uid)` searches the submitted panels only, not the whole document.
- The form validator becomes data. `notEmpty` is `!= ""`, `choice` counts the ticked formats, and `isValidContainer` is a `Validity`. The submit guard reads `$invalidFields` as the list of fields that break their rule, as if every field had been validated.
- `REQUIRES_FEATURE_SELECTION` (ui/app/utils.js) is a set parameter, and utils.js is not part of this model. `RequirePermission` is a boolean parameter.
- `getVisibility` is read from the render intent alone (`Visible`). Its other conditions, a feature-level style and the layer's presence and scale range, are not modelled, and neither is the layer's own redraw.
- The initial state of the markup (the rerun button, the submitted area's visibility, the bbox field, the four extent fields of the creation form, the map's extents) consists of constructor parameters. The templates that set it are not part of this model.
- PanelRow: the model reads a finished task's `result.url` and `result.size` as always present. In the source, a task whose `result` is null raises a TypeError there. This stops the `$.each` and the rest of that redraw, and the model does not capture the abort.
- UpdateRow: the same null `result` abort of the update loop is not modelled.
- CompletedRow: the completed table reads `result.url` and `result.size` of every file task whatever its status. The abort a null `result` causes there is not modelled.
- The validation messages and alert texts of `validateBounds` are left out. Only the verdict they report is modelled.

## Findings

| source | as written | input that shows it | evidently intended | confidence | as-written member | corrected member |
|---|---|---|---|---|---|---|
| feature_selection/feature_selection.py:216-219 | `col_type` gives `INTEGER(4) DEFAULT 0` only for the bare name `z_index`, but `sqls` appends the quoted `"z_index"` (line 248) and passes every column to `col_type` quoted, so the column is declared `TEXT` | a theme that selects `highway` | the `z_index` column added for a highway, railway, bridge, tunnel or layer key is an integer column with default 0 | not executed | FeatureSelection.ZIndexTypedTextAsWritten | FeatureSelection.ZIndexTypedInteger |
| ui/static/ui/js/detail.js:577-581 | the delayed start of `startRunCheckInterval` stores a new `setInterval` handle in `exports.detail.timer` without clearing the one it holds, so two starts leave two live intervals and the `clearInterval(timer)` that ends the run (line 545) stops only the second | two rerun answers before the first check starts, then an empty answer from the check | at most one check interval is live, and none after the run ends | not executed | RunDetail.TwoStartsLeaveOneInterval | RunDetail.CorrectedStartsLeaveNone |
