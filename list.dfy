/**
  The export list page, ui/static/ui/js/list.js: the pager built from the
  `Content-Range` and `Link` response headers, the address a listing is
  fetched from, the bounding-box filter state, showing and hiding job
  extents, and the `unselect` override that keeps hidden extents hidden.

  A missing header is `None` (`getResponseHeader` returns `null`), and a
  property read on `undefined` or `null`, which raises a `TypeError` in the
  source, ends the parse with `raised` set.
 */
module JobList {
  import opened Wrappers
  import opened Text
  import CreateJob

  /** The direction of a pager link. */
  datatype Direction = Prev | Next

  /** A pager item and the `data-url` it carries. */
  datatype PageLink = PageLink(dir: Direction, url: string)

  /**
    What `paginate` leaves on the page: the range text, the pager items in
    the order they were appended, and whether it stopped on an exception.
   */
  datatype Pager = Pager(info: string, links: seq<PageLink>, raised: bool)

  /** `parts[i]`, `undefined` past the end. */
  function At(parts: seq<string>, i: nat): (r: Option<string>)
    ensures r.Some? <==> i < |parts|
    ensures r.Some? ==> r.value == parts[i]
  {
    if i < |parts| then Some(parts[i]) else None
  }

  /** How string concatenation shows a possibly undefined value. */
  function Show(o: Option<string>): string
  {
    o.GetOr("undefined")
  }

  /** The range (second word before the `/`) and the total (the text after it) of a `Content-Range` header. */
  function RangeAndTotal(h: string): (r: (Option<string>, Option<string>))
  {
    var slash := Split(h, '/');
    (At(Split(slash[0], ' '), 1), At(slash, 1))
  }

  /** The range info text shown above the results. */
  function RangeInfo(h: string): string
  {
    var (range, total) := RangeAndTotal(h);
    "Displaying " + Show(range) + " of " + Show(total) + " results"
  }

  /** The usual `Content-Range` value, `<unit> <range>/<total>`, gives back its range and total. */
  lemma RangeAndTotalOf(unit: string, range: string, total: string)
    requires NoChar(unit, ' ') && NoChar(unit, '/') && NoChar(range, '/') && NoChar(range, ' ') && NoChar(total, '/')
    ensures RangeAndTotal(unit + " " + range + "/" + total) == (Some(range), Some(total))
  {
    var h := unit + " " + range + "/" + total;
    var before := unit + " " + range;
    assert h == before + ['/'] + total;
    assert NoChar(before, '/');
    SplitConcat(before, '/', total);
    SplitNoSep(total, '/');
    assert Split(h, '/') == [before, total];
    assert before == unit + [' '] + range;
    SplitConcat(unit, ' ', range);
    SplitNoSep(range, ' ');
  }

  /**
    One entry of a `Link` header: the URL is the trimmed text before the
    first `;` without its first and last characters, and the rel is the
    text between the first and second `=` of the piece after that `;`,
    again without its first and last characters. `None` where the source
    raises: no `;`, or no `=` after it.
   */
  function ParseEntry(e: string): (r: Option<(string, string)>)
    ensures r.Some? <==> |Split(e, ';')| >= 2 && |Split(Split(e, ';')[1], '=')| >= 2
  {
    var parts := Split(e, ';');
    if |parts| < 2 then None
    else
      var kv := Split(parts[1], '=');
      if |kv| < 2 then None
      else
        var u := Trim(parts[0]);
        Some((Slice(u, 1, |u| - 1), Slice(kv[1], 1, |kv[1]| - 1)))
  }

  /**
    `paginate`. Without a `Content-Range` header it raises at once. Without
    a `Link` header (or with an empty one) there are no pager items.
    Otherwise the header is split on `,`: a second entry, when present and
    non-empty, is always rendered as a "prev" item, and then the first,
    when non-empty, as "prev" exactly when its rel is `prev` and as "next"
    otherwise.
   */
  function Paginate(rangeHeader: Option<string>, link: Option<string>): (p: Pager)
    ensures |p.links| <= 2
    ensures rangeHeader.None? ==> p == Pager("", [], true)
    ensures rangeHeader.Some? ==> p.info == RangeInfo(rangeHeader.value)
    ensures link.None? ==> p.links == [] && (p.raised <==> rangeHeader.None?)
  {
    match rangeHeader
    case None => Pager("", [], true)
    case Some(h) =>
      if link.None? || link.value == "" then Pager(RangeInfo(h), [], false)
      else
        var items := LinkItems(link.value);
        Pager(RangeInfo(h), items.0, items.1)
  }

  /**
    The pager items of a non-empty `Link` header, and whether building them
    raised: only the text before the first `,` and the text between the
    first and second `,` are read.
   */
  function LinkItems(link: string): (r: (seq<PageLink>, bool))
    ensures |r.0| <= 2
    ensures NoChar(link, ',') ==> r == ItemsOf([link])
    ensures |Split(link, ',')| >= 2 ==> r == ItemsOf([Split(link, ',')[0], Split(link, ',')[1]])
  {
    var entries := Split(link, ',');
    SplitPieces(link, ',');
    JoinSplit(link, ',');
    CountNoChar(link, ',');
    if |entries| >= 2 then
      assert entries[..2] == [entries[0], entries[1]];
      ItemsOf(entries[..2])
    else
      ItemsOf(entries)
  }

  /** The separator occurs in a string exactly when it is counted there. */
  lemma {:induction false} CountNoChar(s: string, c: char)
    ensures NoChar(s, c) <==> Count(s, c) == 0
  {
    if s != [] {
      CountNoChar(s[1..], c);
      assert NoChar(s[1..], c) <==> forall i :: 1 <= i < |s| ==> s[i] != c by {
        forall i | 1 <= i < |s| ensures s[1..][i - 1] == s[i] { }
      }
    }
  }

  /** A header split around its first `,`: the entry before it and the one after it are all that count. */
  lemma LinkItemsAroundComma(x: string, y: string)
    requires NoChar(x, ',')
    ensures LinkItems(x + [','] + y) == ItemsOf([x, Split(y, ',')[0]])
  {
    SplitConcat(x, ',', y);
    assert (x + [','] + y)[|x|] == ',';
  }

  /** The direction of the item an entry becomes when it is the first one. */
  function RelDirection(rel: string): (d: Direction)
    ensures d == Prev <==> rel == "prev"
  {
    if rel == "prev" then Prev else Next
  }

  /** Entry `i` of the header is present and non-empty. */
  predicate Present(entries: seq<string>, i: nat)
  {
    i < |entries| && entries[i] != ""
  }

  /**
    The items built from the entries `a` (the first) and `b` (the second,
    `undefined` when missing). A present second entry is read first: when
    it cannot be read the handler raises with nothing drawn, and otherwise
    it becomes the first item, always "prev". A present first entry is
    then read and becomes the last item, directed by its rel, or raises.
   */
  function ItemsOf(entries: seq<string>): (r: (seq<PageLink>, bool))
    requires |entries| >= 1
    ensures |r.0| <= 2
    ensures Present(entries, 1) && ParseEntry(entries[1]).None? ==> r == ([], true)
    ensures Present(entries, 1) && ParseEntry(entries[1]).Some? ==>
              |r.0| >= 1 && r.0[0] == PageLink(Prev, ParseEntry(entries[1]).value.0)
    ensures !(Present(entries, 1) && ParseEntry(entries[1]).None?) ==>
              && (r.1 <==> Present(entries, 0) && ParseEntry(entries[0]).None?)
              && |r.0| == (if Present(entries, 1) then 1 else 0)
                          + (if Present(entries, 0) && ParseEntry(entries[0]).Some? then 1 else 0)
    ensures !(Present(entries, 1) && ParseEntry(entries[1]).None?) && Present(entries, 0)
            && ParseEntry(entries[0]).Some? ==>
              r.0[|r.0| - 1] == PageLink(RelDirection(ParseEntry(entries[0]).value.1), ParseEntry(entries[0]).value.0)
  {
    var a := entries[0];
    var b := At(entries, 1);
    var hasB := b.Some? && b.value != "";
    if hasB && ParseEntry(b.value).None? then ([], true)
    else
      var first := if hasB then [PageLink(Prev, ParseEntry(b.value).value.0)] else [];
      if a == "" then (first, false)
      else
        match ParseEntry(a)
        case None => (first, true)
        case Some((url, rel)) => (first + [PageLink(RelDirection(rel), url)], false)
  }

  /** One entry as the API writes it: `<url>; rel="rel"`. */
  function LinkEntry(url: string, rel: string): string
  {
    "<" + url + ">; rel=\"" + rel + "\""
  }

  /** A URL and a rel that the entry syntax can carry. */
  predicate Carriable(url: string, rel: string)
  {
    NoChar(url, ',') && NoChar(url, ';') && NoChar(rel, ',') && NoChar(rel, ';') && NoChar(rel, '=')
  }

  /** `ParseEntry` takes back what `LinkEntry` wrote, with any spaces in front of it. */
  lemma ParseLinkEntry(pad: string, url: string, rel: string)
    requires Carriable(url, rel)
    requires forall i :: 0 <= i < |pad| ==> pad[i] == ' '
    ensures ParseEntry(pad + LinkEntry(url, rel)) == Some((url, rel))
  {
    var bracketed := "<" + url + ">";
    var front := pad + bracketed;
    var value := "\"" + rel + "\"";
    var back := " rel" + ['='] + value;
    EntryShape(pad, url, rel);
    assert pad + LinkEntry(url, rel) == front + [';'] + back;
    assert NoChar(front, ';') by {
      NoCharAppend("<", url, ';');
      NoCharAppend("<" + url, ">", ';');
      NoCharAppend(pad, bracketed, ';');
    }
    assert NoChar(value, ';') && NoChar(value, '=') by {
      NoCharAppend("\"", rel, ';');
      NoCharAppend("\"" + rel, "\"", ';');
      NoCharAppend("\"", rel, '=');
      NoCharAppend("\"" + rel, "\"", '=');
    }
    assert NoChar(back, ';') by {
      NoCharAppend(" rel" + ['='], value, ';');
    }
    SplitTwo(front, ';', back);
    SplitTwo(" rel", '=', value);
    TrimPadded(pad, bracketed);
    StripEnds(bracketed);
    assert bracketed[1..|bracketed| - 1] == url;
    StripEnds(value);
    assert value[1..|value| - 1] == rel;
  }

  /** The entry as its two halves around the `;`. */
  lemma EntryShape(pad: string, url: string, rel: string)
    ensures pad + LinkEntry(url, rel) == (pad + ("<" + url + ">")) + [';'] + (" rel" + ['='] + ("\"" + rel + "\""))
  {
  }

  /** Leading spaces go and a string that neither starts nor ends with a space stays. */
  lemma {:induction false} TrimPadded(pad: string, w: string)
    requires forall i :: 0 <= i < |pad| ==> pad[i] == ' '
    requires |w| >= 1 && !IsJsSpace(w[0]) && !IsJsSpace(w[|w| - 1])
    ensures Trim(pad + w) == w
  {
    if pad == [] {
      assert pad + w == w;
    } else {
      assert (pad + w)[1..] == pad[1..] + w;
      TrimPadded(pad[1..], w);
    }
  }

  /** The two-entry header of a middle page: the second entry becomes "prev", the first follows its rel. */
  lemma PaginateTwoEntries(h: string, u1: string, r1: string, u2: string, r2: string)
    requires Carriable(u1, r1) && Carriable(u2, r2)
    ensures Paginate(Some(h), Some(LinkEntry(u1, r1) + ", " + LinkEntry(u2, r2)))
            == Pager(RangeInfo(h), [PageLink(Prev, u2), PageLink(if r1 == "prev" then Prev else Next, u1)], false)
  {
    var a := LinkEntry(u1, r1);
    var b := " " + LinkEntry(u2, r2);
    EntryHasNoComma(u1, r1);
    EntryHasNoComma(u2, r2);
    NoCharAppend(" ", LinkEntry(u2, r2), ',');
    var link := LinkEntry(u1, r1) + ", " + LinkEntry(u2, r2);
    assert link == a + [','] + b;
    SplitTwo(a, ',', b);
    ParseLinkEntry("", u1, r1);
    assert "" + a == a;
    ParseLinkEntry(" ", u2, r2);
    assert a[0] == '<' && b[0] == ' ';
    PaginateParsed(a, b, (u1, r1), (u2, r2));
  }

  /** The items of a header of two non-empty entries that both parse. */
  lemma PaginateParsed(a: string, b: string, pa: (string, string), pb: (string, string))
    requires a != "" && b != "" && ParseEntry(a) == Some(pa) && ParseEntry(b) == Some(pb)
    ensures ItemsOf([a, b]) == ([PageLink(Prev, pb.0), PageLink(if pa.1 == "prev" then Prev else Next, pa.0)], false)
  {
    var first := [PageLink(Prev, pb.0)];
    var second := PageLink(if pa.1 == "prev" then Prev else Next, pa.0);
    assert ItemsOf([a, b]) == (first + [second], false);
    assert first + [second] == [first[0], second];
  }

  lemma EntryHasNoComma(url: string, rel: string)
    requires Carriable(url, rel)
    ensures NoChar(LinkEntry(url, rel), ',')
  {
    NoCharAppend("<", url, ',');
    NoCharAppend("<" + url, ">; rel=\"", ',');
    NoCharAppend("<" + url + ">; rel=\"", rel, ',');
    NoCharAppend("<" + url + ">; rel=\"" + rel, "\"", ',');
  }

  /** A one-entry header, as on the first or last page: one item, "prev" exactly when its rel is `prev`. */
  lemma PaginateOneEntry(h: string, u: string, r: string)
    requires Carriable(u, r)
    ensures Paginate(Some(h), Some(LinkEntry(u, r)))
            == Pager(RangeInfo(h), [PageLink(if r == "prev" then Prev else Next, u)], false)
  {
    var a := LinkEntry(u, r);
    EntryHasNoComma(u, r);
    SplitNoSep(a, ',');
    ParseLinkEntry("", u, r);
    assert "" + a == a;
    assert a[0] == '<';
    PaginateSingle(a, (u, r));
  }

  /** The items of a header of one non-empty entry that parses. */
  lemma PaginateSingle(a: string, pa: (string, string))
    requires a != "" && ParseEntry(a) == Some(pa)
    ensures ItemsOf([a]) == ([PageLink(if pa.1 == "prev" then Prev else Next, pa.0)], false)
  {
    var link := PageLink(if pa.1 == "prev" then Prev else Next, pa.0);
    assert At([a], 1) == None;
    var none: seq<PageLink> := [];
    assert ItemsOf([a]) == (none + [link], false);
    assert none + [link] == [link];
  }

  /** `listJobs(url)`: a falsy address (`undefined`, `null` or empty) falls back to the jobs endpoint. */
  function ListUrl(url: Option<string>, jobsUrl: string): (r: string)
    ensures url.Some? && url.value != "" ==> r == url.value
    ensures url.None? || url.value == "" ==> r == jobsUrl
  {
    if url.None? || url.value == "" then jobsUrl else url.value
  }

  /** A pager click: a `data-url` of `'undefined'` lists the jobs endpoint, any other is passed on. */
  function PagerTarget(dataUrl: string, jobsUrl: string): (r: string)
    ensures r == ListUrl(if dataUrl == "undefined" then None else Some(dataUrl), jobsUrl)
  {
    if dataUrl == "undefined" then ListUrl(None, jobsUrl) else ListUrl(Some(dataUrl), jobsUrl)
  }

  /** A click fetches either the item's own address or the jobs endpoint, never an empty or `'undefined'` one. */
  lemma PagerTargetIsUsable(dataUrl: string, jobsUrl: string)
    requires jobsUrl != "" && jobsUrl != "undefined"
    ensures PagerTarget(dataUrl, jobsUrl) != "" && PagerTarget(dataUrl, jobsUrl) != "undefined"
    ensures PagerTarget(dataUrl, jobsUrl) == dataUrl || PagerTarget(dataUrl, jobsUrl) == jobsUrl
  {
  }

  /** The whole-world bounding box the clear-filter button writes back. */
  const WorldBox := "-180,-90,180,90"

  /** The resize handles of the filter box hidden by its style: all but the south-east and north-west ones. */
  const HiddenHandles: set<string> := {"n-resize", "ne-resize", "e-resize", "s-resize", "sw-resize", "w-resize"}

  function GetDisplay(role: string): (d: string)
    ensures d == "none" || d == ""
    ensures d == "" <==> role !in HiddenHandles
  {
    if role in HiddenHandles then "none" else ""
  }

  /** The filter box of this page and the selection box of the creation page differ only at the north-west handle. */
  lemma GetDisplayDiffersAtNorthWest(role: string)
    ensures GetDisplay(role) != CreateJob.GetDisplay(role) <==> role == "nw-resize"
    ensures GetDisplay("se-resize") == "" && CreateJob.GetDisplay("se-resize") == ""
  {
    assert CreateJob.HiddenHandles == HiddenHandles + {"nw-resize"};
  }

  /** A job extent on the map: its job's uid and its render intent. */
  datatype Feature = Feature(uid: string, renderIntent: string)

  /**
    `getVisibility()`: of the layer's styles only `hidden` has `display:
    'none'`, so an extent is visible unless its render intent is `hidden`.
   */
  predicate Visible(f: Feature) { f.renderIntent != "hidden" }

  /**
    The overridden `unselect`: a hidden extent keeps its `hidden` intent;
    any other is unhighlighted back to `default`.
   */
  function Unselected(f: Feature): (g: Feature)
    ensures g.uid == f.uid && Visible(g) == Visible(f)
    ensures f.renderIntent == "hidden" ==> g == f
    ensures f.renderIntent != "hidden" ==> g.renderIntent == "default"
  {
    if f.renderIntent == "hidden" then f else f.(renderIntent := "default")
  }

  /** What a toggle click does to one extent of job `uid`: a visible one is hidden, a hidden one restored. */
  function Toggled(f: Feature, uid: string): Feature
  {
    if f.uid != uid then f
    else if Visible(f) then Unselected(f.(renderIntent := "hidden"))
    else f.(renderIntent := "default")
  }

  /** A toggled visible extent ends hidden, even after the `unselect` the handler calls on it. */
  lemma ToggleHides(f: Feature, uid: string)
    requires f.uid == uid
    ensures Toggled(f, uid).renderIntent == (if Visible(f) then "hidden" else "default")
    ensures Toggled(f, uid).uid == f.uid && Visible(Toggled(f, uid)) == !Visible(f)
  {
  }

  /** A second click undoes the first: a hidden extent is hidden again, any other is back to `default`. */
  lemma ToggleTwice(f: Feature, uid: string)
    requires f.uid == uid
    ensures Visible(Toggled(Toggled(f, uid), uid)) == Visible(f)
    ensures Toggled(Toggled(f, uid), uid).renderIntent == (if Visible(f) then "default" else "hidden")
  {
  }

  /** The result rows marked `warning` after the toggle loop has gone through `fs` in order. */
  function Warned(w: set<string>, fs: seq<Feature>, uid: string): set<string>
  {
    if fs == [] then w
    else
      var before := Warned(w, fs[..|fs| - 1], uid);
      var f := fs[|fs| - 1];
      if f.uid != uid then before
      else if Visible(f) then before + {uid}
      else before - {uid}
  }

  /** The toggle loop touches only the row of the clicked job. */
  lemma {:induction false} WarnedOthersUnchanged(w: set<string>, fs: seq<Feature>, uid: string, other: string)
    requires other != uid
    ensures other in Warned(w, fs, uid) <==> other in w
  {
    if fs != [] {
      WarnedOthersUnchanged(w, fs[..|fs| - 1], uid, other);
    }
  }

  /** With one extent per job, the job's row is marked exactly when the extent was visible. */
  lemma {:induction false} WarnedSingle(w: set<string>, fs: seq<Feature>, uid: string, k: nat)
    requires k < |fs| && fs[k].uid == uid
    requires forall j :: 0 <= j < |fs| && j != k ==> fs[j].uid != uid
    ensures uid in Warned(w, fs, uid) <==> Visible(fs[k])
  {
    var n := |fs| - 1;
    if k < n {
      WarnedSingle(w, fs[..n], uid, k);
    } else {
      assert fs[n].uid == uid;
    }
  }

  /**
    The list page's filter and extent state. `bbox` is the value of
    `input#bbox`; `pendingSearches` counts the searches the `input` event
    has scheduled (450 ms later), and `searches` the `bbox` each search ran with.
   */
  class ListPage {
    var filtering: bool
    var bbox: string
    var pendingSearches: nat
    var searches: seq<string>
    var features: seq<Feature>
    var selected: set<nat>
    var warning: set<string>

    /** `filtering` starts false; the rest is the page as loaded. */
    constructor (bbox: string, features: seq<Feature>)
      ensures !filtering && this.bbox == bbox && pendingSearches == 0 && searches == []
      ensures this.features == features && selected == {} && warning == {}
    {
      filtering := false;
      this.bbox := bbox;
      pendingSearches := 0;
      searches := [];
      this.features := features;
      selected := {};
      warning := {};
    }

    /**
      `setBounds`: the bounds are reprojected in place to EPSG:4326, the
      four sides are written comma-separated into `input#bbox`, and the
      `input` event schedules a search.
     */
    method SetBounds(b: CreateJob.Bounds, toGeographic: CreateJob.Coords -> CreateJob.Coords, format: real -> string)
      modifies this`bbox, this`pendingSearches, b
      ensures b.crs == CreateJob.Geographic && b.coords == toGeographic(old(b.coords))
      ensures bbox == Join(",", [format(b.coords.left), format(b.coords.bottom), format(b.coords.right), format(b.coords.top)])
      ensures pendingSearches == old(pendingSearches) + 1
    {
      b.coords := toGeographic(b.coords);
      b.crs := CreateJob.Geographic;
      bbox := Join(",", [format(b.coords.left), format(b.coords.bottom), format(b.coords.right), format(b.coords.top)]);
      pendingSearches := pendingSearches + 1;
    }

    /** A box is drawn or a transform completes: filtering is on and the box becomes the filter. */
    method BoxChanged(b: CreateJob.Bounds, toGeographic: CreateJob.Coords -> CreateJob.Coords, format: real -> string)
      modifies this`filtering, this`bbox, this`pendingSearches, b
      ensures filtering
      ensures b.crs == CreateJob.Geographic && b.coords == toGeographic(old(b.coords))
      ensures bbox == Join(",", [format(b.coords.left), format(b.coords.bottom), format(b.coords.right), format(b.coords.top)])
      ensures pendingSearches == old(pendingSearches) + 1
    {
      filtering := true;
      SetBounds(b, toGeographic, format);
    }

    /**
      The clear-filter button: only while filtering, it turns filtering
      off, resets the box to the whole world and searches at once.
     */
    method ClearFilter()
      modifies this`filtering, this`bbox, this`searches
      ensures !filtering
      ensures old(filtering) ==> bbox == WorldBox && searches == old(searches) + [WorldBox]
      ensures !old(filtering) ==> bbox == old(bbox) && searches == old(searches)
    {
      if filtering {
        filtering := false;
        bbox := WorldBox;
        searches := searches + [bbox];
      }
    }

    /** A scheduled search runs with the box as it is now. */
    method SearchDelayElapsed()
      requires pendingSearches > 0
      modifies this`pendingSearches, this`searches
      ensures pendingSearches == old(pendingSearches) - 1 && searches == old(searches) + [bbox]
    {
      pendingSearches := pendingSearches - 1;
      searches := searches + [bbox];
    }

    /** `selectControl.unselect(features[i])`, through the override. */
    method Unselect(i: nat)
      requires i < |features|
      modifies this`features, this`selected
      ensures features == old(features)[i := Unselected(old(features)[i])]
      ensures selected == old(selected) - {i}
    {
      features := features[i := Unselected(features[i])];
      selected := selected - {i};
    }

    /**
      A click on the eye of job `uid`: every extent of that job is hidden
      when visible (and unselected) or restored when hidden, and its result
      row is marked or unmarked; the other extents and rows are untouched.
     */
    method ToggleFeature(uid: string)
      modifies this`features, this`selected, this`warning
      ensures |features| == |old(features)|
      ensures forall i :: 0 <= i < |features| ==> features[i] == Toggled(old(features)[i], uid)
      ensures selected == old(selected) - set i | 0 <= i < |old(features)| && old(features)[i].uid == uid && Visible(old(features)[i])
      ensures warning == Warned(old(warning), old(features), uid)
    {
      ghost var fs := features;
      ghost var sel := selected;
      for f := 0 to |features|
        invariant |features| == |fs|
        invariant forall i :: 0 <= i < f ==> features[i] == Toggled(fs[i], uid)
        invariant forall i :: f <= i < |fs| ==> features[i] == fs[i]
        invariant selected == sel - set i | 0 <= i < f && fs[i].uid == uid && Visible(fs[i])
        invariant warning == Warned(old(warning), fs[..f], uid)
      {
        assert fs[..f + 1][..f] == fs[..f];
        var feature := features[f];
        if feature.uid == uid {
          if Visible(feature) {
            features := features[f := feature.(renderIntent := "hidden")];
            Unselect(f);
            warning := warning + {uid};
          } else {
            features := features[f := feature.(renderIntent := "default")];
            warning := warning - {uid};
          }
        }
      }
      assert fs[..|fs|] == fs;
    }
  }
}
