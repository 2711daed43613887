/**
  The export-creation page, ui/static/ui/js/create.js: the verdict on a
  selected extent, the four extent fields it fills or clears, the wizard's
  tab gate and the submit guard.

  The map library's geometry is given from outside: whether the extent
  meets a region is an `intersects` predicate, the reprojection from
  EPSG:3857 to EPSG:4326 is a `toGeographic` function, the geodesic area in
  square metres is an `areaOf` function, and the 10-decimal `numeral`
  formatting is a `format` function. Coordinates are reals.
 */
module CreateJob {

  /** The largest extent accepted, in square kilometres (`max_bounds_area`). */
  const MaxBoundsArea: real := 2500000.0

  /** The coordinate reference systems the extent moves between. */
  datatype Crs = WebMercator | Geographic  // EPSG:3857, EPSG:4326

  /** The four sides of an extent, in the units of its CRS. */
  datatype Coords = Coords(left: real, bottom: real, right: real, top: real)

  /** An OpenLayers `Bounds`: its coordinates and the CRS they are in; `transform` changes both in place. */
  class Bounds {
    var crs: Crs
    var coords: Coords

    constructor (crs: Crs, coords: Coords)
      ensures this.crs == crs && this.coords == coords
    {
      this.crs := crs;
      this.coords := coords;
    }
  }

  /** The verdict `validateBounds` reaches, one per alert it shows. */
  datatype Verdict = NoBounds | OutsideRegions | TooLarge | ValidExtent

  /**
    The fixed precedence of the checks: no bounds, then outside every
    region, then an area strictly over the maximum; an area equal to the
    maximum is accepted.
   */
  function Classify(hasBounds: bool, inRegion: bool, areaKm2: real): (v: Verdict)
    ensures !hasBounds ==> v == NoBounds
    ensures hasBounds && !inRegion ==> v == OutsideRegions
    ensures v == TooLarge <==> hasBounds && inRegion && areaKm2 > MaxBoundsArea
    ensures v == ValidExtent <==> hasBounds && inRegion && areaKm2 <= MaxBoundsArea
  {
    if !hasBounds then NoBounds
    else if !inRegion then OutsideRegions
    else if areaKm2 > MaxBoundsArea then TooLarge
    else ValidExtent
  }

  /** An extent both outside every region and too large is reported as outside. */
  lemma OutsideBeforeArea(areaKm2: real)
    requires areaKm2 > MaxBoundsArea
    ensures Classify(true, false, areaKm2) == OutsideRegions
  {
  }

  /** The area on its own decides nothing once the extent is outside every region. */
  lemma OutsideIgnoresArea(a: real, b: real)
    ensures Classify(true, false, a) == Classify(true, false, b)
  {
  }

  /**
    `validateBounds`. Without bounds the verdict is `NoBounds` and nothing
    moves. Otherwise the extent passes the region test when it meets at
    least one region (it need not lie inside one); then the bounds are
    reprojected in place to EPSG:4326, whatever the verdict will be, and the
    area is taken in square kilometres. `ok` is the value returned.
   */
  method ValidateBounds<R>(bounds: Bounds?, regions: seq<R>, intersects: (Coords, R) -> bool,
                           toGeographic: Coords -> Coords, areaOf: Coords -> real)
    returns (v: Verdict, ok: bool)
    modifies bounds
    ensures ok <==> v == ValidExtent
    ensures bounds == null ==> v == NoBounds
    ensures bounds != null ==> bounds.crs == Geographic && bounds.coords == toGeographic(old(bounds.coords))
    ensures bounds != null ==>
              v == Classify(true, exists i :: 0 <= i < |regions| && intersects(old(bounds.coords), regions[i]),
                            areaOf(bounds.coords) / 1000000.0)
  {
    if bounds == null {
      return NoBounds, false;
    }
    var extent := bounds.coords;
    var validRegion := false;
    for i := 0 to |regions|
      invariant validRegion <==> exists j :: 0 <= j < i && intersects(extent, regions[j])
    {
      if intersects(extent, regions[i]) {
        validRegion := true;
      }
    }
    bounds.coords := toGeographic(bounds.coords);
    bounds.crs := Geographic;
    var area := areaOf(bounds.coords) / 1000000.0;
    if !validRegion {
      v := OutsideRegions;
    } else if area > MaxBoundsArea {
      v := TooLarge;
    } else {
      v := ValidExtent;
    }
    ok := v == ValidExtent;
  }

  /** Whether `isValidContainer` finds a container valid, invalid, or still being validated (`null`). */
  datatype Validity = Passes | Fails | Pending

  /** What `validateTab` decides: whether the move to the tab is allowed, and whether it re-runs `validateBounds`. */
  datatype TabDecision = TabDecision(allowed: bool, recheckBounds: bool)

  /**
    `validateTab`: an invalid bounding-box container blocks the move and
    re-checks the extent; otherwise an invalid or pending step blocks it.
    A pending bounding box does not block.
   */
  function ValidateTab(bbox: Validity, step: Validity): (d: TabDecision)
    ensures d.recheckBounds <==> bbox == Fails
    ensures d.allowed <==> bbox != Fails && step.Passes?
  {
    if bbox == Fails then TabDecision(false, true)
    else TabDecision(step.Passes?, false)
  }

  /**
    The tab gate only gets more permissive as the containers it looks at
    become valid, and a bounding box still being validated counts as a
    valid one.
   */
  lemma TabGateIsMonotone(bbox: Validity, step: Validity)
    ensures ValidateTab(bbox, step).allowed ==> ValidateTab(Passes, step).allowed && ValidateTab(bbox, Passes).allowed
    ensures ValidateTab(Pending, step) == ValidateTab(Passes, step)
  {
  }

  /** The fields of the creation form as the validator sees them; `formats` is the number of ticked formats. */
  datatype JobForm = JobForm(name: string, description: string, event: string, formats: nat,
                             xmin: string, ymin: string, xmax: string, ymax: string)

  /**
    The names of the fields that break their rule, in the order the rules
    are declared: `notEmpty` for the texts and the four extent fields, and a
    `choice` of one to five formats.
   */
  function InvalidFields(f: JobForm): (r: seq<string>)
    ensures |r| <= 8
    ensures r == [] <==> f.name != "" && f.description != "" && f.event != "" && 1 <= f.formats <= 5
                         && f.xmin != "" && f.ymin != "" && f.xmax != "" && f.ymax != ""
  {
    (if f.name == "" then ["name"] else [])
    + (if f.description == "" then ["description"] else [])
    + (if f.event == "" then ["event"] else [])
    + (if f.formats < 1 || f.formats > 5 then ["formats"] else [])
    + (if f.xmin == "" then ["xmin"] else [])
    + (if f.ymin == "" then ["ymin"] else [])
    + (if f.xmax == "" then ["xmax"] else [])
    + (if f.ymax == "" then ["ymax"] else [])
  }

  /** The submit handler posts the form exactly when no field is invalid, and prevents submission otherwise. */
  predicate Submits(f: JobForm)
  {
    |InvalidFields(f)| == 0
  }

  /** Selecting no format or more than five blocks submission whatever the other fields hold. */
  lemma FormatsBounded(f: JobForm)
    requires Submits(f)
    ensures 1 <= f.formats <= 5
  {
    assert InvalidFields(f) == [];
  }

  /**
    The extent part of the page: the four form fields. Every change of the
    drawn box, whether a new box, a finished move or a move under way, runs
    the same handler.
   */
  class ExtentFields {
    var xmin: string
    var ymin: string
    var xmax: string
    var ymax: string

    /** The fields as the page's markup fills them before any script runs. */
    constructor (xmin: string, ymin: string, xmax: string, ymax: string)
      ensures this.xmin == xmin && this.ymin == ymin && this.xmax == xmax && this.ymax == ymax
    {
      this.xmin, this.ymin, this.xmax, this.ymax := xmin, ymin, xmax, ymax;
    }

    /** `setBounds`: the four sides, formatted. */
    method SetBounds(c: Coords, format: real -> string)
      modifies this
      ensures xmin == format(c.left) && ymin == format(c.bottom) && xmax == format(c.right) && ymax == format(c.top)
    {
      xmin := format(c.left);
      ymin := format(c.bottom);
      xmax := format(c.right);
      ymax := format(c.top);
    }

    /** `unsetBounds`: all four fields emptied. */
    method UnsetBounds()
      modifies this
      ensures xmin == "" && ymin == "" && xmax == "" && ymax == ""
    {
      xmin, ymin, xmax, ymax := "", "", "", "";
    }

    /**
      The draw and transform handlers: all four fields are set from the
      reprojected bounds when the verdict is valid, and all four emptied
      otherwise.
     */
    method ExtentChanged<R>(bounds: Bounds, regions: seq<R>, intersects: (Coords, R) -> bool,
                            toGeographic: Coords -> Coords, areaOf: Coords -> real, format: real -> string)
      returns (v: Verdict)
      modifies this, bounds
      ensures bounds.crs == Geographic && bounds.coords == toGeographic(old(bounds.coords))
      ensures v == Classify(true, exists i :: 0 <= i < |regions| && intersects(old(bounds.coords), regions[i]),
                            areaOf(bounds.coords) / 1000000.0)
      ensures v == ValidExtent ==> xmin == format(bounds.coords.left) && ymin == format(bounds.coords.bottom)
                                   && xmax == format(bounds.coords.right) && ymax == format(bounds.coords.top)
      ensures v != ValidExtent ==> xmin == "" && ymin == "" && xmax == "" && ymax == ""
    {
      var ok;
      v, ok := ValidateBounds(bounds, regions, intersects, toGeographic, areaOf);
      if ok {
        SetBounds(bounds.coords, format);
      } else {
        UnsetBounds();
      }
    }
  }

  /** An extent that was not accepted leaves the form unsubmittable, whatever the other fields hold. */
  lemma RejectedExtentBlocksSubmit(f: JobForm)
    requires f.xmin == "" && f.ymin == "" && f.xmax == "" && f.ymax == ""
    ensures !Submits(f)
    ensures "xmin" in InvalidFields(f)
  {
    var r := InvalidFields(f);
    var tail := ["xmin", "ymin", "xmax", "ymax"];
    assert r == InvalidFields(f.(xmin := "", ymin := "", xmax := "", ymax := ""));
    assert r[|r| - 4..] == tail;
  }

  /** The resize handles of the selection box hidden by its style (`getDisplay`): all but the south-east one. */
  function GetDisplay(role: string): (d: string)
    ensures d == "none" || d == ""
    ensures d == "" <==> role !in HiddenHandles
  {
    if role in HiddenHandles then "none" else ""
  }

  const HiddenHandles: set<string> :=
    {"n-resize", "ne-resize", "e-resize", "s-resize", "sw-resize", "w-resize", "nw-resize"}
}
