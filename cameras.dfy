/**
 * The camera of src/camera: a handle on camera values shared behind a lock
 * (`Arc<RwLock<CameraValues>>`), so that every clone of a camera sees every
 * change made through any other.  The view matrix is cached: each setter
 * marks the values changed, and `view` recomputes the matrix only when they
 * are marked, clearing the mark.
 *
 * src/camera/orthographic_camera.rs and src/camera/perspective_camera.rs
 * implement the `Camera` trait with the same code, except that translating a
 * point uses `transform_point3` in one and `project_point3` in the other; the
 * implementation is modelled once here with that function as a parameter.
 * The matrix algebra is not modelled: a matrix is the term it was made by.
 */
module Cameras {

  /** glam's `Vec3`. */
  datatype Vec3 = Vec3(x: real, y: real, z: real)

  const ZERO := Vec3(0.0, 0.0, 0.0)
  /** `Vec3::Y`, the default up direction. */
  const Y := Vec3(0.0, 1.0, 0.0)

  /**
   * glam's `Mat4`, as a term: the zero matrix, a view built by
   * `Mat4::look_at_rh(eye, target, up)`, or a matrix given by its sixteen entries.
   */
  datatype Mat4 = ZeroMatrix | LookAtRh(eye: Vec3, target: Vec3, up: Vec3) | Matrix(entries: seq<real>)

  /** `CameraValues`: the camera, its cached view and the flag that says the cache is stale. */
  datatype CameraValues = CameraValues(position: Vec3, target: Vec3, upVec: Vec3, view: Mat4, changeFlag: bool)

  /** The view of the current position, target and up direction. */
  function CurrentView(v: CameraValues): Mat4
  {
    LookAtRh(v.position, v.target, v.upVec)
  }

  /** The cache is sound: when it is not marked stale it holds the current view. */
  ghost predicate CacheSound(v: CameraValues)
  {
    !v.changeFlag ==> v.view == CurrentView(v)
  }

  /** `view`: the matrix returned and the values afterwards. */
  function ViewOf(v: CameraValues): (r: (Mat4, CameraValues))
    ensures !r.1.changeFlag && r.0 == r.1.view
    ensures r.1.position == v.position && r.1.target == v.target && r.1.upVec == v.upVec
    ensures v.changeFlag ==> r.0 == CurrentView(v)
    ensures !v.changeFlag ==> r == (v.view, v)
  {
    if v.changeFlag then (CurrentView(v), v.(view := CurrentView(v), changeFlag := false))
    else (v.view, v)
  }

  /** Two views with no change between them give the same matrix, and the second changes nothing. */
  lemma ViewIdempotent(v: CameraValues)
    ensures ViewOf(ViewOf(v).1) == (ViewOf(v).0, ViewOf(v).1)
  {
  }

  /** On values whose cache is sound the view is always the current one, and the cache stays sound. */
  lemma ViewIsCurrent(v: CameraValues)
    requires CacheSound(v)
    ensures ViewOf(v).0 == CurrentView(v)
    ensures CacheSound(ViewOf(v).1)
  {
  }

  function WithPosition(v: CameraValues, p: Vec3): (r: CameraValues)
    ensures r.position == p && r.target == v.target && r.upVec == v.upVec && r.view == v.view && r.changeFlag
  {
    v.(position := p, changeFlag := true)
  }

  function WithTarget(v: CameraValues, t: Vec3): (r: CameraValues)
    ensures r.target == t && r.position == v.position && r.upVec == v.upVec && r.view == v.view && r.changeFlag
  {
    v.(target := t, changeFlag := true)
  }

  function WithUpVector(v: CameraValues, u: Vec3): (r: CameraValues)
    ensures r.upVec == u && r.position == v.position && r.target == v.target && r.view == v.view && r.changeFlag
  {
    v.(upVec := u, changeFlag := true)
  }

  /** The next view after any setter is the view of the values as set, whatever was cached before. */
  lemma ViewAfterSetters(v: CameraValues, p: Vec3, t: Vec3, u: Vec3)
    ensures ViewOf(WithPosition(v, p)).0 == LookAtRh(p, v.target, v.upVec)
    ensures ViewOf(WithTarget(v, t)).0 == LookAtRh(v.position, t, v.upVec)
    ensures ViewOf(WithUpVector(v, u)).0 == LookAtRh(v.position, v.target, u)
    ensures CacheSound(WithPosition(v, p)) && CacheSound(WithTarget(v, t)) && CacheSound(WithUpVector(v, u))
  {
  }

  /** The shared handle: `OrthographicCamera` or `PerspectiveCamera`, whose clones share `cell`. */
  class CameraCell {
    var values: CameraValues

    constructor(values: CameraValues)
      ensures this.values == values
    {
      this.values := values;
    }
  }

  class Camera {
    const cell: CameraCell

    constructor(cell: CameraCell)
      ensures this.cell == cell
    {
      this.cell := cell;
    }

    /** `clone`: a new handle on the same values. */
    method Clone() returns (c: Camera)
      ensures fresh(c) && c.cell == cell
    {
      c := new Camera(cell);
    }

    /** `view`: recomputes the matrix only when the values are marked changed. */
    method View() returns (m: Mat4)
      modifies cell
      ensures (m, cell.values) == ViewOf(old(cell.values))
    {
      if cell.values.changeFlag {
        cell.values := cell.values.(view := LookAtRh(cell.values.position, cell.values.target, cell.values.upVec),
                                    changeFlag := false);
      }
      m := cell.values.view;
    }

    function Position(): (v: Vec3)
      reads this, cell
      ensures v == cell.values.position
    {
      cell.values.position
    }

    function Target(): (v: Vec3)
      reads this, cell
      ensures v == cell.values.target
    {
      cell.values.target
    }

    function UpVector(): (v: Vec3)
      reads this, cell
      ensures v == cell.values.upVec
    {
      cell.values.upVec
    }

    method SetPosition(newPos: Vec3)
      modifies cell
      ensures cell.values == WithPosition(old(cell.values), newPos)
      ensures Position() == newPos
    {
      cell.values := cell.values.(position := newPos, changeFlag := true);
    }

    /**
     * `translate_position`: the position moved by `translation`, where
     * `apply` is `transform_point3` (orthographic) or `project_point3`
     * (perspective).
     */
    method TranslatePosition(translation: Mat4, apply: (Mat4, Vec3) -> Vec3)
      modifies cell
      ensures cell.values == WithPosition(old(cell.values), apply(translation, old(cell.values).position))
    {
      cell.values := cell.values.(position := apply(translation, cell.values.position), changeFlag := true);
    }

    method SetTarget(newTarget: Vec3)
      modifies cell
      ensures cell.values == WithTarget(old(cell.values), newTarget)
      ensures Target() == newTarget
    {
      cell.values := cell.values.(target := newTarget, changeFlag := true);
    }

    /** `translate_target`, with `apply` as for `TranslatePosition`. */
    method TranslateTarget(translation: Mat4, apply: (Mat4, Vec3) -> Vec3)
      modifies cell
      ensures cell.values == WithTarget(old(cell.values), apply(translation, old(cell.values).target))
    {
      cell.values := cell.values.(target := apply(translation, cell.values.target), changeFlag := true);
    }

    method SetUpVector(newVec: Vec3)
      modifies cell
      ensures cell.values == WithUpVector(old(cell.values), newVec)
      ensures UpVector() == newVec
    {
      cell.values := cell.values.(upVec := newVec, changeFlag := true);
    }

    /** A position set through a clone is the position of this camera too, and its next view uses it. */
    method SetPositionThroughClone(newPos: Vec3) returns (c: Camera)
      modifies cell
      ensures fresh(c) && c.cell == cell
      ensures Position() == newPos && cell.values.changeFlag
    {
      c := Clone();
      c.SetPosition(newPos);
    }
  }
}

/** The orthographic camera's defaults and loader, src/camera/orthographic_camera.rs. */
module OrthographicCameras {
  import opened Wrappers
  import opened Load
  import opened Cameras

  const ORTHOGRAPHIC_CAMERA_LOAD_ID := "orthographic_camera"

  /** `CameraValues::default()`: at the origin looking at the origin, up along Y, marked changed. */
  function DefaultValues(): (v: CameraValues)
    ensures v.position == ZERO && v.target == ZERO && v.upVec == Y && v.view == ZeroMatrix && v.changeFlag
    ensures CacheSound(v)
  {
    CameraValues(ZERO, ZERO, Y, ZeroMatrix, true)
  }

  /** `OrthographicCameraJSON`: every vector may be left out. */
  datatype CameraJson = CameraJson(position: Option<(real, real, real)>, target: Option<(real, real, real)>, upVec: Option<(real, real, real)>)

  datatype CameraError = DeserializeError(path: string, source: LoadError)

  datatype CameraLoader = CameraLoader(path: string)

  function VecOr(given: Option<(real, real, real)>, default: Vec3): (r: Vec3)
    ensures given.Some? ==> r == Vec3(given.value.0, given.value.1, given.value.2)
    ensures given.None? ==> r == default
  {
    match given
    case Some(p) => Vec3(p.0, p.1, p.2)
    case None => default
  }

  /**
   * The values the loaded camera starts with: those of the manifest, the
   * defaults for what it leaves out, and marked changed.
   */
  function LoadValues(loader: CameraLoader, deserialize: (string, string) -> Result<CameraJson, LoadError>)
    : (r: Result<CameraValues, CameraError>)
    ensures r.Ok? <==> deserialize(loader.path, ORTHOGRAPHIC_CAMERA_LOAD_ID).Ok?
    ensures r.Err? ==> r.error == DeserializeError(loader.path, deserialize(loader.path, ORTHOGRAPHIC_CAMERA_LOAD_ID).error)
    ensures r.Ok? ==>
              var json := deserialize(loader.path, ORTHOGRAPHIC_CAMERA_LOAD_ID).value;
              r.value.position == VecOr(json.position, ZERO) && r.value.target == VecOr(json.target, ZERO)
              && r.value.upVec == VecOr(json.upVec, Y) && r.value.view == ZeroMatrix && r.value.changeFlag
  {
    match deserialize(loader.path, ORTHOGRAPHIC_CAMERA_LOAD_ID)
    case Err(e) => Err(DeserializeError(loader.path, e))
    case Ok(json) =>
      var d := DefaultValues();
      Ok(d.(position := VecOr(json.position, d.position), target := VecOr(json.target, d.target), upVec := VecOr(json.upVec, d.upVec)))
  }

  /** A loaded orthographic camera's first view is the view of its loaded values. */
  lemma LoadedViewIsCurrent(loader: CameraLoader, deserialize: (string, string) -> Result<CameraJson, LoadError>)
    requires LoadValues(loader, deserialize).Ok?
    ensures CacheSound(LoadValues(loader, deserialize).value)
    ensures ViewOf(LoadValues(loader, deserialize).value).0 == CurrentView(LoadValues(loader, deserialize).value)
  {
    ViewIsCurrent(LoadValues(loader, deserialize).value);
  }

  /** `load`'s task, run: a new camera on new values. */
  method LoadCamera(loader: CameraLoader, deserialize: (string, string) -> Result<CameraJson, LoadError>)
    returns (r: Result<Camera, CameraError>)
    ensures r.Ok? <==> LoadValues(loader, deserialize).Ok?
    ensures r.Ok? ==> fresh(r.value) && fresh(r.value.cell) && r.value.cell.values == LoadValues(loader, deserialize).value
    ensures r.Err? ==> r.error == LoadValues(loader, deserialize).error
  {
    var values := LoadValues(loader, deserialize);
    if values.Err? {
      return Err(values.error);
    }
    var cell := new CameraCell(values.value);
    var camera := new Camera(cell);
    return Ok(camera);
  }
}

/** The perspective camera's defaults and loader, src/camera/perspective_camera.rs. */
module PerspectiveCameras {
  import opened Wrappers
  import opened Load
  import opened Cameras

  const PERSPECTIVE_CAMERA_LOAD_ID := "perspective_camera"

  /** `CameraValues::default()`: as the orthographic one, but not marked changed. */
  function DefaultValues(): (v: CameraValues)
    ensures v.position == ZERO && v.target == ZERO && v.upVec == Y && v.view == ZeroMatrix && !v.changeFlag
    ensures !CacheSound(v)
  {
    CameraValues(ZERO, ZERO, Y, ZeroMatrix, false)
  }

  /** `PerspectiveCameraJSON`. */
  datatype CameraJson = CameraJson(position: Option<(real, real, real)>, target: Option<(real, real, real)>, upVec: Option<(real, real, real)>)

  datatype CameraError = DeserializeError(path: string, source: LoadError)

  datatype CameraLoader = CameraLoader(path: string)

  /** A given vector, or `Vec3::default()`, the zero vector, for every one left out. */
  function VecOrZero(given: Option<(real, real, real)>): (r: Vec3)
    ensures given.Some? ==> r == Vec3(given.value.0, given.value.1, given.value.2)
    ensures given.None? ==> r == ZERO
  {
    match given
    case Some(p) => Vec3(p.0, p.1, p.2)
    case None => ZERO
  }

  /**
   * The values the loaded camera starts with: those of the manifest, zero for
   * what it leaves out (the up direction too), the zero view, and not marked
   * changed.
   */
  function LoadValues(loader: CameraLoader, deserialize: (string, string) -> Result<CameraJson, LoadError>)
    : (r: Result<CameraValues, CameraError>)
    ensures r.Ok? <==> deserialize(loader.path, PERSPECTIVE_CAMERA_LOAD_ID).Ok?
    ensures r.Err? ==> r.error == DeserializeError(loader.path, deserialize(loader.path, PERSPECTIVE_CAMERA_LOAD_ID).error)
    ensures r.Ok? ==>
              var json := deserialize(loader.path, PERSPECTIVE_CAMERA_LOAD_ID).value;
              r.value.position == VecOrZero(json.position) && r.value.target == VecOrZero(json.target)
              && r.value.upVec == VecOrZero(json.upVec) && r.value.view == ZeroMatrix && !r.value.changeFlag
  {
    match deserialize(loader.path, PERSPECTIVE_CAMERA_LOAD_ID)
    case Err(e) => Err(DeserializeError(loader.path, e))
    case Ok(json) =>
      Ok(DefaultValues().(position := VecOrZero(json.position), target := VecOrZero(json.target), upVec := VecOrZero(json.upVec)))
  }

  /**
   * A loaded perspective camera's view is the zero matrix, never the view of
   * its loaded values, until a setter is called; after one, it is the current view.
   */
  lemma LoadedViewIsZeroUntilSet(loader: CameraLoader, deserialize: (string, string) -> Result<CameraJson, LoadError>, p: Vec3)
    requires LoadValues(loader, deserialize).Ok?
    ensures ViewOf(LoadValues(loader, deserialize).value) == (ZeroMatrix, LoadValues(loader, deserialize).value)
    ensures ViewOf(LoadValues(loader, deserialize).value).0 != CurrentView(LoadValues(loader, deserialize).value)
    ensures ViewOf(WithPosition(LoadValues(loader, deserialize).value, p)).0 == CurrentView(WithPosition(LoadValues(loader, deserialize).value, p))
  {
  }

  /** `load`'s task, run: a new camera on new values. */
  method LoadCamera(loader: CameraLoader, deserialize: (string, string) -> Result<CameraJson, LoadError>)
    returns (r: Result<Camera, CameraError>)
    ensures r.Ok? <==> LoadValues(loader, deserialize).Ok?
    ensures r.Ok? ==> fresh(r.value) && fresh(r.value.cell) && r.value.cell.values == LoadValues(loader, deserialize).value
    ensures r.Err? ==> r.error == LoadValues(loader, deserialize).error
  {
    var values := LoadValues(loader, deserialize);
    if values.Err? {
      return Err(values.error);
    }
    var cell := new CameraCell(values.value);
    var camera := new Camera(cell);
    return Ok(camera);
  }
}
