/** The uncertain-regular-grid sampling filter: its dataCheck (which creates
    the output container, its image geometry, the cell attribute matrix and
    the FeatureIds array), execute, the k/j/i enumeration of sample points
    and the copy of the per-point feature ids into FeatureIds. The sample
    coordinates and their random jitter are floating point and are not part
    of this model; a point is identified by the grid cell it samples. */
module UncertainRegularGridSampling {
  import opened Wrappers
  import opened DataStore
  import Grid

  /** SIMPL's default names. */
  const ImageDataContainerName: string := "ImageDataContainer"
  const CellAttributeMatrixName: string := "CellData"
  const FeatureIdsName: string := "FeatureIds"

  /** A C++ int. */
  newtype Int32 = v: int | -0x8000_0000 <= v < 0x8000_0000

  /** The X, Y and Z Points parameters are signed ints; dataCheck hands them
      to the library as size_t, so a negative count v becomes 2^64 + v. */
  function SizeT(v: int): (r: nat)
    requires -0x8000_0000 <= v < 0x8000_0000
    ensures v >= 0 ==> r == v
    ensures v < 0 ==> r >= 0x1_0000_0000_0000_0000 - 0x8000_0000
  {
    if v >= 0 then v else v + 0x1_0000_0000_0000_0000
  }

  /** The number of iterations of a loop `for (t = 0; t < v; t++)`. */
  function Iterations(v: int): (r: nat)
    ensures r <= 0 <==> v <= 0
    ensures v > 0 ==> r == v
  {
    if v < 0 then 0 else v
  }

  /** The configuration as the library sees it: the point counts are the
      size_t tuple dimensions. */
  datatype SampleConfig = SampleConfig(
    xPoints: nat, yPoints: nat, zPoints: nat,
    resolution: Vec3, origin: Vec3,
    dataContainerName: string, cellAttributeMatrixName: string, featureIdsArrayName: string)

  function PointCount(cfg: SampleConfig): nat {
    cfg.xPoints * cfg.yPoints * cfg.zPoints
  }

  function SampleGeometry(cfg: SampleConfig): ImageGeometry {
    ImageGeometry(Dims3(cfg.xPoints, cfg.yPoints, cfg.zPoints), cfg.resolution, cfg.origin)
  }

  /** What dataCheck leaves: the error condition, the store, and the FeatureIds
      array it bound (None when the pointer stays unbound). */
  datatype CheckOutcome = CheckOutcome(errorCondition: int, store: DataContainerArray, featureIds: Option<DataArray>)

  /** dataCheck step by step: create the container (stop on failure), give it
      the image geometry, create the cell matrix with tuple dimensions
      [X, Y, Z] (stop on failure), then create the one-component FeatureIds
      array filled with 0. */
  function DataCheckOutcome(dca: DataContainerArray, cfg: SampleConfig): CheckOutcome {
    var c := CreateDataContainer(dca, cfg.dataContainerName);
    if c.Refused? then CheckOutcome(ErrorCode(c.error), dca, None)
    else
      var withGeometry := SetGeometry(c.store, cfg.dataContainerName, SampleGeometry(cfg));
      var m := CreateAttributeMatrix(withGeometry, cfg.dataContainerName, cfg.cellAttributeMatrixName,
                                     [cfg.xPoints, cfg.yPoints, cfg.zPoints], Cell);
      if m.Refused? then CheckOutcome(ErrorCode(m.error), withGeometry, None)
      else
        var a := CreateInt32Array(m.store, cfg.dataContainerName, cfg.cellAttributeMatrixName,
                                  cfg.featureIdsArrayName, 0, 1);
        if a.Refused? then CheckOutcome(ErrorCode(a.error), m.store, None)
        else CheckOutcome(0, a.store, Some(a.value))
  }

  /** dataCheck succeeds exactly when the container name is new and the
      matrix and array names are non-empty; every failure leaves a negative
      code and binds no array. */
  lemma DataCheckSucceedsIff(dca: DataContainerArray, cfg: SampleConfig)
    ensures var o := DataCheckOutcome(dca, cfg);
      && (o.errorCondition == 0 <==>
            cfg.dataContainerName != "" && cfg.dataContainerName !in dca
            && cfg.cellAttributeMatrixName != "" && cfg.featureIdsArrayName != "")
      && (o.errorCondition != 0 ==> o.errorCondition < 0 && o.featureIds.None?)
      && (o.errorCondition == 0 ==> o.featureIds.Some?)
  {
  }

  /** When the container cannot be created, nothing else happens: the store
      is unchanged (no geometry, no matrix) and no array is bound. */
  lemma ContainerFailureStopsEarly(dca: DataContainerArray, cfg: SampleConfig)
    requires CreateDataContainer(dca, cfg.dataContainerName).Refused?
    ensures DataCheckOutcome(dca, cfg) ==
      CheckOutcome(ErrorCode(CreateDataContainer(dca, cfg.dataContainerName).error), dca, None)
  {
  }

  /** When the matrix cannot be created no FeatureIds array is requested:
      the container exists with its geometry and no matrices. */
  lemma MatrixFailureRequestsNoArray(dca: DataContainerArray, cfg: SampleConfig)
    requires CreateDataContainer(dca, cfg.dataContainerName).Created?
    requires cfg.cellAttributeMatrixName == ""
    ensures var o := DataCheckOutcome(dca, cfg);
      && o.errorCondition == ErrorCode(EmptyName)
      && o.featureIds.None?
      && cfg.dataContainerName in o.store
      && o.store[cfg.dataContainerName].matrices == map[]
      && o.store[cfg.dataContainerName].geometry == Some(SampleGeometry(cfg))
  {
  }

  /** A successful dataCheck leaves a container with the requested geometry
      holding a Cell matrix of tuple dimensions [X, Y, Z] whose FeatureIds
      array has X*Y*Z tuples of one zero component; the other containers are
      untouched and the store stays well shaped. */
  lemma {:induction false} SuccessfulDataCheckShapes(dca: DataContainerArray, cfg: SampleConfig)
    requires StoreValid(dca)
    requires DataCheckOutcome(dca, cfg).errorCondition == 0
    ensures var o := DataCheckOutcome(dca, cfg);
      var name := cfg.dataContainerName;
      && StoreValid(o.store)
      && o.store.Keys == dca.Keys + {name}
      && (forall c :: c in dca ==> o.store[c] == dca[c])
      && o.store[name].geometry == Some(SampleGeometry(cfg))
      && o.store[name].matrices.Keys == {cfg.cellAttributeMatrixName}
      && o.store[name].matrices[cfg.cellAttributeMatrixName].tupleDims == [cfg.xPoints, cfg.yPoints, cfg.zPoints]
      && o.store[name].matrices[cfg.cellAttributeMatrixName].matrixType == Cell
      && o.store[name].matrices[cfg.cellAttributeMatrixName].arrays == map[cfg.featureIdsArrayName := o.featureIds.value]
      && o.featureIds.Some?
      && o.featureIds.value.elementType == Int32
      && o.featureIds.value.numComponents == 1
      && o.featureIds.value.numTuples == PointCount(cfg)
      && |o.featureIds.value.numbers| == PointCount(cfg)
      && (forall i :: 0 <= i < |o.featureIds.value.numbers| ==> o.featureIds.value.numbers[i] == 0)
  {
    var name := cfg.dataContainerName;
    DataCheckSucceedsIff(dca, cfg);
    var c := CreateDataContainer(dca, name);
    CreateDataContainerKeepsShapes(dca, name);
    var withGeometry := SetGeometry(c.store, name, SampleGeometry(cfg));
    assert StoreValid(withGeometry);
    var dims := [cfg.xPoints, cfg.yPoints, cfg.zPoints];
    var m := CreateAttributeMatrix(withGeometry, name, cfg.cellAttributeMatrixName, dims, Cell);
    CreateAttributeMatrixKeepsShapes(withGeometry, name, cfg.cellAttributeMatrixName, dims, Cell);
    CreateInt32ArrayKeepsShapes(m.store, name, cfg.cellAttributeMatrixName, cfg.featureIdsArrayName, 0, 1);
    Product3(cfg.xPoints, cfg.yPoints, cfg.zPoints);
  }

  /** The creation steps of dataCheck, each on the store the previous one
      left, stopping at the first refusal: the step-by-step form of
      DataCheckOutcome, which specifies it. */
  method CreateOutputs(dca: DataContainerArray, cfg: SampleConfig) returns (o: CheckOutcome)
    ensures o == DataCheckOutcome(dca, cfg)
    ensures o.errorCondition <= 0
    ensures o.featureIds.Some? ==> forall i :: 0 <= i < |o.featureIds.value.numbers| ==> o.featureIds.value.numbers[i] == 0
  {
    var c := CreateDataContainer(dca, cfg.dataContainerName);
    if c.Refused? {
      return CheckOutcome(ErrorCode(c.error), dca, None);
    }
    var store := SetGeometry(c.store, cfg.dataContainerName, SampleGeometry(cfg));
    var m := CreateAttributeMatrix(store, cfg.dataContainerName, cfg.cellAttributeMatrixName,
                                   [cfg.xPoints, cfg.yPoints, cfg.zPoints], Cell);
    if m.Refused? {
      return CheckOutcome(ErrorCode(m.error), store, None);
    }
    store := m.store;
    var a := CreateInt32Array(store, cfg.dataContainerName, cfg.cellAttributeMatrixName,
                              cfg.featureIdsArrayName, 0, 1);
    if a.Refused? {
      return CheckOutcome(ErrorCode(a.error), store, None);
    }
    return CheckOutcome(0, a.store, Some(a.value));
  }

  // ---------------------------------------------------------------------------
  // Sample points
  // ---------------------------------------------------------------------------

  /** A sample point, identified by the grid cell (i, j, k) it jitters around. */
  datatype SamplePoint = SamplePoint(i: nat, j: nat, k: nat)

  /** The point generate_points stores at position `count`. */
  function PointAt(count: nat, xPoints: nat, yPoints: nat): SamplePoint
    requires xPoints > 0 && yPoints > 0
  {
    var cell := Grid.CellOf(count, xPoints, yPoints);
    SamplePoint(cell.0, cell.1, cell.2)
  }

  /** The points written so far are those of positions 0 .. |points|-1. */
  predicate PointsUpTo(points: seq<SamplePoint>, xPoints: nat, yPoints: nat) {
    forall c :: 0 <= c < |points| ==>
      xPoints > 0 && yPoints > 0 && points[c] == PointAt(c, xPoints, yPoints)
  }

  /** The k/j/i loop of generate_points over the signed counts: exactly
      X*Y*Z points when no count is negative and none otherwise, position
      count = k*Y*X + j*X + i holding the point of cell (i, j, k). */
  method GeneratePoints(xPoints: int, yPoints: int, zPoints: int) returns (points: seq<SamplePoint>)
    ensures |points| == Iterations(xPoints) * Iterations(yPoints) * Iterations(zPoints)
    ensures PointsUpTo(points, Iterations(xPoints), Iterations(yPoints))
  {
    ghost var dx, dy, dz := Iterations(xPoints), Iterations(yPoints), Iterations(zPoints);
    points := [];
    var k := 0;
    while k < zPoints
      invariant 0 <= k <= dz
      invariant |points| == Grid.LinearIndex(0, 0, k, dx, dy)
      invariant PointsUpTo(points, dx, dy)
    {
      var j := 0;
      while j < yPoints
        invariant 0 <= j <= dy
        invariant |points| == Grid.LinearIndex(0, j, k, dx, dy)
        invariant PointsUpTo(points, dx, dy)
      {
        var i := 0;
        while i < xPoints
          invariant 0 <= i <= dx
          invariant |points| == Grid.LinearIndex(i, j, k, dx, dy)
          invariant PointsUpTo(points, dx, dy)
        {
          Grid.CellOfLinearIndex(i, j, k, dx, dy, dz);
          points := points + [SamplePoint(i, j, k)];
          i := i + 1;
        }
        Grid.RowEnd(j, k, dx, dy);
        j := j + 1;
      }
      Grid.PlaneEnd(k, dx, dy);
      k := k + 1;
    }
    Grid.GridEnd(dx, dy, dz);
  }

  /** A negative count makes generate_points produce no point at all, while
      dataCheck sizes the cell matrix by the converted size_t counts. */
  lemma NegativeCountSamplesNothing(xPoints: int, yPoints: int, zPoints: int)
    requires -0x8000_0000 <= xPoints < 0 && 0 < yPoints < 0x8000_0000 && 0 < zPoints < 0x8000_0000
    ensures Iterations(xPoints) * Iterations(yPoints) * Iterations(zPoints) == 0
    ensures SizeT(xPoints) * SizeT(yPoints) * SizeT(zPoints) >= 0x1_0000_0000_0000_0000 - 0x8000_0000
  {
    var big := SizeT(xPoints);
    Grid.MulMono(1, SizeT(yPoints), big);
    Grid.MulMono(1, SizeT(zPoints), big * SizeT(yPoints));
  }

  /** Every cell of the grid is sampled, at the position its linear index
      names. */
  lemma GeneratedPointsCoverGrid(points: seq<SamplePoint>, xPoints: nat, yPoints: nat, zPoints: nat,
                                 i: nat, j: nat, k: nat)
    requires |points| == xPoints * yPoints * zPoints
    requires PointsUpTo(points, xPoints, yPoints)
    requires Grid.InGrid(i, j, k, xPoints, yPoints, zPoints)
    ensures Grid.LinearIndex(i, j, k, xPoints, yPoints) < |points|
    ensures points[Grid.LinearIndex(i, j, k, xPoints, yPoints)] == SamplePoint(i, j, k)
  {
    Grid.LinearIndexInRange(i, j, k, xPoints, yPoints, zPoints);
    Grid.CellOfLinearIndex(i, j, k, xPoints, yPoints, zPoints);
  }

  /** No position holds a point outside the grid. */
  lemma GeneratedPointsInGrid(points: seq<SamplePoint>, xPoints: nat, yPoints: nat, zPoints: nat, c: nat)
    requires |points| == xPoints * yPoints * zPoints
    requires PointsUpTo(points, xPoints, yPoints)
    requires c < |points|
    ensures Grid.InGrid(points[c].i, points[c].j, points[c].k, xPoints, yPoints, zPoints)
  {
    CellOfInGrid(c, xPoints, yPoints, zPoints);
  }

  /** Dividing an index of the grid back gives a cell of the grid. */
  lemma CellOfInGrid(c: nat, d0: nat, d1: nat, d2: nat)
    requires c < d0 * d1 * d2
    ensures d0 > 0 && d1 > 0
    ensures var cell := Grid.CellOf(c, d0, d1); Grid.InGrid(cell.0, cell.1, cell.2, d0, d1, d2)
  {
    if d0 == 0 || d1 == 0 {
      assert false;
    }
    var plane := d0 * d1;
    assert c < plane * d2;
    if c / plane >= d2 {
      Grid.MulMono(d2, c / plane, plane);
      assert false;
    }
  }

  // ---------------------------------------------------------------------------
  // The filter object
  // ---------------------------------------------------------------------------

  class UncertainRegularGridSampleSurfaceMesh {
    var dca: DataContainerArray
    var errorCondition: int
    var warningCondition: int
    var inPreflight: bool
    var xPoints: Int32
    var yPoints: Int32
    var zPoints: Int32
    var resolution: Vec3
    var origin: Vec3
    var uncertainty: Vec3
    var dataContainerName: string
    var cellAttributeMatrixName: string
    var featureIdsArrayName: string
    /** The raw FeatureIds buffer dataCheck binds (null until then). */
    var featureIds: array?<int>

    function Config(): SampleConfig
      reads this
    {
      SampleConfig(SizeT(xPoints as int), SizeT(yPoints as int), SizeT(zPoints as int), resolution, origin,
                   dataContainerName, cellAttributeMatrixName, featureIdsArrayName)
    }

    constructor (store: DataContainerArray)
      ensures dca == store && errorCondition == 0 && warningCondition == 0 && !inPreflight
      ensures xPoints == 0 && yPoints == 0 && zPoints == 0
      ensures resolution == Vec3(1.0, 1.0, 1.0) && origin == Vec3(0.0, 0.0, 0.0)
      ensures uncertainty == Vec3(0.1, 0.1, 0.1)
      ensures dataContainerName == ImageDataContainerName
      ensures cellAttributeMatrixName == CellAttributeMatrixName
      ensures featureIdsArrayName == FeatureIdsName
      ensures featureIds == null
    {
      dca := store;
      errorCondition, warningCondition, inPreflight := 0, 0, false;
      xPoints, yPoints, zPoints := 0, 0, 0;
      resolution := Vec3(1.0, 1.0, 1.0);
      origin := Vec3(0.0, 0.0, 0.0);
      uncertainty := Vec3(0.1, 0.1, 0.1);
      dataContainerName := ImageDataContainerName;
      cellAttributeMatrixName := CellAttributeMatrixName;
      featureIdsArrayName := FeatureIdsName;
      featureIds := null;
    }

    /** dataCheck: resets both conditions, then creates what the filter
      outputs; on success FeatureIds is bound to a buffer holding the values
      of the store's FeatureIds array (X*Y*Z zeros), otherwise the pointer
      is left as it was. In the source the pointer aims into the stored
      array itself; execute writes the buffer back into the store. */
    method DataCheck()
      modifies this
      ensures Config() == old(Config()) && uncertainty == old(uncertainty) && inPreflight == old(inPreflight)
      ensures var o := DataCheckOutcome(old(dca), Config());
        && errorCondition == o.errorCondition
        && dca == o.store
        && warningCondition == 0
        && (o.featureIds.None? ==> featureIds == old(featureIds))
        && (o.featureIds.Some? ==>
              featureIds != null && fresh(featureIds)
              && featureIds[..] == o.featureIds.value.numbers)
    {
      errorCondition := 0;
      warningCondition := 0;
      var o := CreateOutputs(dca, Config());
      dca, errorCondition := o.store, o.errorCondition;
      if o.featureIds.Some? {
        var buffer := new int[|o.featureIds.value.numbers|](i => 0);
        assert buffer[..] == o.featureIds.value.numbers;
        featureIds := buffer;
      }
    }

    /** preflight: dataCheck with the in-preflight flag raised around it; the
      base class's own preflight is not part of this model. */
    method Preflight()
      modifies this
      ensures !inPreflight
      ensures Config() == old(Config()) && uncertainty == old(uncertainty)
      ensures var o := DataCheckOutcome(old(dca), Config());
        && errorCondition == o.errorCondition && dca == o.store && warningCondition == 0
        && (o.featureIds.None? ==> featureIds == old(featureIds))
        && (o.featureIds.Some? ==>
              featureIds != null && fresh(featureIds)
              && featureIds[..] == o.featureIds.value.numbers)
    {
      inPreflight := true;
      DataCheck();
      inPreflight := false;
    }

    /** The bound of assign_points' loop: the product of the signed counts. */
    function SignedCount(): int
      reads this
    {
      (xPoints as int) * (yPoints as int) * (zPoints as int)
    }

    /** assign_points: FeatureIds[i] := ids[i] for every i < X*Y*Z (none when
      that product is not positive); the rest of the buffer is left alone. */
    method AssignPoints(ids: seq<int>)
      requires featureIds != null
      requires Iterations(SignedCount()) <= featureIds.Length && Iterations(SignedCount()) <= |ids|
      modifies featureIds
      ensures featureIds[..Iterations(SignedCount())] == ids[..Iterations(SignedCount())]
      ensures featureIds[Iterations(SignedCount())..] == old(featureIds[Iterations(SignedCount())..])
    {
      var n := (xPoints as int) * (yPoints as int) * (zPoints as int);
      ghost var last := Iterations(n);
      var i := 0;
      while i < n
        invariant 0 <= i <= last
        invariant featureIds[..i] == ids[..i]
        invariant featureIds[i..] == old(featureIds[i..])
      {
        featureIds[i] := ids[i];
        assert featureIds[..i + 1] == featureIds[..i] + [ids[i]];
        i := i + 1;
      }
    }

    /** execute: dataCheck on the real store; on failure nothing else
      happens. Otherwise the geometry is set (again) and the base class's
      sampling computes one feature id per sample point, passed here as
      `pointIds`, which assign_points copies into FeatureIds. Since that
      buffer is the stored array in the source, its final values are
      written back into the store. */
    method Execute(pointIds: seq<int>)
      requires |pointIds| == Iterations(xPoints as int) * Iterations(yPoints as int) * Iterations(zPoints as int)
      requires Iterations(SignedCount()) <= |pointIds|
      modifies this, featureIds
      ensures Config() == old(Config())
      ensures uncertainty == old(uncertainty) && inPreflight == old(inPreflight)
      ensures var o := DataCheckOutcome(old(dca), Config());
        && errorCondition == o.errorCondition
        && warningCondition == 0
        && (o.errorCondition < 0 ==> dca == o.store && featureIds == old(featureIds))
        && (o.errorCondition == 0 ==>
              && featureIds != null && fresh(featureIds)
              && HasFeatureIds(o.store, Config())
              && dca == WithFeatureIdsValues(o.store, Config(), featureIds[..])
              && |pointIds| <= featureIds.Length
              && FeatureIdsArray(dca, Config()).numbers[..|pointIds|] == pointIds
              && featureIds[..|pointIds|] == pointIds
              && (forall i :: |pointIds| <= i < featureIds.Length ==> featureIds[i] == 0))
    {
      errorCondition := 0;
      warningCondition := 0;
      ghost var before := dca;
      DataCheck();
      if errorCondition < 0 {
        return;
      }
      var cfg := Config();
      ghost var o := DataCheckOutcome(before, cfg);
      DataCheckSucceedsIff(before, cfg);
      ExecuteGeometryUnchanged(before, cfg);
      AssignedAreGenerated(xPoints as int, yPoints as int, zPoints as int, |pointIds|);
      assert featureIds.Length == PointCount(cfg);
      dca := SetGeometry(dca, dataContainerName, SampleGeometry(cfg));
      assert dca == o.store;
      AssignPoints(pointIds);
      assert featureIds[..|pointIds|] == pointIds[..|pointIds|] == pointIds;
      forall i | |pointIds| <= i < featureIds.Length
        ensures featureIds[i] == 0
      {
        assert featureIds[i] == featureIds[|pointIds|..][i - |pointIds|];
      }
      dca := WithFeatureIdsValues(dca, cfg, featureIds[..]);
    }
  }

  /** The FeatureIds array exists at the configured path. */
  predicate HasFeatureIds(dca: DataContainerArray, cfg: SampleConfig) {
    && cfg.dataContainerName in dca
    && cfg.cellAttributeMatrixName in dca[cfg.dataContainerName].matrices
    && cfg.featureIdsArrayName in dca[cfg.dataContainerName].matrices[cfg.cellAttributeMatrixName].arrays
  }

  function FeatureIdsArray(dca: DataContainerArray, cfg: SampleConfig): DataArray
    requires HasFeatureIds(dca, cfg)
  {
    dca[cfg.dataContainerName].matrices[cfg.cellAttributeMatrixName].arrays[cfg.featureIdsArrayName]
  }

  /** The store after writes through the FeatureIds pointer: only the values
      of that one array change. */
  function WithFeatureIdsValues(dca: DataContainerArray, cfg: SampleConfig, numbers: seq<int>)
    : (r: DataContainerArray)
    requires HasFeatureIds(dca, cfg)
    ensures HasFeatureIds(r, cfg)
    ensures FeatureIdsArray(r, cfg) == FeatureIdsArray(dca, cfg).(numbers := numbers)
    ensures r.Keys == dca.Keys
    ensures forall c :: c in dca && c != cfg.dataContainerName ==> r[c] == dca[c]
    ensures var dc, dc' := dca[cfg.dataContainerName], r[cfg.dataContainerName];
      && dc'.geometry == dc.geometry && dc'.matrices.Keys == dc.matrices.Keys
      && (forall m :: m in dc.matrices && m != cfg.cellAttributeMatrixName ==> dc'.matrices[m] == dc.matrices[m])
      && dc'.matrices[cfg.cellAttributeMatrixName].arrays.Keys == dc.matrices[cfg.cellAttributeMatrixName].arrays.Keys
      && (forall a :: a in dc.matrices[cfg.cellAttributeMatrixName].arrays && a != cfg.featureIdsArrayName ==>
            dc'.matrices[cfg.cellAttributeMatrixName].arrays[a] == dc.matrices[cfg.cellAttributeMatrixName].arrays[a])
  {
    var dc := dca[cfg.dataContainerName];
    var am := dc.matrices[cfg.cellAttributeMatrixName];
    var a := am.arrays[cfg.featureIdsArrayName].(numbers := numbers);
    dca[cfg.dataContainerName := dc.(matrices := dc.matrices[cfg.cellAttributeMatrixName := am.(arrays := am.arrays[cfg.featureIdsArrayName := a])])]
  }

  /** When generate_points produced `generated` ids and assign_points reads
      no further, it copies exactly the generated ids, and the FeatureIds
      buffer, sized by the size_t counts, has room for them. */
  lemma AssignedAreGenerated(x: int, y: int, z: int, generated: nat)
    requires -0x8000_0000 <= x < 0x8000_0000 && -0x8000_0000 <= y < 0x8000_0000
    requires -0x8000_0000 <= z < 0x8000_0000
    requires generated == Iterations(x) * Iterations(y) * Iterations(z)
    requires Iterations(x * y * z) <= generated
    ensures Iterations(x * y * z) == generated
    ensures generated <= SizeT(x) * SizeT(y) * SizeT(z)
  {
    if x < 0 || y < 0 || z < 0 {
      assert Iterations(x) == 0 || Iterations(y) == 0 || Iterations(z) == 0;
      assert generated == 0;
    } else {
      assert generated == x * y * z;
    }
  }

  /** After a successful dataCheck the geometry already holds the sample
      geometry, so setting it again in execute leaves the store as it is,
      and the bound buffer holds one zero per sample point. */
  lemma ExecuteGeometryUnchanged(dca: DataContainerArray, cfg: SampleConfig)
    requires DataCheckOutcome(dca, cfg).errorCondition == 0
    ensures var o := DataCheckOutcome(dca, cfg);
      && cfg.dataContainerName in o.store
      && SetGeometry(o.store, cfg.dataContainerName, SampleGeometry(cfg)) == o.store
      && o.featureIds.Some?
      && |o.featureIds.value.numbers| == PointCount(cfg)
      && HasFeatureIds(o.store, cfg) && FeatureIdsArray(o.store, cfg) == o.featureIds.value
      && (forall i :: 0 <= i < |o.featureIds.value.numbers| ==> o.featureIds.value.numbers[i] == 0)
  {
    var dims := [cfg.xPoints, cfg.yPoints, cfg.zPoints];
    Product3(cfg.xPoints, cfg.yPoints, cfg.zPoints);
  }
}
