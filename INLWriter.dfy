/** The INL export filter: its dataCheck (the prerequisite arrays and their
    error codes), preflight, writeFile (the per-phase header, the number of
    distinct grain ids and one row per voxel in x-fastest order) and
    writeFilterParameters. */
module INLWriter {
  import opened Wrappers
  import opened DataStore
  import Grid

  // ---------------------------------------------------------------------------
  // Constants
  // ---------------------------------------------------------------------------

  /** Default array and container names (DREAM3D's string constants). */
  const VolumeDataContainerName: string := "VolumeDataContainer"
  const GrainIdsName: string := "GrainIds"
  const PhasesName: string := "Phases"
  const EulerAnglesName: string := "EulerAngles"
  const CrystalStructuresName: string := "CrystalStructures"
  const MaterialNameName: string := "MaterialName"

  /** EbsdLib's crystal-structure codes stored in the CrystalStructures array;
      all that matters below is that the two differ. */
  const CubicHigh: int := 1
  const HexagonalHigh: int := 0

  /** The TSL .ang phase-symmetry codes written in the Symmetry column. */
  datatype AngSymmetry = Cubic | DiHexagonal | UnknownSymmetry

  /** The error conditions dataCheck can leave. */
  const NoError: int := 0
  const MissingContainerError: int := -999
  const MissingOutputFileError: int := -387
  const GrainIdsError: int := -300
  const CellPhasesError: int := -302
  const EulerAnglesError: int := -305
  const CrystalStructuresError: int := -304
  const MaterialNamesError: int := -1111

  /** The error writeFile returns when its real-size dataCheck fails. */
  const DataCheckFailed: int := -40

  // ---------------------------------------------------------------------------
  // The filter's parameters and the specification of dataCheck
  // ---------------------------------------------------------------------------

  datatype Config = Config(
    outputFile: string,
    dataContainerName: string,
    grainIds: string,
    cellPhases: string,
    cellEulerAngles: string,
    crystalStructures: string)

  predicate IsStringArray(a: Option<DataArray>) {
    a.Some? && a.value.elementType == StringElement
  }

  /** The error condition dataCheck leaves, check by check in source order: a
      missing volume container stops at once; every later failure overwrites
      the code of the one before, so the last failing check decides. The
      field count is passed along by the source but not checked against. */
  function DataCheckCode(dca: DataContainerArray, cfg: Config, voxels: nat, ensembles: nat): int {
    var m := GetVolumeContainer(dca, cfg.dataContainerName);
    if m.None? then MissingContainerError else ContainerCheckCode(m.value, cfg, voxels, ensembles)
  }

  /** The checks dataCheck runs once the volume container is found. */
  function ContainerCheckCode(dc: DataContainer, cfg: Config, voxels: nat, ensembles: nat): int {
    var e1 := if cfg.outputFile == "" then MissingOutputFileError else NoError;
    var e2 := if GetPrereqArray(dc, CellData, cfg.grainIds, Int32, voxels, 1).None? then GrainIdsError else e1;
    var e3 := if GetPrereqArray(dc, CellData, cfg.cellPhases, Int32, voxels, 1).None? then CellPhasesError else e2;
    var e4 := if GetPrereqArray(dc, CellData, cfg.cellEulerAngles, Float32, voxels, 3).None? then EulerAnglesError else e3;
    var e5 := if GetPrereqArray(dc, CellEnsembleData, cfg.crystalStructures, UInt32, ensembles, 1).None? then CrystalStructuresError else e4;
    if !IsStringArray(GetArray(dc, CellEnsembleData, MaterialNameName)) then MaterialNamesError else e5
  }

  /** Every prerequisite dataCheck asks for is present with the right shape. */
  predicate AllPrerequisitesPresent(dca: DataContainerArray, cfg: Config, voxels: nat, ensembles: nat) {
    var m := GetVolumeContainer(dca, cfg.dataContainerName);
    && m.Some?
    && cfg.outputFile != ""
    && GetPrereqArray(m.value, CellData, cfg.grainIds, Int32, voxels, 1).Some?
    && GetPrereqArray(m.value, CellData, cfg.cellPhases, Int32, voxels, 1).Some?
    && GetPrereqArray(m.value, CellData, cfg.cellEulerAngles, Float32, voxels, 3).Some?
    && GetPrereqArray(m.value, CellEnsembleData, cfg.crystalStructures, UInt32, ensembles, 1).Some?
    && IsStringArray(GetArray(m.value, CellEnsembleData, MaterialNameName))
  }

  /** dataCheck succeeds exactly when every prerequisite is present, and it
      only ever leaves one of its eight codes. */
  lemma DataCheckSucceedsIffPrerequisites(dca: DataContainerArray, cfg: Config, voxels: nat, ensembles: nat)
    ensures DataCheckCode(dca, cfg, voxels, ensembles) == NoError <==> AllPrerequisitesPresent(dca, cfg, voxels, ensembles)
    ensures DataCheckCode(dca, cfg, voxels, ensembles) in
      {NoError, MissingContainerError, MissingOutputFileError, GrainIdsError, CellPhasesError,
       EulerAnglesError, CrystalStructuresError, MaterialNamesError}
  {
  }

  /** A missing volume container gives -999 whatever else is wrong. */
  lemma MissingContainerStopsEarly(dca: DataContainerArray, cfg: Config, voxels: nat, ensembles: nat)
    requires GetVolumeContainer(dca, cfg.dataContainerName).None?
    ensures DataCheckCode(dca, cfg, voxels, ensembles) == MissingContainerError
  {
  }

  /** An empty output file does not stop the checks: with the output file
      empty, the code is -387 only when every array check passes, and any
      failing array check replaces it. */
  lemma MissingOutputFileDoesNotStop(dca: DataContainerArray, cfg: Config, voxels: nat, ensembles: nat)
    requires GetVolumeContainer(dca, cfg.dataContainerName).Some?
    requires cfg.outputFile == ""
    ensures DataCheckCode(dca, cfg, voxels, ensembles) < 0
    ensures DataCheckCode(dca, cfg, voxels, ensembles) == MissingOutputFileError <==>
      AllPrerequisitesPresent(dca, cfg.(outputFile := "x"), voxels, ensembles)
  {
  }

  /** MaterialName is checked last: when it is absent or not a string array
      the code is -1111 in every container that exists. */
  lemma MissingMaterialNamesWins(dca: DataContainerArray, cfg: Config, voxels: nat, ensembles: nat)
    requires GetVolumeContainer(dca, cfg.dataContainerName).Some?
    ensures !IsStringArray(GetArray(dca[cfg.dataContainerName], CellEnsembleData, MaterialNameName))
            <==> DataCheckCode(dca, cfg, voxels, ensembles) == MaterialNamesError
  {
  }

  // ---------------------------------------------------------------------------
  // Symmetry mapping
  // ---------------------------------------------------------------------------

  /** The mapping of a crystal structure to its .ang symmetry code, as used
      for the per-phase header lines. */
  function StructureSymmetry(structure: int): AngSymmetry {
    if structure == CubicHigh then Cubic
    else if structure == HexagonalHigh then DiHexagonal
    else UnknownSymmetry
  }

  /** The symmetry written for a voxel of phase `phaseId`: the phase's
      structure mapped as above when the phase is positive and the ensemble
      data has it, UnknownSymmetry otherwise. */
  function VoxelSymmetry(phaseId: int, structures: seq<int>): AngSymmetry {
    if 0 < phaseId < |structures| then StructureSymmetry(structures[phaseId]) else UnknownSymmetry
  }

  /** The symmetry rule stated case by case. */
  lemma VoxelSymmetryRule(phaseId: int, structures: seq<int>)
    ensures VoxelSymmetry(phaseId, structures) == Cubic <==>
      0 < phaseId < |structures| && structures[phaseId] == CubicHigh
    ensures VoxelSymmetry(phaseId, structures) == DiHexagonal <==>
      0 < phaseId < |structures| && structures[phaseId] == HexagonalHigh
    ensures phaseId <= 0 ==> VoxelSymmetry(phaseId, structures) == UnknownSymmetry
  {
  }

  /** As written, the voxel loop reads CrystalStructures[phaseId] before it
      tests phaseId > 0, and never compares phaseId with the number of
      ensembles; this tells whether that read stays inside the array. */
  predicate AsWrittenStructureReadInBounds(phaseId: int, structures: seq<int>) {
    0 <= phaseId < |structures|
  }

  // ---------------------------------------------------------------------------
  // The file writeFile produces
  // ---------------------------------------------------------------------------

  datatype PhaseHeader = PhaseHeader(phase: nat, materialName: string, symmetry: AngSymmetry)

  /** One data row; the Euler angles and coordinates (floats) are not modelled. */
  datatype VoxelRow = VoxelRow(grainId: int, phaseId: int, symmetry: AngSymmetry)

  datatype InlFile = InlFile(dims: Dims3, phases: seq<PhaseHeader>, numGrains: nat, rows: seq<VoxelRow>)

  /** One header entry per ensemble 1 .. n-1 (ensemble 0 is skipped). */
  function PhaseHeaders(names: seq<string>, structures: seq<int>): (hs: seq<PhaseHeader>)
    requires |names| <= |structures|
    ensures |hs| == if |names| == 0 then 0 else |names| - 1
    ensures forall i :: 0 <= i < |hs| ==>
      hs[i] == PhaseHeader(i + 1, names[i + 1], StructureSymmetry(structures[i + 1]))
  {
    if |names| <= 1 then
      []
    else
      seq(|names| - 1, i requires 0 <= i < |names| - 1 =>
        PhaseHeader(i + 1, names[i + 1], StructureSymmetry(structures[i + 1])))
  }

  /** The grain ids of the first n voxels, without repetition. */
  function DistinctIds(ids: seq<int>, n: nat): set<int>
    requires n <= |ids|
  {
    set k | 0 <= k < n :: ids[k]
  }

  /** The row for the voxel stored at linear index k. */
  function RowAt(k: nat, grainIds: seq<int>, phases: seq<int>, structures: seq<int>): VoxelRow
    requires k < |grainIds| && k < |phases|
  {
    VoxelRow(grainIds[k], phases[k], VoxelSymmetry(phases[k], structures))
  }

  function VoxelCount(d: Dims3): nat {
    d.x * d.y * d.z
  }

  /** Row k of the file describes voxel k, for every voxel. */
  function VoxelRows(d: Dims3, grainIds: seq<int>, phases: seq<int>, structures: seq<int>): (rows: seq<VoxelRow>)
    requires VoxelCount(d) <= |grainIds| && VoxelCount(d) <= |phases|
  {
    seq(VoxelCount(d), k requires 0 <= k < VoxelCount(d) => RowAt(k, grainIds, phases, structures))
  }

  /** At most one distinct grain id per voxel, and at least one when there is
      a voxel. */
  lemma {:induction false} DistinctIdsBounds(ids: seq<int>, n: nat)
    requires n <= |ids|
    ensures |DistinctIds(ids, n)| <= n
    ensures n > 0 ==> |DistinctIds(ids, n)| >= 1
  {
    if n > 0 {
      DistinctIdsBounds(ids, n - 1);
      assert DistinctIds(ids, n) == DistinctIds(ids, n - 1) + {ids[n - 1]};
    }
  }

  /** The grain ids [0, 1, 1, 2] give Num_Grains 3. */
  lemma DistinctIdsExample()
    ensures |DistinctIds([0, 1, 1, 2], 4)| == 3
  {
    var ids := [0, 1, 1, 2];
    assert ids[0] == 0 && ids[1] == 1 && ids[3] == 2;
    assert DistinctIds(ids, 4) == {0, 1, 2};
  }

  // ---------------------------------------------------------------------------
  // The arrays a passing dataCheck has bound, and the file they produce
  // ---------------------------------------------------------------------------

  function CellArray(dc: DataContainer, name: string): seq<int> {
    var a := GetArray(dc, CellData, name);
    if a.Some? then a.value.numbers else []
  }

  function EnsembleNumbers(dc: DataContainer, name: string): seq<int> {
    var a := GetArray(dc, CellEnsembleData, name);
    if a.Some? then a.value.numbers else []
  }

  function MaterialNames(dc: DataContainer): seq<string> {
    var a := GetArray(dc, CellEnsembleData, MaterialNameName);
    if a.Some? then a.value.texts else []
  }

  /** After dataCheck passes on the real sizes of a valid store, the cell
      arrays hold one value per voxel and every material name has a crystal
      structure. */
  lemma PassingCheckSizes(dca: DataContainerArray, cfg: Config)
    requires StoreValid(dca)
    requires GetVolumeContainer(dca, cfg.dataContainerName).Some?
    requires var dc := dca[cfg.dataContainerName];
      DataCheckCode(dca, cfg, TotalPoints(dc), NumTuples(dc, CellEnsembleData)) == NoError
    ensures var dc := dca[cfg.dataContainerName];
      && |CellArray(dc, cfg.grainIds)| == TotalPoints(dc)
      && |CellArray(dc, cfg.cellPhases)| == TotalPoints(dc)
      && |MaterialNames(dc)| <= |EnsembleNumbers(dc, cfg.crystalStructures)|
  {
    var c := cfg.dataContainerName;
    var dc := dca[c];
    DataCheckSucceedsIffPrerequisites(dca, cfg, TotalPoints(dc), NumTuples(dc, CellEnsembleData));
    PrereqArrayLength(dca, c, CellData, cfg.grainIds, Int32, TotalPoints(dc), 1);
    PrereqArrayLength(dca, c, CellData, cfg.cellPhases, Int32, TotalPoints(dc), 1);
    PrereqArrayLength(dca, c, CellEnsembleData, cfg.crystalStructures, UInt32, NumTuples(dc, CellEnsembleData), 1);
    assert MatrixValid(dc.matrices[CellEnsembleData]);
  }

  /** The file writeFile produces once its dataCheck has passed. */
  function InlFileOf(dca: DataContainerArray, cfg: Config): InlFile
    requires StoreValid(dca)
    requires GetVolumeContainer(dca, cfg.dataContainerName).Some?
    requires var dc := dca[cfg.dataContainerName];
      DataCheckCode(dca, cfg, TotalPoints(dc), NumTuples(dc, CellEnsembleData)) == NoError
  {
    PassingCheckSizes(dca, cfg);
    var dc := dca[cfg.dataContainerName];
    var grainIds := CellArray(dc, cfg.grainIds);
    var phases := CellArray(dc, cfg.cellPhases);
    var structures := EnsembleNumbers(dc, cfg.crystalStructures);
    InlFile(Dimensions(dc),
            PhaseHeaders(MaterialNames(dc), structures),
            |DistinctIds(grainIds, TotalPoints(dc))|,
            VoxelRows(Dimensions(dc), grainIds, phases, structures))
  }

  /** What writeFile returns, the error condition it leaves and the file it
      writes, if any. Creating the parent directory and opening the file are
      I/O whose outcomes are given. */
  datatype WriteOutcome = WriteOutcome(ret: int, errorCondition: int, file: Option<InlFile>)

  function WriteFileOutcome(dca: DataContainerArray, cfg: Config, mkpathOk: bool, fopenOk: bool): WriteOutcome
    requires StoreValid(dca)
  {
    var m := GetVolumeContainer(dca, cfg.dataContainerName);
    if m.None? then WriteOutcome(-1, -1, None)
    else
      var dc := m.value;
      var code := DataCheckCode(dca, cfg, TotalPoints(dc), NumTuples(dc, CellEnsembleData));
      if code < 0 then WriteOutcome(DataCheckFailed, code, None)
      else if !mkpathOk || !fopenOk then WriteOutcome(-1, -1, None)
      else
        DataCheckSucceedsIffPrerequisites(dca, cfg, TotalPoints(dc), NumTuples(dc, CellEnsembleData));
        WriteOutcome(0, code, Some(InlFileOf(dca, cfg)))
  }

  /** writeFile returns -40 and opens no file exactly when the container
      exists and the real-size dataCheck leaves a negative code; a file is
      written only after a clean check, with one row per voxel, row k being
      voxel k, and Num_Grains the number of distinct grain ids. */
  lemma WriteFileContract(dca: DataContainerArray, cfg: Config, mkpathOk: bool, fopenOk: bool)
    requires StoreValid(dca)
    ensures var o := WriteFileOutcome(dca, cfg, mkpathOk, fopenOk);
      var m := GetVolumeContainer(dca, cfg.dataContainerName);
      && (o.ret == DataCheckFailed <==>
            m.Some? && DataCheckCode(dca, cfg, TotalPoints(m.value), NumTuples(m.value, CellEnsembleData)) < 0)
      && (o.ret == DataCheckFailed ==> o.file.None?)
      && (o.file.Some? <==> o.ret == 0)
      && (o.file.Some? ==>
            && m.Some? && mkpathOk && fopenOk
            && AllPrerequisitesPresent(dca, cfg, TotalPoints(m.value), NumTuples(m.value, CellEnsembleData))
            && |o.file.value.rows| == TotalPoints(m.value)
            && o.file.value.numGrains <= TotalPoints(m.value)
            && (forall k :: 0 <= k < TotalPoints(m.value) ==>
                  o.file.value.rows[k].grainId == CellArray(m.value, cfg.grainIds)[k]
                  && o.file.value.rows[k].phaseId == CellArray(m.value, cfg.cellPhases)[k]))
  {
    var o := WriteFileOutcome(dca, cfg, mkpathOk, fopenOk);
    var m := GetVolumeContainer(dca, cfg.dataContainerName);
    if o.file.Some? {
      var dc := m.value;
      DataCheckSucceedsIffPrerequisites(dca, cfg, TotalPoints(dc), NumTuples(dc, CellEnsembleData));
      PassingCheckSizes(dca, cfg);
      DistinctIdsBounds(CellArray(dc, cfg.grainIds), TotalPoints(dc));
    }
  }

  // ---------------------------------------------------------------------------
  // The loops of writeFile
  // ---------------------------------------------------------------------------

  /** The header loop over ensembles 1 .. n-1. */
  method WritePhaseHeaders(names: seq<string>, structures: seq<int>) returns (hs: seq<PhaseHeader>)
    requires |names| <= |structures|
    ensures hs == PhaseHeaders(names, structures)
  {
    hs := [];
    var i := 1;
    while i < |names|
      invariant 1 <= i <= if |names| == 0 then 1 else |names|
      invariant |hs| == i - 1
      invariant forall j :: 0 <= j < |hs| ==>
        hs[j] == PhaseHeader(j + 1, names[j + 1], StructureSymmetry(structures[j + 1]))
    {
      hs := hs + [PhaseHeader(i, names[i], StructureSymmetry(structures[i]))];
      i := i + 1;
    }
  }

  /** The QSet of grain ids over the first n voxels, and its size. */
  method CountUniqueGrainIds(ids: seq<int>, n: nat) returns (count: nat)
    requires n <= |ids|
    ensures count == |DistinctIds(ids, n)|
  {
    var unique: set<int> := {};
    var i := 0;
    while i < n
      invariant 0 <= i <= n
      invariant unique == DistinctIds(ids, i)
    {
      assert DistinctIds(ids, i + 1) == DistinctIds(ids, i) + {ids[i]};
      unique := unique + {ids[i]};
      i := i + 1;
    }
    count := |unique|;
  }

  /** The z/y/x loop: `index` is recomputed from (x, y, z) at every step, and
      it always equals the number of rows already written, so the rows come
      out in index order and every index below d0*d1*d2 is visited once. */
  method WriteVoxelRows(d: Dims3, grainIds: seq<int>, phases: seq<int>, structures: seq<int>)
    returns (rows: seq<VoxelRow>)
    requires VoxelCount(d) <= |grainIds| && VoxelCount(d) <= |phases|
    ensures rows == VoxelRows(d, grainIds, phases, structures)
  {
    rows := [];
    var z := 0;
    while z < d.z
      invariant z <= d.z
      invariant |rows| == Grid.LinearIndex(0, 0, z, d.x, d.y)
      invariant RowsUpTo(rows, d, grainIds, phases, structures)
    {
      var y := 0;
      while y < d.y
        invariant y <= d.y
        invariant |rows| == Grid.LinearIndex(0, y, z, d.x, d.y)
        invariant RowsUpTo(rows, d, grainIds, phases, structures)
      {
        var x := 0;
        while x < d.x
          invariant x <= d.x
          invariant |rows| == Grid.LinearIndex(x, y, z, d.x, d.y)
          invariant RowsUpTo(rows, d, grainIds, phases, structures)
        {
          var index := Grid.LinearIndex(x, y, z, d.x, d.y);
          Grid.LinearIndexInRange(x, y, z, d.x, d.y, d.z);
          var phaseId := phases[index];
          rows := rows + [VoxelRow(grainIds[index], phaseId, VoxelSymmetry(phaseId, structures))];
          x := x + 1;
        }
        Grid.RowEnd(y, z, d.x, d.y);
        y := y + 1;
      }
      Grid.PlaneEnd(z, d.x, d.y);
      z := z + 1;
    }
    Grid.GridEnd(d.x, d.y, d.z);
  }

  /** The rows written so far are the rows of voxels 0 .. |rows|-1. */
  predicate RowsUpTo(rows: seq<VoxelRow>, d: Dims3, grainIds: seq<int>, phases: seq<int>, structures: seq<int>)
    requires VoxelCount(d) <= |grainIds| && VoxelCount(d) <= |phases|
  {
    forall k :: 0 <= k < |rows| ==> k < VoxelCount(d) && rows[k] == RowAt(k, grainIds, phases, structures)
  }

  // ---------------------------------------------------------------------------
  // The filter object
  // ---------------------------------------------------------------------------

  /** The body of dataCheck after the container lookup: each prerequisite
      lookup in source order, a later failure overwriting the code of an
      earlier one. Returns the code and the arrays it bound. This is the
      step-by-step form of ContainerCheckCode and DataCheckCode, which
      specify it. */
  method CheckPrerequisites(dc: DataContainer, cfg: Config, voxels: nat, ensembles: nat)
    returns (code: int, g: Option<DataArray>, p: Option<DataArray>, e: Option<DataArray>, c: Option<DataArray>)
    ensures code == ContainerCheckCode(dc, cfg, voxels, ensembles)
    ensures code == NoError <==>
      (cfg.outputFile != "" && g.Some? && p.Some? && e.Some? && c.Some?
       && IsStringArray(GetArray(dc, CellEnsembleData, MaterialNameName)))
    ensures g == GetPrereqArray(dc, CellData, cfg.grainIds, Int32, voxels, 1)
    ensures p == GetPrereqArray(dc, CellData, cfg.cellPhases, Int32, voxels, 1)
    ensures e == GetPrereqArray(dc, CellData, cfg.cellEulerAngles, Float32, voxels, 3)
    ensures c == GetPrereqArray(dc, CellEnsembleData, cfg.crystalStructures, UInt32, ensembles, 1)
  {
    code := if cfg.outputFile == "" then MissingOutputFileError else NoError;
    g := GetPrereqArray(dc, CellData, cfg.grainIds, Int32, voxels, 1);
    code := if g.None? then GrainIdsError else code;
    p := GetPrereqArray(dc, CellData, cfg.cellPhases, Int32, voxels, 1);
    code := if p.None? then CellPhasesError else code;
    e := GetPrereqArray(dc, CellData, cfg.cellEulerAngles, Float32, voxels, 3);
    code := if e.None? then EulerAnglesError else code;
    c := GetPrereqArray(dc, CellEnsembleData, cfg.crystalStructures, UInt32, ensembles, 1);
    code := if c.None? then CrystalStructuresError else code;
    var materialNames := GetArray(dc, CellEnsembleData, MaterialNameName);
    code := if !IsStringArray(materialNames) then MaterialNamesError else code;
  }

  class INLWriterFilter {
    /** The data container array the filter is handed (getDataContainerArray). */
    var dca: DataContainerArray
    var errorCondition: int
    var outputFile: string
    var dataContainerName: string
    var grainIdsArrayName: string
    var cellPhasesArrayName: string
    var cellEulerAnglesArrayName: string
    var crystalStructuresArrayName: string
    /** Declared and defaulted, but dataCheck looks MaterialName up by the
        fixed constant, not by this name. */
    var materialNamesArrayName: string
    /** The raw array pointers dataCheck binds (None for NULL). */
    var grainIds: Option<seq<int>>
    var cellPhases: Option<seq<int>>
    var cellEulerAngles: Option<seq<int>>
    /** Missing from the constructor's initialiser list: its value is
        indeterminate until dataCheck binds it. */
    var crystalStructures: Option<seq<int>>

    function CurrentConfig(): Config
      reads this
    {
      Config(outputFile, dataContainerName, grainIdsArrayName, cellPhasesArrayName,
             cellEulerAnglesArrayName, crystalStructuresArrayName)
    }

    constructor (store: DataContainerArray)
      ensures dca == store && errorCondition == 0 && outputFile == ""
      ensures dataContainerName == VolumeDataContainerName
      ensures grainIdsArrayName == GrainIdsName && cellPhasesArrayName == PhasesName
      ensures cellEulerAnglesArrayName == EulerAnglesName
      ensures crystalStructuresArrayName == CrystalStructuresName
      ensures materialNamesArrayName == MaterialNameName
      ensures grainIds.None? && cellPhases.None? && cellEulerAngles.None?
    {
      dca := store;
      errorCondition := 0;
      outputFile := "";
      dataContainerName := VolumeDataContainerName;
      grainIdsArrayName := GrainIdsName;
      cellPhasesArrayName := PhasesName;
      cellEulerAnglesArrayName := EulerAnglesName;
      crystalStructuresArrayName := CrystalStructuresName;
      materialNamesArrayName := MaterialNameName;
      grainIds, cellPhases, cellEulerAngles := None, None, None;
    }

    /** writeFilterParameters: writes OutputFile into the group of this
        filter's index and returns the next index. The parameter file is a
        map from (group index, key) to value. */
    function WriteFilterParameters(writer: map<(int, string), string>, index: int)
      : (r: (map<(int, string), string>, int))
      reads this
      ensures r.1 == index + 1
      ensures r.0.Keys == writer.Keys + {(index, "OutputFile")}
      ensures forall k :: k in writer && k != (index, "OutputFile") ==> r.0[k] == writer[k]
      ensures ReadOutputFile(r.0, index, "") == outputFile
    {
      (writer[(index, "OutputFile") := outputFile], index + 1)
    }

    /** dataCheck: resets the error condition, then runs the checks in order,
        returning early only when the volume container is missing. */
    method DataCheck(voxels: nat, fields: nat, ensembles: nat)
      modifies this
      ensures errorCondition == DataCheckCode(dca, CurrentConfig(), voxels, ensembles)
      ensures dca == old(dca) && CurrentConfig() == old(CurrentConfig())
      ensures outputFile == old(outputFile) && materialNamesArrayName == old(materialNamesArrayName)
      ensures GetVolumeContainer(dca, dataContainerName).None? ==>
        grainIds == old(grainIds) && cellPhases == old(cellPhases)
        && cellEulerAngles == old(cellEulerAngles) && crystalStructures == old(crystalStructures)
      ensures GetVolumeContainer(dca, dataContainerName).Some? ==>
        var dc := dca[dataContainerName];
        && grainIds == Bound(GetPrereqArray(dc, CellData, grainIdsArrayName, Int32, voxels, 1))
        && cellPhases == Bound(GetPrereqArray(dc, CellData, cellPhasesArrayName, Int32, voxels, 1))
        && cellEulerAngles == Bound(GetPrereqArray(dc, CellData, cellEulerAnglesArrayName, Float32, voxels, 3))
        && crystalStructures == Bound(GetPrereqArray(dc, CellEnsembleData, crystalStructuresArrayName, UInt32, ensembles, 1))
    {
      errorCondition := 0;
      var cfg := CurrentConfig();
      var m := GetVolumeContainer(dca, dataContainerName);
      if m.None? {
        errorCondition := MissingContainerError;
        assert CurrentConfig() == cfg;
        return;
      }
      var code, g, p, e, c := CheckPrerequisites(m.value, cfg, voxels, ensembles);
      grainIds, cellPhases, cellEulerAngles, crystalStructures := Bound(g), Bound(p), Bound(e), Bound(c);
      errorCondition := code;
      assert CurrentConfig() == cfg;
    }

    /** preflight: dataCheck on placeholder sizes of one voxel, field and ensemble. */
    method Preflight()
      modifies this
      ensures errorCondition == DataCheckCode(dca, CurrentConfig(), 1, 1)
      ensures dca == old(dca) && CurrentConfig() == old(CurrentConfig())
    {
      DataCheck(1, 1, 1);
    }

    /** writeFile: -1 without a volume container, -40 when the real-size
        dataCheck fails, -1 when the directory or the file cannot be created,
        otherwise 0 with the file written. */
    method WriteFile(mkpathOk: bool, fopenOk: bool) returns (ret: int, file: Option<InlFile>)
      requires StoreValid(dca)
      modifies this
      ensures dca == old(dca) && CurrentConfig() == old(CurrentConfig())
      ensures var o := WriteFileOutcome(dca, CurrentConfig(), mkpathOk, fopenOk);
        ret == o.ret && errorCondition == o.errorCondition && file == o.file
    {
      var m := GetVolumeContainer(dca, dataContainerName);
      if m.None? {
        errorCondition := -1;
        return -1, None;
      }
      var dc := m.value;
      var totalPoints := TotalPoints(dc);
      var numGrains := NumTuples(dc, CellFieldData);
      var numEnsembles := NumTuples(dc, CellEnsembleData);
      DataCheck(totalPoints, numGrains, numEnsembles);
      if errorCondition < 0 {
        return DataCheckFailed, None;
      }
      var dims := Dimensions(dc);
      if !mkpathOk || !fopenOk {
        errorCondition := -1;
        return -1, None;
      }
      var cfg := CurrentConfig();
      DataCheckSucceedsIffPrerequisites(dca, cfg, totalPoints, numEnsembles);
      PassingCheckSizes(dca, cfg);
      // The MaterialName lookup of the header is the one dataCheck has just
      // passed, so its error branch cannot be taken here.
      var names := MaterialNames(dc);
      var structures := crystalStructures.value;
      var headers := WritePhaseHeaders(names, structures);
      var grainIdValues := grainIds.value;
      var unique := CountUniqueGrainIds(grainIdValues, totalPoints);
      var rows := WriteVoxelRows(dims, grainIdValues, cellPhases.value, structures);
      file := Some(InlFile(dims, headers, unique, rows));
      ret := 0;
    }
  }

  /** The pointer a GET_PREREQ_DATA lookup leaves: the array's values, or NULL. */
  function Bound(a: Option<DataArray>): (r: Option<seq<int>>)
    ensures r.Some? <==> a.Some?
  {
    if a.Some? then Some(a.value.numbers) else None
  }

  /** readFilterParameters' read of OutputFile: the stored value, or the
      current one when the group has none. */
  function ReadOutputFile(reader: map<(int, string), string>, index: int, current: string): string {
    if (index, "OutputFile") in reader then reader[(index, "OutputFile")] else current
  }

  /** Writing the parameters and reading them back from the same index
      restores OutputFile, whatever the reader's default. */
  lemma WriteReadRoundTrip(f: INLWriterFilter, writer: map<(int, string), string>, index: int, current: string)
    ensures ReadOutputFile(f.WriteFilterParameters(writer, index).0, index, current) == f.outputFile
  {
  }

  // ---------------------------------------------------------------------------
  // The unchecked CrystalStructures read of the voxel loop
  // ---------------------------------------------------------------------------

  /** A one-voxel volume whose voxel claims phase 5 while the ensemble data
      holds only ensembles 0 and 1. */
  function OutOfRangePhaseStore(): DataContainerArray {
    var cell := AttributeMatrix([1, 1, 1], Cell, map[
      GrainIdsName := DataArray(Int32, 1, 1, [1], []),
      PhasesName := DataArray(Int32, 1, 1, [5], []),
      EulerAnglesName := DataArray(Float32, 3, 1, [0, 0, 0], [])]);
    var ensembles := AttributeMatrix([2], Ensemble, map[
      CrystalStructuresName := DataArray(UInt32, 1, 2, [999, CubicHigh], []),
      MaterialNameName := DataArray(StringElement, 1, 2, [], ["Invalid Phase", "Nickel"])]);
    var geometry := ImageGeometry(Dims3(1, 1, 1), Vec3(1.0, 1.0, 1.0), Vec3(0.0, 0.0, 0.0));
    map[VolumeDataContainerName := DataContainer(Volume, Some(geometry),
          map[CellData := cell, CellEnsembleData := ensembles])]
  }

  /** Nothing before the voxel loop bounds the phase ids: this store passes
      the real-size dataCheck and writeFile reaches the voxel loop, where the
      read CrystalStructures[5] falls outside the two-entry array. The
      corrected VoxelSymmetry writes UnknownSymmetry for that voxel. */
  lemma AsWrittenReadEscapesEnsembles()
    ensures var dca := OutOfRangePhaseStore();
      var cfg := Config("out.inl", VolumeDataContainerName, GrainIdsName, PhasesName,
                        EulerAnglesName, CrystalStructuresName);
      var dc := dca[VolumeDataContainerName];
      && StoreValid(dca)
      && WriteFileOutcome(dca, cfg, true, true).ret == 0
      && !AsWrittenStructureReadInBounds(CellArray(dc, PhasesName)[0], EnsembleNumbers(dc, CrystalStructuresName))
      && WriteFileOutcome(dca, cfg, true, true).file.value.rows[0] == VoxelRow(1, 5, UnknownSymmetry)
  {
    OutOfRangePhaseStoreShapes();
  }

  /** The example store is well shaped, with one voxel and two ensembles. */
  lemma OutOfRangePhaseStoreShapes()
    ensures var dca := OutOfRangePhaseStore();
      && StoreValid(dca)
      && VolumeDataContainerName in dca
      && TotalPoints(dca[VolumeDataContainerName]) == 1
      && NumTuples(dca[VolumeDataContainerName], CellEnsembleData) == 2
  {
    var dca := OutOfRangePhaseStore();
    var dc := dca[VolumeDataContainerName];
    assert Product([1, 1, 1]) == 1 by {
      assert Product([1]) == 1;
      assert [1, 1, 1][1..] == [1, 1] && [1, 1][1..] == [1];
    }
    assert Product([2]) == 2;
    assert MatrixValid(dc.matrices[CellData]);
    assert MatrixValid(dc.matrices[CellEnsembleData]);
  }
}
