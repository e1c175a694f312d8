/** The shared data store filters read and write: a data container array maps
    container names to data containers, a container maps attribute-matrix names
    to attribute matrices (plus an optional image geometry), and a matrix maps
    array names to typed arrays that all share the matrix's tuple count. */
module DataStore {
  import opened Wrappers

  /** The primitive element type of an array, checked on every typed lookup. */
  datatype ElementType = Int32 | UInt32 | Float32 | StringElement

  /** A typed array. Integer element values are kept in `numbers`, the strings
      of a string array in `texts`; the values of float arrays are not
      modelled (their `numbers` only stand for the element count). */
  datatype DataArray = DataArray(
    elementType: ElementType,
    numComponents: nat,
    numTuples: nat,
    numbers: seq<int>,
    texts: seq<string>)

  /** The buffer holds exactly tupleCount x componentCount elements. */
  predicate ArrayValid(a: DataArray) {
    if a.elementType == StringElement then
      a.numComponents == 1 && |a.texts| == a.numTuples && a.numbers == []
    else
      |a.numbers| == a.numTuples * a.numComponents && a.texts == []
  }

  datatype MatrixType = Cell | Feature | Ensemble | Vertex | Generic

  datatype AttributeMatrix = AttributeMatrix(
    tupleDims: seq<nat>,
    matrixType: MatrixType,
    arrays: map<string, DataArray>)

  function Product(dims: seq<nat>): nat {
    if dims == [] then 1 else dims[0] * Product(dims[1..])
  }

  /** The tuple count of a three-dimensional matrix. */
  lemma Product3(a: nat, b: nat, c: nat)
    ensures Product([a, b, c]) == a * b * c
  {
    var dims := [a, b, c];
    assert dims[1..] == [b, c] && dims[1..][1..] == [c] && dims[1..][1..][1..] == [];
    assert Product([c]) == c;
    assert Product([b, c]) == b * c;
  }

  /** Every array of a matrix is well formed and has the matrix's tuple count. */
  predicate MatrixValid(am: AttributeMatrix) {
    forall name :: name in am.arrays ==>
      ArrayValid(am.arrays[name]) && am.arrays[name].numTuples == Product(am.tupleDims)
  }

  /** Float triples (resolution, origin, uncertainty) are stored, never
      computed with, so exact reals stand in for float32. */
  datatype Vec3 = Vec3(x: real, y: real, z: real)

  datatype Dims3 = Dims3(x: nat, y: nat, z: nat)

  datatype ImageGeometry = ImageGeometry(dims: Dims3, resolution: Vec3, origin: Vec3)

  /** `Volume` stands for the older VolumeDataContainer class whose cell,
      field and ensemble data are the matrices named below. */
  datatype ContainerKind = Volume | GenericContainer

  datatype DataContainer = DataContainer(
    kind: ContainerKind,
    geometry: Option<ImageGeometry>,
    matrices: map<string, AttributeMatrix>)

  type DataContainerArray = map<string, DataContainer>

  const CellData: string := "CellData"
  const CellFieldData: string := "CellFieldData"
  const CellEnsembleData: string := "CellEnsembleData"

  /** The shape invariant: every matrix of every container is valid. */
  predicate StoreValid(dca: DataContainerArray) {
    forall c :: c in dca ==>
      forall m :: m in dca[c].matrices ==> MatrixValid(dca[c].matrices[m])
  }

  // ---------------------------------------------------------------------------
  // Lookups
  // ---------------------------------------------------------------------------

  /** getDataContainerAs<VolumeDataContainer>(name): the container, when one
      of that name exists and is a volume container. */
  function GetVolumeContainer(dca: DataContainerArray, name: string): (r: Option<DataContainer>)
    ensures r.Some? <==> name in dca && dca[name].kind == Volume
    ensures r.Some? ==> r.value == dca[name]
  {
    if name in dca && dca[name].kind == Volume then Some(dca[name]) else None
  }

  /** getDimensions: the geometry's dimensions, zero when there is none. */
  function Dimensions(dc: DataContainer): Dims3 {
    if dc.geometry.Some? then dc.geometry.value.dims else Dims3(0, 0, 0)
  }

  /** getTotalPoints: the number of voxels of the container's grid. */
  function TotalPoints(dc: DataContainer): nat {
    var d := Dimensions(dc);
    d.x * d.y * d.z
  }

  /** The tuple count of a matrix (getNumCellFieldTuples and friends), zero
      when the matrix does not exist. */
  function NumTuples(dc: DataContainer, matrix: string): nat {
    if matrix in dc.matrices then Product(dc.matrices[matrix].tupleDims) else 0
  }

  /** The untyped lookup of an array (getCellEnsembleData and friends). */
  function GetArray(dc: DataContainer, matrix: string, name: string): (r: Option<DataArray>)
    ensures r.Some? <==> matrix in dc.matrices && name in dc.matrices[matrix].arrays
  {
    if matrix in dc.matrices && name in dc.matrices[matrix].arrays
    then Some(dc.matrices[matrix].arrays[name]) else None
  }

  /** The typed, shape-checked lookup behind GET_PREREQ_DATA: the array is
      present, has the requested element type, `size` tuples and `numComp`
      components. A type mismatch is reported, never reinterpreted. */
  function GetPrereqArray(dc: DataContainer, matrix: string, name: string,
                          elementType: ElementType, size: nat, numComp: nat): (r: Option<DataArray>)
    ensures r.Some? <==>
      GetArray(dc, matrix, name).Some? &&
      GetArray(dc, matrix, name).value.elementType == elementType &&
      GetArray(dc, matrix, name).value.numTuples == size &&
      GetArray(dc, matrix, name).value.numComponents == numComp
    ensures r.Some? ==> r == GetArray(dc, matrix, name)
  {
    var a := GetArray(dc, matrix, name);
    if a.Some? && a.value.elementType == elementType && a.value.numTuples == size
       && a.value.numComponents == numComp
    then a else None
  }

  /** A successful typed lookup in a valid store yields exactly size x numComp
      integer elements. */
  lemma PrereqArrayLength(dca: DataContainerArray, c: string, matrix: string, name: string,
                          elementType: ElementType, size: nat, numComp: nat)
    requires StoreValid(dca) && c in dca
    requires elementType != StringElement
    requires GetPrereqArray(dca[c], matrix, name, elementType, size, numComp).Some?
    ensures |GetPrereqArray(dca[c], matrix, name, elementType, size, numComp).value.numbers| == size * numComp
  {
    assert MatrixValid(dca[c].matrices[matrix]);
  }

  // ---------------------------------------------------------------------------
  // Creation (createNonPrereq*)
  // ---------------------------------------------------------------------------

  /** Why a creation helper refused. */
  datatype StoreError = EmptyName | AlreadyExists | MissingParent

  /** The error condition a refused creation leaves on the calling filter.
      The helpers' own numbers are not part of this model; these stand-ins
      only keep the property that matters, that they are negative. */
  function ErrorCode(e: StoreError): (code: int)
    ensures code < 0
  {
    match e
    case EmptyName => -8001
    case AlreadyExists => -8002
    case MissingParent => -8003
  }

  datatype Created<T> = Created(store: DataContainerArray, value: T) | Refused(error: StoreError)

  /** createNonPrereqDataContainer: adds an empty generic container under a
      new, non-empty name. */
  function CreateDataContainer(dca: DataContainerArray, name: string): (r: Created<DataContainer>)
    ensures r.Created? <==> name != "" && name !in dca
    ensures r.Created? ==> r.store == dca[name := r.value] && r.value.matrices == map[]
    ensures r.Created? ==> r.value.kind == GenericContainer && r.value.geometry.None?
  {
    if name == "" then Refused(EmptyName)
    else if name in dca then Refused(AlreadyExists)
    else
      var dc := DataContainer(GenericContainer, None, map[]);
      Created(dca[name := dc], dc)
  }

  /** createNonPrereqAttributeMatrix: adds an empty matrix of the given tuple
      dimensions and type under a new, non-empty name of an existing container. */
  function CreateAttributeMatrix(dca: DataContainerArray, container: string, name: string,
                                 tupleDims: seq<nat>, matrixType: MatrixType): (r: Created<AttributeMatrix>)
    ensures r.Created? <==> container in dca && name != "" && name !in dca[container].matrices
    ensures r.Created? ==>
      && r.value == AttributeMatrix(tupleDims, matrixType, map[])
      && r.store == dca[container := dca[container].(matrices := dca[container].matrices[name := r.value])]
  {
    if container !in dca then Refused(MissingParent)
    else if name == "" then Refused(EmptyName)
    else if name in dca[container].matrices then Refused(AlreadyExists)
    else
      var am := AttributeMatrix(tupleDims, matrixType, map[]);
      Created(dca[container := dca[container].(matrices := dca[container].matrices[name := am])], am)
  }

  /** createNonPrereqArrayFromPath for an int32 array: adds an array of the
      matrix's tuple count, `numComp` components, every element `initValue`. */
  function CreateInt32Array(dca: DataContainerArray, container: string, matrix: string, name: string,
                            initValue: int, numComp: nat): (r: Created<DataArray>)
    ensures r.Created? <==>
      container in dca && matrix in dca[container].matrices && name != ""
      && name !in dca[container].matrices[matrix].arrays
    ensures r.Created? ==>
      r.store == dca[container := dca[container].(matrices := dca[container].matrices[matrix :=
        dca[container].matrices[matrix].(arrays := dca[container].matrices[matrix].arrays[name := r.value])])]
  {
    if container !in dca || matrix !in dca[container].matrices then Refused(MissingParent)
    else if name == "" then Refused(EmptyName)
    else if name in dca[container].matrices[matrix].arrays then Refused(AlreadyExists)
    else
      var am := dca[container].matrices[matrix];
      var n := Product(am.tupleDims);
      var a := DataArray(Int32, numComp, n, seq(n * numComp, _ => initValue), []);
      var am' := am.(arrays := am.arrays[name := a]);
      Created(dca[container := dca[container].(matrices := dca[container].matrices[matrix := am'])], a)
  }

  /** Every creation keeps the shape invariant, and a created array has the
      matrix's tuple count and the requested component count. */
  lemma CreateInt32ArrayKeepsShapes(dca: DataContainerArray, container: string, matrix: string,
                                    name: string, initValue: int, numComp: nat)
    requires StoreValid(dca)
    requires CreateInt32Array(dca, container, matrix, name, initValue, numComp).Created?
    ensures var r := CreateInt32Array(dca, container, matrix, name, initValue, numComp);
      && StoreValid(r.store)
      && r.value.numTuples == Product(dca[container].matrices[matrix].tupleDims)
      && r.value.numComponents == numComp
      && (forall i :: 0 <= i < |r.value.numbers| ==> r.value.numbers[i] == initValue)
  {
    var r := CreateInt32Array(dca, container, matrix, name, initValue, numComp);
    var am := dca[container].matrices[matrix];
    assert MatrixValid(am);
    var am' := r.store[container].matrices[matrix];
    assert am'.arrays == am.arrays[name := r.value];
    assert MatrixValid(am');
  }

  lemma CreateAttributeMatrixKeepsShapes(dca: DataContainerArray, container: string, name: string,
                                         tupleDims: seq<nat>, matrixType: MatrixType)
    requires StoreValid(dca)
    requires CreateAttributeMatrix(dca, container, name, tupleDims, matrixType).Created?
    ensures StoreValid(CreateAttributeMatrix(dca, container, name, tupleDims, matrixType).store)
  {
  }

  lemma CreateDataContainerKeepsShapes(dca: DataContainerArray, name: string)
    requires StoreValid(dca)
    requires CreateDataContainer(dca, name).Created?
    ensures StoreValid(CreateDataContainer(dca, name).store)
  {
  }

  /** setGeometry on a stored container: only that container's geometry changes. */
  function SetGeometry(dca: DataContainerArray, container: string, g: ImageGeometry): (r: DataContainerArray)
    requires container in dca
    ensures r.Keys == dca.Keys
    ensures r[container].geometry == Some(g) && r[container].matrices == dca[container].matrices
    ensures r[container].kind == dca[container].kind
    ensures forall c :: c in dca && c != container ==> r[c] == dca[c]
  {
    dca[container := dca[container].(geometry := Some(g))]
  }
}
