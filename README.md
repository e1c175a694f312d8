# DREAM3D core, modelled in Dafny

This project models five parts of DREAM3D, the materials-microstructure
toolkit, and proves properties of each.

- **INL writer** (module `INLWriter`). This export filter has four parts:
  - `dataCheck` looks up the volume container and the prerequisite cell and
    ensemble arrays. Each check sets its own error code, and a later failing
    check overwrites an earlier one.
  - `preflight` runs `dataCheck` on placeholder sizes.
  - `writeFile` writes a header per phase, then the number of distinct grain
    ids, then one row per voxel in x-fastest order, with the phase symmetry
    in each row.
  - The filter's parameters are written and read back.
- **Uncertain regular grid sampling** (module `UncertainRegularGridSampling`).
  - `dataCheck` creates the output data container, its image geometry, the
    cell attribute matrix and the `FeatureIds` array.
  - `generate_points` enumerates one sample point per grid cell in k/j/i
    order.
  - `assign_points` copies the per-point feature ids into `FeatureIds`.
  - `execute` chains these steps.
- **Pipeline builder widget** (module `PipelineBuilder`).
  - It keeps an ordered list of filter widgets with one selection.
  - The up and down buttons, and the rule that enables them, act on that
    list. So do adding and removing widgets.
  - The Go/Cancel button assembles the pipeline in list order.
- **Representation window** (module `RepresentationWindow`).
  - It scans a directory of `.ang` slices for the largest slice number and
    the file prefix.
  - It reads settings with fallbacks and writes them back.
  - It decides whether the window may close, and whether a dragged file is
    accepted.
  - Its two Go buttons hand parameters to the reconstruction and
    grain-generator workers.
- **Update-check dialog** (module `UpdateCheck`).
  - The user picks when to check for updates: manually, daily, weekly or
    monthly. A stored preference keeps the choice.
  - The dialog switches between a simple and a full form, and shows version
    labels.

Some modules support the rest:

- `DataStore`: the data container array, its attribute matrices and typed
  arrays, the typed prerequisite lookup, and the `createNonPrereq*` helpers.
- `Grid`: the linear index `z*d0*d1 + d0*y + x` that the INL writer and the
  sampler share.
- `QtText`: the Qt string behaviour the GUI code relies on (`compare`,
  `split`, `toInt(&ok)`, `QString::number`, and `QFileInfo`'s `suffix` and
  `baseName`).
- `Wrappers`: `Option`.

Objects whose fields the source updates in place are classes:
`INLWriterFilter`, `UncertainRegularGridSampleSurfaceMesh`,
`PipelineBuilderWidget`, `RepresentationUI` and `UpdateCheckDialog`. Each
method's `modifies` clause names what it may change, and its `ensures`
clauses tie the new state to a specification function. Loops in the source
are loops here, each with the invariants it needs:

- the phase-header loop, the grain-id set loop and the z/y/x voxel loop of
  `writeFile`;
- the k/j/i point loop;
- the `assign_points` copy into an `array`;
- the regular-expression loop and the directory loop of
  `findAngMaxSliceAndPrefix`;
- the pipeline assembly loop.

The source decides where it and its comments disagree:

- The update-check constructor stores Monthly when no frequency is stored,
  although its comment speaks of checking manually (DREAM3DUpdateCheckDialog.cpp:84-89).
- `INLWriter` declares a `MaterialNameArrayName` parameter, but `dataCheck`
  looks the array up by the fixed name `MaterialName`.

## Model

All source paths below are relative to the repository root.

| member | source | states |
|---|---|---|
| QtText.Compare | Source/Plugins/PipelineBuilder/UI/PipelineBuilderWidget.cpp:380 | compare yields 0 exactly when the two strings are equal, which the "Cancel" tests of the Go buttons rely on |
| QtText.Split | Source/QtSupport/DREAM3DUpdateCheckDialog.cpp:205 | split always yields at least one part; no part contains the separator; there is exactly one part iff the text has no separator |
| QtText.JoinSplit | Source/QtSupport/DREAM3DUpdateCheckDialog.cpp:205 | splitting loses nothing: joining the parts with the separator gives back the text |
| QtText.SplitJoin | Source/QtSupport/DREAM3DUpdateCheckDialog.cpp:205-209 | splitting the join of separator-free parts gives back exactly those parts |
| QtText.ParseInt | Source/AIM/GUI/RepresentationUI.cpp:44-48 | toInt(&ok) succeeds only with a value in the 32-bit range |
| QtText.ToIntOrZero | Source/QtSupport/DREAM3DUpdateCheckDialog.cpp:374 | toInt with the flag ignored gives the parsed value when the text parses, and 0 otherwise |
| QtText.IntToStringRoundTrip | Source/AIM/GUI/RepresentationUI.cpp:62-63 | a 32-bit value written as decimal text parses back to the same value |
| QtText.SuffixNeverDotAng | Source/AIM/GUI/RepresentationUI.cpp:751 | a file suffix never equals ".ang" (it holds no '.'), so that compare is nonzero for every entry |
| QtText.BoolTextRoundTrip | Source/AIM/GUI/RepresentationUI.cpp:50-57 | a boolean stored by WRITE_BOOL_SETTING converts back to itself through toBool |
| QtText.ToBoolCases | Source/AIM/GUI/RepresentationUI.cpp:50-54 | toBool is false for "", "0" and "false" in any letter case, and true for other texts such as "1", "yes" and "no" |
| DataStore.GetVolumeContainer | Source/DREAM3DLib/IOFilters/INLWriter.cpp:197-205 | the lookup finds a container exactly when a volume container of that name exists, and returns that container |
| DataStore.GetArray | Source/DREAM3DLib/IOFilters/INLWriter.cpp:271 | an ensemble array is found exactly when its matrix and its name exist |
| DataStore.GetPrereqArray | Source/DREAM3DLib/IOFilters/INLWriter.cpp:152-157 | a prerequisite lookup succeeds exactly when the array exists with the requested element type, tuple count and component count, and then yields the stored array |
| DataStore.PrereqArrayLength | Source/DREAM3DLib/IOFilters/INLWriter.cpp:152-157 | in a well-shaped store, a successful lookup yields exactly size x components values |
| DataStore.Product3 | Source/Plugins/Sampling/SamplingFilters/UncertainRegularGridSampleSurfaceMesh.cpp:156-160 | the tuple count of dimensions [X, Y, Z] is X*Y*Z |
| DataStore.ErrorCode | Source/Plugins/Sampling/SamplingFilters/UncertainRegularGridSampleSurfaceMesh.cpp:143 | every refused creation leaves a negative error condition |
| DataStore.CreateDataContainer | Source/Plugins/Sampling/SamplingFilters/UncertainRegularGridSampleSurfaceMesh.cpp:142-146 | creation succeeds exactly for a new, non-empty name; it adds one empty generic container, with no geometry, under that name |
| DataStore.CreateAttributeMatrix | Source/Plugins/Sampling/SamplingFilters/UncertainRegularGridSampleSurfaceMesh.cpp:160-164 | creation succeeds exactly for a new, non-empty name in an existing container; it adds an empty matrix of the given dimensions and type |
| DataStore.CreateInt32Array | Source/Plugins/Sampling/SamplingFilters/UncertainRegularGridSampleSurfaceMesh.cpp:166-173 | creation succeeds exactly for a new, non-empty name in an existing matrix, and the new store is the old one with the array added to that matrix under that name |
| DataStore.CreateInt32ArrayKeepsShapes | Source/Plugins/Sampling/SamplingFilters/UncertainRegularGridSampleSurfaceMesh.cpp:166-173 | a created array keeps the store well shaped; it has the matrix's tuple count and the requested component count, and every element is the initial value |
| DataStore.CreateAttributeMatrixKeepsShapes | Source/Plugins/Sampling/SamplingFilters/UncertainRegularGridSampleSurfaceMesh.cpp:160-164 | adding a matrix keeps the store well shaped |
| DataStore.CreateDataContainerKeepsShapes | Source/Plugins/Sampling/SamplingFilters/UncertainRegularGridSampleSurfaceMesh.cpp:142-146 | adding a container keeps the store well shaped |
| DataStore.SetGeometry | Source/Plugins/Sampling/SamplingFilters/UncertainRegularGridSampleSurfaceMesh.cpp:148-154 | only the named container's geometry changes; its kind, its matrices and every other container stay as they were |
| Grid.LinearIndexInRange | Source/DREAM3DLib/IOFilters/INLWriter.cpp:335 | every cell of a d0 x d1 x d2 grid has a linear index below d0*d1*d2 |
| Grid.LinearIndexInjective | Source/DREAM3DLib/IOFilters/INLWriter.cpp:335 | distinct cells have distinct linear indices, so no voxel is written twice |
| Grid.CellOfLinearIndex | Source/Plugins/Sampling/SamplingFilters/UncertainRegularGridSampleSurfaceMesh.cpp:199-215 | dividing a cell's linear index back by the row and plane sizes gives that cell |
| INLWriter.DataCheckSucceedsIffPrerequisites | Source/DREAM3DLib/IOFilters/INLWriter.cpp:132-174 | dataCheck leaves 0 exactly when the container, the output file and all five prerequisite arrays are present with the right shapes; it only ever leaves one of its eight codes |
| INLWriter.MissingContainerStopsEarly | Source/DREAM3DLib/IOFilters/INLWriter.cpp:136-142 | a missing volume container gives -999, whatever else is wrong |
| INLWriter.MissingOutputFileDoesNotStop | Source/DREAM3DLib/IOFilters/INLWriter.cpp:143-157 | an empty output file does not stop the checks: the code is -387 exactly when every array check passes, and negative otherwise |
| INLWriter.MissingMaterialNamesWins | Source/DREAM3DLib/IOFilters/INLWriter.cpp:159-167 | the MaterialName check comes last: the code is -1111 exactly when that array is missing or is not a string array |
| INLWriter.VoxelSymmetryRule | Source/DREAM3DLib/IOFilters/INLWriter.cpp:345-364 | a voxel is Cubic or DiHexagonal exactly when its phase is a positive ensemble index whose crystal structure is Cubic_High or Hexagonal_High; a phase of 0 or below gives UnknownSymmetry |
| INLWriter.PhaseHeaders | Source/DREAM3DLib/IOFilters/INLWriter.cpp:282-301 | there is one header per ensemble 1 .. n-1 (ensemble 0 is skipped); header i carries ensemble i+1's name and its mapped symmetry |
| INLWriter.DistinctIdsBounds | Source/DREAM3DLib/IOFilters/INLWriter.cpp:303-308 | Num_Grains is at most the number of voxels, and at least 1 when there is a voxel |
| INLWriter.DistinctIdsExample | Source/DREAM3DLib/IOFilters/INLWriter.cpp:303-308 | grain ids [0, 1, 1, 2] give Num_Grains 3 |
| INLWriter.PassingCheckSizes | Source/DREAM3DLib/IOFilters/INLWriter.cpp:207-214 | after a real-size dataCheck passes, the grain-id and phase arrays hold one value per voxel, and every material name has a crystal structure |
| INLWriter.WriteFileContract | Source/DREAM3DLib/IOFilters/INLWriter.cpp:195-379 | writeFile returns -40 exactly when the container exists and dataCheck fails, and then writes no file; a file is written iff it returns 0, only after a clean check; the file has one row per voxel, row k holds voxel k's grain id and phase, and Num_Grains never exceeds the voxel count |
| INLWriter.WritePhaseHeaders | Source/DREAM3DLib/IOFilters/INLWriter.cpp:282-301 | the header loop produces exactly the header list specified above |
| INLWriter.CountUniqueGrainIds | Source/DREAM3DLib/IOFilters/INLWriter.cpp:303-308 | the set-insertion loop counts the distinct grain ids of the first n voxels |
| INLWriter.WriteVoxelRows | Source/DREAM3DLib/IOFilters/INLWriter.cpp:328-370 | the z/y/x loop writes row k for voxel k, for every k below the voxel count, in index order |
| INLWriter.CheckPrerequisites | Source/DREAM3DLib/IOFilters/INLWriter.cpp:143-167 | the in-order checks leave the specified code, which is 0 exactly when the output file is set and every lookup succeeds; the arrays bound are the typed lookups' results |
| INLWriter.Bound | Source/DREAM3DLib/IOFilters/INLWriter.cpp:152-157 | a pointer is bound (non-NULL) exactly when its lookup succeeded |
| INLWriter.INLWriterFilter.constructor | Source/DREAM3DLib/IOFilters/INLWriter.cpp:62-76 | a new filter has no error, an empty output file, the default container and array names, and NULL GrainIds, CellPhases and CellEulerAngles pointers; the CrystalStructures pointer is not initialised |
| INLWriter.INLWriterFilter.WriteFilterParameters | Source/DREAM3DLib/IOFilters/INLWriter.cpp:121-127 | it adds (index, OutputFile) and leaves every other entry alone; it returns index + 1; the stored value reads back as the output file |
| INLWriter.WriteReadRoundTrip | Source/DREAM3DLib/IOFilters/INLWriter.cpp:108-127 | writing the parameters and reading them back at the same index restores OutputFile |
| INLWriter.INLWriterFilter.DataCheck | Source/DREAM3DLib/IOFilters/INLWriter.cpp:132-174 | the error condition becomes the specified code for the current configuration; without a container the pointers are untouched, otherwise each pointer is bound to its typed lookup |
| INLWriter.INLWriterFilter.Preflight | Source/DREAM3DLib/IOFilters/INLWriter.cpp:179-182 | preflight leaves the code of dataCheck with one voxel and one ensemble |
| INLWriter.INLWriterFilter.WriteFile | Source/DREAM3DLib/IOFilters/INLWriter.cpp:195-379 | its return value, error condition and written file are those WriteFileContract characterises, with directory creation and fopen as given outcomes |
| INLWriter.AsWrittenReadEscapesEnsembles | Source/DREAM3DLib/IOFilters/INLWriter.cpp:345 | a store with a voxel of phase 5 and two ensembles passes dataCheck, and writeFile reaches the voxel loop, whose read CrystalStructures[5] lies outside the array |
| INLWriter.OutOfRangePhaseStoreShapes | Source/DREAM3DLib/IOFilters/INLWriter.cpp:207-209 | that store is well shaped, with one voxel and two ensembles |
| UncertainRegularGridSampling.DataCheckSucceedsIff | Source/Plugins/Sampling/SamplingFilters/UncertainRegularGridSampleSurfaceMesh.cpp:136-174 | dataCheck leaves 0 exactly when the container name is new and non-empty and the matrix and array names are non-empty; every failure is negative and binds no array |
| UncertainRegularGridSampling.ContainerFailureStopsEarly | Source/Plugins/Sampling/SamplingFilters/UncertainRegularGridSampleSurfaceMesh.cpp:142-146 | a refused container creation returns at once: the store is unchanged and no array is bound |
| UncertainRegularGridSampling.MatrixFailureRequestsNoArray | Source/Plugins/Sampling/SamplingFilters/UncertainRegularGridSampleSurfaceMesh.cpp:156-164 | a refused matrix leaves the new container with its geometry and no matrix, and no FeatureIds array is requested |
| UncertainRegularGridSampling.SuccessfulDataCheckShapes | Source/Plugins/Sampling/SamplingFilters/UncertainRegularGridSampleSurfaceMesh.cpp:136-174 | a successful dataCheck adds exactly the named container with the sample geometry and one Cell matrix [X, Y, Z] whose only array is the bound FeatureIds; FeatureIds has X*Y*Z zero tuples of one component; other containers are untouched and the store stays well shaped |
| UncertainRegularGridSampling.CreateOutputs | Source/Plugins/Sampling/SamplingFilters/UncertainRegularGridSampleSurfaceMesh.cpp:142-173 | the creation steps give the specified outcome: a code of 0 or below, and a FeatureIds array of zeros when one is bound |
| UncertainRegularGridSampling.GeneratePoints | Source/Plugins/Sampling/SamplingFilters/UncertainRegularGridSampleSurfaceMesh.cpp:193-220 | the k/j/i loop over the signed counts writes X*Y*Z points when no count is negative and none otherwise; the point at position count samples the cell that count's linear index names |
| UncertainRegularGridSampling.GeneratedPointsCoverGrid | Source/Plugins/Sampling/SamplingFilters/UncertainRegularGridSampleSurfaceMesh.cpp:199-215 | every grid cell is sampled, at the position of its linear index |
| UncertainRegularGridSampling.GeneratedPointsInGrid | Source/Plugins/Sampling/SamplingFilters/UncertainRegularGridSampleSurfaceMesh.cpp:199-215 | no position holds a point outside the grid |
| UncertainRegularGridSampling.CellOfInGrid | Source/Plugins/Sampling/SamplingFilters/UncertainRegularGridSampleSurfaceMesh.cpp:199-215 | dividing an in-range index back gives a cell of the grid |
| UncertainRegularGridSampling.UncertainRegularGridSampleSurfaceMesh.constructor | Source/Plugins/Sampling/SamplingFilters/UncertainRegularGridSampleSurfaceMesh.cpp:56-78 | the defaults are 0 points per axis, resolution 1, origin 0, uncertainty 0.1, the default names and a NULL FeatureIds pointer |
| UncertainRegularGridSampling.UncertainRegularGridSampleSurfaceMesh.DataCheck | Source/Plugins/Sampling/SamplingFilters/UncertainRegularGridSampleSurfaceMesh.cpp:136-174 | both conditions are reset; the signed point counts reach the library as size_t (a negative count v as 2^64 + v); the store and code become the specified outcome; on success FeatureIds is bound to the values of the stored FeatureIds array (zeros), otherwise the pointer is unchanged |
| UncertainRegularGridSampling.UncertainRegularGridSampleSurfaceMesh.Preflight | Source/Plugins/Sampling/SamplingFilters/UncertainRegularGridSampleSurfaceMesh.cpp:179-188 | preflight leaves dataCheck's outcome, including its FeatureIds binding, keeps every parameter, and lowers the in-preflight flag again |
| UncertainRegularGridSampling.UncertainRegularGridSampleSurfaceMesh.AssignPoints | Source/Plugins/Sampling/SamplingFilters/UncertainRegularGridSampleSurfaceMesh.cpp:225-232 | when the signed product X*Y*Z is positive its first that many entries of FeatureIds become the given ids, otherwise none; the rest of the buffer is unchanged |
| UncertainRegularGridSampling.UncertainRegularGridSampleSurfaceMesh.Execute | Source/Plugins/Sampling/SamplingFilters/UncertainRegularGridSampleSurfaceMesh.cpp:237-257 | a failing dataCheck ends execute; otherwise the store is dataCheck's store with the FeatureIds array holding the buffer's final values, which begin with exactly the generated per-point ids, the remaining entries (present only when a count is negative) staying 0; the uncertainty, the preflight flag and the configuration are unchanged |
| UncertainRegularGridSampling.WithFeatureIdsValues | Source/Plugins/Sampling/SamplingFilters/UncertainRegularGridSampleSurfaceMesh.cpp:172-230 | a write through the FeatureIds pointer changes the values of that one stored array and nothing else in the store |
| UncertainRegularGridSampling.ExecuteGeometryUnchanged | Source/Plugins/Sampling/SamplingFilters/UncertainRegularGridSampleSurfaceMesh.cpp:250-252 | after a successful dataCheck, execute setting the geometry again changes nothing, and the bound buffer holds one zero per point |
| UncertainRegularGridSampling.AssignedAreGenerated | Source/Plugins/Sampling/SamplingFilters/UncertainRegularGridSampleSurfaceMesh.cpp:193-232 | when assign_points reads no further than the generated ids, it copies exactly the generated ids, and the FeatureIds buffer has room for them |
| UncertainRegularGridSampling.NegativeCountSamplesNothing | Source/Plugins/Sampling/SamplingFilters/UncertainRegularGridSampleSurfaceMesh.cpp:157-159 | a negative X count generates no point, while the cell matrix dataCheck creates has at least 2^64 - 2^31 tuples |
| PipelineBuilder.NoRepeatsIsDistinct | Source/Plugins/PipelineBuilder/UI/PipelineBuilderWidget.cpp:198-229 | the list-wise and the position-wise statements of "no widget twice" agree |
| PipelineBuilder.IndexOf | Source/Plugins/PipelineBuilder/UI/PipelineBuilderWidget.cpp:246 | indexOf is -1 exactly for an absent widget; otherwise it is the position of the first occurrence |
| PipelineBuilder.MoveDownSwaps | Source/Plugins/PipelineBuilder/UI/PipelineBuilderWidget.cpp:275-290 | remove then re-insert one place later exchanges positions i and i+1 |
| PipelineBuilder.MoveUpSwaps | Source/Plugins/PipelineBuilder/UI/PipelineBuilderWidget.cpp:295-309 | remove then re-insert one place earlier exchanges positions i-1 and i |
| PipelineBuilder.SwapIsPermutation | Source/Plugins/PipelineBuilder/UI/PipelineBuilderWidget.cpp:275-309 | a move is a permutation; it keeps the list free of repetitions and leaves every other position alone |
| PipelineBuilder.MoveDownChangesIff | Source/Plugins/PipelineBuilder/UI/PipelineBuilderWidget.cpp:275-290 | "down" changes the list exactly when the selection is in it and not last |
| PipelineBuilder.MoveUpChangesIff | Source/Plugins/PipelineBuilder/UI/PipelineBuilderWidget.cpp:295-309 | "up" changes the list exactly when the selection is in it and not first |
| PipelineBuilder.UpThenDownRestores | Source/Plugins/PipelineBuilder/UI/PipelineBuilderWidget.cpp:275-309 | up then down on the same widget restores the list |
| PipelineBuilder.DownThenUpRestores | Source/Plugins/PipelineBuilder/UI/PipelineBuilderWidget.cpp:275-309 | down then up on the same widget restores a list without repetitions |
| PipelineBuilder.EnableRuleCases | Source/Plugins/PipelineBuilder/UI/PipelineBuilderWidget.cpp:246-266 | one entry or none disables both buttons; otherwise up is disabled only at index 0 and down only at the last index |
| PipelineBuilder.EnableRuleMatchesMoves | Source/Plugins/PipelineBuilder/UI/PipelineBuilderWidget.cpp:246-309 | for a selection in the list, each button is enabled exactly when its move would change the list |
| PipelineBuilder.FiltersOfAppend | Source/Plugins/PipelineBuilder/UI/PipelineBuilderWidget.cpp:413-422 | assembling a concatenated layout concatenates the pipelines |
| PipelineBuilder.FiltersOfAllFilters | Source/Plugins/PipelineBuilder/UI/PipelineBuilderWidget.cpp:413-422 | a layout of filter widgets only yields its filters, position by position |
| PipelineBuilder.FiltersOfNoFilters | Source/Plugins/PipelineBuilder/UI/PipelineBuilderWidget.cpp:413-422 | a layout without filter widgets yields an empty pipeline |
| PipelineBuilder.CollectFilters | Source/Plugins/PipelineBuilder/UI/PipelineBuilderWidget.cpp:413-422 | the loop pushes back the filters of the layout's filter widgets, in layout order |
| PipelineBuilder.PipelineBuilderWidget.constructor | Source/Plugins/PipelineBuilder/UI/PipelineBuilderWidget.cpp:64-79 | a new widget has an empty layout, no selection, no pipeline and a "Go" button |
| PipelineBuilder.PipelineBuilderWidget.SetSelectedFilterWidget | Source/Plugins/PipelineBuilder/UI/PipelineBuilderWidget.cpp:234-269 | the widget becomes the selection; for a non-NULL widget the buttons follow the enable rule, and the layout is unchanged |
| PipelineBuilder.PipelineBuilderWidget.AddFilter | Source/Plugins/PipelineBuilder/UI/PipelineBuilderWidget.cpp:198-212 | a fresh widget for the filter is appended and selected, the next identity advances by one, down is disabled, the layout stays free of repetitions, and every other field is unchanged |
| PipelineBuilder.PipelineBuilderWidget.RemoveFilterWidget | Source/Plugins/PipelineBuilder/UI/PipelineBuilderWidget.cpp:218-229 | the sender leaves the layout, every other widget stays, the selection is cleared, and every other field is unchanged |
| PipelineBuilder.PipelineBuilderWidget.FilterDown | Source/Plugins/PipelineBuilder/UI/PipelineBuilderWidget.cpp:275-290 | the layout becomes the moved-down list, the selection is kept, after a move the buttons follow the rule again, and every other field is unchanged |
| PipelineBuilder.PipelineBuilderWidget.FilterUp | Source/Plugins/PipelineBuilder/UI/PipelineBuilderWidget.cpp:295-309 | the layout becomes the moved-up list, the selection is kept, after a move the buttons follow the rule again, and every other field is unchanged |
| PipelineBuilder.PipelineBuilderWidget.GoClicked | Source/Plugins/PipelineBuilder/UI/PipelineBuilderWidget.cpp:377-468 | on "Cancel" the button only signals cancellation, and only when a pipeline exists; otherwise the pipeline is the layout's filters in order, the list is disabled, and the button reads "Cancel"; the layout, selection, buttons and identities are unchanged, so the layout invariant is kept |
| PipelineBuilder.PipelineBuilderWidget.PipelineComplete | Source/Plugins/PipelineBuilder/UI/PipelineBuilderWidget.cpp:473-482 | the button reads "Go", the list is enabled and the progress is reset; the layout, selection, pipeline, buttons, identities and cancel count are unchanged, so the layout invariant is kept |
| PipelineBuilder.PipelineBuilderWidget.PipelineProgress | Source/Plugins/PipelineBuilder/UI/PipelineBuilderWidget.cpp:487-490 | the progress shows the value and every other field is unchanged, so the layout invariant is kept |
| PipelineBuilder.RemoveKeepsOthers | Source/Plugins/PipelineBuilder/UI/PipelineBuilderWidget.cpp:218-229 | removing a widget from a list without repetitions takes it out entirely, keeps every other widget and adds none |
| PipelineBuilder.MoveDownStep | Source/Plugins/PipelineBuilder/UI/PipelineBuilderWidget.cpp:275-290 | a move down that happens keeps the layout invariant and changes the list |
| PipelineBuilder.MoveUpStep | Source/Plugins/PipelineBuilder/UI/PipelineBuilderWidget.cpp:295-309 | a move up that happens keeps the layout invariant and changes the list |
| PipelineBuilder.AppendFresh | Source/Plugins/PipelineBuilder/UI/PipelineBuilderWidget.cpp:198-212 | appending a newly created widget keeps the layout invariant |
| PipelineBuilder.AppendedFoundLast | Source/Plugins/PipelineBuilder/UI/PipelineBuilderWidget.cpp:246-263 | a newly appended widget is found at the last index |
| RepresentationWindow.NextDigit | Source/AIM/GUI/RepresentationUI.cpp:756 | the next match starts at the first digit at or after the position |
| RepresentationWindow.RunEnd | Source/AIM/GUI/RepresentationUI.cpp:759 | the greedy match covers digits only, up to the first non-digit |
| RepresentationWindow.DigitRunsAreMaximal | Source/AIM/GUI/RepresentationUI.cpp:756-761 | each match of (\d+) is a maximal non-empty digit run, in order, without overlap |
| RepresentationWindow.DigitRunsCoverDigits | Source/AIM/GUI/RepresentationUI.cpp:756-761 | the matches, read one after another, are exactly the digits of the name: none skipped, nothing else captured |
| RepresentationWindow.ScanBaseName | Source/AIM/GUI/RepresentationUI.cpp:754-761 | the regex loop collects every digit run of the base name, and the prefix is the text before the last run |
| RepresentationWindow.ScannedIffFile | Source/AIM/GUI/RepresentationUI.cpp:751 | the entry test admits exactly the regular files |
| RepresentationWindow.ScanMaxIsMaximum | Source/AIM/GUI/RepresentationUI.cpp:749-767 | the max slice is the largest first number of any scanned base name, or 0, and it is attained when nonzero |
| RepresentationWindow.ScanPrefixFromLastFile | Source/AIM/GUI/RepresentationUI.cpp:749-767 | the prefix comes from the last scanned file whose base name has digits |
| RepresentationWindow.ScanPrefixEmpty | Source/AIM/GUI/RepresentationUI.cpp:749-767 | with no digits in any scanned name, the prefix stays empty |
| RepresentationWindow.EntryScan | Source/AIM/GUI/RepresentationUI.cpp:755-765 | the scan of one entry gives that entry's slice number and prefix |
| RepresentationWindow.ScanListing | Source/AIM/GUI/RepresentationUI.cpp:744-767 | the directory loop computes the specified max slice and prefix |
| RepresentationWindow.ReadIntFallback | Source/AIM/GUI/RepresentationUI.cpp:44-48 | a numeric setting differs from its default only when a parsable value is stored |
| RepresentationWindow.IntSettingRoundTrip | Source/AIM/GUI/RepresentationUI.cpp:44-63 | a number written as a setting reads back as itself, whatever the default |
| RepresentationWindow.TextSettingsReadBack | Source/AIM/GUI/RepresentationUI.cpp:324-373 | every text setting is stored under its widget's name |
| RepresentationWindow.ReconstructionSettingsReadBack | Source/AIM/GUI/RepresentationUI.cpp:274-288 | the reconstruction tab's numbers read back as written |
| RepresentationWindow.GrainGeneratorSettingsReadBack | Source/AIM/GUI/RepresentationUI.cpp:292-302 | the grain-generator tab's numbers read back as written |
| RepresentationWindow.BoolSettingRoundTrip | Source/AIM/GUI/RepresentationUI.cpp:50-57 | a boolean written as a setting reads back as itself, whatever the default; a missing key reads as the default |
| RepresentationWindow.CheckBoxSettingsRoundTrip | Source/AIM/GUI/RepresentationUI.cpp:281-284 | the mergeTwins and alreadyFormed boxes written by writeSettings (cpp:339-340) read back as written, and storing them does not change the form read back |
| RepresentationWindow.SettingsRoundTrip | Source/AIM/GUI/RepresentationUI.cpp:264-373 | writeSettings then readSettings restores the form exactly when the z spacing is non-empty; an empty one reads back as "0.25" |
| RepresentationWindow.CheckDirtyDocumentCases | Source/AIM/GUI/RepresentationUI.cpp:489-519 | the window may close exactly when it is unmodified or the changes are discarded; the result is 1 or -1 |
| RepresentationWindow.DragAcceptsAnyExistingFile | Source/AIM/GUI/RepresentationUI.cpp:420 | as written, every existing file is accepted whatever its suffix, e.g. /data/notes.txt |
| RepresentationWindow.DragAcceptsOnlyDataFiles | Source/AIM/GUI/RepresentationUI.cpp:420 | the intended rule accepts exactly existing files with suffix mxa, h5 or hdf5 |
| RepresentationWindow.ZRangeInclusive | Source/AIM/GUI/RepresentationUI.cpp:835-836 | the reconstruction's exclusive range covers exactly the slices the window shows as inclusive |
| RepresentationWindow.CrystalStructureOfCombo | Source/AIM/GUI/RepresentationUI.cpp:843-847 | combo index 0 reaches the reconstruction as Cubic, 1 as Hexagonal, and any other index as itself |
| RepresentationWindow.GrainGeneratorCodesOneBased | Source/AIM/GUI/RepresentationUI.cpp:1038-1050 | the grain generator's codes are the combo indices plus one, so a selected index gives a code of at least 1 |
| RepresentationWindow.RepresentationUI.constructor | Source/AIM/GUI/RepresentationUI.cpp:193-213 | the last directory starts at "~/"; the form is the one read from the settings, except that an existing, non-empty stored angDir is rescanned for its max slice and prefix; mergeTwins is read from the settings (default checked); alreadyFormed is read (default unchecked) and then cleared when the output directory holds no reconstructed data file (cpp:611-615); "Go" buttons, no workers, and the window is unmodified |
| RepresentationWindow.RepresentationUI.ReadSettings | Source/AIM/GUI/RepresentationUI.cpp:264-319 | the form and both check boxes become the settings read with their fallbacks (mergeTwins checked, alreadyFormed unchecked when nothing is stored) |
| RepresentationWindow.RepresentationUI.WriteSettings | Source/AIM/GUI/RepresentationUI.cpp:324-373 | every value of the form and both check boxes are stored under their names, and the form and boxes are unchanged |
| RepresentationWindow.RepresentationUI.CloseEvent | Source/AIM/GUI/RepresentationUI.cpp:246-258 | the close is accepted exactly when the dirty check allows it; only then are the settings written |
| RepresentationWindow.RepresentationUI.DragEnterEvent | Source/AIM/GUI/RepresentationUI.cpp:411-428 | the last path component of the first URL (QDir::dirName: a file's own name, a folder's name even with a trailing separator) becomes the last directory; the drop is accepted by the corrected suffix rule, and only when the rule as written accepts it too; nothing else changes |
| RepresentationWindow.RepresentationUI.FindAngMaxSliceAndPrefix | Source/AIM/GUI/RepresentationUI.cpp:734-770 | with an empty directory name nothing changes; otherwise the max slice and prefix become those of the listing |
| RepresentationWindow.RepresentationUI.ReconstructClicked | Source/AIM/GUI/RepresentationUI.cpp:814-864 | on "Cancel" the button only signals an existing worker; otherwise a reconstruction starts with the parameters mapped from the form and checkboxes as they were at the click, and the button reads "Cancel"; the form, checkboxes, settings and grain-generator state are unchanged |
| RepresentationWindow.RepresentationUI.GrainGeneratorGoClicked | Source/AIM/GUI/RepresentationUI.cpp:1020-1067 | the same for the grain generator, with one-based codes; the form, checkboxes, settings and reconstruction state are unchanged |
| UpdateCheck.ComboIndex | Source/QtSupport/DREAM3DUpdateCheckDialog.cpp:253 | setCurrentIndex selects an index that names an item, and selects nothing (-1) otherwise |
| UpdateCheck.FrequencyRoundTrip | Source/QtSupport/DREAM3DUpdateCheckDialog.cpp:370-416 | a frequency written to the preferences reads back unchanged, and other preferences are untouched |
| UpdateCheck.InitialPreferencesRead | Source/QtSupport/DREAM3DUpdateCheckDialog.cpp:84-92 | a store without the key reads as Manual; after the constructor's default it reads as Monthly; a stored value is kept |
| UpdateCheck.DisplayedFrequencyRule | Source/QtSupport/DREAM3DUpdateCheckDialog.cpp:390-401 | for an automatic mode the combo shows one of its three items, and shows the mode itself exactly when it is Daily, Weekly or Monthly |
| UpdateCheck.ToSimple | Source/QtSupport/DREAM3DUpdateCheckDialog.cpp:440-456 | the result is always the simple dialog |
| UpdateCheck.ToDefault | Source/QtSupport/DREAM3DUpdateCheckDialog.cpp:461-477 | the result is always the default dialog |
| UpdateCheck.SwitchesIdempotent | Source/QtSupport/DREAM3DUpdateCheckDialog.cpp:440-477 | each switch is idempotent, and leaves the view alone exactly when it is already in its target state |
| UpdateCheck.SwitchesRoundTrip | Source/QtSupport/DREAM3DUpdateCheckDialog.cpp:440-477 | switching away and back lands on the standard view of the state |
| UpdateCheck.VersionDisplayParts | Source/QtSupport/DREAM3DUpdateCheckDialog.cpp:205-210 | the label has exactly the version's first three parts, and is the version itself when it has three parts |
| UpdateCheck.UpdateCheckDialog.constructor | Source/QtSupport/DREAM3DUpdateCheckDialog.cpp:64-93 | Monthly is stored when no frequency is; the stored preference is read; "manually" is checked exactly for Manual; the dialog is the default one |
| UpdateCheck.UpdateCheckDialog.SetWhenToCheck | Source/QtSupport/DREAM3DUpdateCheckDialog.cpp:241-256 | Manual checks "manually" and disables the combo; any other value checks "automatically", selects it and enables the combo |
| UpdateCheck.UpdateCheckDialog.ReadUpdatePreferences | Source/QtSupport/DREAM3DUpdateCheckDialog.cpp:370-406 | the mode becomes the stored value; "manually" is checked exactly for Manual; otherwise the combo shows the displayed frequency |
| UpdateCheck.UpdateCheckDialog.WriteUpdatePreferences | Source/QtSupport/DREAM3DUpdateCheckDialog.cpp:411-416 | the mode is stored, and nothing else changes |
| UpdateCheck.UpdateCheckDialog.HowOftenChanged | Source/QtSupport/DREAM3DUpdateCheckDialog.cpp:295-316 | indices 0 to 2 select that mode automatically, any other index leaves the mode and combo; the mode is always written; the view, version and labels are unchanged |
| UpdateCheck.UpdateCheckDialog.AutomaticallyToggled | Source/QtSupport/DREAM3DUpdateCheckDialog.cpp:321-346 | with "automatically" checked, the mode follows the combo when the combo names an item, and is written; otherwise the mode and the combo's enabling stay; the radio, combo index, view, version and labels are unchanged |
| UpdateCheck.UpdateCheckDialog.ManuallyToggled | Source/QtSupport/DREAM3DUpdateCheckDialog.cpp:351-365 | with "manually" checked, the mode becomes Manual, the combo is disabled and Manual is written; otherwise nothing changes; the combo index, view, version and labels are unchanged |
| UpdateCheck.UpdateCheckDialog.ToSimpleUpdateCheckDialog | Source/QtSupport/DREAM3DUpdateCheckDialog.cpp:440-456 | the view becomes the simple view, and the mode, preferences, radio, combo, version and labels are unchanged |
| UpdateCheck.UpdateCheckDialog.ToDefaultUpdateCheckDialog | Source/QtSupport/DREAM3DUpdateCheckDialog.cpp:461-477 | the view becomes the default view, and the mode, preferences, radio, combo, version and labels are unchanged |
| UpdateCheck.UpdateCheckDialog.SetCurrentVersion | Source/QtSupport/DREAM3DUpdateCheckDialog.cpp:202-212 | the full version is kept, and the label shows its first three parts |
| UpdateCheck.UpdateCheckDialog.LatestVersionReplied | Source/QtSupport/DREAM3DUpdateCheckDialog.cpp:421-435 | the message is shown; an error shows "Error!" and keeps the current version; otherwise both version labels are updated |

## Left out

- Files, directories and the settings file are not modelled. The model does
  not cover `fopen`, `mkpath`, the text written by `fprintf`, QSettings'
  on-disk format, file dialogs or directory listings. Each outcome is a
  parameter: `mkpathOk`, `fopenOk`, the listing `entries`, and whether a
  dragged file exists.
- Floating point is not modelled. This covers:
  - the Euler angles, coordinates and header floats of the INL file;
  - the sample coordinates and their random jitter, which is also a random
    source;
  - the `double` settings, and `zSpacing`'s `toDouble`.

  Resolution, origin and uncertainty are stored as exact reals, and are
  never computed with.
- The surface-mesh and volume-mesh tabs of the representation window are not
  modelled, and neither are their boolean settings. They repeat the patterns
  already modelled.
- QtText.ToBool: `QVariant::toBool` lower-cases the text before comparing it
  with "0" and "false". The model lower-cases only ASCII letters. No other
  character lower-cases to a letter of "false", so the result is the same.
- Worker threads, signals and slots, and the network update check are not
  modelled. A started worker is recorded as its parameters. A cancel signal
  is a counter. An update reply is given as a value.
- UpdateCheck.UpdateCheckDialog.SetWhenToCheck: the widget calls re-enter
  other slots, and none of that re-entry is modelled. `setCurrentIndex`
  fires `currentIndexChanged` and re-enters `on_howOften_currentIndexChanged`;
  `manually->setChecked(true)` and `automatically->setChecked(true)`
  (DREAM3DUpdateCheckDialog.cpp:247, 252) fire `toggled` and re-enter
  `on_manually_toggled` or `on_automatically_toggled`, each of which writes
  the Frequency preference. So in the source `setWhenToCheck(Manual)` from
  the automatic state stores Manual, where the model's contract keeps the
  preferences unchanged.
- INLWriter.INLWriterFilter.constructor: the initialiser list leaves
  `m_CrystalStructures` out, so its value is indeterminate until dataCheck
  binds it; the model promises nothing about it.
- RepresentationWindow.RepresentationUI.constructor: the Windows start
  directory `"C:\\"` is not modelled (the model takes the other platforms'
  "~/"), nor are the other checks of setupGui (the reconstruction output
  files and the grain-generator tab), which only refresh widgets outside
  this model. The message box and label text of
  `on_alreadyFormed_stateChanged`, which fires when rec_SetupGui unchecks
  alreadyFormed, are not modelled either; with the box unchecked that slot
  changes nothing the model holds.
- UpdateCheck.UpdateCheckDialog.constructor: the form's initial radio and
  combo state is assumed to be "automatically", index 0, enabled.
- UpdateCheck.UpdateCheckDialog.ReadUpdatePreferences: for an automatic mode
  the combo is not re-enabled, exactly as in the source.
- The two radio buttons are one `manuallyChecked` flag, because Qt keeps them
  exclusive.
- RepresentationWindow.RepresentationUI.ReadSettings: spin boxes clamp values
  to their ranges, and combo boxes turn unknown indices into -1. Neither
  clamp is modelled, so form numbers are unbounded integers.
- RepresentationWindow.RepresentationUI.FindAngMaxSliceAndPrefix: the
  `setValue(maxSlice)` of RepresentationUI.cpp:766-768 is clamped to the spin
  box's range too; the model stores the scanned maximum unclamped.
- QtText.ParseInt: `QString::toInt` skips leading and trailing whitespace,
  so " 5" reads as 5 there; the model accepts no whitespace and reads it as
  unparsable. This only matters for a hand-edited settings file.
- RepresentationWindow.RepresentationUI.DragEnterEvent: the method uses the
  corrected suffix rule (see Findings), so it rejects existing files that
  the condition as written at RepresentationUI.cpp:420 accepts, such as
  /data/notes.txt. Its contract states that it never accepts a drop the
  condition as written refuses. Of QDir's path cleaning, only the dropping
  of one trailing separator is modelled; doubled separators and "." or ".."
  components are taken as they are.
- RepresentationWindow.CrystalStructureOfCombo: the values of the
  `AIM::Representation::CrystalStructure` enumeration live in a header that
  is not part of this model. Cubic, Hexagonal and the cast of any other
  index are kept apart as separate constructors, so the model does not
  capture an index other than 0 or 1 casting to the same value as Cubic or
  Hexagonal.
- DataStore.ErrorCode: the codes that the `createNonPrereq*` helpers set
  belong to a library outside this model. -8001, -8002 and -8003 stand in
  for them, and only the fact that they are negative is claimed.
- DataStore.GetPrereqArray: `GET_PREREQ_DATA` is modelled as a typed,
  shape-checked lookup, without its error messages.
- The base class's sampling in `SampleSurfaceMesh::execute` and
  `SampleSurfaceMesh::preflight` is not modelled. It tests each point
  against the surface mesh and yields a feature id per point; here those ids
  are the `pointIds` argument of `Execute`.
- The Ebsd crystal-structure and .ang symmetry constants come from EbsdLib,
  which is not part of this model. Cubic_High is 1 and Hexagonal_High is 0.
  Only the fact that they differ matters.
- UpdateCheck.UpdateCheckDialog.SetCurrentVersion: the source indexes parts
  0 to 2 of the split version without a check. The precondition of at least
  three parts states what the code silently assumes.
- UpdateCheck.UpdateCheckDialog.LatestVersionReplied: that demand carries
  over to the reply's application string.
- Header files are not modelled. They hold declarations only.
- The store's shape invariant (`StoreValid`) is assumed of every store a
  filter receives: every array of an attribute matrix has that matrix's
  tuple count, as the library's matrices maintain when arrays are added.
  INLWriter's dataCheck never compares the MaterialName array with the
  ensemble count; under this invariant both live in the ensemble matrix, so
  INLWriter.PassingCheckSizes gives the header loop of
  INLWriter.cpp:282-301 a crystal structure for every material name. A
  store whose ensemble arrays differ in length is outside this model.
- UncertainRegularGridSampling.UncertainRegularGridSampleSurfaceMesh.DataCheck:
  negative point counts are converted to size_t as C++ does (2^64 + v), but
  the tuple count is the unbounded product of those dimensions, where the
  library multiplies in size_t (wrapping) and would then fail to allocate
  the array; neither the wrap nor the allocation failure is modelled.
- UncertainRegularGridSampling.UncertainRegularGridSampleSurfaceMesh.Execute:
  in the source the FeatureIds pointer aims into the stored array, so every
  write of assign_points lands in the store at once. The model keeps the
  store as a value and the buffer as an array, and writes the buffer's final
  values back into the store at the end of execute; the aliasing itself
  (the store seen between the writes) is not captured.
- UncertainRegularGridSampling.UncertainRegularGridSampleSurfaceMesh.Execute:
  when exactly two counts are negative, X*Y*Z is positive while
  generate_points produces no point, so assign_points would read ids that
  were never generated. The precondition that assign_points reads only
  generated ids excludes that configuration.
- Integer widths are not modelled. Voxel counts, indices and grain ids are
  unbounded, and the `size_t` and `int64_t` loop counters never overflow on
  the grids considered. Only QString's `toInt` and the sampler's signed
  point counts model the 32-bit range.
- UncertainRegularGridSampling.UncertainRegularGridSampleSurfaceMesh.SignedCount:
  `m_XPoints * m_YPoints * m_ZPoints` (UncertainRegularGridSampleSurfaceMesh.cpp:195,
  228) is an `int` product, and an overflowing product (1291 points on each
  axis, say) is undefined behaviour in C++. The model's product is unbounded,
  so it describes only the configurations whose product fits in 32 bits.

## Findings

| source | as written | input that shows it | evidently intended | confidence | as-written member | corrected member |
|---|---|---|---|---|---|---|
| Source/DREAM3DLib/IOFilters/INLWriter.cpp:345 | `m_CrystalStructures[phaseId]` is read before the `phaseId > 0` test, and nothing checks phaseId against the number of ensembles | one voxel of phase 5, with two ensembles: dataCheck passes and the loop reads entry 5 of a two-entry array | only a phase inside the ensemble data is looked up; any other phase is written as UnknownSymmetry | not executed | INLWriter.AsWrittenReadEscapesEnsembles | INLWriter.VoxelSymmetryRule |
| Source/AIM/GUI/RepresentationUI.cpp:420 | `ext.compare("mxa") \|\| ext.compare("h5") \|\| ext.compare("hdf5")`: compare is nonzero when the strings differ, and no suffix equals all three | dragging the existing file /data/notes.txt is accepted | accept only files whose suffix is mxa, h5 or hdf5 | not executed | RepresentationWindow.DragAcceptsAnyExistingFile | RepresentationWindow.DragAcceptsOnlyDataFiles |
