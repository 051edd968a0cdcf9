# seba in Dafny

seba is a framework for evaluating the anonymization of biometric data,
such as face images and motion-capture recordings. An experiment runs a
pipeline of dataset stages: a selector picks identities or datapoints, a
splitter cuts them into parts (enrollment, test, background, attacker
training), an anonymization rewrites the datapoints, and a
de-anonymization tries to undo it. A recognition or utility evaluation
then produces ranked results, and metrics are computed from those.
Every stage writes a new dataset, a folder beside a `<name>.meta.yaml`
lineage record. Before a stage runs, it looks for an earlier dataset
whose record matches what it would produce, and reuses that dataset when
it finds one.

This project models that machinery in Dafny and proves what it promises.
Each Python file of the core has its own module, and imperative code
stays imperative: classes with `modifies` frames, `while` loops with
invariants, and `array`/`array2` for images and motion data.

- **Store and datasets** (`values`, `text`, `pylib`, `store`, `manager`,
  `identity`, `points`, `attributes`, `scan`, `datasets`). Metadata is a
  value tree. The data folder is a class holding the metadata records
  and the folders, each a map from file name to content. The model
  covers the structural cache match and its first hit in listing order,
  `scan_folder`'s index, `copy` with its file filter and lineage record,
  and lazily loaded attributes.
- **Pipeline stages** (`selectors`, `selector_run`, `splitters`,
  `splitter_cache`, `splitter_run`, `stages`, `lifecycle`). These model:
  - every selector's choice and every splitter's plan;
  - the parts being disjoint and covering their inputs;
  - the lineage tags each run writes, and proofs that the cache lookups
    find those tagged datasets again;
  - the refusal checks of anonymization and de-anonymization, which
    happen before anything changes.
- **Experiments** (`experiment_base`, `experiments`, `deanon_experiment`,
  `run`, `utils`, `inference`, `run_configs`). These model:
  - each stage's cache lookup, copy, run, and deletion of the new
    dataset on failure;
  - the topologies of the anonymization experiments;
  - the `$ROUND` rewriting;
  - the classification and comparison loops;
  - the run-configuration generator.
- **Results and metrics** (`results`, `result_set`, `results_manager`,
  `metric_levels`, `idlevel`, `accuracy`). These model:
  - ranked candidates, and squashing them by minimum or mean;
  - the results-file line format and its round trip;
  - the search for the latest results of a configuration;
  - the counting in the identity-level and accuracy metrics.
- **Transforms** (`pxlreloc`, `blockpermutate`, `dpsnow`, `images`,
  `batches`, `fawkes`, `deepprivacy`, `motiondata`, `removeparts`,
  `sumofparts`, `motionextraction`, `trajectory`, `torchdata`,
  `facetorch`, `chunks`, `cleanup`, `check_dataset`). These model:
  - the pixel and block permutations;
  - DP-Snow's pixel choice;
  - the batching of the two external anonymizers;
  - the four motion transforms;
  - the torch dataset's split and shuffle;
  - the model registry and early stopping of the torch de-anonymizer;
  - the scripts' `chunks`, `delete_set` and bounding-box check.

Randomness (`random.shuffle` after seeding, `uuid4`) comes in as
parameters: a permutation of the list, or a fresh name. External
programs also come in as parameters: what they write, or their failure.
The same holds for the evaluation modules an experiment loads, for the
order in which `os.listdir` lists the store, and for YAML and JSON
decoding. Python exceptions are `Err` values of a `Result` that name the
exception class.

## Model

| member | source | states |
|---|---|---|
| Manager.MatchDoc | src/lib/data/manager.py:28-41 | a document that is not a mapping raises on the first query key (an empty query matches it); a mapping matches exactly when `MatchLevel` holds: every query key present, nested mappings compared recursively, other values by Python `==` |
| Manager.MissingKeyFails | src/lib/data/manager.py:38-40 | a key the query names and the metadata lacks makes the match fail |
| Manager.MatchReflexive | src/lib/data/manager.py:29-41 | every metadata document matches itself as a query |
| Manager.MatchesItself | src/lib/data/manager.py:31-36 | a value matches itself both as a nested query and under `==` |
| Manager.MatchTransitive | src/lib/data/manager.py:29-41 | metadata matching a query also matches every looser query that query matches, so extra keys in a candidate never turn a match into a non-match |
| Manager.GetAll | src/lib/data/manager.py:10-16 | the names are the `.meta.yaml` files of the listing with the suffix cut, in listing order and distinct; the map holds exactly the stored metadata by name |
| Manager.Exists | src/lib/data/manager.py:44-46 | true exactly when a dataset of that name has a metadata file |
| Manager.FirstMatchMeaning | src/lib/data/manager.py:19-25 | none is returned iff no enumerated dataset matches; a returned name matches and every name before it does not; an error needs a non-empty query and a non-mapping document |
| Manager.GetMatching | src/lib/data/manager.py:19-25 | a returned name is stored and matches; none means no stored dataset matches; the result is the first match in enumeration order |
| Manager.FirstMatching | src/lib/data/manager.py:21-25 | the loop returns exactly the first-match scan `FirstMatch` over the names |
| Manager.NoneMeansNoMatch | src/lib/data/manager.py:25 | when the scan finds nothing, no stored dataset's metadata matches the query |
| Identities.Identity.constructor | src/lib/data/identity.py:7-11 | a new identity has no points and no attributes loaded yet |
| Identities.Identity.LoadAttr | src/lib/data/identity.py:20-27 | the attribute file is read once: an unloaded identity takes the document the file holds, whatever it is, or `{}` when the file is missing; a loaded one keeps its cache |
| Identities.Identity.Get | src/lib/data/identity.py:13-18 | loads lazily, then answers as `__getattr__` does on the loaded document: on a mapping the attribute's value or none when unset, otherwise the `TypeError` of `in` or of indexing |
| Identities.Identity.SaveAttr | src/lib/data/identity.py:29-32 | on a mapping the cache gains the key, the write succeeds exactly when the file's folder is reachable, and the file then reads back as the cache, and the disk is the old one with only the file the links lead to replaced; a loaded document that is not a mapping raises `TypeError`; every failure writes nothing |
| Identities.Identity.SaveAttrBatch | src/lib/data/identity.py:34-38 | a mapping is overridden by the batch and a successful write reads back as the cache; a document that is not a mapping raises `TypeError` at the first assignment, so only an empty batch gets to write it back; a successful write replaces only the file the links lead to, and a failure writes nothing |
| Identities.Identity.SaveAttrFile | src/lib/data/identity.py:40-42 | the write succeeds exactly when the folder is reachable; a successful write, through links if any, replaces only the file the links lead to and reads back as the cache; a failed one changes nothing |
| Points.KindOf | src/lib/data/point.py:56-82 | the kind returned claims the file by its last extension, and none means no kind claims it |
| Points.KindUnique | src/lib/data/point.py:64-82 | at most one point class claims a file name |
| Points.AllowedExt | src/lib/data/set.py:65-67 | every point class's extension is allowed for copying |
| Points.FilenameRoundTrip | src/lib/data/point.py:53-54 | a point's file name splits back into its identity, point name and extension, and scanning classifies it as its own kind |
| Points.LoadRange | src/lib/data/point.py:84-110 | the column window of the metadata range (from `original_meta` when present) is cut from every frame with Python slice clipping; a missing range is an error |
| Points.Datapoint.constructor | src/lib/data/point.py:11-17 | a new point records its folder, set metadata, identity and name, with no attributes loaded yet |
| Points.Datapoint.LoadAttr | src/lib/data/point.py:26-33 | the attribute file is read once, taking the document it holds, or `{}` when missing |
| Points.Datapoint.Get | src/lib/data/point.py:19-24 | loads lazily, then answers as `__getattr__` does on the loaded document: on a mapping the attribute's value or none when unset, otherwise `TypeError` |
| Points.Datapoint.SaveAttr | src/lib/data/point.py:35-38 | on a mapping the cache gains the key, the write succeeds exactly when the folder is reachable, then reads back as the cache and replaces only the file the links lead to; a document that is not a mapping raises `TypeError`; every failure writes nothing |
| Points.Datapoint.SaveAttrBatch | src/lib/data/point.py:40-44 | a mapping is overridden by the batch and a successful write reads back as the cache; a document that is not a mapping raises `TypeError` unless the batch is empty; a successful write replaces only the file the links lead to, and a failure writes nothing |
| Points.Datapoint.SaveAttrFile | src/lib/data/point.py:46-48 | the write succeeds exactly when the folder is reachable; a successful write, through a soft link into the parent's file if any, replaces only that file and reads back as the cache; a failed one changes nothing |
| Scan.ScanErrorSticks | src/lib/data/set.py:36-44 | a file that makes the scan fail makes it fail for good; later files are never looked at |
| Scan.ScanStepValid | src/lib/data/set.py:37-44 | one scanned file keeps the index well formed: point keys unique, every point's identity registered, counts present |
| Scan.RegisterValid | src/lib/data/set.py:39-40 | registering an identity on its first file keeps the index well formed |
| Scan.BindValid | src/lib/data/set.py:41-43 | binding a point to its identity and counting it keeps the index well formed |
| Scan.ScanValid | src/lib/data/set.py:30-44 | every scanned index is well formed |
| Scan.ScanCounts | src/lib/data/set.py:43 | an identity's `npoints` is the number of its datapoint files, and an identity with no such file is not registered |
| Scan.PointsOf | src/lib/data/set.py:56 | the keys kept for an identity are exactly those starting with its name and a dot |
| Scan.PointById | src/lib/data/set.py:55-56 | there is one group per identity |
| Scan.PointByIdPartition | src/lib/data/set.py:55-56 | a key lies in an identity's group exactly when it is a datapoint of that identity |
| Scan.PointsOfDistinct | src/lib/data/set.py:56 | a group of distinct keys is distinct |
| Scan.PointByIdCovers | src/lib/data/set.py:55-56 | the groups together hold every datapoint exactly once: their concatenation is a duplicate-free reordering of the datapoints |
| Scan.PointByIdDistinct | src/lib/data/set.py:55-56 | no key appears in two groups or twice in one |
| Scan.PointByIdMembers | src/lib/data/set.py:55-56 | the groups hold exactly the datapoints |
| Datasets.EmptySelectionCopiesEverything | src/lib/data/set.py:72-73 | as written, an empty `only_points` list admits a point file that the intended filter rejects |
| Datasets.DecisionForPointFile | src/lib/data/set.py:72-75 | with the intended filter, a point file is copied exactly when its identity and its point key are admitted and its extension is allowed |
| Datasets.DecideForPointFile | src/lib/data/set.py:72-75 | the copy decision for a point file under either reading of the filters, as written or intended |
| Datasets.PointFileParts | src/lib/data/set.py:72-73 | a point file's name splits into identity, point and extension, and its first two segments rejoin into the point key |
| Datasets.CopyFilesExact | src/lib/data/set.py:71-79 | models the intended behaviour: a complete copy holds exactly the admitted files of the listing, each as a link to the parent's file or as a copy of its content |
| Datasets.CopyFilesMembers | src/lib/data/set.py:71-75 | a complete copy holds a file exactly when the listing has it and the decision admits it |
| Datasets.CopyFilesEntries | src/lib/data/set.py:76-79 | a copied file is a link to the parent's file when soft-linked and the parent file's content otherwise |
| Datasets.AsWrittenFilter | src/lib/data/set.py:72-73 | Python's `not only or x in only` is the intended filter with an empty list read as no filter |
| Datasets.DecisionAsWritten | src/lib/data/set.py:72-75 | the decision as written is the intended decision on the filters as Python reads them |
| Datasets.CopyFilesAsWritten | src/lib/data/set.py:71-79 | `copy` as written: a complete copy holds exactly the listed files that the as-written decision admits |
| Datasets.EmptyListCopiesAllAsWritten | src/lib/data/set.py:72-73 | as written, an empty `only_ids` or `only_points` list copies what no filter copies |
| Datasets.EmptyIdsCopyNothing | src/lib/data/set.py:72 | models the intended behaviour: an empty `only_ids` list copies nothing and never fails |
| Datasets.DerivedMeta | src/lib/data/set.py:81-87 | the copy's metadata exists exactly when the parent's has a `trait`; it names the copy and its parent, keeps the trait and the lineage root's metadata, marks soft links, and has no other keys |
| Datasets.LineageStaysFlat | src/lib/data/set.py:82-85 | copying a copy never nests `original_meta`: it stays the root's own metadata |
| Datasets.Dataset.constructor | src/lib/data/set.py:13-23 | a dataset object holds its name, link flag, metadata and scanned index |
| Datasets.Dataset.Open | src/lib/data/set.py:13-44 | opening succeeds exactly when the metadata file and the folder exist and the scan succeeds; the listing is scanned sorted, and the object holds the stored metadata and the scanned index |
| Datasets.Dataset.ScanFolder | src/lib/data/set.py:30-44 | the scan loop computes the index of the scan specification `ScanFiles` |
| Datasets.Dataset.ReloadMeta | src/lib/data/set.py:25-28 | succeeds exactly when the metadata file exists, and then holds its document; a failure changes nothing |
| Datasets.Dataset.SaveMeta | src/lib/data/set.py:96-99 | the metadata file now holds the in-memory metadata; folders are untouched |
| Datasets.Dataset.Delete | src/lib/data/set.py:101-106 | the folder is removed, then the metadata file; a missing folder stops the deletion before the metadata is touched |
| Datasets.Dataset.Copy | src/lib/data/set.py:58-94 | models the intended behaviour: an existing target folder is a `FileExistsError` with nothing changed; otherwise the target folder holds exactly the admitted files and, when every file copied, the metadata file holds the derived metadata; the copy succeeds exactly when the parent's folder exists, every file copied, the parent has a `trait` and the new folder scans, and the returned dataset holds the derived metadata and the scanned index of the new folder |
| Datasets.CopyInto | src/lib/data/set.py:71-79 | the copy loop fills the empty target folder as the copy specification `CopyFiles` does and reports its first error |
| Datasets.CopyFilesSnoc | src/lib/data/set.py:71-79 | one more file either is skipped, adds one entry, or stops the copy with its error |
| Datasets.CopyErrorSticks | src/lib/data/set.py:71-79 | after a failed file, later files change neither the folder nor the error |
| Values.ToFloat | src/splitter/anon.py:37 | `float(...)` on a configuration value succeeds exactly on booleans, integers and floats and gives their numeric value; strings are refused |
| Values.PyEqReflexive | src/lib/data/manager.py:40 | Python `==` on configuration values is reflexive |
| Values.PyEqSymmetric | src/lib/data/manager.py:40 | Python `==` on configuration values is symmetric |
| Values.Get | src/lib/data/manager.py:38 | a lookup gives a value exactly when the key is present, and then the stored value |
| Values.Index | src/splitter/abstract.py:41 | `d[key]` succeeds exactly when the key is present; otherwise a `KeyError` naming the key |
| Values.In | src/anonymization/face/deepprivacy.py:31 | `in` is a substring test on strings, a membership test on lists and on a mapping's keys, and a `TypeError` on anything else |
| Values.SetDefault | src/anonymization/face/deepprivacy.py:37-38 | the key is added with the default only when absent; every other key keeps its value |
| Text.Split | src/lib/data/point.py:66 | `split` never returns an empty list and no part contains the separator |
| Text.SplitJoin | src/lib/data/set.py:42 | joining the parts of a split with the same separator gives back the string |
| Text.JoinSplit | src/splitter/abstract.py:38 | splitting a join of separator-free parts gives back the parts |
| Text.SplitLast | src/lib/data/point.py:66 | the last part of a split is the text after the last separator |
| Text.ReplaceAbsent | src/anonymization/face/fawkes.py:101 | replacing a needle that does not occur changes nothing |
| Text.ReplaceAppendsPrefix | src/anonymization/face/fawkes.py:101 | a prefix that cannot start the needle passes through a replacement unchanged |
| Text.NatToString | src/metric/accuracy.py:68 | `str(n)` is a non-empty string of decimal digits |
| Text.StrLeTotal | src/lib/data/set.py:33 | string order is total |
| Text.StrLeTransitive | src/lib/data/set.py:33 | string order is transitive |
| Text.StrLeAntisymmetric | src/lib/data/set.py:33 | string order is antisymmetric, so a sorted list of distinct names is unique |
| Text.MinOf | src/lib/data/set.py:33 | the loop returns a member of the set at or below every other member |
| Text.SortedList | src/lib/data/set.py:32-33 | the listing after `sort()` is ascending, duplicate-free and holds exactly the directory's names, so it is the one sorted listing of them |
| Text.SortedSet | src/lib/data/set.py:32-33 | the sorted listing of a set of names: ascending, without repeats, holding exactly the set's names |
| Text.SortedUnique | src/lib/data/set.py:32-33 | two ascending listings without repeats of the same names are equal, so the scan of a folder does not depend on how its listing was obtained |
| Text.SortByNameFacts | src/metric/accuracy.py:29 | sorting by a string key gives an ascending list that is a permutation of its input |
| PyLib.Trunc | src/selector/mostpoints.py:28 | `int(x)` truncates toward zero on both signs |
| PyLib.Cut | src/splitter/anon.py:51 | `int(rate * n)` lies in `0..n` for a rate in `[0, 1]` and is the whole part of `rate * n` for a non-negative rate |
| PyLib.Clamp | src/selector/mostpoints.py:31 | the position a slice bound denotes: negative bounds count from the end, out-of-range bounds are clipped to `0` or `n` |
| PyLib.CutPartition | src/splitter/anon.py:52-53 | `s[:k] + s[k:]` is `s` for every `k`, so a cut loses and repeats nothing |
| PyLib.DistinctCut | src/splitter/anon.py:52-53 | both halves of a cut of a distinct list are distinct and share no item |
| PyLib.DistinctMultiset | src/splitter/anon.py:52-53 | distinct lists are exactly those whose items have multiplicity at most one |
| PyLib.DistinctConcat | src/splitter/interid1to3.py:40-44 | a concatenation is distinct exactly when both sides are and they share no item |
| PyLib.FlattenDistinct | src/splitter/intraid2to2.py:47-60 | items collected from pairwise disjoint distinct groups are distinct |
| PyLib.DistinctFlattenParts | src/splitter/intraid2to2.py:47-60 | each group of a distinct concatenation is distinct and no two groups share an item |
| PyLib.FlattenPermutation | src/splitter/intraid2to2.py:47-60 | reordering each group reorders the whole |
| PyLib.SortByFacts | src/selector/classification.py:26 | `sort(key=...)` gives an ascending list that is a permutation of its input |
| PyLib.SortOfSorted | src/selector/classification.py:26 | the sort is stable: sorting an ascending list changes nothing |
| PyLib.SortByHead | src/lib/result.py:20 | the sorted list starts with the first element of least key |
| Store.Disk.constructor | src/lib/data/manager.py:11-16 | the store holds exactly the given metadata files and folders |
| Store.Disk.WriteMeta | src/lib/data/set.py:96-99 | writing `<name>.meta.yaml` replaces that document and nothing else |
| Store.Disk.RemoveMeta | src/lib/data/set.py:105-106 | removing `<name>.meta.yaml` deletes that document and nothing else |
| Store.Disk.WriteFile | src/lib/data/set.py:76-79 | a copy or a link lands as one entry of an existing folder; nothing else changes |
| Store.Disk.WriteDoc | src/lib/data/point.py:46-48 | writing through links succeeds exactly when the link chain ends in an existing folder, and then changes that one file to the document |
| Store.Disk.Mkdir | src/lib/data/set.py:63 | `os.mkdir` fails with `FileExistsError` exactly when the folder exists, and otherwise adds it empty |
| Store.Disk.RemoveFolder | src/lib/data/set.py:104 | `rmtree` removes the folder and its links, not what they point to |
| Store.WriteTarget | src/lib/data/point.py:46-48 | a resolved write target is an existing folder |
| Store.ReadAfterWrite | src/lib/data/point.py:29-31 | reading back along the same links returns what was written, for plain files, missing files and link chains alike |
| Selectors.Construct | src/selector/abstract.py:9-15 | a random selector without `seed` raises `AttributeError`; every other configuration is kept as given |
| Selectors.IntParam | src/selector/random.py:28 | a slice bound read from the configuration must be an integer (or a boolean); a missing key is a `KeyError` |
| Selectors.NumParam | src/selector/zoo.py:25 | a weight read from the configuration must be a number and is used as its value |
| Selectors.TailKeepsBest | src/selector/classification.py:26-28 | after an ascending sort, a tail cut keeps nothing ranked below what it drops |
| Selectors.TailKeepsBestByName | src/selector/classification.py:26-28 | after an ascending sort by a string key, a tail cut keeps nothing ranked below what it drops in Python's string order |
| Selectors.HeadKeepsBest | src/selector/zoo.py:27-28 | after a descending sort, a head cut keeps nothing ranked below what it drops |
| Selectors.WindowAboveRest | src/selector/mostpoints.py:24-31 | after a descending sort, a window ranks nothing below what follows it |
| Selectors.DescendingAt | src/selector/mostpoints.py:24 | a descending sort is ordered at every pair of positions |
| Selectors.SliceWidth | src/selector/mostpoints.py:31 | a slice `[a:a+n]` holds at most `n` items |
| Selectors.MinPoints | src/selector/random.py:23-24 | the minimum is read when set; comparing a non-number with a count raises, but only when there is an identity to compare |
| Selectors.Eligible | src/selector/random.py:23-26 | exactly the identities with at least the minimum number of points are kept, in order and without repeats |
| Selectors.CappedMember | src/selector/random.py:30-34 | a point is collected exactly when it is among the first `max_img_per_id` of its shuffled group |
| Selectors.SelectRandom | src/selector/random.py:21-38 | the loop computes the random selection `RandomSelection` |
| Selectors.RandomFacts | src/selector/random.py:21-38 | models the intended behaviour: at most `ids` identities are kept, all eligible and none twice, exactly `ids` when enough are eligible, none when none is eligible, and the points are filtered exactly when `max_img_per_id` is set |
| Selectors.CappedPerIdentity | src/selector/random.py:30-34 | a point of one identity's group is kept exactly when it is among that group's first `max_img_per_id`, which are at most that many |
| Selectors.GroupsDisjoint | src/lib/data/set.py:55-56 | point groups of different identities share no point, so the cap of one identity never admits another's point |
| Selectors.Offset | src/selector/mostpoints.py:26-28 | the offset is 0 when absent and otherwise `int()` of the value: an integer as given, a boolean as 0 or 1, a float truncated toward zero, a numeric string parsed, and anything else raises |
| Selectors.MostpointsRanking | src/selector/mostpoints.py:22-24 | the ranking is by point count, largest first, and holds every identity once |
| Selectors.MostpointsWindow | src/selector/mostpoints.py:21-33 | the window holds at most `ids` identities of the set, none with fewer points than any identity after it, and starts at the top without an offset |
| Selectors.KeyValues | src/selector/classification.py:23-24 | there is one attribute value per identity, in identity order |
| Selectors.Ranked | src/selector/classification.py:26 | every ranked pair holds an identity position and that identity's value |
| Selectors.RankedFacts | src/selector/classification.py:26 | sorting the enumerated values keeps each position with its own value |
| Selectors.RankedPermutes | src/selector/classification.py:26 | the sort only reorders the enumerated pairs |
| Selectors.KeptIds | src/selector/classification.py:28-32 | one kept name per pair of the tail cut |
| Selectors.SelectClassification | src/selector/classification.py:18-34 | the loops compute the classification selection `ClassificationSelection`: values that are all numbers sort by value, values that are all strings in string order, and two or more values of any other mix raise `TypeError` |
| Selectors.SortAndCut | src/selector/classification.py:26-32 | after the first loop: a mix of value kinds that `sort` cannot compare raises `TypeError`, a non-integer `ids` raises as `int` does, and otherwise the result is the selection of the identities ranked in the last `ids` places |
| Selectors.Cut | src/selector/classification.py:26-28 | sorting the (position, value) pairs and keeping `tmp[-ids:]` gives the names of exactly the identities `KeptIds` ranks last, in ranked order |
| Selectors.CollectValues | src/selector/classification.py:22-24 | the first loop pairs each identity's position with its attribute value, and a non-string attribute name raises `TypeError` when there is an identity |
| Selectors.NamesOf | src/selector/classification.py:30-32 | the second loop maps each kept position back to its identity's name |
| Selectors.KeptAboveDropped | src/selector/classification.py:26-28 | an identity dropped by the cut ranks no higher than one kept, by value for numbers and in string order for strings |
| Selectors.KeptAboveAllDropped | src/selector/classification.py:26-28 | every kept identity ranks at least as high as every dropped one |
| Selectors.CutAtZeroKeepsAll | src/selector/classification.py:28 | `ids` = 0 makes the cut `tmp[0:]`, which keeps every identity |
| Selectors.ClassificationKeepsBest | src/selector/classification.py:18-34 | the identities with the highest values are kept: none kept ranks below one dropped (by value for numbers, in string order for strings), `min(ids, n)` are kept for positive `ids`, and all of them for `ids` = 0 |
| Selectors.KeptFacts | src/selector/classification.py:28-32 | the ordering and count facts for the kept names themselves |
| Selectors.ZooSuffix | src/selector/zoo.py:20-22 | `_score_eucl` when `use_eucl` is truthy, else `_score_cos`; a missing `use_eucl` raises |
| Selectors.Extreme | src/selector/zoo.py:24 | the `max` or `min` field of a score attribute, which must be a number |
| Selectors.ZooTerms | src/selector/zoo.py:24 | one term per identity, in order, named after it |
| Selectors.ZooScores | src/selector/zoo.py:25 | each identity's score is `genuine·(-gen.max) + imposter·imp.min`, and the weights must be numbers |
| Selectors.ScoredAboveDropped | src/selector/zoo.py:27-28 | among distinctly named scores, one the head cut drops scores no higher than one it keeps |
| Selectors.ZooKeepsBest | src/selector/zoo.py:19-29 | the scores name every identity in order, none kept scores lower than one dropped, and at most `ids` are kept |
| Selectors.HitsOf | src/selector/datapoint_type.py:22-23 | a point's hits are among the configured attributes |
| Selectors.SelectDatapointType | src/selector/datapoint_type.py:16-26 | the nested loops compute the datapoint-type selection `DatapointTypeSelection` |
| Selectors.PickPoint | src/selector/datapoint_type.py:22-24 | the inner loop appends the point once per attribute it passes; a malformed `selected_types` raises |
| Selectors.Hit | src/selector/datapoint_type.py:23 | the point passes an attribute exactly when its value is among the allowed ones |
| Selectors.PickStep | src/selector/datapoint_type.py:22-24 | one attribute more appends one copy more exactly when the point passes it |
| Selectors.PickedMember | src/selector/datapoint_type.py:21-24 | a point is collected exactly when it passes some attribute |
| Selectors.DatapointTypeMembers | src/selector/datapoint_type.py:16-26 | identities are not filtered, and a point is selected exactly when some attribute of `selected_types` has one of its allowed values for it |
| Selectors.SelectionOf | src/selector/full.py:16-17 | every selector keeps its configuration, and only the classification selector adds its default `key` |
| Selectors.Select | src/selector/abstract.py:25-26 | the dispatch computes `SelectionOf` for each selector |
| SelectorRun.Lineage | src/selector/abstract.py:19-21 | the saved metadata gains `selector`, `params` and `random` (the seed for a random selector, 0 otherwise) and keeps every other key |
| SelectorRun.SelectionFound | src/lib/exp/anon.py:19-28 | a selection's saved metadata answers the later query for the same parent, selector and configuration, so the selection is not made twice |
| SelectorRun.ConfigCovers | src/lib/exp/anon.py:21 | a saved configuration that keeps every configured key with its value matches the configured one |
| SelectorRun.LineageMatches | src/lib/exp/anon.py:21-22 | the lineage of a copy of the parent matches the selection query |
| SelectorRun.Run | src/selector/abstract.py:17-23 | models the intended behaviour: the selection is the selector's; a failed selection changes nothing; otherwise a soft-linked copy named by the uuid holds exactly the selected files, is tagged and saved, holds the scanned index of the new folder, and its metadata answers the selection query; the copy succeeds exactly when `copy` can make it |
| SelectorRun.Persist | src/selector/abstract.py:18-22 | the copy succeeds exactly when the new name is free, the parent's folder exists, every file copied, the parent has a `trait` and the new folder scans; it then holds the filtered files, the scanned index of the new folder and its tagged metadata, saved under the new name |
| SelectorRun.CopyThrough | src/lib/data/set.py:58-94 | the soft-linked copy through the selection's filters: only the new name's folder and metadata change, to the filtered links and the derived metadata; it succeeds exactly when `copy` can make it, and the copy holds the scanned index of the new folder |
| SelectorRun.Tag | src/selector/abstract.py:19-22 | the copy's metadata becomes its lineage and is written to its metadata file |
| Splitters.ConstructMeaning | src/splitter/abstract.py:11-18 | a splitter is constructed exactly when its configuration passes its checks and, for a random splitter, has a `seed`; the constructed configuration is the validated one |
| Splitters.ConstructEnrollTest | src/splitter/anon.py:27-39 | `anon` and `id` construct exactly on accepted configurations |
| Splitters.EnrollTestDefaults | src/splitter/id.py:28-40 | `enroll_anon` defaults to false and `test_anon` to true without touching other keys, and validation then asks exactly for a rate in `[0, 1]` |
| Splitters.EnrollTestConstructed | src/splitter/anon.py:27-39 | an accepted configuration constructs `anon` and `id` as described |
| Splitters.ConstructOneRate | src/splitter/anonbg.py:26-32 | `anonbg` and `intraid2to2` construct exactly on accepted configurations |
| Splitters.ConstructRates | src/splitter/interid1to3.py:25-33 | `interid1to3` constructs exactly with two non-negative rates summing to at most 1 |
| Splitters.ConstructDeanon | src/splitter/deanon.py:35-51 | `deanon` constructs exactly on accepted configurations |
| Splitters.DeanonRates | src/splitter/deanon.py:35-51 | `parrot` defaults to false without touching other keys; validation then asks for `enroll_rate` strictly inside `(0, 1)` and `train_rate` in `[0, 1)` |
| Splitters.DeanonConstructed | src/splitter/deanon.py:35-51 | an accepted configuration constructs `deanon` as described |
| Splitters.ConstructDeanonCompare | src/splitter/deanon_compare.py:7-13 | `deanon_compare` constructs exactly with `train_rate` in `[0, 1)` |
| Splitters.MinSide | src/splitter/anon.py:47 | the smaller side is one of the two inputs |
| Splitters.SplitPerIdentity | src/splitter/anon.py:49-53 | the per-identity loop builds exactly the enroll and test lists of `EnrollOf` and `TestOf` |
| Splitters.PerIdentityPartition | src/splitter/anon.py:49-53 | enroll and test together are a reordering of all the points, and with distinct points they are distinct and disjoint |
| Splitters.Heads | src/splitter/anon.py:52 | one enroll half per identity |
| Splitters.Tails | src/splitter/anon.py:53 | one test half per identity |
| Splitters.HalvesFlatten | src/splitter/anon.py:49-53 | the enroll and test lists are the halves of the groups, concatenated |
| Splitters.PerIdentityShare | src/splitter/anon.py:49-53 | a point is enrolled exactly when it is among the first `int(rate·n)` of its own identity's shuffled group, and is in the test list otherwise |
| Splitters.IdentityCut | src/splitter/anonbg.py:36-42 | the cut at `int(n·rate)` takes exactly that many identities, at most `n·rate`, and the two sides are a duplicate-free partition of the identities |
| Splitters.Cuts3 | src/splitter/interid1to3.py:40-41 | the two cut points are ordered and within the list |
| Splitters.ThreeWayPartition | src/splitter/interid1to3.py:43-45 | background, attacker and evaluation identities concatenate to the shuffled list and are pairwise disjoint and duplicate-free |
| Splitters.AnonPlan | src/splitter/anon.py:41-65 | models the intended behaviour: two soft-linked copies restricted to the enroll and test points of the smaller input, each from the input `enroll_anon`/`test_anon` picks |
| Splitters.PointSplitCovers | src/splitter/anon.py:47-53 | the enroll and test point lists are a duplicate-free, disjoint reordering of the smaller input's points |
| Splitters.AnonbgPlan | src/splitter/anonbg.py:34-50 | models the intended behaviour: the first `int(n·rate)` shuffled identities form the background copy, the rest the evaluation copy |
| Splitters.Interid1to3Plan | src/splitter/interid1to3.py:35-56 | models the intended behaviour: three copies restricted to the background, attacker and evaluation identities |
| Splitters.IdLevelPlan | src/splitter/id.py:42-63 | whole identities are cut at `int(rate·n)`; an empty side makes `np.concatenate` raise `ValueError`; otherwise the two copies hold the enrolled and the tested identities' points |
| Splitters.Concatenate | src/splitter/id.py:50-51 | the concatenation loop gives the flattened groups |
| Splitters.IdLevelSeparates | src/splitter/id.py:49-51 | identities stay whole: each point of an enrolled identity is enrolled and not tested, and the other way round |
| Splitters.Intraid2to2Plan | src/splitter/intraid2to2.py:39-65 | models the intended behaviour: at rate 1.0 both inputs restricted to the smaller input's identities; otherwise enroll points from the input `enroll_clear` picks and test points from the anonymized input |
| Splitters.ComparePlan | src/splitter/compare.py:10-17 | both inputs restricted to the identities of the smaller one |
| Splitters.CacheQuery | src/splitter/deanon.py:111 | a cache query names exactly the parents, the splitter, the parameters and the part |
| Splitters.DeanonPlan | src/splitter/deanon.py:53-102 | models the intended behaviour: outputs in the order enroll, test, clear train, anonymized train; training parts are reused only when both lookups succeed, else copied for the training identities; the test part is reused when found; `deanon_compare` restricts both test copies to the test identities |
| SplitterCache.Reparamed | src/splitter/deanon.py:114 | overwriting `params` on a found dataset changes that key only |
| SplitterCache.Lookup | src/splitter/deanon.py:112-115 | the lookup answers the first stored dataset matching the query, or none when none matches; a found dataset's `params` are overwritten and saved; folders are untouched |
| SplitterCache.ListsSameKeys | src/lib/data/manager.py:10-16 | rewriting metadata files keeps the listing of metadata names valid |
| SplitterCache.PartsExclusive | src/splitter/deanon.py:111-118 | a dataset matching the lookup of one part never matches the lookup of another part, before or after its `params` are rewritten |
| SplitterCache.ReusedStillMatches | src/splitter/deanon.py:112-115 | after reuse rewrites a dataset's `params` to the lookup's, the same lookup still finds it |
| SplitterCache.FreshCopyNeverMatches | src/lib/data/set.py:81-87 | a part freshly copied by a splitter has no `splitter` key until `run` tags it, so no cache lookup finds it |
| SplitterCache.TrainPartIsFound | src/splitter/deanon.py:104-123 | the lineage a finished `deanon` run records on a training part is found by a later run with the same parents, `train_rate` and `seed` |
| SplitterCache.ExistingTrain | src/splitter/deanon.py:104-123 | missing `train_rate` or `seed` raises with nothing changed; otherwise the two answers are those of the part-2 and part-3 lookups, the second made after the first rewrote what it found, and only the found datasets' `params` change |
| SplitterCache.LookupTrain | src/splitter/deanon.py:111-121 | the two lookups answer as `TrainAnswers` states and rewrite only what they found |
| SplitterCache.TrainAnswered | src/splitter/deanon.py:111-121 | the answers of the two lookups, the second seeing the first's rewrite |
| SplitterCache.RewrittenTwice | src/splitter/deanon.py:114-121 | two rewrites of different found datasets are the state `Rewritten` describes |
| SplitterCache.ExistingTest | src/splitter/deanon.py:125-135 | a missing parameter raises with nothing changed; a found test part matches the part-1 query and has its `params` rewritten; none found changes nothing |
| SplitterRun.PerformStep | src/splitter/anon.py:55-63 | one step makes a soft-linked copy of an input under a fresh uuid, or opens a dataset the cache found; a reuse changes nothing on disk, and nothing existing is removed; a reuse succeeds exactly when the dataset's metadata and folder exist and the folder scans, a copy exactly when the uuid is free, every file copied, the input has a `trait` and the new folder scans; either way the part holds the scanned index of its folder |
| SplitterRun.Perform | src/splitter/deanon.py:63-66 | the plan's steps in order, stopping at the first failure: one fresh, distinct dataset per step, each produced as its step says and holding the scanned index of its folder, reused parts with their stored metadata, and no folder or metadata file lost |
| SplitterRun.PerformNext | src/splitter/deanon.py:63-66 | one more step extends what has been performed by one fresh part |
| SplitterRun.ProducedKept | src/lib/data/set.py:58-94 | a produced part stays as produced while later steps only add folders and metadata files |
| SplitterRun.StoredKept | src/lib/data/set.py:88-89 | a stored part stays stored while later steps only add |
| SplitterRun.MadeFromKept | src/lib/data/set.py:71-79 | a part's links to its parent survive later steps |
| SplitterRun.ListsFoldersKept | src/lib/data/set.py:71 | the inputs' listings stay valid while later steps only add folders |
| SplitterRun.Tagged | src/splitter/abstract.py:43-46 | tagging sets `original` to the joined parent names, `params`, `splitter` and `part` and keeps every other key |
| SplitterRun.TaggedIsFinal | src/splitter/abstract.py:41 | a tagged part counts as already tagged at its position, so tagging twice changes nothing |
| SplitterRun.Tag | src/splitter/abstract.py:40-47 | every part not already tagged at its position gets its lineage recorded and saved; the loop fails exactly when some untagged part's metadata is not a mapping |
| SplitterRun.TagOne | src/splitter/abstract.py:41-47 | one iteration of the tagging loop, on one output |
| SplitterRun.MadeInOrder | src/splitter/anon.py:41-65 | a plan that makes every part from an input has the right shape and no reused part to check |
| SplitterRun.Split | src/splitter/abstract.py:51-52 | models the intended behaviour: each splitter's plan has its shape, reused parts are already tagged at their positions, and only `deanon` and `deanon_compare` touch metadata (their cache rewrites) |
| SplitterRun.SplitDeanon | src/splitter/deanon.py:53-102 | the `deanon` plan with its cache lookups has the deanon shape and its reused parts are tagged |
| SplitterRun.DeanonShape | src/splitter/deanon.py:63-66 | the reused parts are the ones the lookups found, tagged with their parts and pairwise different |
| SplitterRun.DeanonTags | src/splitter/deanon.py:112-133 | the parts the lookups found stay tagged after their `params` are rewritten, and are pairwise different |
| SplitterRun.DeanonPlanShape | src/splitter/deanon.py:63-66 | the deanon plan has four steps whose reused parts were found |
| SplitterRun.DeanonReusedTagged | src/splitter/deanon.py:66 | every reused part of the deanon plan is tagged at its output position |
| SplitterRun.TaggedOnce | src/splitter/abstract.py:41 | a part tagged at one position is not tagged at another |
| SplitterRun.ReparamedTagged | src/splitter/deanon.py:114 | rewriting `params` keeps a part tagged |
| SplitterRun.TrainPartTagged | src/splitter/deanon.py:111-118 | a part found by the lookup for a part number is tagged with that number |
| SplitterRun.TagYieldsOutput | src/splitter/abstract.py:40-47 | tagging a part in its pre-tag state yields the output the run promises |
| SplitterRun.Arrange | src/splitter/deanon.py:66 | the outputs are the made parts in the plan's output order |
| SplitterRun.Run | src/splitter/abstract.py:23-49 | models the intended behaviour: the wrong number of inputs raises `AttributeError` with nothing changed; otherwise the plan's parts, in output order, are fresh, stored, tagged at their positions, each holding the scanned index of its folder, each made part holding links to exactly the admitted files of its input, and no folder is lost |
| SplitterRun.TagParts | src/splitter/abstract.py:40-47 | the tagging loop never fails on the arranged parts and leaves each one tagged as the run promises |
| SplitterRun.Carry | src/splitter/abstract.py:29 | the plan carried out: distinct, stored parts in output order, each holding the scanned index of its folder, each made part linked to exactly the admitted files of its input |
| SplitterRun.ArrangedDistinct | src/splitter/abstract.py:40-47 | the arranged parts are distinct objects with distinct names, so tagging one never retags another |
| SplitterRun.Names | src/splitter/abstract.py:38 | the input names in order |
| SplitterRun.StepNamesDistinct | src/splitter/deanon.py:63-66 | two steps of a plan never yield the same name |
| Stages.Refused | src/anonymization/abstract.py:15 | a metadata document without `original` raises; otherwise the stage refuses exactly when `original` is `True` or `softlinked` is `True` |
| Stages.HardCopyAccepted | src/lib/exp/abstractanon.py:31 | a hard copy of a dataset, the kind an experiment makes before a stage rewrites it, is accepted |
| Stages.SoftCopyRefused | src/anonymization/abstract.py:15 | a soft-linked copy, whose rewrite would reach the parent's files through its links, is refused |
| Stages.VisitStep | src/anonymization/abstract.py:33-35 | the per-point loop goes one point further unless an earlier point raised, and a raising point stops it with its error |
| Stages.VisitRest | src/anonymization/abstract.py:33-35 | once a point raised, later points are not visited |
| Stages.PassKeepsFolder | src/anonymization/abstract.py:37-38 | the base class's per-point step rewrites nothing |
| Stages.VisitCompletes | src/anonymization/abstract.py:33-35 | a step that never raises visits every datapoint |
| Stages.RewriteAll | src/anonymization/abstract.py:33-35 | the folder becomes what the per-point loop makes of it and the first raised error is reported; a missing folder raises and changes nothing |
| Stages.WithoutOpt | src/lib/exp/abstractanon.py:18 | the query parameters are the configured ones without the key `opt` |
| Stages.ParamsFound | src/lib/exp/abstractanon.py:18 | saved parameters that extend the configured ones match them without `opt` |
| Stages.AnonTags | src/anonymization/abstract.py:43-48 | the saved metadata gains `anonymization`, `params`, `random` (0 unless the module is random) and `background` when one was added, and keeps every other key |
| Stages.AnonymizationFound | src/lib/exp/abstractanon.py:13-27 | an anonymized hard copy of a parent answers the later query for the same parent, module, parameters and background, so the stage is not run twice |
| Stages.QueryKeys | src/lib/exp/abstractanon.py:15-21 | the anonymization query names the parent, the module, the parameters without `opt`, and the background only when there is one |
| Stages.Anonymization.constructor | src/anonymization/abstract.py:9-13 | a new stage holds its module, configuration and dataset and no background |
| Stages.Anonymization.New | src/anonymization/abstract.py:9-19 | the target's metadata is checked before the configuration: a refused or malformed target raises; otherwise construction fails exactly as the module's validation does, and keeps the validated configuration |
| Stages.Anonymization.AddBg | src/anonymization/abstract.py:40-41 | the background is recorded |
| Stages.Anonymization.Run | src/anonymization/abstract.py:27-31 | every datapoint is rewritten in order; when none raised, the metadata is tagged and saved; a raised error leaves the metadata alone |
| Stages.Anonymization.SaveMeta | src/anonymization/abstract.py:43-49 | the in-memory metadata gets the anonymization tags and the metadata file holds it; folders are untouched |
| Stages.DeanonTags | src/deanonymization/abstract.py:40-43 | the saved metadata gains `deanonymization` and `params` and keeps every other key |
| Stages.DeanonymizationFound | src/lib/exp/deanon.py:22-30 | a de-anonymized hard copy of a parent answers the later query for the same parent, module and parameters |
| Stages.Deanonymization.constructor | src/deanonymization/abstract.py:7-12 | a new stage holds its module and configuration and no dataset yet |
| Stages.Deanonymization.New | src/deanonymization/abstract.py:7-12 | construction fails exactly as the module's validation does, and keeps the validated configuration |
| Stages.Deanonymization.Train | src/deanonymization/abstract.py:20-21 | training reports what the module's training reports |
| Stages.Deanonymization.Run | src/deanonymization/abstract.py:23-31 | the dataset is remembered, then a refused or malformed target raises before anything is rewritten; otherwise every datapoint is rewritten and, when none raised, the metadata is tagged and saved |
| Lifecycle.Construct | src/lib/inference.py:10-20 | construction fails with `validate_config`'s error, else with `init`'s; it succeeds exactly when both pass, keeping the validated configuration |
| Lifecycle.ValidateFirst | src/deanonymization/abstract.py:7-12 | when validation raises, `init` is never consulted |
| Lifecycle.BaseConstructs | src/deanonymization/abstract.py:14-18 | the base hooks keep the configuration and never raise |
| Runs.Prepared | src/lib/run.py:9-18 | every value has the placeholder `$ROUND` replaced by the round, and `cleanup` is added as `False` only when absent |
| Runs.PreparedWithoutPlaceholder | src/lib/run.py:10 | a configuration that never mentions `$ROUND` keeps all its values |
| Runs.ExperimentOf | src/lib/module_loader.py:83-89 | a missing `exp` raises `KeyError`; the experiment is found exactly for `anon`, `anon_clearselect` and `deanon`, each for its own name |
| Runs.Run.constructor | src/lib/run.py:9-18 | the run holds the prepared configuration, no roles, and the `save_result` flag |
| Runs.Run.Experiment | src/lib/run.py:21-23 | a found experiment was named by a string `exp`; a missing `exp` fails |
| ExperimentBase.LookupMeaning | src/lib/exp/abstract.py:14 | a role is found exactly when it is listed, and then with the dataset listed first under it |
| ExperimentBase.Assign | src/lib/exp/anon.py:46-47 | assigning a new role adds one entry; reassigning a role adds none |
| ExperimentBase.AssignLookup | src/lib/exp/anon.py:46-47 | after an assignment the role holds the new dataset and every other role what it held |
| ExperimentBase.AssignKeeps | src/lib/exp/deanon.py:8-16 | assignment keeps every role where it was, never lists a role twice, and puts a new role last |
| ExperimentBase.Named | src/lib/exp/abstract.py:34 | each role paired with its dataset's name, in role order |
| ExperimentBase.RoleDict | src/lib/exp/abstract.py:63 | the saved mapping has exactly the experiment's roles as keys |
| ExperimentBase.RoleDictValues | src/lib/exp/abstract.py:63 | each role maps to its dataset's name |
| ExperimentBase.StageOf | src/lib/exp/abstractanon.py:14-18 | a stage section is read as its `name` and `params`; a missing section or `name` is a `KeyError`, and malformed sections fail |
| ExperimentBase.Load | src/lib/module_loader.py:56-62 | a module loads exactly when it is registered under the trait and name, and otherwise raises `ImportError` naming the module path |
| ExperimentBase.RecognitionAsWritten | src/lib/exp/abstract.py:23-26 | as written, the recognition loader `get_recognition_by_name` does not exist, so every privacy evaluation raises `AttributeError` |
| ExperimentBase.RunEvaluation | src/lib/exp/abstract.py:17-48 | models the intended behaviour (the classification loader): a malformed section, an unregistered module or a failed construction raises as such; a success ran the module built from the section on `enroll` and `test`, after training it when `train_set` is configured, and reports its metrics |
| ExperimentBase.Prepare | src/lib/exp/abstract.py:26-31 | models the intended behaviour: the module is loaded, constructed from the section's parameters and trained when configured, with the errors of each step |
| ExperimentBase.Infer | src/lib/exp/abstract.py:33-35 | missing `enroll` or `test` roles raise `KeyError`; otherwise the run succeeds exactly when evaluation does, and the result set carries the run's context |
| ExperimentBase.AbsorbMeaning | src/lib/exp/abstract.py:57-59 | a key already present keeps its value; a new key gets the value of its first occurrence |
| ExperimentBase.MergedFirstWins | src/lib/exp/abstract.py:53-59 | merged metrics hold a key exactly when some metric reported it, with the value of the first report |
| ExperimentBase.OutputsMeaning | src/lib/exp/abstract.py:54-56 | every metric is loaded and run, in order, exactly when none fails |
| ExperimentBase.OutputsFirstError | src/lib/exp/abstract.py:54-56 | a failure is the error of the first metric that cannot be loaded or run |
| ExperimentBase.OutputsRest | src/lib/exp/abstract.py:54-56 | once a metric has failed, later ones are never loaded |
| ExperimentBase.RunMetrics | src/lib/exp/abstract.py:50-59 | the loop reports the first metric error, or the merged outputs where the first report of a key wins |
| ExperimentBase.MergeIn | src/lib/exp/abstract.py:57-59 | the inner loop adds exactly the keys not yet present |
| ExperimentBase.SaveMetrics | src/lib/exp/abstract.py:61-65 | the results file gains the record under the result set's id and keeps every other record |
| ExperimentBase.SavedMetricsFound | src/lib/result.py:140-173 | the saved record is found under its id, matches the experiment's configuration, and uses every dataset of the run |
| ExperimentBase.ListedData | src/lib/data/manager.py:13 | enumerating the metadata files lists the store as the dataset manager expects |
| ExperimentBase.Find | src/lib/data/manager.py:19-25 | a found dataset matches the query, none means nothing matches, and an error means some stored metadata is not a mapping |
| ExperimentBase.Cached | src/lib/exp/anon.py:38-45 | when every lookup hits, the found datasets are reused and nothing changes; otherwise some lookup missed and the stage's run decides the new store and the result |
| ExperimentBase.Anonymize | src/lib/exp/abstractanon.py:33-36 | a success means the copy was accepted and the module constructed; its files were rewritten and its metadata tagged and saved; only the copy's folder and metadata can change |
| ExperimentBase.RunAnonymization | src/lib/exp/abstractanon.py:29-41 | a hard copy under a fresh name is anonymized; a failure raises `RuntimeError`, or `KeyError` when `cleanup` is missing, and with `cleanup` true leaves the store as it was; a success holds the scanned index of the hard copy, the copy's files rewritten for the points of that index, and the tagged derived metadata |
| ExperimentBase.Unwound | src/lib/data/set.py:101-106 | deleting what was added under a fresh name restores the store |
| ExperimentBase.CopyParent | src/lib/exp/abstractanon.py:31 | `parent.copy()` makes a hard copy of every file under the fresh name with the derived metadata; it succeeds exactly when the parent's folder exists, every file can be read, the parent has a `trait` and the copy scans, and the returned dataset holds the scanned index of the copy |
| ExperimentBase.TryAnonymize | src/lib/exp/abstractanon.py:32-40 | a failure deletes the copy when `cleanup` is true and raises; a success leaves the copy rewritten and tagged |
| ExperimentBase.Cleanup | src/lib/exp/abstractanon.py:38 | `cleanup` is read only on failure; a missing key raises `KeyError` |
| ExperimentBase.AnonymizationWithParent | src/lib/exp/abstractanon.py:13-27 | a dataset that records this anonymization is reused with nothing changed; otherwise the query missed and a fresh anonymization runs; a module that tags what it runs leaves a result the same query finds |
| ExperimentBase.FoundAgain | src/lib/exp/abstractanon.py:15-22 | a findable module tags its copy so that the same lookup finds it next time |
| ExperimentBase.BgRate | src/lib/exp/abstractanon.py:8 | the background rate counts only when present and positive; a non-number raises `TypeError` |
| ExperimentBase.AnonymizationWithBg | src/lib/exp/abstractanon.py:43-60 | the background and evaluation parts are placed in `anonbg` and `eval`, all other roles kept, and the anonymized result answers the query for the evaluation part with that background |
| ExperimentBase.CachedPair | src/lib/exp/abstractanon.py:44-55 | both parts are reused only when both lookups hit; otherwise the split runs and its two parts are returned |
| ExperimentBase.PlaceSplit | src/lib/exp/abstractanon.py:57-58 | `eval` and `anonbg` get the two parts; every other role is kept |
| ExperimentBase.PlaceAnon | src/lib/exp/abstractanon.py:9-11 | `anon` gets the result; every other role is kept |
| ExperimentBase.AssignLookups | src/lib/exp/anon.py:46-47 | assignment changes only the assigned role |
| ExperimentBase.GetAnonymization | src/lib/exp/abstractanon.py:7-11 | a malformed background rate raises with nothing changed; without a background `orig` is anonymized into `anon`; with one the evaluation part is |
| ExperimentBase.AnonymizedFromOrig | src/lib/exp/abstractanon.py:11 | `orig` anonymized into the `anon` role |
| ExperimentBase.AnonymizedFromBg | src/lib/exp/abstractanon.py:9 | the evaluation part anonymized into the `anon` role, with the background recorded |
| ExperimentBase.PlaceAnonKeepsParts | src/lib/exp/abstractanon.py:9 | placing the anonymized dataset keeps the two parts of the background split |
| Experiments.OpenNamed | src/lib/exp/anon.py:9 | a missing configuration key raises `KeyError`; an opened dataset is the stored one the configuration names |
| Experiments.TraitOf | src/lib/exp/anon.py:10 | the trait is the metadata's `trait` string; a missing `trait` raises `KeyError` |
| Experiments.PlaceRole | src/lib/exp/anon.py:12 | the role gets the dataset; every other role is kept |
| Experiments.PlaceParts | src/lib/exp/anon.py:46-47 | `enroll` and `test` get the two parts; every other role is kept |
| Experiments.SelectorRunTags | src/selector/abstract.py:17-23 | a selector that saves the lineage `SelectorRun.Run` records is found again by the stage's lookup |
| Experiments.SelectedSet | src/lib/exp/anon.py:19-28 | a dataset recording this selection of the parent is reused with nothing changed; otherwise the lookup missed and the selector ran; a selector that records its lineage leaves a result the same lookup finds |
| Experiments.SplitterRunTags | src/splitter/abstract.py:38-47 | a splitter that saves, with each part, the configuration its construction normalised (not the one given) is found again by both of the stage's lookups, provided any `enroll_clear` is a boolean, 0 or 1 |
| Experiments.ConstructedMatches | src/splitter/abstract.py:10-13 | the configuration a splitter keeps after `validate_config` answers a lookup by the configuration it was given: every given key is still there and equal under Python's `==` |
| Experiments.NormalisedKept | src/splitter/anon.py:27-39 | each key `validate_config` may rewrite still equals, under Python's `==`, the value given |
| Experiments.RateKept | src/splitter/anon.py:34-39 | a given `rate` is kept as a float of the same value |
| Experiments.EnrollClearKept | src/splitter/intraid2to2.py:34-37 | a given `enroll_clear` is kept as `bool(enroll_clear)` |
| Experiments.DefaultKept | src/splitter/anon.py:28-32 | a given `enroll_anon`, `test_anon` or `parrot` is kept as given; the default only fills an absent flag |
| Experiments.RatesKept | src/splitter/interid1to3.py:26-32 | the two `rates` are kept as floats of the same values |
| Experiments.DeanonRatesKept | src/splitter/deanon.py:39-51 | `enroll_rate` and `train_rate` are kept as floats of the same values |
| Experiments.TrainRateKept | src/splitter/deanon_compare.py:8-13 | `train_rate` is kept as a float of the same value |
| Experiments.EnrollClearMisses | src/splitter/intraid2to2.py:37 | with `enroll_clear: 2` construction succeeds but stores `True`, and the lookup by the given parameters misses, since `True != 2` |
| Experiments.JoinPair | src/splitter/abstract.py:38 | two parents joined by `|` |
| Experiments.TaggedMatches | src/lib/exp/anon.py:32-37 | the lineage of part `i`, saved with a configuration that answers a lookup by the stage's parameters, answers the lookup of part `i` |
| Experiments.Splitting | src/lib/exp/anon.py:30-47 | both parts are reused only when both lookups hit, with nothing changed; otherwise the splitter ran; a splitter that tags its parts leaves results both lookups find |
| Experiments.Conclude | src/lib/exp/anon.py:15-17 | models the intended behaviour: without a `privacy` or `utility` section there are no metrics and the run fails; a success records the merged metrics with the configuration and the roles' datasets |
| Experiments.PlaceSelection | src/lib/exp/anon.py:12 | a missing `selector` section raises with nothing changed; otherwise only the role changes, and a lineage-recording selector leaves a result the selection lookup finds |
| Experiments.PlaceSplitting | src/lib/exp/anon.py:30-47 | a missing `splitter` section raises with nothing changed; otherwise only `enroll` and `test` change, and a tagging splitter leaves parts the split lookups find |
| Experiments.AnonKeeps | src/lib/exp/abstractanon.py:7-11 | anonymization keeps the roles `orig` and `full` |
| Experiments.SplitKeeps | src/lib/exp/anon.py:46-47 | placing the split keeps `orig`, `anon`, `eval` and `full` |
| Experiments.Start | src/lib/exp/anon.py:9-10 | the configured dataset is opened and its trait read; a missing `dataset` raises `KeyError` |
| Experiments.Anonymized | src/lib/exp/abstractanon.py:7-11 | the `anon` role is filled and `orig` and `full` are kept |
| Experiments.SparesSplit | src/lib/exp/abstractanon.py:62-64 | the background split never uses the name reserved for the anonymized copy |
| Experiments.RunAnon | src/lib/exp/anon.py:8-17 | models the intended behaviour: a missing `dataset` raises with nothing changed; a success fills `orig`, `anon`, `eval`, `enroll` and `test`, records the metrics, and leaves `eval` and the two parts findable by their lookups when the stages tag what they make |
| Experiments.AnonDownstream | src/lib/exp/anon.py:12-17 | after anonymization: selection, split and evaluation, keeping `orig` and `anon` |
| Experiments.SplitSource | src/lib/exp/anon_clearselect.py:32 | the split's first parent is `eval` when present, else `orig` |
| Experiments.RunClearselect | src/lib/exp/anon_clearselect.py:8-17 | models the intended behaviour: a missing `dataset` raises with nothing changed; a success fills `full`, `orig`, `anon`, `enroll` and `test`, records the metrics, and leaves the selection and split findable when the stages tag what they make |
| Experiments.ClearselectUpstream | src/lib/exp/anon_clearselect.py:9-11 | `orig` is selected from `full` and the reserved name stays free |
| Experiments.ClearselectDownstream | src/lib/exp/anon_clearselect.py:14-17 | the split of the split source and `anon`, then evaluation, keeping `full`, `orig` and `anon` |
| DeanonExperiment.Deanonymize | src/lib/exp/deanon.py:33-37 | an unknown module or a missing `attacker` fails with nothing changed; a success trains the module on `attacker` and `anon_attacker`, rewrites every datapoint of the copy with the module and records the module's lineage in its metadata, changing no other dataset |
| DeanonExperiment.TryDeanonymize | src/lib/exp/deanon.py:32-41 | any failure raises `RuntimeError` (or the `cleanup` lookup's `KeyError`) and, with `cleanup` set, deletes the copy's folder and metadata; a success is the one `Deanonymize` states |
| DeanonExperiment.RunDeanonymization | src/lib/exp/deanon.py:31-41 | the copy is a hard copy of the parent under the fresh name; a success is that copy with every datapoint de-anonymized and the lineage recorded; a failure with `cleanup` set leaves the disk as it was |
| DeanonExperiment.DeanonymizedSet | src/lib/exp/deanon.py:22-44 | a missing `deanonymization` section raises; a dataset recording this de-anonymization of the parent is reused with nothing changed; otherwise the lookup missed and a copy was made; a findable module's result is found by the same lookup |
| DeanonExperiment.DeanonFoundAgain | src/lib/exp/deanon.py:24-29 | a copy tagged by a findable module matches the lookup `get_deanonymized_set` makes for it |
| DeanonExperiment.RunAsWritten | src/lib/exp/deanon.py:8 | the run as written fails with `AttributeError` when no class defines `get_first_split`, and with `KeyError('orig')` when `orig` is missing |
| DeanonExperiment.AsWrittenNeverRuns | src/lib/exp/deanon.py:7-8 | with the methods the experiment classes define, the run as written always fails at its first line |
| DeanonExperiment.Prepared | src/lib/exp/deanon.py:8-13 | the roles up to the selection: the first split of `orig`, `train` is `attacker`, `select_train` is `anon_attacker`, each anonymized role comes from its parent and `select` from `anon` |
| DeanonExperiment.Split | src/lib/exp/deanon.py:8-9 | the three parts of the first split are placed, `train` is `attacker`, and `orig` is kept |
| DeanonExperiment.Attacked | src/lib/exp/deanon.py:10-11 | `anon_attacker` and `select_train` are the anonymized attacker set; the earlier roles are kept |
| DeanonExperiment.Chosen | src/lib/exp/deanon.py:12-13 | `anon` and `select` are placed; the earlier roles are kept |
| DeanonExperiment.Placed | src/lib/exp/deanon.py:14-16 | `deanon`, `enroll` and `test` are placed; the earlier roles are kept |
| DeanonExperiment.DeanonStage | src/lib/exp/deanon.py:14 | a success had a `deanonymization` section, and a findable module's result answers the stage's lookup |
| DeanonExperiment.RunDeanon | src/lib/exp/deanon.py:7-20 | models the intended behaviour: a missing `dataset` raises with nothing changed; a success fills every role the run names, `enroll` and `test` are the second split of `eval` and `deanon`, the metrics are recorded, and a findable module's `deanon` answers the lookup on `select` |
| Inference.AppendedStep | src/lib/inference.py:47-50 | one more key either stops the loop at its error or appends exactly its result |
| Inference.AppendedMeaning | src/lib/inference.py:47-50 | the loop succeeds exactly when no key raises, with one result per key in order; otherwise it stops at the first key that raises, keeping the results before it |
| Inference.NotImplementedAppendsNothing | src/lib/inference.py:52-53 | the base class's `classify_point` raises `NotImplementedError` at the first datapoint and nothing is appended |
| Inference.PairedMeaning | src/lib/inference.py:71-72 | comparing a key the new dataset lacks raises `KeyError`; otherwise it is the module's comparison |
| Inference.AppendAll | src/lib/inference.py:47-50 | the set gains exactly the loop's results, in order, its file gains their lines only when it saves, and the error is the loop's |
| Inference.AppendedRest | src/lib/inference.py:47-50 | once the loop has stopped, later keys change nothing |
| Inference.New | src/lib/inference.py:10-14 | a module is constructed exactly when validation and `init` pass, with the validated configuration and its kind |
| Inference.Classify | src/lib/inference.py:40-50 | a fresh result set under `results/` named by the stamp, holding the loop's results over the test dataset's datapoints, with the loop's error |
| Inference.NewSet | src/lib/inference.py:41 | a fresh, empty result set in `results/` named by the stamp, saving as asked |
| Inference.RunClassification | src/lib/inference.py:36-38 | a failing enrolment raises its error; otherwise the run succeeds exactly when no datapoint of the second dataset raises, returning a fresh set of their results |
| Inference.RunComparison | src/lib/inference.py:60-73 | the run succeeds exactly when every key of the original dataset compares, returning a fresh set of the results in key order; otherwise it raises the first error |
| Inference.MissingKeyRaises | src/lib/inference.py:71-72 | a key the new dataset lacks stops the comparison there or earlier, with `KeyError` for that key when it is the first failure |
| Results.Best | src/lib/result.py:17-21 | `None` exactly without candidates; otherwise the earliest candidate of least distance |
| Results.BestIsFirstMin | src/lib/result.py:20-21 | the first candidate after the stable sort by distance is the earliest one of least distance |
| Results.BestIsClosest | src/lib/result.py:17-21 | the best candidate is at least as close as every candidate |
| Results.SuccessIsTop1 | src/lib/result.py:23-33 | `is_success` holds exactly when `is_topn_success(1)` does |
| Results.TopnMonotone | src/lib/result.py:28-33 | widening a non-negative window never loses a hit |
| Results.TopnOfAll | src/lib/result.py:28-33 | a window as long as the candidate list is a membership test on the ids |
| Results.SameIds | src/lib/result.py:20 | reordering the candidates keeps the ids present |
| Results.QueriesAfterSort | src/lib/result.py:20-31 | the sort the queries leave behind is idempotent and changes no later best candidate, success or top-n answer |
| Results.Result.constructor | src/lib/result.py:9-12 | identity and picture id as given, no candidates |
| Results.Result.AddRecognized | src/lib/result.py:14-15 | exactly one candidate more, at the end |
| Results.Result.GetBestRecognized | src/lib/result.py:17-21 | returns the best candidate of the list before the call and leaves the list ranked by distance |
| Results.Result.IsSuccess | src/lib/result.py:23-26 | the answer is whether the best candidate has the probe's identity (false without candidates); the list is left ranked |
| Results.Result.IsTopnSuccess | src/lib/result.py:28-33 | the answer is whether the identity is among the first `n` ranked ids (false without candidates); the list is left ranked |
| Results.Result.ToSquashed | src/lib/result.py:35-52 | without a strategy the object itself; otherwise a fresh object holding the squashed record, or the `AttributeError` squashing raises |
| Results.Unique | src/lib/result.py:39-44 | the same items as the input, no more of them |
| Results.UniqueDistinct | src/lib/result.py:39-44 | each identity is listed once |
| Results.DistsOf | src/lib/result.py:40-43 | an identity has distances exactly when some candidate has it |
| Results.Minimum | src/lib/result.py:46 | `min`: a member no greater than any member |
| Results.StrategyOf | src/lib/result.py:45-50 | `min` and `mean` are the only strategies, each for its own name |
| Results.SquashKeys | src/lib/result.py:44-51 | one candidate per key, in order, with the key's aggregated distance |
| Results.Squash | src/lib/result.py:35-52 | an unknown strategy raises `AttributeError("unknown strat …")` exactly when there is a candidate to squash; otherwise identity and picture id are kept and the candidates are the squashed ones (none for an unknown strategy) |
| Results.SquashedOnePerId | src/lib/result.py:39-51 | squashing leaves exactly one candidate per distinct identity, and the same identities |
| Results.MinSquashKeepsClosest | src/lib/result.py:45-46 | a min-squash keeps each identity's closest distance |
| Results.SquashIdempotent | src/lib/result.py:35-52 | squashing twice with one strategy equals squashing once |
| Results.SquashOfDistinct | src/lib/result.py:35-52 | candidates with distinct identities squash to themselves |
| Results.CollectDists | src/lib/result.py:39-43 | the dictionary's keys are the identities in order of first appearance, each holding its distances in order |
| Results.AggregateBy | src/lib/result.py:45-50 | an unknown strategy raises `AttributeError`; otherwise the minimum or the mean of the distances |
| ResultSets.FieldsOf | src/lib/result.py:122 | one field per candidate, in order |
| ResultSets.PairsOf | src/lib/result.py:109 | one `role:name` pair per item, in order |
| ResultSets.MapOf | src/lib/result.py:105 | the mapping has exactly the roles the items name |
| ResultSets.ParseField | src/lib/result.py:99-100 | a bare id gets the default distance 0.0; more than two `|`-parts raise `TypeError`; the candidate's id is the first part |
| ResultSets.ParseFields | src/lib/result.py:96-100 | at most one candidate per field |
| ResultSets.ParsePairs | src/lib/result.py:89 | the pairs parse exactly when each splits in two at `:` |
| ResultSets.Positional | src/lib/result.py:91 | each name under its position, and nothing else |
| ResultSets.ParseLine | src/lib/result.py:83-101 | a non-context line with fewer than two parts raises `AttributeError("invalid syntax in results file")`; a result line has the line's identity and picture id and at most one candidate per further field |
| ResultSets.Loaded | src/lib/result.py:79-101 | at most one record per line |
| ResultSets.Apply | src/lib/result.py:84-101 | a result line appends its record; a context line appends none |
| ResultSets.LoadedStep | src/lib/result.py:82-101 | reading one more good line applies it to what was loaded |
| ResultSets.FieldRoundTrip | src/lib/result.py:99-122 | a written candidate field has no comma and reads back as the same candidate |
| ResultSets.FieldsRoundTrip | src/lib/result.py:96-122 | written candidate fields read back as the same candidates, in order |
| ResultSets.LineParts | src/lib/result.py:121-123 | a written result line splits into identity, picture id and its candidate fields (one empty field without candidates) |
| ResultSets.LineRoundTrip | src/lib/result.py:93-125 | a line written by `append_save` reads back as the same result |
| ResultSets.ConfigRoundTrip | src/lib/result.py:84-108 | a configuration line written by `save_context` reads back as the same configuration |
| ResultSets.DatasetParts | src/lib/result.py:109 | a written dataset line splits into its pairs, each pair into role and name |
| ResultSets.DatasetRoundTrip | src/lib/result.py:87-109 | a non-empty dataset line reads back as the mapping it was written from |
| ResultSets.EmptyDatasetsReload | src/lib/result.py:87-109 | an empty dataset mapping reads back as one positional empty name, not as an empty mapping |
| ResultSets.LoadAfterAppend | src/lib/result.py:79-125 | appending a written result line to a readable file adds exactly that result |
| ResultSets.NewSetId | src/lib/result.py:64-76 | a set created by `new` is identified by its stamp |
| ResultSets.LinesOf | src/lib/result.py:120-125 | one written line per result, in order |
| ResultSets.LoadAfterSave | src/lib/result.py:79-125 | saving results to a readable file adds exactly those results, in order |
| ResultSets.SaveCallAsWritten | src/lib/result.py:66-111 | `save()` as written always raises `TypeError`, because the `save` flag shadows the method |
| ResultSets.SquashAll | src/lib/result.py:129 | succeeds exactly when no result's squash raises, with one squashed result per result in order (the results themselves without a strategy) |
| ResultSets.Records | src/lib/result.py:67 | one record per result object, in order |
| ResultSets.ResultSet.constructor | src/lib/result.py:63-69 | the id is the file name's stem, the flags as given, no results and empty context |
| ResultSets.ResultSet.Open | src/lib/result.py:63-71 | a missing file gives an empty set; an existing one is loaded, and a bad line raises that error |
| ResultSets.ResultSet.New | src/lib/result.py:73-77 | a set in the folder named by the stamp with `.results.txt`, whose id is the stamp |
| ResultSets.ResultSet.Append | src/lib/result.py:115-118 | the result is kept in memory, and its line is written only when the set saves |
| ResultSets.ResultSet.AppendSave | src/lib/result.py:120-125 | exactly one line more at the end of the file, nothing else changes |
| ResultSets.ResultSet.SaveAll | src/lib/result.py:111-113 | models the intended behaviour: every result's line appended in order, nothing else changes |
| ResultSets.ResultSet.SaveContext | src/lib/result.py:103-109 | the context is replaced, and the two context lines are written only when the set saves |
| ResultSets.ResultSet.ToSquashed | src/lib/result.py:127-130 | a saving set on the file name plus `-squashed` (loaded if it exists), holding one squashed result per result; a failing load or squash raises |
| ResultSets.ResultSet.Load | src/lib/result.py:79-101 | succeeds exactly when every line reads, leaving the loaded results and context; otherwise raises the first bad line's error |
| ResultSets.ResultSet.LoadLine | src/lib/result.py:83-101 | one good line applied to the state |
| ResultSets.ResultSet.ReadResult | src/lib/result.py:95-100 | a fresh result with the line's identity, picture id and candidates |
| ResultSets.FieldsPrefix | src/lib/result.py:96-100 | every prefix of parseable fields parses |
| ResultSets.LoadedStops | src/lib/result.py:82-94 | once a prefix of the lines fails, the whole file fails with the same error |
| ResultsManager.NeitherAbove | src/lib/result.py:141 | two names neither of which is visited before the other are the same name |
| ResultsManager.FirstHitUnique | src/lib/result.py:142-144 | a lookup has at most one answer |
| ResultsManager.HitName | src/lib/result.py:142-144 | the name a lookup stops at passed or raised, and every greater name failed the test |
| ResultsManager.ScanIsFirstHit | src/lib/result.py:141-144 | visiting every name from the greatest down yields the lookup's one answer |
| ResultsManager.ReverseOrder | src/lib/result.py:134-138 | every stored name exactly once, from the greatest down |
| ResultsManager.FirstHitIn | src/lib/result.py:142-144 | the loop stops at the first name, in visiting order, whose record passes or raises |
| ResultsManager.MatchesConfig | src/lib/result.py:149 | a record matches exactly when its `config` equals the configuration; a record without `config` raises |
| ResultsManager.UsesDataset | src/lib/result.py:143 | a record passes exactly when its `datasets` mapping holds the dataset name; a record without `datasets` fails the test |
| ResultsManager.GetMatchingByUsedDataset | src/lib/result.py:140-144 | a document that is not a mapping raises; otherwise the greatest name whose record used the dataset, `None` when none did |
| ResultsManager.GetMatchingByConfig | src/lib/result.py:146-150 | a document that is not a mapping raises; otherwise the greatest name whose record holds the configuration, `None` when none does |
| ResultsManager.AnswerExcludesError | src/lib/result.py:155-164 | a configuration with an answer raises nothing |
| ResultsManager.MatchOne | src/lib/result.py:156-164 | one configuration's answer is the greatest matching name or `None`, or the error its lookup raises |
| ResultsManager.GetSetOfMatchingByConfigs | src/lib/result.py:152-165 | exactly one answer per requested configuration, in order, each the greatest matching name or `None`; an error comes from the first configuration whose lookup raises |
| ResultsManager.GetConfigByName | src/lib/result.py:171-173 | the stored record under the name; a missing name raises `KeyError` |
| MetricLevels.Rank | src/metric/idlevel.py:33-46 | the hit level is one of the windows 1, 3, 5, 10, or 11 for none; a probe without candidates hits none |
| MetricLevels.RankMeaning | src/metric/idlevel.py:33-46 | the level answers every query of the `is_success` / `is_topn_success(3|5|10)` chain: top-1 exactly at level 1, top-n exactly at levels up to n |
| MetricLevels.TallyOf | src/metric/idlevel.py:26-46 | the counters count every probe and are nested as the windows are |
| MetricLevels.TallyStep | src/metric/idlevel.py:32-46 | one more probe adds its level to the counters |
| MetricLevels.Hits | src/lib/result.py:28-33 | at most one hit per probe |
| MetricLevels.TallyCounts | src/metric/idlevel.py:32-46 | each counter is the number of probes whose window holds the true identity |
| MetricLevels.EmptyCountsOnlyN | src/metric/idlevel.py:32-46 | a probe without candidates counts toward `n` and toward no hit counter |
| MetricLevels.IdentitiesOf | src/metric/idlevel.py:17-18 | the probes' true identities, in order |
| MetricLevels.GroupOf | src/metric/idlevel.py:17-20 | an identity's group is empty exactly when no probe has it, and holds only its probes |
| MetricLevels.GroupStep | src/metric/idlevel.py:17-20 | one more probe joins its own identity's group only |
| MetricLevels.GroupByIdentity | src/metric/idlevel.py:15-20 | each true identity once, in order of first appearance, mapped to its probes in order |
| MetricLevels.MinSquashed | src/metric/idlevel.py:17 | one min-squashed probe per probe, with the same identities; the `min` strategy never raises |
| MetricLevels.MinSquashedOf | src/metric/idlevel.py:17 | a bad `-squashed` results file raises its load error; otherwise the min-squashed records of the set |
| Accuracy.ChanceFacts | src/metric/accuracy.py:53-68 | the chance level `min(k / ids, 1)` is positive, at most one, one exactly when the window covers every identity, growing with the window, and the top-1 credit is the top-1 chance |
| Accuracy.ShareBelowOne | src/metric/accuracy.py:53 | the credit `k / ids` is positive, and below one exactly when the window is narrower than the identities |
| Accuracy.ShareMonotone | src/metric/accuracy.py:53-56 | the credit grows with the window |
| Accuracy.CountersStep | src/metric/accuracy.py:36-56 | one more probe adds its credit to the counters |
| Accuracy.CountersNested | src/metric/accuracy.py:36-56 | the counters are nested as the windows are and none exceeds the number of probes |
| Accuracy.CountersOfHits | src/metric/accuracy.py:37-51 | without candidate-less probes each counter is the plain hit count of its window |
| Accuracy.EmptyProbeCredit | src/metric/accuracy.py:52-56 | a probe without candidates earns `1 / ids` top-1 credit and `min(10 / ids, 1)` top-10 credit |
| Accuracy.CreditOne | src/metric/accuracy.py:37-56 | the branches for one probe add exactly its credit |
| Accuracy.CreditAll | src/metric/accuracy.py:36-56 | the counting loop yields the counters of all probes |
| Accuracy.PerfectNormalizedAsWritten | src/metric/accuracy.py:69-74 | as written, perfect accuracy normalizes to less than one whenever the chance level is strictly between zero and one (50/99.5 for top-1 among two identities) |
| Accuracy.NormalizedScale | src/metric/accuracy.py:69-74 | models the intended behaviour: the normalization maps the chance level to zero and perfect accuracy to one, monotonically, and never above one |
| Accuracy.NormalizedAtFullChance | src/metric/accuracy.py:69-72 | a chance level of one normalizes every rate to zero |
| Accuracy.RateOf | src/metric/accuracy.py:73 | only the four windows have a rate |
| Accuracy.ChanceLevel | src/metric/accuracy.py:68-74 | one pass succeeds exactly for the four windows |
| Accuracy.AddChanceLevel | src/metric/accuracy.py:68-74 | the three stores of one pass leave what `ChanceLevel` gives: the window's chance level, and its rate normalized against it; a window without a rate is the key error |
| Accuracy.AddChanceLevels | src/metric/accuracy.py:67-74 | the loop over `[1, 3, 5, 10]` gives what the passes in order give |
| Accuracy.AccsOf | src/metric/accuracy.py:77-83 | one accuracy per identity |
| Accuracy.AccsBounded | src/metric/accuracy.py:77-83 | every identity's accuracy is a share, and their sum is at most the number of identities |
| Accuracy.AllHitsPerfect | src/metric/accuracy.py:77-83 | when every probe is a top-1 hit, the accuracies sum to the number of identities |
| Accuracy.CountHits | src/metric/accuracy.py:79-82 | the hits are the group's top-1 hits |
| Accuracy.IdAccuracies | src/metric/accuracy.py:77-83 | the accuracies of the identities, in order |
| Accuracy.ExportFacts | src/metric/accuracy.py:58-88 | the export holds the numbers of identities and probes, `hitrate` equal to `top1rate`, each window's counter over the number of probes, and the mean identity accuracy |
| Accuracy.ExportLevels | src/metric/accuracy.py:67-74 | exactly the four windows get a chance level and a rate normalized against it |
| Accuracy.LevelsOf | src/metric/accuracy.py:67-74 | the chance-level loop never fails on an export |
| Accuracy.ExportBounds | src/metric/accuracy.py:58-88 | every rate is a share, the rates are nested as the windows are, and the mean identity accuracy is a share |
| Accuracy.ExportWithoutEmptyProbes | src/metric/accuracy.py:37-64 | without candidate-less probes each rate is the share of probes whose window holds the true identity |
| Accuracy.ExportPerfect | src/metric/accuracy.py:58-88 | when every probe's best candidate is its identity, the top-1 rate and the mean identity accuracy are one, and so is the corrected normalized top-1 rate |
| Accuracy.Summarize | src/metric/accuracy.py:36-88 | the counting, chance-level and identity loops give the export `ExportOf` defines |
| Accuracy.AccuracyMetric.constructor | src/metric/abstract.py:5-7 | the metric holds the result set |
| Accuracy.AccuracyMetric.Calc | src/metric/accuracy.py:18-91 | models the intended behaviour (the corrected normalization): the set's results are left sorted by identity, as a permutation of what they were; a bad `-squashed` file raises; otherwise the export of the min-squashed results |
| Accuracy.AccuracyMetric.SortByIdentity | src/metric/accuracy.py:29 | the results sorted stably by identity, a permutation of what they were, nothing else changed |
| Accuracy.AccuracyMetric.Evaluate | src/metric/accuracy.py:31-91 | models the intended behaviour (the corrected normalization): a bad `-squashed` file raises; otherwise the export of the min-squashed results |
| IdLevel.PercentMonotone | src/metric/idlevel.py:48-51 | a larger count gives a larger, non-negative percentage |
| IdLevel.PercentAtMost100 | src/metric/idlevel.py:48-51 | a count up to the total is at most 100 percent |
| IdLevel.RowOf | src/metric/idlevel.py:48-53 | the row names its identity and its number of probes |
| IdLevel.RowRates | src/metric/idlevel.py:48-53 | every rate is a percentage, nested as the windows are |
| IdLevel.Table | src/metric/idlevel.py:15-53 | one row per true identity, in order of first appearance, each counting that identity's probes, at least one |
| IdLevel.RowsFor | src/metric/idlevel.py:25-53 | one row per identity, in order, each with its number of probes |
| IdLevel.GroupSizesStep | src/metric/idlevel.py:17-20 | one more probe adds one to its own identity's count only |
| IdLevel.GroupSizesCoverAll | src/metric/idlevel.py:15-26 | the rows' `n` add up to the number of probes |
| IdLevel.ProbeStep | src/metric/idlevel.py:18-19 | a probe adds its identity to the first-appearance list only when it is new |
| IdLevel.CountOne | src/metric/idlevel.py:33-46 | one probe of a level counted by the chain's branches |
| IdLevel.CountGroup | src/metric/idlevel.py:26-46 | the counters of one identity's probes |
| IdLevel.BuildTable | src/metric/idlevel.py:15-53 | the loops give the table `Table` defines |
| IdLevel.IdlevelMetric.constructor | src/metric/abstract.py:5-7 | the metric holds the result set, with no keys and no rows yet |
| IdLevel.IdlevelMetric.Calc | src/metric/idlevel.py:14-53 | a bad `-squashed` file raises and leaves the table; otherwise the header keys and the table of the min-squashed results |
| Utils.RecursiveReplace | src/lib/utils.py:8-17 | mappings keep their keys, lists their lengths, strings get every occurrence replaced, and any other value is returned as is |
| Utils.ReplaceAt | src/lib/utils.py:8-17 | along every path of keys and list positions the result has a value exactly where the input has one, and it is the replacement of the input's value there |
| Utils.ReplacedEverywhere | src/lib/utils.py:8-17 | every string nested at any depth has every occurrence of the needle replaced by `str(replace)`; every other leaf comes back as it was; no new path appears |
| Utils.ReplaceKeepsShape | src/lib/utils.py:8-17 | at every depth no key, no list length and no non-string leaf changes |
| Utils.ReplaceUnmentioned | src/lib/utils.py:8-17 | a value that never mentions the needle comes back unchanged |
| Utils.IntToString | src/lib/utils.py:16 | `str(n)`: a minus sign for negatives, then the decimal digits of the magnitude |
| RunConfigs.SingleConfigs | scripts/generate_run_configs.py:11-22 | the first run adds the fixed `privacy` stage to the base; except for `deanon`, a second run sets `rates.enroll` to 1.0 and adds the `utility` stage; non-mapping rates fail there |
| RunConfigs.BaseOf | scripts/generate_run_configs.py:27-39 | the base has `cleanup: True` and copies `dataset`, `rates`, `exp`, `seed` and, when present, `deanonymization` and `selector`; the first missing required key raises `KeyError` |
| RunConfigs.Anonymizations | scripts/generate_run_configs.py:41 | a missing key raises; a list yields its items, an empty mapping or string yields nothing, anything else fails |
| RunConfigs.Params | scripts/generate_run_configs.py:44 | the parameters are the anonymization's `params` mapping; a missing key raises `KeyError` |
| RunConfigs.LastListIndex | scripts/generate_run_configs.py:43-46 | the parameter chosen is the last list-valued one in iteration order, or none when no value is a list |
| RunConfigs.FindListParam | scripts/generate_run_configs.py:43-46 | the loop finds exactly the parameter `LastListIndex` names |
| RunConfigs.ExpandParam | scripts/generate_run_configs.py:48-51 | the runs are one snapshot per element of the list, and the anonymization is left holding the last element |
| RunConfigs.Expand | scripts/generate_run_configs.py:42-53 | the runs of one anonymization, and the anonymization as the loop leaves it |
| RunConfigs.GenerateConfigs | scripts/generate_run_configs.py:25-55 | the result is the run list `Runs` defines, and the caller's configuration is left with every list parameter set to its last element |
| RunConfigs.AnonymizationLoop | scripts/generate_run_configs.py:41-53 | the runs of every anonymization in order, and each anonymization as its expansion leaves it |
| RunConfigs.ExpandListSticks | scripts/generate_run_configs.py:49-51 | an error stops the expansion: a longer list fails as its prefix did |
| RunConfigs.GeneratedSticks | scripts/generate_run_configs.py:41-53 | an error in one anonymization stops the loop |
| RunConfigs.EveryRunFromBase | scripts/generate_run_configs.py:25-55 | every emitted entry is `{repeat: 1, config: c}` and `c` is the base plus one anonymization and one evaluation stage |
| RunConfigs.ExpandListRuns | scripts/generate_run_configs.py:48-51 | a list parameter yields its runs in element order, the anonymization of each block holding that element |
| RunConfigs.RunsCount | scripts/generate_run_configs.py:41-55 | one run per element of each anonymization's last list parameter (or one), times two, or times one for `deanon` |
| Pxlreloc.Validate | src/anonymization/face/pxlreloc.py:25-27 | validation passes exactly when `steps` is present, changing nothing; otherwise it raises |
| Pxlreloc.Steps | src/anonymization/face/pxlreloc.py:34 | an integer `steps` is the slice bound; anything but an integer or a boolean raises |
| Pxlreloc.GenOrder | src/anonymization/face/pxlreloc.py:41-64 | the loops build exactly the order `Order` defines |
| Pxlreloc.GenRow | src/anonymization/face/pxlreloc.py:44-48 | the single-row grid's cells, left to right |
| Pxlreloc.GenColumn | src/anonymization/face/pxlreloc.py:49-53 | the single-column grid's cells, top to bottom |
| Pxlreloc.GenRing | src/anonymization/face/pxlreloc.py:55-63 | the four loops build exactly the ring `Ring` defines |
| Pxlreloc.RingCells | src/anonymization/face/pxlreloc.py:55-63 | the ring holds exactly the cells in the grid's last two rows or last two columns |
| Pxlreloc.RingDistinct | src/anonymization/face/pxlreloc.py:55-63 | no cell is in the ring twice |
| Pxlreloc.OrderCells | src/anonymization/face/pxlreloc.py:41-64 | the order lists exactly the cells of the grid |
| Pxlreloc.OrderDistinct | src/anonymization/face/pxlreloc.py:41-64 | the order lists no cell twice |
| Pxlreloc.RingApart | src/anonymization/face/pxlreloc.py:64 | the ring and the inner grid's order share no cell |
| Pxlreloc.LineDistinct | src/anonymization/face/pxlreloc.py:44-53 | a one-row or one-column grid lists each cell once |
| Pxlreloc.OrderLength | src/anonymization/face/pxlreloc.py:41-64 | one entry per pixel |
| Pxlreloc.OrderDegenerate | src/anonymization/face/pxlreloc.py:42-53 | no cells when a side is 0; one row or one column in order |
| Pxlreloc.Rotated | src/anonymization/face/pxlreloc.py:34 | the rotation is a permutation of the order |
| Pxlreloc.RotatedAt | src/anonymization/face/pxlreloc.py:34 | position i of the rotation holds the entry the clamped bound further on, wrapping around |
| Pxlreloc.RotatedPastEnd | src/anonymization/face/pxlreloc.py:34 | a bound at or past the end leaves the order as it is |
| Pxlreloc.RelocationPermutes | src/anonymization/face/pxlreloc.py:33-37 | the target order lists each cell of the image once, so every pixel is written exactly once |
| Pxlreloc.Relocate | src/anonymization/face/pxlreloc.py:29-39 | a fresh image of the same size in which each target cell holds the pixel of its source cell |
| Pxlreloc.Scatter | src/anonymization/face/pxlreloc.py:36-37 | each target cell gets the pixel of the matching source cell |
| Text.DigitValue | src/anonymization/face/blockpermutate.py:28 | a decimal digit's value is below ten |
| Text.ParseInt | src/anonymization/face/blockpermutate.py:28 | `int(s)` succeeds exactly for an optional sign followed by at least one digit |
| Text.DecimalRoundTrip | src/anonymization/face/blockpermutate.py:28 | the digits `str` writes for a natural number read back as that number |
| Utils.ParseRoundTrip | src/anonymization/face/blockpermutate.py:28 | `int(str(n)) == n` for every integer |
| Values.ToInt | src/selector/mostpoints.py:28 | `int(v)`: integers stay, booleans become 0 or 1, floats truncate toward zero, strings are parsed, anything else raises |
| BlockPermutate.Validate | src/anonymization/face/blockpermutate.py:21-28 | `seed` then `blocksize` are required, each missing one raising its own error; success converts `blocksize` to an integer and changes nothing else |
| BlockPermutate.Blocks | src/anonymization/face/blockpermutate.py:36-37 | a positive block size gives `n // bs` whole blocks; a negative one gives none |
| BlockPermutate.BlockOfPixel | src/anonymization/face/blockpermutate.py:45-51 | a pixel lies in block `(i // bs, j // bs)` at offset `(i % bs, j % bs)` |
| BlockPermutate.SourceInGrid | src/anonymization/face/blockpermutate.py:42-51 | a pixel's block and the block popped for it both lie in the grid |
| BlockPermutate.CopyBlock | src/anonymization/face/blockpermutate.py:45-51 | the target block of the copy becomes the source block of the image, pixel for pixel; every other pixel is unchanged |
| BlockPermutate.BlockUnique | src/anonymization/face/blockpermutate.py:45-47 | a pixel lies in one block only |
| BlockPermutate.Advance | src/anonymization/face/blockpermutate.py:44-51 | copying the k-th visited block leaves the copy with k + 1 blocks done |
| BlockPermutate.AllDone | src/anonymization/face/blockpermutate.py:42-51 | after the last block every pixel holds the permuted image's pixel |
| BlockPermutate.Column | src/anonymization/face/blockpermutate.py:43-51 | one pass of the inner loop copies the column's blocks and pops as many entries |
| BlockPermutate.CopyOf | src/anonymization/face/blockpermutate.py:34 | a fresh image equal to the original |
| BlockPermutate.Permute | src/anonymization/face/blockpermutate.py:30-53 | with a positive block size, a fresh image of the same size that is the block permutation of the original |
| BlockPermutate.Anonymize | src/anonymization/face/blockpermutate.py:30-53 | models the intended behaviour (the block listing of `Targets`): a zero block size raises `ZeroDivisionError`; a negative one copies the image unchanged; a positive one permutes its blocks |
| BlockPermutate.TargetsVisitOrder | src/anonymization/face/blockpermutate.py:39-44 | models the intended behaviour: the listing's k-th entry is the k-th block the loops visit |
| BlockPermutate.TargetsCoverGrid | src/anonymization/face/blockpermutate.py:39 | models the intended behaviour: the listing holds every block of the grid, each once |
| BlockPermutate.AsWrittenAgrees | src/anonymization/face/blockpermutate.py:36-39 | the listing as written equals the intended one exactly when the block grid is square or empty |
| BlockPermutate.ListingsDiffer | src/anonymization/face/blockpermutate.py:39 | listing a non-square grid by the wrong side puts a different cell at place m |
| BlockPermutate.AsWrittenExample | src/anonymization/face/blockpermutate.py:36-51 | for a 2×1 image with one-pixel blocks the listing as written names a block outside the grid and misses one inside it |
| BlockPermutate.SourceInjective | src/anonymization/face/blockpermutate.py:40-44 | two different blocks are filled from two different blocks |
| DPSnow.Validate | src/anonymization/face/dpsnow.py:27-31 | `d` is required; a missing `seed` becomes `None`; nothing else changes |
| DPSnow.Budget | src/anonymization/face/dpsnow.py:37 | a non-number budget raises; otherwise `int((1 - d) * n)` cells, all of them for `d = 0`, none for `d = 1`, between 0 and n for `d` in [0, 1] |
| DPSnow.Snow | src/anonymization/face/dpsnow.py:37-38 | exactly the pixels among the first k shuffled cells turn grey; the rest are unchanged |
| DPSnow.Anonymize | src/anonymization/face/dpsnow.py:33-39 | the budget is computed first; if it raises the image is untouched, otherwise exactly the budgeted cells turn grey |
| DPSnow.SnowCount | src/anonymization/face/dpsnow.py:35-37 | the painted cells are distinct cells of the image, as many as the clamped budget |
| DPSnow.BudgetShare | src/anonymization/face/dpsnow.py:37 | with `d` in [0, 1] exactly `int((1 - d) * n)` distinct pixels turn grey; `d = 0` paints every cell, `d = 1` none |
| Fawkes.OptDefaults | src/anonymization/face/fawkes.py:38-45 | `batch_size` defaults to `"1"`, `gpu` to `None`, `max_img_batch` to 10000; given options are kept |
| Fawkes.Validate | src/anonymization/face/fawkes.py:31-48 | validation passes exactly when `opt` is a mapping holding `bin`; success fills the option defaults, `mode` `"mid"` and `no_align` `False`, keeping every given value |
| Fawkes.Shown | src/anonymization/face/fawkes.py:58-66 | `str(v)`: a string is itself, an integer its decimal digits |
| Fawkes.Command | src/anonymization/face/fawkes.py:50-67 | the line is built exactly when every value is there, `bin` and `mode` are strings and the batch size and GPU can be shown; it is `bin -d <folder> -m <mode> --batch-size <str(batch_size)> --format <ext> --separate_target`, then `--no-align` exactly when `no_align` is truthy and `-g <gpu>` exactly when a GPU is set; a `bin` or `mode` that is not a string raises `TypeError` |
| Fawkes.DefaultCommand | src/anonymization/face/fawkes.py:31-67 | with only `bin` configured, the defaults give `bin -d <folder> -m mid --batch-size 1 --format <ext> --separate_target` |
| Fawkes.RunFawkes | src/anonymization/face/fawkes.py:50-67 | a command line that cannot be built raises before the program runs; a failing program raises `RuntimeError("External command returned non-zero exit-code!")`; otherwise the result is what the program wrote |
| Fawkes.CloakFirst | src/anonymization/face/fawkes.py:101 | for a stem without dots, the first replacement turns `stem.ext` into `stem_cloaked.ext` |
| Fawkes.CloakSecond | src/anonymization/face/fawkes.py:101 | for a name with a single dot, the second replacement turns a `.jpg` at that dot into `.jpeg`, and changes nothing else |
| Fawkes.CloakedName | src/anonymization/face/fawkes.py:100-101 | for a stem and an extension without dots, the cloaked file of `stem.ext` is `stem_cloaked.ext`, with `jpg` written `jpeg` |
| Fawkes.Files | src/anonymization/face/fawkes.py:72-92 | one file per image, in order |
| Fawkes.CloakedNames | src/anonymization/face/fawkes.py:73-95 | each image's cloaked name, in order |
| Fawkes.MoveInMeaning | src/anonymization/face/fawkes.py:92-96 | when every cloaked file is there under distinct names, each image's file gets its cloaked content and nothing else in the dataset changes |
| Fawkes.MoveWithinMeaning | src/anonymization/face/fawkes.py:72-74 | when every cloaked file is there under distinct names, each image's file gets its cloaked content, the cloaked files are gone and nothing else changes |
| Fawkes.MoveInStops | src/anonymization/face/fawkes.py:92-96 | once a cloaked file is missing, the images after it change nothing |
| Fawkes.MoveWithinStops | src/anonymization/face/fawkes.py:72-74 | once a cloaked file is missing, the images after it change nothing |
| Fawkes.RunInPlace | src/anonymization/face/fawkes.py:70-74 | when fawkes raises no image is moved; otherwise the cloaked files it wrote into the dataset's folder are moved over their images in order |
| Fawkes.SingleRunCloaks | src/anonymization/face/fawkes.py:70-74 | when fawkes succeeds and writes every cloaked file under distinct names that are no image's, every image ends holding its cloaked version |
| Fawkes.Linked | src/anonymization/face/fawkes.py:91-97 | after the links: a round that completes removes the `batch` folder and changes only the dataset's folder besides; one that raises leaves the `batch` folder; a round that completes ran fawkes successfully on a non-empty batch |
| Fawkes.Round | src/anonymization/face/fawkes.py:83-97 | an existing `batch` folder raises `FileExistsError` and changes nothing; a round that raises after `os.mkdir` leaves the `batch` folder behind; a round that completes changes only the dataset's folder |
| Fawkes.RoundCloaks | src/anonymization/face/fawkes.py:83-97 | when fawkes succeeds and writes every cloaked file under distinct names, every image of the round ends holding its cloaked version and the `batch` folder is gone |
| Fawkes.Rounds | src/anonymization/face/fawkes.py:82-98 | the rounds in order; when none raises, only the dataset's folder has changed |
| Fawkes.Cloaking | src/anonymization/face/fawkes.py:69-98 | a `max_img_batch` that raises changes nothing; a float below the dataset's size raises `TypeError` at the first slice; a run that completes on a non-empty dataset had an integer limit or took the single run |
| Fawkes.MoveBack | src/anonymization/face/fawkes.py:92-96 | the loop moves the cloaked files out of the `batch` folder as `MoveIn` says |
| Fawkes.MoveAllWithin | src/anonymization/face/fawkes.py:72-74 | the loop moves the cloaked files within the dataset's folder as `MoveWithin` says |
| Fawkes.RunRound | src/anonymization/face/fawkes.py:83-97 | the folders and the error after one round on the disk are those `Round` defines, and no metadata changes |
| Fawkes.RunLinked | src/anonymization/face/fawkes.py:91-97 | the folders and the error after the linked part of a round are those `Linked` defines |
| Fawkes.Pass | src/anonymization/face/fawkes.py:82-98 | one pass of the loop on the disk: a non-empty round that did not raise leaves the rest of the rounds to do the same as all of them from `i` |
| Fawkes.MaxBatch | src/anonymization/face/fawkes.py:70 | a missing `max_img_batch` raises `KeyError`; any number is accepted with its numeric value, and a float is told apart from an integer or boolean; anything else raises `TypeError` |
| Fawkes.AnonymizeAll | src/anonymization/face/fawkes.py:69-98 | the folders and the error are those `Cloaking` defines, and no metadata changes |
| Fawkes.RoundsUnfold | src/anonymization/face/fawkes.py:82-98 | one pass of the loop: the round at `i`, then the later rounds unless it raised |
| Fawkes.Batched | src/anonymization/face/fawkes.py:79-98 | the loop leaves the folders and the error as the rounds in order do, and no metadata changes |
| DeepPrivacy.Checked | src/anonymization/face/deepprivacy.py:31-32 | the check passes exactly when `opt` holds `bin`; otherwise it raises |
| DeepPrivacy.ValidateAsWritten | src/anonymization/face/deepprivacy.py:30-38 | as written, a missing `batch_size` sets `max_img_batch` to 2000 instead, and `model` is added |
| DeepPrivacy.Validate | src/anonymization/face/deepprivacy.py:30-38 | models the intended behaviour: `opt.bin` is required, a missing `batch_size` becomes 2000, `model` defaults to `fdf128_retinanet256`, nothing else changes |
| DeepPrivacy.BatchSize | src/anonymization/face/deepprivacy.py:43-45 | a missing `batch_size` raises `KeyError`; an integer is used as is |
| DeepPrivacy.Command | src/anonymization/face/deepprivacy.py:65-75 | the command is the binary with `-m <model> -s <folder> -t <folder>`, all strings |
| DeepPrivacy.ValidatedRun | src/anonymization/face/deepprivacy.py:30-45 | models the intended behaviour: after validation a missing batch size is 2000 and the command names the configured or default model |
| DeepPrivacy.AsWrittenMissesBatchSize | src/anonymization/face/deepprivacy.py:34-43 | as written, a configuration without `batch_size` validates and then `anonymize_all` raises `KeyError('batch_size')` |
| DeepPrivacy.AsWrittenExample | src/anonymization/face/deepprivacy.py:24-43 | the smallest documented configuration shows it |
| Batches.BatchFolder | src/anonymization/face/deepprivacy.py:54 | the batch folder is not the dataset's folder |
| Batches.Links | src/anonymization/face/deepprivacy.py:57-60 | one link per file of the batch to that file of the dataset, and nothing else |
| DeepPrivacy.Overwrite | src/anonymization/face/deepprivacy.py:62-73 | each file of the batch the program wrote is replaced by its output; every other file is unchanged |
| DeepPrivacy.Round | src/anonymization/face/deepprivacy.py:50-63 | a batch of one changes nothing; a completed round overwrites the batch's files with the program's output and changes only the dataset's folder; a failed one leaves the batch folder of links behind |
| Batches.LinkAll | src/anonymization/face/deepprivacy.py:57-60 | the new batch folder holds a link for every file, and nothing else changes |
| DeepPrivacy.RunBatch | src/anonymization/face/deepprivacy.py:50-63 | the disk and the error are those `Round` defines |
| DeepPrivacy.Rounds | src/anonymization/face/deepprivacy.py:43-48 | when nothing raises only the dataset's folder changes |
| DeepPrivacy.Anonymization | src/anonymization/face/deepprivacy.py:40-48 | a missing or unusable batch size raises before anything changes |
| DeepPrivacy.RoundsUnfold | src/anonymization/face/deepprivacy.py:43-48 | one pass of the loop: the round at `i`, then the later rounds unless it raised |
| DeepPrivacy.AnonymizeAll | src/anonymization/face/deepprivacy.py:40-48 | the disk and the error are those `Anonymization` defines, and no metadata changes |
| DeepPrivacy.Untouched | src/anonymization/face/deepprivacy.py:51-53 | a file that only sits in batches of one is left as it was |
| DeepPrivacy.AllSkipped | src/anonymization/face/deepprivacy.py:51-53 | when every batch holds one image, the run changes nothing and raises nothing |
| DeepPrivacy.RoundEffect | src/anonymization/face/deepprivacy.py:50-63 | when the run raises nothing, each image of a batch of more than one holds what the program wrote for it |
| DeepPrivacy.BatchesPartition | src/anonymization/face/deepprivacy.py:43-46 | a positive size cuts the datapoints into disjoint batches of 1 to `size` that cover them in order |
| DeepPrivacy.UnitRounds | src/anonymization/face/deepprivacy.py:43-46 | a size of 1 makes every batch a single image |
| DeepPrivacy.SizeOneSkipsAll | src/anonymization/face/deepprivacy.py:43-53 | a batch size of 1 anonymizes nothing and raises nothing |
| DeepPrivacy.LoneLastSkipped | src/anonymization/face/deepprivacy.py:43-53 | a count one above a multiple of the size leaves the last image as it was |
| DeepPrivacy.PointAnonymized | src/anonymization/face/deepprivacy.py:40-63 | when the run raises nothing, each image in a batch of more than one holds what the program wrote for it |
| MotionData.Lookup | src/anonymization/motion/remove_parts.py:29 | `body_parts_to_marker[name]` gives a part's markers exactly when the mapping names that part, and raises `KeyError(name)` otherwise |
| MotionData.LookupUnique | src/anonymization/motion/sum_of_parts.py:26-34 | when the names are unique, looking up any part's name finds that part's markers |
| MotionData.Wrap | src/anonymization/motion/remove_parts.py:43 | the column that Python's `row[c]` reaches for an index in range: `c` itself, or `c + n` for a negative `c` |
| MotionData.Rows | src/anonymization/motion/motion_extraction.py:24-25 | row `i` of the list is pose `i` of the array, for every `i` |
| MotionData.Zeros | src/anonymization/motion/motion_extraction.py:27 | `np.zeros((n, w))` is `n` rows of `w` zeros |
| MotionData.AddSub | src/anonymization/motion/motion_extraction.py:25 | adding back what a subtraction took away gives the pose again, on either side |
| MotionData.ToArray | src/anonymization/motion/motion_extraction.py:29 | `np.array(rows)` is a fresh array of the same shape, holding exactly those rows |
| MotionExtraction.Validate | src/anonymization/motion/motion_extraction.py:17-20 | a missing `difference` becomes 1; every given option is kept, and nothing else is added |
| MotionExtraction.RestoreDifferences | src/anonymization/motion/motion_extraction.py:23-25 | the transform loses no information: from the first `d` poses and the differences every pose is recovered, for each `d ≥ 1` |
| MotionExtraction.DifferenceLoop | src/anonymization/motion/motion_extraction.py:23-25 | the loop builds row `i` as pose `i + d` minus pose `i`, for `i < len - d`; a negative `d` fails on `data[i + d]` with an index error |
| MotionExtraction.Anonymize | src/anonymization/motion/motion_extraction.py:22-31 | the result is a fresh array of the input's shape, holding the differences and then zero rows; a difference of `len(data)` or more, or a negative one, raises `IndexError` |
| RemoveParts.Validate | src/anonymization/motion/remove_parts.py:16-23 | a missing `invert` becomes `False`; every given option is kept, and nothing else is added |
| RemoveParts.Listed | src/anonymization/motion/remove_parts.py:27-29 | the collection succeeds exactly when every listed part is in the mapping; it then holds the listed parts' markers and no others |
| RemoveParts.ListedError | src/anonymization/motion/remove_parts.py:28-29 | a failed collection raises `KeyError` for the first listed part that the mapping lacks |
| RemoveParts.Unlisted | src/anonymization/motion/remove_parts.py:30-33 | inverted, the sequence holds exactly the markers of the parts that are not listed |
| RemoveParts.MarkerSequence | src/anonymization/motion/remove_parts.py:26-33 | inverted, the markers of every unlisted part, and this never raises; otherwise the listed parts' markers, with the listed collection's errors |
| RemoveParts.ModesCover | src/anonymization/motion/remove_parts.py:26-33 | with every listed part present, the two modes together cover exactly the mapping's markers |
| RemoveParts.ArrayIndex | src/anonymization/motion/remove_parts.py:35-39 | marker `m` gives columns `3m`, `3m+1`, `3m+2`, in marker order |
| RemoveParts.RemovedIdempotent | src/anonymization/motion/remove_parts.py:41-43 | removing twice gives the same pose as removing once |
| RemoveParts.RemovedColumns | src/anonymization/motion/remove_parts.py:41-43 | every column is either zero or kept, and a column that no index reaches is kept |
| RemoveParts.ZeroColumns | src/anonymization/motion/remove_parts.py:41-43 | each pose loses exactly the columns that the index reaches; an index out of range raises `IndexError` when there is at least one pose |
| RemoveParts.Anonymize | src/anonymization/motion/remove_parts.py:25-45 | a missing listed part raises `KeyError` before any pose changes; otherwise each pose has the chosen markers' columns zeroed in place |
| SumOfParts.MarkerMoved | src/anonymization/motion/sum_of_parts.py:20-24 | moving marker `m` adds each component of the vector to its own coordinate of `m` |
| SumOfParts.ShiftMisses | src/anonymization/motion/sum_of_parts.py:20-24 | a column that none of the markers reaches does not move |
| SumOfParts.MoveMarker | src/anonymization/motion/sum_of_parts.py:22-24 | one marker's three coordinates in one pose get the vector added; every other entry stays |
| SumOfParts.Translate | src/anonymization/motion/sum_of_parts.py:20-24 | every marker of the part is moved by the vector, so a marker listed twice moves twice; an out-of-range marker raises `IndexError` |
| SumOfParts.Failure | src/anonymization/motion/sum_of_parts.py:29-34 | any failure is an index error or a `KeyError` for one of the six part names |
| SumOfParts.FailureEarlier | src/anonymization/motion/sum_of_parts.py:29-34 | if the first `p` parts move without failure, so do any fewer |
| SumOfParts.FailureLater | src/anonymization/motion/sum_of_parts.py:29-34 | once a part fails, moving more parts fails in the same way |
| SumOfParts.Untouched | src/anonymization/motion/sum_of_parts.py:20-34 | a marker in none of the six parts keeps its coordinates |
| SumOfParts.MovePose | src/anonymization/motion/sum_of_parts.py:29-34 | the six translations of one pose add the sum of the vectors of every part that lists the marker |
| SumOfParts.Anonymize | src/anonymization/motion/sum_of_parts.py:19-36 | every pose is moved in place, with the shape unchanged; a failure is the same for every pose and does not happen on an empty recording |
| Trajectory.Validate | src/anonymization/motion/trajectory_feature_extraction.py:19-30 | `type` defaults to `"all"`, `window_size` to 1 and `invert` to `False`; every given option is kept, and nothing else is added |
| Trajectory.InvertSplits | src/anonymization/motion/trajectory_feature_extraction.py:42-45 | the inverted feature plus the plain one is the pose |
| Trajectory.EdgesOnLine | src/anonymization/motion/trajectory_feature_extraction.py:39-45 | on uniform straight motion, `"edges"` averages to the pose itself, so its inverted feature is zero |
| Trajectory.SumConstant | src/anonymization/motion/trajectory_feature_extraction.py:37 | summing `n` copies of a pose scales it by `n` |
| Trajectory.AllOnConstant | src/anonymization/motion/trajectory_feature_extraction.py:36-37 | for a body standing still, `"all"` averages to its pose |
| Trajectory.FeatureLoop | src/anonymization/motion/trajectory_feature_extraction.py:35-45 | the loop builds feature `j` around centre `j + ws`; an unknown type raises `UnboundLocalError` on `average` when the loop runs at all; under `"edges"` a negative window always raises `IndexError`, because Python's indexing lets the loop run until `data[i - window_size]` passes the end |
| Trajectory.EdgesWithoutWindow | src/anonymization/motion/trajectory_feature_extraction.py:39-45 | with `window_size` 0, `"edges"` averages each pose with itself: the features are the poses, or zero poses when inverted |
| Trajectory.FeaturesGrow | src/anonymization/motion/trajectory_feature_extraction.py:35-45 | each step of the loop appends exactly the feature of the next centre |
| Trajectory.Anonymize | src/anonymization/motion/trajectory_feature_extraction.py:32-51 | the result is a fresh array of the input's shape, holding the features and then `2·ws` zero rows; a recording of `2·ws` poses or fewer raises `IndexError`, as does a negative window under `"edges"`; an unknown type raises `UnboundLocalError` whenever the loop runs |
| TorchData.Reorder | src/lib/torch/data.py:44-46 | the i-th file of the shuffled list is the p[i]-th of the original |
| TorchData.ReorderMembers | src/lib/torch/data.py:44-46 | a shuffle keeps every file and adds none |
| TorchData.Zip | src/lib/torch/data.py:67-68 | the pairs are the two lists' files side by side |
| TorchData.ZipReorder | src/lib/torch/data.py:78-80 | shuffling both lists the same way shuffles the pairs, keeping each pair together |
| TorchData.ZipCut | src/lib/torch/data.py:73-76 | cutting both lists at one point cuts the pairs there |
| TorchData.TorchImageDataset.constructor | src/lib/torch/data.py:11-14 | the files as given, and their count as `len` |
| TorchData.TorchImageDataset.Split | src/lib/torch/data.py:28-33 | two fresh datasets: the files before `int(len * rate)` and the rest, which together are the original files |
| TorchData.TorchImageDataset.Shuffle | src/lib/torch/data.py:44-46 | the files reordered in place by the seeded shuffle, their count unchanged |
| TorchData.TorchImageDataset.Item | src/lib/torch/data.py:16-17 | an index in `-len .. len-1` gives the file at that position, counting negatives from the end; any other raises `IndexError` |
| TorchData.TorchImageDataset.FromSet | src/lib/torch/data.py:48-55 | an empty set raises `IndexError`; a first datapoint that is not an image raises `AttributeError`; otherwise one file per datapoint, in order |
| TorchData.TupleDataset.Pairs | src/lib/torch/data.py:67-68 | one pair per position |
| TorchData.TupleDataset.constructor | src/lib/torch/data.py:59-65 | the two sides as given, and their common length |
| TorchData.TupleDataset.Make | src/lib/torch/data.py:59-65 | lengths that differ raise `ValueError`; otherwise the pair of sides |
| TorchData.TupleDataset.Item | src/lib/torch/data.py:67-68 | the pair at the position, counting negatives from the end; any other index raises `IndexError` |
| TorchData.TupleDataset.Split | src/lib/torch/data.py:73-76 | both sides cut at the same point, so the two parts hold the pairs before and after it |
| TorchData.TupleDataset.Shuffle | src/lib/torch/data.py:78-80 | both sides reseeded alike, so the pairs are shuffled together; a dataset whose sides are one list is shuffled twice |
| FaceTorch.WithDefaults | src/deanonymization/face/torch.py:36-48 | every key given keeps its value |
| FaceTorch.DefaultsFilled | src/deanonymization/face/torch.py:36-48 | a missing optional key gets its default |
| FaceTorch.Validate | src/deanonymization/face/torch.py:29-51 | `epochs`, `train_rate`, `learning_rate` and `loss` are required, in that order, each missing one raising its own error; success fills the defaults and an `opt` with `memcache_imgs` |
| FaceTorch.ValidateIdempotent | src/deanonymization/face/torch.py:29-51 | a validated configuration validates again to itself |
| FaceTorch.LossOf | src/deanonymization/face/torch.py:163-182 | exactly `mse`, `mae`, `ssim` and `msssim` are losses, each under its own name; any other name raises `ValueError("unknown loss function …")` |
| FaceTorch.LossRoundTrip | src/deanonymization/face/torch.py:163-182 | every loss is found again under its own name |
| FaceTorch.FirstSame | src/deanonymization/face/torch.py:191-196 | the first entry with this name, suffix and configuration, none before it |
| FaceTorch.Without | src/deanonymization/face/torch.py:195 | the list without that entry, the others in order |
| FaceTorch.FirstLoadable | src/deanonymization/face/torch.py:132-141 | the first entry with this name, suffix `none`, an equal configuration and an existing file, none before it |
| FaceTorch.Registry.Load | src/deanonymization/face/torch.py:127-141 | a model loads exactly when a loadable entry exists, from the first one's file |
| FaceTorch.Registry.Save | src/deanonymization/face/torch.py:184-200 | the model's file is written; an earlier entry with the same key whose file is gone raises `FileNotFoundError`; otherwise that entry and its file are removed and the new entry appended |
| FaceTorch.SaveKeepsOne | src/deanonymization/face/torch.py:191-199 | saving keeps at most one entry per key, the new one last |
| FaceTorch.LoadAfterSave | src/deanonymization/face/torch.py:124-125 | after a save under suffix `none`, loading finds the model just saved |
| FaceTorch.Min | src/deanonymization/face/torch.py:111 | `min`: a member no greater than any member |
| FaceTorch.Patience | src/deanonymization/face/torch.py:111-116 | `last_update` is at most the epoch, and zero exactly after a new best |
| FaceTorch.Bests | src/deanonymization/face/torch.py:111-113 | exactly the new-best epochs so far, ascending |
| FaceTorch.Epochs | src/deanonymization/face/torch.py:77-119 | the loop saves after exactly the new-best epochs it ran, and ends early only at the first epoch that reaches the patience limit |
| FaceTorch.Epoch | src/deanonymization/face/torch.py:104-119 | one epoch extends the history, saves on a new best, counts patience otherwise, and stops exactly when the limit is reached |
| FaceTorch.EpochStep | src/deanonymization/face/torch.py:111-116 | the test `len == 1 or cost <= min(earlier) - 1e-05` is a new best, which resets patience; any other epoch adds one |
| FaceTorch.PatienceQuiet | src/deanonymization/face/torch.py:111-116 | the epochs counted by patience brought no new best |
| FaceTorch.StoppedQuiet | src/deanonymization/face/torch.py:117-119 | when training stops early, none of its last `early_stop` epochs was a new best |
| FaceTorch.BestsImprove | src/deanonymization/face/torch.py:111-113 | each saved model's cost is at least the tolerance below every earlier saved one |
| FaceTorch.FirstSaved | src/deanonymization/face/torch.py:111 | the first epoch is always saved |
| Batches.LaterRoundsEmpty | src/anonymization/face/deepprivacy.py:43-49 | with a size below 1 every round after the first is empty |
| Batches.RoundStep | src/anonymization/face/deepprivacy.py:43-49 | a round with a positive size takes the next `size` datapoints, or the rest |
| Batches.RoundsFlatten | src/anonymization/face/deepprivacy.py:43-49 | with a positive size the rounds joined in order are the datapoints |
| Batches.RoundsSizes | src/anonymization/face/deepprivacy.py:43-49 | with a positive size every round holds between one and `size` datapoints |
| Batches.RoundsCount | src/anonymization/face/deepprivacy.py:43-49 | with a positive size there are `ceil(n / size)` rounds |
| Batches.LastRound | src/anonymization/face/deepprivacy.py:43-49 | the last round starts at the last multiple of `size` below the count |
| Batches.LoneLast | src/anonymization/face/deepprivacy.py:43-49 | a count one above a multiple of the size leaves the last datapoint alone in its round |
| Batches.EndsEmpty | src/anonymization/face/deepprivacy.py:43-49 | with a size below 1 the rounds end on an empty one, at the latest the second |
| Chunking.ChunkSize | scripts/dataset/split.py:11 | `ceil(len / n)`: the least size whose `n` parts cover the list |
| Chunking.CeilDiv | scripts/dataset/split.py:11 | integer ceiling division, by its two bounds |
| Chunking.Chunks | scripts/dataset/split.py:9-16 | `n == 0` raises `ZeroDivisionError`; otherwise at most `n` consecutive non-empty parts of `ceil(len / n)` items, the last possibly shorter, which joined give the list |
| Chunking.Grow | scripts/dataset/split.py:13-15 | one more part keeps the loop's state |
| Chunking.FewerThanN | scripts/dataset/split.py:13 | the loop makes at most `n` parts |
| Chunking.EmptyGivesNothing | scripts/dataset/split.py:13 | an empty list gives no parts |
| Images.Coords | src/anonymization/face/dpsnow.py:35 | one cell per pixel of the grid |
| Images.CoordsIndex | src/anonymization/face/blockpermutate.py:39 | cell (y, x) sits at place `x * m + y` of the listing |
| Images.CoordsCells | src/anonymization/face/dpsnow.py:35 | the listing holds exactly the cells of the grid |
| Images.CoordsDistinct | src/anonymization/face/dpsnow.py:35 | no cell is listed twice |
| Images.ShuffledCoords | src/anonymization/face/dpsnow.py:35-36 | a shuffle of the listing holds every cell once |
| Attributes.AfterLoad | src/lib/data/identity.py:20-27 | after `load_attr` the attributes are always loaded, and an object already loaded is not read again |
| Attributes.DocOf | src/lib/data/identity.py:20-27 | the loaded document is what the file holds, or `{}` when there is no file |
| Attributes.GetAttr | src/lib/data/identity.py:13-18 | on a mapping, the attribute's value when set and none otherwise; a string or list holding the name passes `in` and then cannot be indexed by it, and any other document fails `in`: both raise `TypeError` |
| Attributes.SetAttr | src/lib/data/identity.py:31 | item assignment succeeds exactly on a mapping, setting the key and keeping every other key; otherwise `TypeError` |
| Attributes.AssignBatch | src/lib/data/identity.py:34-38 | the loop gives the dictionary update on a mapping; an empty batch leaves any document as it is; otherwise the first assignment raises `TypeError` |
| Attributes.Assign | src/lib/data/identity.py:34-38 | after the loop every given key has its new value, every other key keeps its old one, and no key is added beyond these |
| Attributes.AssignIsUpdate | src/lib/data/point.py:40-44 | the loop leaves exactly the dictionary update of the old attributes by the given ones |
| Attributes.SavedAttributeIsLoaded | src/lib/data/identity.py:13-42 | an attribute saved to the file is found by `__getattr__` with the saved value when the file is loaded afresh, also through a soft link |
| CheckDataset.Coord | scripts/face/check_dataset.py:13-24 | `bbox[key]` gives a number exactly when the box is a mapping that holds a number under that key |
| CheckDataset.FirstFailure | scripts/face/check_dataset.py:12-24 | no message comes back exactly when every test passes |
| CheckDataset.FirstFailureIsFirst | scripts/face/check_dataset.py:12-24 | the message that comes back belongs to a failing test, and every test before it passes |
| CheckDataset.CheckImageBbox | scripts/face/check_dataset.py:12-24 | a box with a missing or non-numeric coordinate raises; a result of no message means the box is complete |
| CheckDataset.BboxFirstFailure | scripts/face/check_dataset.py:12-24 | on a complete box the early-return chain gives exactly the first of the six tests that fails |
| CheckDataset.BboxPassesIffInside | scripts/face/check_dataset.py:12-24 | a complete box passes exactly when it lies inside the image, with positive height and width |
| CheckDataset.ImageReport | scripts/face/check_dataset.py:45-48 | one image prints one FAIL line for each of its two checks that fails; a raising box check raises |
| CheckDataset.ImageChecks | scripts/face/check_dataset.py:42-48 | the loop prints the images' lines in order and stops at the first exception |
| CheckDataset.ReportStops | scripts/face/check_dataset.py:42-48 | once an image raises, the later images print nothing |
| CheckDataset.ReportAppends | scripts/face/check_dataset.py:42-48 | with no exception, each image adds exactly its own lines |
| Cleanup.Tagged | data/cleanup.py:21-28 | the reason is the prefix and then the stage's name; a name that is not a string fails, as string concatenation does |
| Cleanup.DeleteSet | data/cleanup.py:12-33 | a missing `original` raises `KeyError`; an original is kept; a set is deleted exactly when no name marker protects it and no expensive stage produced it; the reason names the first lineage key present, in the order anonymization, deanonymization, splitter, selector |
| Cleanup.MarkerBeforeStage | data/cleanup.py:15-18 | a `webface` name keeps a set whatever stage produced it, since the name is checked before any lineage key |

## Left out

- Files, YAML and JSON: the data folder is a map from file name to content, and a metadata record is a value tree. Parsing and printing YAML is not modelled. Neither are file permissions, or the `time.sleep` that `Dataset.delete` waits.
- Randomness: `random.shuffle` after `random.seed` is a permutation passed in by the caller, and `uuid4` is a name passed in by the caller that the store does not hold yet. Which permutation a given seed produces is not modelled.
- The directory listing order of `os.listdir` is a parameter wherever a first hit depends on it.
- External programs (fawkes, DeepPrivacy, `exec_ext_cmd`) are parameters: what they write for a round, or their failure. Their command lines are modelled; their processes, output and exit codes beyond failure are not.
- The concrete evaluation, anonymization and de-anonymization modules are parameters. These are the per-point rewrite, `classify_point`, `compare_point`, `enroll` and the metrics' own computations. The module registry is a static map from names to kinds, and the reflection in `module_loader.py` is not modelled.
- Floating point: pixel and coordinate values, distances, rates and the motion data are exact reals. Rounding, `NaN` and overflow are not modelled.
- Image decoding, colour conversion and writing image files are not part of this model. The transforms work on in-memory arrays.
- Logging and printed output are not modelled, except for the FAIL lines of the dataset checker.
- Training and inference of the torch networks are not modelled. The validation cost of each epoch is a parameter, and saving the network's weights is a file write.
- `TorchImageDataset.__getitem__` and `update` decode and write images and are not modelled. The model's file lists are values, so a list shared with the caller and shuffled in place (also through a `TupleDataset` built on one dataset twice) is not captured.
- PyLib.Cut: computes `int(rate * n)` with exact real arithmetic, not as a float product. With rate 0.29 and 100 items Python cuts at 28 and the model at 29. Every splitter plan that cuts by a rate inherits this.
- Values.ToFloat: refuses strings, while Python's `float("0.5")` accepts a quoted number. A rate given as a YAML string is an error in the model and a number in Python.
- Accuracy.AccuracyMetric.Calc: rates and chance levels are exact reals, not rounded with `round(…, 3)`. The `id-conf` confidence interval (scipy's t-interval over the per-identity rates) is not modelled.
- Accuracy.AccuracyMetric.Evaluate: the same rounding and `id-conf` gaps as `Calc`.
- IdLevel.IdlevelMetric.Calc: each row holds exact reals where Python stores `str(round(x * 100, 2))`.
- ResultSets.ResultSet.AppendSave: the text form of a distance and of a configuration is a codec passed in by the caller. The load-after-save round trip is proved for any codec whose float and JSON forms read back what they wrote.
- ResultsManager.GetMatchingByConfig: compares configurations as values. Python compares `json.dumps` strings. It key-sorts only the stored records, and only mappings nested in mappings. A caller's configuration whose keys are in another order, or mappings inside lists, can therefore miss in Python where the model matches. That case is not captured.
- ResultsManager.GetSetOfMatchingByConfigs: key-sorts the caller's configurations as Python does, but mappings inside lists keep their key order in Python. Two such configurations that are equal as values but differ in that order miss in Python and match in the model.
- Chunking.Chunks: the number of parts is a natural number. A negative count from the command line is not modelled.
- RunConfigs.GenerateConfigs: the order in which Python iterates an anonymization's parameter keys is passed in as `orders`. What the caller's configuration holds after an exception in the middle of the loop is not modelled.
- Experiments.SplitterRunTags: requires that a given `enroll_clear` equals `bool(enroll_clear)` under Python's `==` (a boolean, 0 or 1). For any other value the stored `True` or `False` does not answer the lookup in Python either, so the stage re-splits on every run; Experiments.EnrollClearMisses proves the miss for `enroll_clear: 2`.
- Trajectory.Anonymize: for type `"all"` only, requires a window size of at least 1. With 0, Python averages an empty slice (`NaN`); with a negative size the slices count from the end and some centres again average an empty slice. Exact reals cannot express `NaN`. Under `"edges"` and for unknown types, every window size is modelled.
- DeepPrivacy.Anonymization: requires a positive batch size when there are datapoints. With a size of 0 or less, Python's `while` loop never ends.
- Fawkes.CloakedName: the closed form is stated for names without dots. Datapoint files `identity.point.ext` are handled through `FFilename` and the distinctness premises of `MoveInMeaning`.
- Fawkes.Shown: `str()` of a float or of a structured value is not modelled and is an error in the model.
- Selectors.SelectClassification: attribute values that are all lists are refused with `TypeError`. Python sorts such lists item by item whenever their items compare.
- Selectors.KeyValues: an identity whose attribute file holds a document that is not a mapping reads as having no value (`None`). Python's `__getattr__` raises `TypeError` there, as `Attributes.GetAttr` states; the selectors do not carry that error.
- Selectors.ZooTerms: reads the score attributes in the same way, so a non-mapping attribute file gives no value instead of `TypeError`.
- Selectors.SelectDatapointType: reads the datapoints' attributes in the same way, with the same gap.
- Text.ParseInt: refuses the surrounding whitespace and the digit-separating underscores that Python's `int()` accepts.
- SplitterRun.SplitDeanon: runs the cache lookups for the training parts and for the anonymized test part before any part is copied; the copies follow from the plan. `deanon.split` looks up the test part only after it has copied the training parts and the enroll part. With no exception the outcome is the same. When the test lookup or a copy raises, the model and Python stop with different parts already copied or re-tagged.
- Fawkes.CloakedNames, Fawkes.AnonymizeAll: the cloaked name is computed from the image's file name alone, while the source rewrites the whole path (the working directory, `data/<name>/` or `<folder>/batch/`); a directory on that path whose name holds `.<ext>` or `.jpg` would change the moved-from path too, and that case is not modelled.
- Fawkes.AnonymizeAll: the program sees the names of the images it is pointed at, not their content. The `batch` folder path is the dataset's folder name followed by `/batch`.
- Fawkes.MoveBack, Fawkes.MoveAllWithin: each `os.replace` of the loop is applied to working copies of the folders, which are written to the disk when the loop stops (after the last image, or at the first missing cloaked file). Nothing else touches the disk in between, so the final disk is the same.
- `check_image_onecolored` (numpy standard deviations) is a per-image result passed in by the caller. Only its message enters the report.
- The `__main__` blocks of `data/cleanup.py`, `scripts/dataset/split.py`, `scripts/face/check_dataset.py` and `scripts/generate_run_configs.py` are not modelled. These parse arguments, walk folders, delete and print.
- `metric/distance.py`, the image and signal transforms other than those named above, the float motion transforms, the privacy and utility modules and the plotting scripts are not part of this model. They are numerical code over numpy, scipy, torch and external libraries.
- Concurrency (`dpsamp`'s process pool) is not part of this model.

## Findings

| source | as written | input that shows it | evidently intended | confidence | as-written member | corrected member |
|---|---|---|---|---|---|---|
| src/lib/data/set.py:72-73 | `not only_ids or …` treats an empty list as "no filter", so an empty selection copies every file | `copy(only_points=[])` on a folder holding `a.1.jpg` copies `a.1.jpg`; a split at rate 0 or 1 and a selector that picks nothing hand one part the whole dataset | the defaults (`False`) mean no filter; an empty list copies no datapoint | high; not executed | Datasets.CopyFilesAsWritten, Datasets.EmptyListCopiesAllAsWritten, Datasets.EmptySelectionCopiesEverything | Datasets.CopyFilesExact, Datasets.EmptyIdsCopyNothing |
| src/lib/exp/abstract.py:26 | calls `ModuleLoader.get_recognition_by_name`, which `module_loader.py` does not define | any experiment configuration with a `privacy` section raises `AttributeError` before a module is loaded, since `run_evaluation` calls `run_recognition` for it | load through `get_classification_by_name` (src/lib/module_loader.py:34) | high; not executed | ExperimentBase.RecognitionAsWritten | ExperimentBase.RunEvaluation |
| src/lib/exp/deanon.py:8 | calls `get_first_split`, `get_anonymized_set`, `get_selected_set` and `get_second_split`, which no experiment class defines | every run of a `deanon` experiment raises `AttributeError` at its first statement | the de-anonymization pipeline built from the stages the anonymization experiments define | high; not executed | DeanonExperiment.RunAsWritten, DeanonExperiment.AsWrittenNeverRuns | DeanonExperiment.RunDeanon |
| src/metric/accuracy.py:69-74 | normalizes by `100 / (100 - cl)` although the rates are fractions in `[0, 1]` | perfect top-1 accuracy among 2 identities (chance 0.5) normalizes to 50 / 99.5 ≈ 0.503 | `(rate - cl) / (1 - cl)`, which maps perfect accuracy to 1 | medium; not executed | Accuracy.PerfectNormalizedAsWritten | Accuracy.NormalizedScale |
| src/anonymization/face/deepprivacy.py:34-35 | a missing `batch_size` sets `opt["max_img_batch"] = 2000` | `{"opt": {"bin": "deepprivacy"}}` validates, and `anonymize_all` then raises `KeyError('batch_size')` | default `opt["batch_size"]` to 2000 | high; not executed | DeepPrivacy.AsWrittenMissesBatchSize, DeepPrivacy.AsWrittenExample | DeepPrivacy.ValidatedRun |
| src/anonymization/face/blockpermutate.py:36-44 | `blocks_x` counts rows (`shape[0]`) but `x` indexes columns, and `blocks_y` the other way round | a 2×1 image with block size 1: the loops visit block (0, 1) to the right of the image and never block (1, 0), the lower pixel | the listing of every block of the grid, rows by `shape[0]` and columns by `shape[1]` | high; not executed | BlockPermutate.AsWrittenAgrees, BlockPermutate.AsWrittenExample | BlockPermutate.TargetsCoverGrid |
| src/lib/result.py:66,111 | `__init__` stores the flag `save` as an attribute, which hides the method `save()` | `ResultSet(filename).save()` raises `TypeError: 'bool' object is not callable` | append every result's line to the file | high; not executed | ResultSets.SaveCallAsWritten | ResultSets.ResultSet.SaveAll |
