# Gaffer core handlers and codecs in Dafny

A Dafny model of four small pieces of the Gaffer graph database and proofs of
what they promise.

- **ExtractItems** (`extract_items.dfy`) models `ExtractItemsHandler`. The
  handler takes an outer iterable of inner iterables and a 0-based
  `selection`, and returns the selected element of every inner iterable, in
  outer order. A `List` is indexed directly. Any other iterable is scanned by
  an iterator that removes every element it passes. The model keeps both:
  - the pure `List.get` branch;
  - the destructive scan, as a class `ScanIterable` whose `Extract` method
    mutates its contents in a loop.
  The whole handler is proved against a specification function, `ExtractAll`
  or `Handle`, over a map from iterable objects to their contents. That map
  captures the removals and an iterable that appears twice in the input.
- **OrderedDate** (`ordered_date.dfy`) models the order-preserving `Date`
  serialiser as its test fixes it. The encoding is the marker byte 8 followed
  by the eight big-endian bytes of the millisecond value with its sign bit
  flipped, which is the same as adding 2^63. The proofs cover:
  - the round trip;
  - that the encoding is canonical;
  - that unsigned bytewise order equals time order;
  - the test's sample range, the epoch and the day-later check;
  - the three historic byte vectors;
  - `canHandle`.
- **ImportRddOfElements** (`import_rdd.dfy`) models
  `ImportRDDOfElementsHandler`. Its `apply` turns an element into 0, 1 or 2
  (key, value) tuples; `Apply` is a method building that buffer. The handler
  is the flatMap of `apply` over the input. The element converter is a pair
  of functions returning a result or a conversion exception.
- **DockerImageBuilding** (`docker_image_builder.dfy`) models
  `DockerImageBuilder`:
  - `getFiles` records the files it would copy. The path split reproduces
    Java's `String.split("/")`, which drops trailing empty strings.
  - `stringifyParameters` filters out null values and replaces double quotes.
  - `buildImage` assembles the build-arguments string, the tag and the build
    parameters.
  - A parser for the build-arguments string shows that the script name and
    parameters can be read back from it.

`wrappers.dfy` holds the `Option` and `Result` types shared by the modules.

Some calls are passed in as function parameters because their code is not
part of this model:
- the element converter;
- Gson's `toJson`;
- `Object.toString`;
- `URLEncoder.encode`.

## Model

| member | source | states |
|---|---|---|
| `ExtractItems.ScanIterable.Extract` | core/store/src/main/java/uk/gov/gchq/gaffer/store/operation/handler/ExtractItemsHandler.java:59-67 | the iterator loop: the result and the iterable's new contents are those of `ScanExtract` on the old contents (prefix removed, element at the front returned, or NoSuchElement) |
| `ExtractItems.ScanExtract` | core/store/src/main/java/uk/gov/gchq/gaffer/store/operation/handler/ExtractItemsHandler.java:59-67 | reference for the iterator branch: the iterable keeps the suffix left after removing min(selection, size) elements (none for selection <= 0); the item is the head of that suffix, or NoSuchElement when it is empty |
| `ExtractItems.ScanExtractInRange` | core/store/src/main/java/uk/gov/gchq/gaffer/store/operation/handler/ExtractItemsHandler.java:59-67 | for 0 <= selection < size the scan returns the element at `selection`, and the iterable keeps exactly the elements from `selection` on, in order |
| `ExtractItems.ScanExtractZero` | core/store/src/main/java/uk/gov/gchq/gaffer/store/operation/handler/ExtractItemsHandler.java:59-67 | selection 0 returns the first element and removes nothing |
| `ExtractItems.ScanExtractTooShort` | core/store/src/main/java/uk/gov/gchq/gaffer/store/operation/handler/ExtractItemsHandler.java:61-67 | an iterable with at most `selection` elements fails with NoSuchElement (no clamping), after all of its elements have been removed |
| `ExtractItems.ListExtract` | core/store/src/main/java/uk/gov/gchq/gaffer/store/operation/handler/ExtractItemsHandler.java:55-57 | `List.get`: succeeds iff 0 <= selection < size, then gives the element at that index, otherwise IndexOutOfBounds carrying the index and the size |
| `ExtractItems.ExtractOne` | core/store/src/main/java/uk/gov/gchq/gaffer/store/operation/handler/ExtractItemsHandler.java:54-68 | one `extract` call: a List (or null) inner leaves every iterable's contents unchanged; the set of iterables never changes |
| `ExtractItems.ExtractAll` | core/store/src/main/java/uk/gov/gchq/gaffer/store/operation/handler/ExtractItemsHandler.java:43-45 | the stream map over the outer input: on success exactly one item per inner iterable; the set of iterables never changes |
| `ExtractItems.FailureIsFinal` | core/store/src/main/java/uk/gov/gchq/gaffer/store/operation/handler/ExtractItemsHandler.java:43-45 | once the extraction of some inner fails, the run ends with that failure and the later inners are not touched |
| `ExtractItems.ExtractOneSucceedsIff` | core/store/src/main/java/uk/gov/gchq/gaffer/store/operation/handler/ExtractItemsHandler.java:54-67 | one extraction succeeds iff the inner is not null and has more than `selection` elements |
| `ExtractItems.ExtractAllSucceedsIff` | core/store/src/main/java/uk/gov/gchq/gaffer/store/operation/handler/ExtractItemsHandler.java:43-45 | for an input without repeated iterables the run succeeds iff every inner has more than `selection` elements |
| `ExtractItems.ExtractAllAfter` | core/store/src/main/java/uk/gov/gchq/gaffer/store/operation/handler/ExtractItemsHandler.java:61-65 | after a successful run every non-List iterable of the input has lost exactly its first `selection` elements and every other iterable is unchanged |
| `ExtractItems.ExtractAllItems` | core/store/src/main/java/uk/gov/gchq/gaffer/store/operation/handler/ExtractItemsHandler.java:43-45 | a successful run returns, in outer order, the element at index `selection` of each inner's original contents |
| `ExtractItems.NegativeSelection` | core/store/src/main/java/uk/gov/gchq/gaffer/store/operation/handler/ExtractItemsHandler.java:55-65 | a negative selection makes `List.get` fail but lets the scan return the first element without removing anything |
| `ExtractItems.ListScenario` | core/store/src/main/java/uk/gov/gchq/gaffer/store/operation/handler/ExtractItemsHandler.java:55-57 | two Lists [a,b,c] and [d,e,f] with selection 1 give [b,e] and stay unchanged |
| `ExtractItems.ScanScenario` | core/store/src/main/java/uk/gov/gchq/gaffer/store/operation/handler/ExtractItemsHandler.java:59-67 | two distinct non-List iterables [a,b,c] and [d,e,f] with selection 1 give [b,e] and are left holding [b,c] and [e,f] |
| `ExtractItems.Handle` | core/store/src/main/java/uk/gov/gchq/gaffer/store/operation/handler/ExtractItemsHandler.java:31-45 | a null operation fails with OperationNull and a null input with InputNull, both before any iterable changes; otherwise the run over the input |
| `ExtractItems.ExtractFrom` | core/store/src/main/java/uk/gov/gchq/gaffer/store/operation/handler/ExtractItemsHandler.java:54-68 | `extract` on live objects: its result and the new contents of all iterables are those of `ExtractOne` |
| `ExtractItems.ExtractEach` | core/store/src/main/java/uk/gov/gchq/gaffer/store/operation/handler/ExtractItemsHandler.java:43-45 | the loop over the live inner iterables agrees with `ExtractAll` on the contents before the call, result and final contents alike |
| `ExtractItems.DoOperation` | core/store/src/main/java/uk/gov/gchq/gaffer/store/operation/handler/ExtractItemsHandler.java:30-46 | `doOperation` on live objects agrees with `Handle`, result and final contents alike |
| `OrderedDate.Serialise` | core/serialisation/src/test/java/uk/gov/gchq/gaffer/serialisation/implementation/ordered/OrderedDateSerialiserTest.java:99-101 | the encoding is nine bytes: marker 8, then a payload whose first byte has the top bit set (0x80 and above) for non-negative times |
| `OrderedDate.Deserialise` | core/serialisation/src/test/java/uk/gov/gchq/gaffer/serialisation/implementation/ordered/OrderedDateSerialiserTest.java:36-50 | only nine-byte, marker-8 input decodes; a decoded value is a long and is non-negative iff the first payload byte is 0x80 or above; other lengths fail with WrongLength |
| `OrderedDate.Compare` | core/serialisation/src/test/java/uk/gov/gchq/gaffer/serialisation/implementation/ordered/OrderedDateSerialiserTest.java:62-67 | the bytewise order of keys: -1, 0 or 1, and 0 iff the arrays are equal |
| `OrderedDate.CompareIsNumericOrder` | core/serialisation/src/test/java/uk/gov/gchq/gaffer/serialisation/implementation/ordered/OrderedDateSerialiserTest.java:62-67 | on arrays of one length, bytewise order equals the numeric order of their big-endian values |
| `OrderedDate.RoundTrip` | core/serialisation/src/test/java/uk/gov/gchq/gaffer/serialisation/implementation/ordered/OrderedDateSerialiserTest.java:35-50 | deserialise(serialise(t)) == t for every time of the fixed layout |
| `OrderedDate.EncodingIsCanonical` | core/serialisation/src/test/java/uk/gov/gchq/gaffer/serialisation/implementation/ordered/OrderedDateSerialiserTest.java:96-103 | the only bytes that decode to such a time are its encoding, so serialise(deserialise(b)) == b |
| `OrderedDate.OrderPreserved` | core/serialisation/src/test/java/uk/gov/gchq/gaffer/serialisation/implementation/ordered/OrderedDateSerialiserTest.java:62-67 | for any two times, the bytewise comparison of their encodings is the sign of their difference (a < b iff encoding a sorts first) |
| `OrderedDate.SampleRangeRoundTrips` | core/serialisation/src/test/java/uk/gov/gchq/gaffer/serialisation/implementation/ordered/OrderedDateSerialiserTest.java:36-41 | every millisecond in [1000000, 1001000) round-trips |
| `OrderedDate.EpochRoundTrips` | core/serialisation/src/test/java/uk/gov/gchq/gaffer/serialisation/implementation/ordered/OrderedDateSerialiserTest.java:45-50 | time 0 round-trips |
| `OrderedDate.DayLaterSortsAfter` | core/serialisation/src/test/java/uk/gov/gchq/gaffer/serialisation/implementation/ordered/OrderedDateSerialiserTest.java:63-67 | the encoding of time 1 sorts strictly before the encoding of time 86400000 |
| `OrderedDate.FromSigned` | core/serialisation/src/test/java/uk/gov/gchq/gaffer/serialisation/implementation/ordered/OrderedDateSerialiserTest.java:99-101 | a Java signed byte literal read as the unsigned byte with the same value modulo 256 |
| `OrderedDate.EncodesAs` | core/serialisation/src/test/java/uk/gov/gchq/gaffer/serialisation/implementation/ordered/OrderedDateSerialiserTest.java:99-101 | marker 8 followed by the eight big-endian bytes of t + 2^63 (t with its sign bit flipped) is the encoding of t |
| `OrderedDate.HistoricVector1985` | core/serialisation/src/test/java/uk/gov/gchq/gaffer/serialisation/implementation/ordered/OrderedDateSerialiserTest.java:99 | time 60460074000000 serialises to {8, -128, 0, 54, -4, -11, 59, -34, -128} |
| `OrderedDate.HistoricVector2015` | core/serialisation/src/test/java/uk/gov/gchq/gaffer/serialisation/implementation/ordered/OrderedDateSerialiserTest.java:100 | time 61406234880000 serialises to {8, -128, 0, 55, -39, 64, -47, 40, 0} |
| `OrderedDate.HistoricVector1955` | core/serialisation/src/test/java/uk/gov/gchq/gaffer/serialisation/implementation/ordered/OrderedDateSerialiserTest.java:101 | time 59514676680000 serialises to {8, -128, 0, 54, 32, -41, 41, -107, 64} |
| `OrderedDate.CanHandle` | core/serialisation/src/test/java/uk/gov/gchq/gaffer/serialisation/implementation/ordered/OrderedDateSerialiserTest.java:52-60 | the serialiser accepts exactly the Date class (a predicate, proved about by `HandlesDateNotString`) |
| `OrderedDate.HandlesDateNotString` | core/serialisation/src/test/java/uk/gov/gchq/gaffer/serialisation/implementation/ordered/OrderedDateSerialiserTest.java:52-60 | `canHandle` is true for Date and false for String |
| `ImportRddOfElements.KeysOf` | library/spark/spark-accumulo-library/src/main/java/uk/gov/gchq/gaffer/sparkaccumulo/operation/handler/scalardd/ImportRDDOfElementsHandler.java:70-76 | the keys after the try block: the converted pair, or the empty pair (both keys null) when key conversion throws |
| `ImportRddOfElements.ValueOf` | library/spark/spark-accumulo-library/src/main/java/uk/gov/gchq/gaffer/sparkaccumulo/operation/handler/scalardd/ImportRDDOfElementsHandler.java:71-76 | the value after the try block is non-null iff both the key and the value conversions succeed, and is then the converted value |
| `ImportRddOfElements.Flatten` | library/spark/spark-accumulo-library/src/main/java/uk/gov/gchq/gaffer/sparkaccumulo/operation/handler/scalardd/ImportRDDOfElementsHandler.java:77-85 | reference for `apply`: one tuple per non-null key, the first key's first, every tuple carrying `ValueOf` |
| `ImportRddOfElements.Apply` | library/spark/spark-accumulo-library/src/main/java/uk/gov/gchq/gaffer/sparkaccumulo/operation/handler/scalardd/ImportRDDOfElementsHandler.java:68-86 | `apply` yields exactly `Flatten`: at most two tuples, all carrying the one value `ValueOf` gives |
| `ImportRddOfElements.KeyFailureDropsElement` | library/spark/spark-accumulo-library/src/main/java/uk/gov/gchq/gaffer/sparkaccumulo/operation/handler/scalardd/ImportRDDOfElementsHandler.java:70-76 | a key-conversion exception leaves the key pair empty: no tuple, and nothing propagates |
| `ImportRddOfElements.BothKeysInOrder` | library/spark/spark-accumulo-library/src/main/java/uk/gov/gchq/gaffer/sparkaccumulo/operation/handler/scalardd/ImportRDDOfElementsHandler.java:77-84 | with both keys present, the first key's tuple precedes the second's and both carry the same value |
| `ImportRddOfElements.NullKeySkipped` | library/spark/spark-accumulo-library/src/main/java/uk/gov/gchq/gaffer/sparkaccumulo/operation/handler/scalardd/ImportRDDOfElementsHandler.java:77-84 | a null key yields no tuple for its position, in all three null combinations |
| `ImportRddOfElements.ValueFailureKeepsKeys` | library/spark/spark-accumulo-library/src/main/java/uk/gov/gchq/gaffer/sparkaccumulo/operation/handler/scalardd/ImportRDDOfElementsHandler.java:73-79 | keys that converted are still emitted when the value conversion throws, one tuple per non-null key, each with a null value |
| `ImportRddOfElements.Imported` | library/spark/spark-accumulo-library/src/main/java/uk/gov/gchq/gaffer/sparkaccumulo/operation/handler/scalardd/ImportRDDOfElementsHandler.java:54 | the flatMap yields at most two tuples per element |
| `ImportRddOfElements.ImportedAppend` | library/spark/spark-accumulo-library/src/main/java/uk/gov/gchq/gaffer/sparkaccumulo/operation/handler/scalardd/ImportRDDOfElementsHandler.java:54 | the flatMap of a concatenated input is the concatenation of the flatMaps, so the tuples follow input order |
| `ImportRddOfElements.FailedElementSkipped` | library/spark/spark-accumulo-library/src/main/java/uk/gov/gchq/gaffer/sparkaccumulo/operation/handler/scalardd/ImportRDDOfElementsHandler.java:54 | an element whose keys fail to convert is left out and every other element still contributes, in order |
| `ImportRddOfElements.SingleKeyBatch` | library/spark/spark-accumulo-library/src/main/java/uk/gov/gchq/gaffer/sparkaccumulo/operation/handler/scalardd/ImportRDDOfElementsHandler.java:54 | a batch of single-key elements yields one tuple per element |
| `ImportRddOfElements.OneFailureInBatch` | library/spark/spark-accumulo-library/src/main/java/uk/gov/gchq/gaffer/sparkaccumulo/operation/handler/scalardd/ImportRDDOfElementsHandler.java:52-57 | N single-key elements of which exactly one fails import N - 1 tuples: the batch is neither aborted nor kept whole |
| `ImportRddOfElements.DoOperation` | library/spark/spark-accumulo-library/src/main/java/uk/gov/gchq/gaffer/sparkaccumulo/operation/handler/scalardd/ImportRDDOfElementsHandler.java:47-57 | the handler returns null and submits exactly the flatMap `Imported` of the input, with output path "outputPath" |
| `DockerImageBuilding.Pieces` | library/script-library/src/main/java/uk/gov/gchq/gaffer/script/operation/builder/DockerImageBuilder.java:109 | every '/'-separated piece of a string, empty ones included: at least one, and the last is non-empty when the string does not end in '/' |
| `DockerImageBuilding.JoinPieces` | library/script-library/src/main/java/uk/gov/gchq/gaffer/script/operation/builder/DockerImageBuilder.java:109 | joining the '/'-separated pieces of a path with '/' gives the path back |
| `DockerImageBuilding.DropTrailingEmpty` | library/script-library/src/main/java/uk/gov/gchq/gaffer/script/operation/builder/DockerImageBuilder.java:109 | the split result is a prefix of the pieces, ends in a non-empty piece, and only empty pieces were dropped |
| `DockerImageBuilding.JavaSplit` | library/script-library/src/main/java/uk/gov/gchq/gaffer/script/operation/builder/DockerImageBuilder.java:109 | `split("/")` pieces hold no '/' and are no longer than the path |
| `DockerImageBuilding.DockerfileCopy` | library/script-library/src/main/java/uk/gov/gchq/gaffer/script/operation/builder/DockerImageBuilder.java:104-112 | an empty path copies "Dockerfile" from "/.ScriptBin/default/"; every Dockerfile copy goes to the build directory |
| `DockerImageBuilding.SupportCopies` | library/script-library/src/main/java/uk/gov/gchq/gaffer/script/operation/builder/DockerImageBuilder.java:115-117 | DataInputStream.py, entrypoint.py and modules.txt, in that order, from "/.ScriptBin/" to the build directory |
| `DockerImageBuilding.CopyPlan` | library/script-library/src/main/java/uk/gov/gchq/gaffer/script/operation/builder/DockerImageBuilder.java:101-118 | every copy getFiles makes: fails exactly when the Dockerfile copy fails; otherwise four copies, the Dockerfile copy first and then the support copies |
| `DockerImageBuilding.PlanTargetsBuildDirectory` | library/script-library/src/main/java/uk/gov/gchq/gaffer/script/operation/builder/DockerImageBuilder.java:101-118 | every copy of the plan goes into the build directory |
| `DockerImageBuilding.DefaultPlan` | library/script-library/src/main/java/uk/gov/gchq/gaffer/script/operation/builder/DockerImageBuilder.java:102-117 | with an empty Dockerfile path, exactly the default Dockerfile then the three support files are copied |
| `DockerImageBuilding.PlanFailsIff` | library/script-library/src/main/java/uk/gov/gchq/gaffer/script/operation/builder/DockerImageBuilder.java:109-110 | `getFiles` throws (index -1 out of bounds) iff the Dockerfile path is non-empty and made of slashes only |
| `DockerImageBuilding.SplitPathRejoins` | library/script-library/src/main/java/uk/gov/gchq/gaffer/script/operation/builder/DockerImageBuilder.java:109-112 | for a path not ending in '/', the file name is its last segment (non-empty, no '/'), the location is empty or ends in '/', and location + name == path |
| `DockerImageBuilding.TrailingSlashMisreads` | library/script-library/src/main/java/uk/gov/gchq/gaffer/script/operation/builder/DockerImageBuilder.java:109-112 | for a path ending in '/' that holds another character, the split succeeds but location + name != path |
| `DockerImageBuilding.TrailingSlashShifts` | library/script-library/src/main/java/uk/gov/gchq/gaffer/script/operation/builder/DockerImageBuilder.java:109-112 | "dir/name/" reads file `name` from "dir/" followed by the first character of `name` |
| `DockerImageBuilding.SplitDirectoryPath` | library/script-library/src/main/java/uk/gov/gchq/gaffer/script/operation/builder/DockerImageBuilder.java:109 | "dir/name/" splits into [dir, name]: the trailing empty piece is dropped |
| `DockerImageBuilding.ReplaceQuotes` | library/script-library/src/main/java/uk/gov/gchq/gaffer/script/operation/builder/DockerImageBuilder.java:154 | same length, every '"' becomes '\'' and every other character is kept |
| `DockerImageBuilding.ReplaceQuotesRemovesQuotes` | library/script-library/src/main/java/uk/gov/gchq/gaffer/script/operation/builder/DockerImageBuilder.java:154 | no '"' is left, and replacing again changes nothing |
| `DockerImageBuilding.ReplaceQuotesKeepsQuoteFree` | library/script-library/src/main/java/uk/gov/gchq/gaffer/script/operation/builder/DockerImageBuilder.java:154 | a string without '"' is unchanged |
| `DockerImageBuilding.NonNullParameters` | library/script-library/src/main/java/uk/gov/gchq/gaffer/script/operation/builder/DockerImageBuilder.java:147-153 | the filtered map: a parameter is present iff its value is non-null, and then maps to its string form |
| `DockerImageBuilding.NonNullParametersKeys` | library/script-library/src/main/java/uk/gov/gchq/gaffer/script/operation/builder/DockerImageBuilder.java:147-153 | a parameter is kept iff its value is non-null, and then with its string form |
| `DockerImageBuilding.NonNullParametersStep` | library/script-library/src/main/java/uk/gov/gchq/gaffer/script/operation/builder/DockerImageBuilder.java:149-153 | visiting one more parameter adds it exactly when its value is non-null |
| `DockerImageBuilding.Stringified` | library/script-library/src/main/java/uk/gov/gchq/gaffer/script/operation/builder/DockerImageBuilder.java:144-157 | the parameters string: " " for a null map, otherwise the JSON of the filtered map with quotes replaced; never contains '"' |
| `DockerImageBuilding.BuildArgsText` | library/script-library/src/main/java/uk/gov/gchq/gaffer/script/operation/builder/DockerImageBuilder.java:63-66 | the build-arguments text: it starts with `{"scriptName":"` and the name, and ends with the name and `Modules"}` |
| `DockerImageBuilding.ParseBuildArgsRoundTrip` | library/script-library/src/main/java/uk/gov/gchq/gaffer/script/operation/builder/DockerImageBuilder.java:63-66 | a quote-free name and parameters string are read back from the build arguments |
| `DockerImageBuilding.ParseBuildArgsSound` | library/script-library/src/main/java/uk/gov/gchq/gaffer/script/operation/builder/DockerImageBuilder.java:63-66 | whatever is read back from a text is quote-free and the text is exactly the build arguments of it |
| `DockerImageBuilding.AppendedBuildArgs` | library/script-library/src/main/java/uk/gov/gchq/gaffer/script/operation/builder/DockerImageBuilder.java:63-66 | the six appends produce {"scriptName":"<name>","scriptParameters":"<params>","modulesName":"<name>Modules"} |
| `DockerImageBuilding.DockerImageBuilder.CreateFile` | library/script-library/src/main/java/uk/gov/gchq/gaffer/script/operation/builder/DockerImageBuilder.java:127-136 | one copy is recorded, after the earlier ones |
| `DockerImageBuilding.DockerImageBuilder.GetFiles` | library/script-library/src/main/java/uk/gov/gchq/gaffer/script/operation/builder/DockerImageBuilder.java:101-118 | the recorded copies grow by exactly the copy plan, Dockerfile first; on an all-slash path the exception is returned and nothing is copied |
| `DockerImageBuilding.DockerImageBuilder.CopyDockerfile` | library/script-library/src/main/java/uk/gov/gchq/gaffer/script/operation/builder/DockerImageBuilder.java:103-113 | the recorded copies grow by exactly the Dockerfile copy; on an all-slash path the exception is returned and nothing is copied |
| `DockerImageBuilding.DockerImageBuilder.CopySupportFiles` | library/script-library/src/main/java/uk/gov/gchq/gaffer/script/operation/builder/DockerImageBuilder.java:114-117 | the loop records exactly the three support-file copies, in order |
| `DockerImageBuilding.DockerImageBuilder.StringifyParameters` | library/script-library/src/main/java/uk/gov/gchq/gaffer/script/operation/builder/DockerImageBuilder.java:144-157 | a null map gives " "; otherwise the JSON of the non-null parameters with '"' replaced; never holds a '"' |
| `DockerImageBuilding.DockerImageBuilder.BuildImage` | library/script-library/src/main/java/uk/gov/gchq/gaffer/script/operation/builder/DockerImageBuilder.java:54-93 | build arguments as above, URL-encoded under "buildargs"; context path + "/", tag "scriptoperation:" + name, file "Dockerfile"; a quote-free name is read back from the arguments |

## Left out

- OrderedDate.Serialise: only times in [0, 0x7F00_0000_0000_0000) are modelled. Negative times, and larger ones that the underlying lexicoder writes with fewer bytes and another marker, are not fixed by any test vector.
- OrderedDate.Deserialise: decodes only the nine-byte, marker-8 form. Other markers, which encode negative or very large times, are reported as `UnknownMarker`.
- OrderedDate: the serialiser's own source is not part of this model. The byte layout is taken from the historic vectors at OrderedDateSerialiserTest.java lines 99-101.
- OrderedDate historic vectors: the test builds these dates with the deprecated, time-zone-dependent `Date(year, month, …)` constructor. The millisecond values come from the byte arrays, not from calendar fields.
- OrderedDate: the test's `compare` helper (lines 80-89) compares signed bytes over `first.length` only. It is not a faithful key order, so `Compare` is unsigned lexicographic order, as the backing store sorts keys.
- OrderedDate: `checkMultipleDatesOrderPreserved` (lines 69-78) never runs its loop body, because `time > 10L` is false at the start, so it asserts nothing. `OrderPreserved` states the general property instead.
- ExtractItems: an `Iterator.remove()` that throws `UnsupportedOperationException` is not modelled. Every non-List iterable is treated as removable.
- ExtractItems: the Java stream is lazy, but an exception in `extract` aborts `collect`. The model runs the extractions in order and stops at the first failure, so it does not model partial results.
- ExtractItems.ExtractAllSucceedsIff: stated only for inputs in which no non-List iterable occurs twice; `ExtractAll` and `DoOperation` themselves handle repeated iterables.
- ExtractItems.ExtractAllAfter: stated only for inputs in which no non-List iterable occurs twice; `ExtractAll` and `DoOperation` themselves handle repeated iterables.
- ExtractItems.ExtractAllItems: stated only for inputs in which no non-List iterable occurs twice; `ExtractAll` and `DoOperation` themselves handle repeated iterables.
- ImportRddOfElements: Spark's RDD distribution, the Accumulo `Key` and `Value` types, and `store.execute` of the import sub-operation are not modelled. `DoOperation` returns the sub-operation it would submit.
- ImportRddOfElements: only `AccumuloElementConversionException` is caught. Other exceptions, and a converter that returns a null key pair, are not modelled.
- ImportRddOfElements: the converter's internals are not part of this model.
- DockerImageBuilding: file contents, stream I/O and the `IOException` that `createFile` catches are not modelled. A copy is recorded whether or not it would succeed.
- DockerImageBuilding: the Docker client call, the returned image and the `null` returned after a Docker exception are not modelled. `BuildImage` returns the request it would send.
- DockerImageBuilding: Gson's JSON text and `HashMap` iteration order are a function parameter. Only null filtering and quote replacement are modelled.
- DockerImageBuilding: `UnsupportedEncodingException` from URL encoding is not modelled, since UTF-8 is always supported.
- DockerImageBuilding: a null `dockerfilePath` (a `NullPointerException` at `dockerfilePath.equals("")`, line 104) is not modelled. A null script name needs no separate case: `StringBuilder.append` and string concatenation render it as the text "null", so it behaves exactly like the name "null" (build arguments `{"scriptName":"null",…,"modulesName":"nullModules"}` and tag "scriptoperation:null"), which the model covers.
