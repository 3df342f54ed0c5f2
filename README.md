# Docker image fingerprints, modelled in Dafny

This project models the fingerprint bookkeeping of the Jenkins Docker Commons
plugin (`DockerFingerprints`). Jenkins keeps a fingerprint record per image,
keyed by the first 32 characters of the 64-character image ID. The plugin
attaches two kinds of facet to that record:

- a *run facet*, which collects the container records and builds that used the image;
- a *from facet*, which records that one image was built from another. It is written
  as a pair: the base image's record gets `inverse = false`, the derived image's
  record gets `inverse = true`.

Modules:

- `Wrappers` (`wrappers.dfy`): `Option`, `Result` and `Outcome`. They stand for the
  Java code's nullable returns and its `IllegalArgumentException`.
- `FingerprintModel` (`fingerprint_model.dfy`): builds, container records, facets and
  fingerprints as values. The fingerprint map is a class `FingerprintMap` whose
  `records` field the operations update in place. This module also holds the
  specification of the facet scan (`FirstOfKind`) and the facet count that the
  one-facet-per-kind invariant is stated with.
- `DockerFingerprints` (`docker_fingerprints.dfy`): `Trim`, `Of`, `Make`, the scan
  `FindFacet`, and `AddRunFacet`, `AddHalfFromFacet` and `AddFromFacet`. Each
  mutating method is proved to leave the map (and return the outcome) given by a
  specification function on values: `AfterAddRunFacet`, `AfterAddHalfFromFacet`
  or `AfterAddFromFacet`.
- `FingerprintProperties` (`fingerprint_properties.dfy`): lemmas about those
  specification functions. They cover reuse versus creation of facets, facet
  counts, the invariant that a record never holds two facets of one Docker kind
  (kept over any sequence of calls), and how the two lineage halves are written,
  including the one-sided result when the derived ID is malformed.

Modelling decisions:

- The fingerprint map is passed into every operation instead of being fetched from
  the Jenkins singleton.
- The clock reading is a parameter `now`. `addFromFacet` reads the clock once, and
  the model passes that one value to both halves.
- A record's facet collection is a `seq<Facet>`, and `facets.add` appends to it.
  Updating a facet in place (`runFacet.add(record)`, `addFor(run)`) is modelled as
  replacing the facet's value at its index in the collection.
- The bodies of the facets' `add`/`addFor` are not part of this model. The model
  logs every container record and run handed to them, in order. It makes no claim
  about whether the facets drop duplicates.
- Facets that other plugins attach (`OtherFacet`) can sit in the same collection.
  The scan skips them.

How the code behaves where a reader might expect otherwise:

- The scan takes the *first* matching facet in the collection's iteration order.
- The new facet is added to the in-memory collection before `BulkChange.commit`,
  and `abort` in the `finally` block discards nothing already added. The model
  therefore has no rollback.
- A record holds at most one `DockerFromFingerprintFacet`, whatever its direction.
  So when the base and derived IDs share their first 32 characters, the derived
  half reuses the facet the base half just created, and no inverse facet is
  written (`LineageSameKeyKeepsBaseSide`).

## Model

| member | source | states |
|---|---|---|
| `DockerFingerprints.Trim` | src/main/java/org/jenkinsci/plugins/docker/commons/fingerprint/DockerFingerprints.java:20-25 | succeeds exactly for IDs of 64 characters (counted as Unicode characters, see Left out) and then yields a 32-character prefix of the ID; any other length gives the IllegalArgumentException with its message |
| `DockerFingerprints.Of` | src/main/java/org/jenkinsci/plugins/docker/commons/fingerprint/DockerFingerprints.java:30-32 | fails exactly when the ID is not 64 characters; otherwise returns the record stored under the ID's 32-character prefix, or none if there is none, and creates nothing |
| `DockerFingerprints.GetOrCreate` | src/main/java/org/jenkinsci/plugins/docker/commons/fingerprint/DockerFingerprints.java:35 | afterwards the key is present, every existing record is unchanged, and a missing key gets a new empty `<docker-image>` record attributed to the run |
| `DockerFingerprints.Make` | src/main/java/org/jenkinsci/plugins/docker/commons/fingerprint/DockerFingerprints.java:34-36 | yields the trimmed key or the trim error; on error the map is unchanged, otherwise it is the get-or-create of that key |
| `FingerprintModel.FirstOfKind` | src/main/java/org/jenkinsci/plugins/docker/commons/fingerprint/DockerFingerprints.java:46-51 | a found index holds a facet of the kind and no earlier facet is of that kind; none found means no facet of the kind exists |
| `DockerFingerprints.FindFacet` | src/main/java/org/jenkinsci/plugins/docker/commons/fingerprint/DockerFingerprints.java:78-83 | the loop with `break` (the from-facet scan here, and equally the run-facet scan at lines 46-51 through `AddRunFacet`) returns exactly the first index whose facet passes the `instanceof` test, or none when no facet does |
| `DockerFingerprints.AfterAddRunFacet` | src/main/java/org/jenkinsci/plugins/docker/commons/fingerprint/DockerFingerprints.java:41-64 | fails, leaving the map untouched, exactly when the container's image ID is not 64 characters; otherwise only the record under the trimmed key changes, and that key is present afterwards |
| `DockerFingerprints.AddRunFacet` | src/main/java/org/jenkinsci/plugins/docker/commons/fingerprint/DockerFingerprints.java:41-64 | the map and outcome after the in-place update are those of `AfterAddRunFacet` |
| `DockerFingerprints.AfterAddHalfFromFacet` | src/main/java/org/jenkinsci/plugins/docker/commons/fingerprint/DockerFingerprints.java:74-95 | fails, leaving the map untouched, exactly when the ID is not 64 characters; otherwise only the record under the trimmed key changes, and that key is present afterwards |
| `DockerFingerprints.AddHalfFromFacet` | src/main/java/org/jenkinsci/plugins/docker/commons/fingerprint/DockerFingerprints.java:74-95 | the map and outcome after the in-place update are those of `AfterAddHalfFromFacet` |
| `DockerFingerprints.AfterAddFromFacet` | src/main/java/org/jenkinsci/plugins/docker/commons/fingerprint/DockerFingerprints.java:69-73 | fails exactly when either ID is not 64 characters; a bad base ID fails with its own error before anything is written |
| `DockerFingerprints.AddFromFacet` | src/main/java/org/jenkinsci/plugins/docker/commons/fingerprint/DockerFingerprints.java:69-73 | the map and outcome after both halves are those of `AfterAddFromFacet` |
| `FingerprintProperties.SameKeyIffSharedPrefix` | src/main/java/org/jenkinsci/plugins/docker/commons/fingerprint/DockerFingerprints.java:24 | two 64-character IDs get the same lookup key, and so address the same record, exactly when their first 32 characters agree |
| `FingerprintProperties.RunFacetReused` | src/main/java/org/jenkinsci/plugins/docker/commons/fingerprint/DockerFingerprints.java:45-59 | with a run facet present, the collection keeps its length, every other facet is untouched, and the first run facet keeps its timestamp and image ID and gains the record and the run |
| `FingerprintProperties.RunFacetCreated` | src/main/java/org/jenkinsci/plugins/docker/commons/fingerprint/DockerFingerprints.java:54-59 | with no run facet present, exactly one run facet is appended, carrying the full image ID, the given timestamp, the record and the run; afterwards the record holds exactly one run facet |
| `FingerprintProperties.RunFacetCounts` | src/main/java/org/jenkinsci/plugins/docker/commons/fingerprint/DockerFingerprints.java:46-57 | the number of run facets becomes 1 if it was 0 and otherwise stays the same; the number of from facets never changes |
| `FingerprintProperties.FromFacetReused` | src/main/java/org/jenkinsci/plugins/docker/commons/fingerprint/DockerFingerprints.java:77-90 | an existing from facet is reused whatever its other image ID, inverse flag and timestamp; it keeps all three and only gains the run, and nothing else changes |
| `FingerprintProperties.FromFacetCreated` | src/main/java/org/jenkinsci/plugins/docker/commons/fingerprint/DockerFingerprints.java:86-90 | with no from facet present, exactly one is appended, with exactly the given timestamp, image ID, other image ID, inverse flag and the run |
| `FingerprintProperties.FromFacetCounts` | src/main/java/org/jenkinsci/plugins/docker/commons/fingerprint/DockerFingerprints.java:78-89 | the number of from facets becomes 1 if it was 0 and otherwise stays the same; the number of run facets never changes |
| `FingerprintProperties.HalfFromFacetEndsWithRun` | src/main/java/org/jenkinsci/plugins/docker/commons/fingerprint/DockerFingerprints.java:86-90 | after one half, the first from facet of the record exists and its latest run is the given run |
| `FingerprintProperties.AddRunFacetKeepsWellFormed` | src/main/java/org/jenkinsci/plugins/docker/commons/fingerprint/DockerFingerprints.java:46-57 | if no record holds two facets of one Docker kind before `addRunFacet`, none does afterwards |
| `FingerprintProperties.AddHalfFromFacetKeepsWellFormed` | src/main/java/org/jenkinsci/plugins/docker/commons/fingerprint/DockerFingerprints.java:78-89 | the same for one lineage half |
| `FingerprintProperties.AddFromFacetKeepsWellFormed` | src/main/java/org/jenkinsci/plugins/docker/commons/fingerprint/DockerFingerprints.java:69-73 | the same for a whole lineage pair, whether it completes or fails midway |
| `FingerprintProperties.ReplayKeepsWellFormed` | src/main/java/org/jenkinsci/plugins/docker/commons/fingerprint/DockerFingerprints.java:41-95 | after any sequence of `addRunFacet`, `addHalfFromFacet` and `addFromFacet` calls, failing or not, every record still holds at most one run facet and at most one from facet |
| `FingerprintProperties.RunFacetWritten` | src/main/java/org/jenkinsci/plugins/docker/commons/fingerprint/DockerFingerprints.java:41-59 | a valid call succeeds, and the image's record then has a run facet whose latest `add` and `addFor` calls received the container record and the run |
| `FingerprintProperties.AddRunFacetLeavesOneRunFacet` | src/main/java/org/jenkinsci/plugins/docker/commons/fingerprint/DockerFingerprints.java:54-57 | on a well-formed map, a valid `addRunFacet` succeeds and leaves the image's record with exactly one run facet |
| `FingerprintProperties.LineagePairWritten` | src/main/java/org/jenkinsci/plugins/docker/commons/fingerprint/DockerFingerprints.java:69-73 | with both IDs valid the call succeeds, and both the base and the derived record hold a from facet whose latest run is the given run |
| `FingerprintProperties.LineagePairCreated` | src/main/java/org/jenkinsci/plugins/docker/commons/fingerprint/DockerFingerprints.java:69-73 | for distinct keys and no prior lineage, the base record's from facet is (now, base, derived, not inverse, [run]) and the derived record's is (now, derived, base, inverse, [run]), so both share one timestamp |
| `FingerprintProperties.LineageSameKeyKeepsBaseSide` | src/main/java/org/jenkinsci/plugins/docker/commons/fingerprint/DockerFingerprints.java:69-90 | when both IDs share a key, the record ends with a single non-inverse from facet whose `addFor` log lists the run twice (one call per half); no inverse facet is written |
| `FingerprintProperties.LineagePartialPair` | src/main/java/org/jenkinsci/plugins/docker/commons/fingerprint/DockerFingerprints.java:69-73 | a valid base ID with a malformed derived ID fails with the derived ID's error, after the base half was applied: the base record holds a from facet with the run, and the lineage is one-sided |

## Left out

- Jenkins' `getFingerprintMap()` singleton and its persistence: the map is an in-memory value held by a `FingerprintMap` object that callers pass in. `IOException`s from loading or saving records are not modelled.
- DockerFingerprints.Trim: lengths and prefixes are counted in Unicode characters, not in Java's UTF-16 code units, so an ID holding characters outside the Basic Multilingual Plane (or lone surrogates, which the model cannot write) is judged differently; IDs made only of ASCII characters, such as hex digests, are unaffected. `Of`, `Make` and the three facet-writing operations inherit this.
- The host map's own checks on keys and file names are not part of this model.
- `BulkChange`: it only defers saving to disk, and the in-memory changes happen before `commit` either way. So the model has no commit/abort step and no rollback.
- `System.currentTimeMillis()`: the timestamp is a parameter. Java's 64-bit `long` is modelled as an unbounded `int`, since no arithmetic is done on it.
- The internals of `Run`, `ContainerRecord`, `DockerRunFingerprintFacet` and `DockerFromFingerprintFacet` are not part of this model. This includes how `add`/`addFor` store evidence and whether they deduplicate it. So the idempotence of repeated `addRunFacet` calls cannot be stated. The facets' back-reference to their fingerprint is omitted too.
- Aliasing: the Java code reaches records and facets by reference. The model writes the changed value back into the map, so it does not capture other holders of the same reference.
- Concurrent writers racing on find-or-create are outside this sequential model.
