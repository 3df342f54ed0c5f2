/**
 * The Docker fingerprint entry points: key derivation from an image ID, lookup
 * and get-or-create of the image's fingerprint, and find-or-create of the Docker
 * run facet and the Docker "from" (lineage) facet inside it.
 *
 * The fingerprint map is passed in explicitly instead of being reached through
 * the Jenkins singleton, and the clock is a parameter. Each mutating operation
 * is a method proved equal to a specification function on map values, whose
 * properties are proved in module FingerprintProperties.
 */
module DockerFingerprints {
  import opened Wrappers
  import opened FingerprintModel

  const FullIdLength: nat := 64
  const KeyLength: nat := 32

  /** The file name under which the map creates Docker image fingerprints. */
  const DockerImageFileName: string := "<docker-image>"

  function BadImageId(imageId: string): Error {
    IllegalArgument("Expecting 64char full image ID, but got " + imageId)
  }

  /** The lookup key of a full image ID: its first 32 characters; any other length is refused. */
  function Trim(imageId: string): (r: Result<string>)
    ensures r.Ok? <==> |imageId| == FullIdLength
    ensures r.Ok? ==> |r.value| == KeyLength && r.value <= imageId
    ensures r.Err? ==> r.error == BadImageId(imageId)
  {
    if |imageId| != FullIdLength then Err(BadImageId(imageId))
    else Ok(imageId[..KeyLength])
  }

  /** The fingerprint of an image, if the map has one; nothing is created. */
  function Of(store: FingerprintMap, imageId: string): (r: Result<Option<Fingerprint>>)
    reads store
    ensures r.Err? <==> |imageId| != FullIdLength
    ensures r.Ok? ==> (r.value.Some? <==> imageId[..KeyLength] in store.records)
    ensures r.Ok? && r.value.Some? ==> r.value.value == store.records[imageId[..KeyLength]]
  {
    match Trim(imageId)
    case Err(e) => Err(e)
    case Ok(key) => Ok(if key in store.records then Some(store.records[key]) else None)
  }

  /** The map after get-or-create of `key`: an existing record is left alone, a missing one is created empty. */
  function GetOrCreate(records: map<string, Fingerprint>, run: Run, key: string): (m: map<string, Fingerprint>)
    ensures m.Keys == records.Keys + {key}
    ensures forall k :: k in records ==> m[k] == records[k]
    ensures key !in records ==> m[key] == Fingerprint(run, DockerImageFileName, [])
  {
    if key in records then records
    else records[key := Fingerprint(run, DockerImageFileName, [])]
  }

  /**
   * Looks up the fingerprint of `imageId`, creating it on behalf of `run` when
   * missing; yields the key under which the record now sits.
   */
  method Make(store: FingerprintMap, run: Run, imageId: string) returns (r: Result<string>)
    modifies store
    ensures r == Trim(imageId)
    ensures r.Err? ==> store.records == old(store.records)
    ensures r.Ok? ==> store.records == GetOrCreate(old(store.records), run, r.value)
  {
    r := Trim(imageId);
    if r.Ok? && r.value !in store.records {
      store.records := store.records[r.value := Fingerprint(run, DockerImageFileName, [])];
    }
  }

  /** The linear `instanceof` scan over a facet collection, stopping at the first match. */
  method FindFacet(facets: seq<Facet>, kind: Kind) returns (found: Option<nat>)
    ensures found == FirstOfKind(facets, kind)
    ensures found.Some? ==> found.value < |facets| && facets[found.value].Is(kind)
    ensures found.None? <==> forall j :: 0 <= j < |facets| ==> !facets[j].Is(kind)
  {
    found := None;
    var i := 0;
    while i < |facets|
      invariant 0 <= i <= |facets|
      invariant found == None
      invariant forall j :: 0 <= j < i ==> !facets[j].Is(kind)
    {
      if facets[i].Is(kind) {
        found := Some(i);
        break;
      }
      i := i + 1;
    }
  }

  /** What a facet-writing entry point leaves behind: the fingerprint map afterwards, and how the call ended. */
  datatype Effect = Effect(records: map<string, Fingerprint>, outcome: Outcome)

  // ---------------------------------------------------------------- run facet

  /** A freshly constructed run facet, before any evidence is added. */
  function NewRunFacet(timestamp: int, imageId: string): Facet {
    DockerRunFacet(timestamp, imageId, [], [])
  }

  /** `runFacet.add(record)` followed by `runFacet.addFor(run)`. */
  function RunEvidenceAdded(f: Facet, record: ContainerRecord, run: Run): Facet
    requires f.DockerRunFacet?
  {
    f.(containerRecords := f.containerRecords + [record], runs := f.runs + [run])
  }

  /** A record's facet collection after the find-or-create-and-add of `addRunFacet`. */
  function WithRunFacet(facets: seq<Facet>, record: ContainerRecord, run: Run, now: int): seq<Facet>
  {
    match FirstOfKind(facets, RunKind)
    case Some(i) => facets[i := RunEvidenceAdded(facets[i], record, run)]
    case None => facets + [RunEvidenceAdded(NewRunFacet(now, record.imageId), record, run)]
  }

  /**
   * The effect of `addRunFacet`: a bad image ID throws before the map is touched;
   * otherwise get-or-create of the record, then find-or-create of its run facet.
   */
  function AfterAddRunFacet(records: map<string, Fingerprint>, record: ContainerRecord, run: Run, now: int): (e: Effect)
    ensures e.outcome.Fail? <==> |record.imageId| != FullIdLength
    ensures e.outcome.Fail? ==> e == Effect(records, Fail(BadImageId(record.imageId)))
    ensures e.outcome.Pass? ==>
      e.records.Keys == records.Keys + {record.imageId[..KeyLength]} &&
      forall k :: k in records && k != record.imageId[..KeyLength] ==> e.records[k] == records[k]
  {
    match Trim(record.imageId)
    case Err(err) => Effect(records, Fail(err))
    case Ok(key) =>
      var made := GetOrCreate(records, run, key);
      Effect(made[key := made[key].(facets := WithRunFacet(made[key].facets, record, run, now))], Pass)
  }

  /**
   * Adds a container record (and the run that saw it) to the run facet of the
   * record's image, creating the fingerprint and the facet as needed.
   */
  method AddRunFacet(store: FingerprintMap, record: ContainerRecord, run: Run, now: int) returns (r: Outcome)
    modifies store
    ensures Effect(store.records, r) == AfterAddRunFacet(old(store.records), record, run, now)
  {
    var imageId := record.imageId;
    var made := Make(store, run, imageId);
    if made.Err? {
      return Fail(made.error);
    }
    var key := made.value;
    var facets := store.records[key].facets;
    ghost var before := facets;
    var runFacet := FindFacet(facets, RunKind);
    var at: nat;
    if runFacet.None? {
      facets := facets + [NewRunFacet(now, imageId)];
      at := |facets| - 1;
    } else {
      at := runFacet.value;
    }
    facets := facets[at := RunEvidenceAdded(facets[at], record, run)];
    assert facets == WithRunFacet(before, record, run, now);
    store.records := store.records[key := store.records[key].(facets := facets)];
    r := Pass;
  }

  // --------------------------------------------------------------- from facet

  /** `fromFacet.addFor(run)`. */
  function FromEvidenceAdded(f: Facet, run: Run): Facet
    requires f.DockerFromFacet?
  {
    f.(runs := f.runs + [run])
  }

  /** A record's facet collection after the find-or-create-and-add of `addHalfFromFacet`. */
  function WithFromFacet(facets: seq<Facet>, imageId: string, otherImageId: string, inverse: bool,
                         run: Run, timestamp: int): seq<Facet>
  {
    match FirstOfKind(facets, FromKind)
    case Some(i) => facets[i := FromEvidenceAdded(facets[i], run)]
    case None => facets + [FromEvidenceAdded(DockerFromFacet(timestamp, imageId, otherImageId, inverse, []), run)]
  }

  /**
   * The effect of `addHalfFromFacet`: a bad image ID throws before the map is
   * touched; otherwise get-or-create of the record, then find-or-create of its from facet.
   */
  function AfterAddHalfFromFacet(records: map<string, Fingerprint>, imageId: string, otherImageId: string,
                                 inverse: bool, run: Run, timestamp: int): (e: Effect)
    ensures e.outcome.Fail? <==> |imageId| != FullIdLength
    ensures e.outcome.Fail? ==> e == Effect(records, Fail(BadImageId(imageId)))
    ensures e.outcome.Pass? ==>
      e.records.Keys == records.Keys + {imageId[..KeyLength]} &&
      forall k :: k in records && k != imageId[..KeyLength] ==> e.records[k] == records[k]
  {
    match Trim(imageId)
    case Err(err) => Effect(records, Fail(err))
    case Ok(key) =>
      var made := GetOrCreate(records, run, key);
      Effect(made[key := made[key].(facets := WithFromFacet(made[key].facets, imageId, otherImageId, inverse, run, timestamp))], Pass)
  }

  /** One half of a lineage pair: find or create the "from" facet of `imageId` and add `run` to it. */
  method AddHalfFromFacet(store: FingerprintMap, imageId: string, otherImageId: string, inverse: bool,
                          run: Run, timestamp: int) returns (r: Outcome)
    modifies store
    ensures Effect(store.records, r)
         == AfterAddHalfFromFacet(old(store.records), imageId, otherImageId, inverse, run, timestamp)
  {
    var made := Make(store, run, imageId);
    if made.Err? {
      return Fail(made.error);
    }
    var key := made.value;
    var facets := store.records[key].facets;
    ghost var before := facets;
    var fromFacet := FindFacet(facets, FromKind);
    var at: nat;
    if fromFacet.None? {
      facets := facets + [DockerFromFacet(timestamp, imageId, otherImageId, inverse, [])];
      at := |facets| - 1;
    } else {
      at := fromFacet.value;
    }
    facets := facets[at := FromEvidenceAdded(facets[at], run)];
    assert facets == WithFromFacet(before, imageId, otherImageId, inverse, run, timestamp);
    store.records := store.records[key := store.records[key].(facets := facets)];
    r := Pass;
  }

  /** The base half first, then the derived half, both stamped `now`; a failure stops the sequence. */
  function AfterAddFromFacet(records: map<string, Fingerprint>, baseImageId: string, derivedImageId: string,
                             run: Run, now: int): (e: Effect)
    ensures e.outcome.Fail? <==> |baseImageId| != FullIdLength || |derivedImageId| != FullIdLength
    ensures |baseImageId| != FullIdLength ==> e == Effect(records, Fail(BadImageId(baseImageId)))
  {
    var first := AfterAddHalfFromFacet(records, baseImageId, derivedImageId, false, run, now);
    if first.outcome.Fail? then first
    else AfterAddHalfFromFacet(first.records, derivedImageId, baseImageId, true, run, now)
  }

  /** Records that the image `derivedImageId` was built from `baseImageId` by `run`. */
  method AddFromFacet(store: FingerprintMap, baseImageId: string, derivedImageId: string, run: Run, now: int)
    returns (r: Outcome)
    modifies store
    ensures Effect(store.records, r) == AfterAddFromFacet(old(store.records), baseImageId, derivedImageId, run, now)
  {
    var timestamp := now;
    r := AddHalfFromFacet(store, baseImageId, derivedImageId, false, run, timestamp);
    if r.Fail? {
      return;
    }
    r := AddHalfFromFacet(store, derivedImageId, baseImageId, true, run, timestamp);
  }
}
