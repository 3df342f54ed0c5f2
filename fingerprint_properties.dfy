/**
 * What the Docker fingerprint operations guarantee: which facet they reuse or
 * create, that no kind of Docker facet is ever duplicated in a record, and how
 * the two halves of a lineage pair are written.
 */
module FingerprintProperties {
  import opened Wrappers
  import opened FingerprintModel
  import opened DockerFingerprints

  // ------------------------------------------------------------- key derivation

  /** Two full IDs address the same record exactly when their first 32 characters agree. */
  lemma SameKeyIffSharedPrefix(a: string, b: string)
    requires |a| == FullIdLength && |b| == FullIdLength
    ensures Trim(a).Ok? && Trim(b).Ok?
    ensures Trim(a) == Trim(b) <==> a[..KeyLength] == b[..KeyLength]
  {
  }

  // --------------------------------------------------------------- run facet

  /** An existing run facet is reused in place: same length, no other facet touched, evidence appended. */
  lemma RunFacetReused(facets: seq<Facet>, record: ContainerRecord, run: Run, now: int)
    requires FirstOfKind(facets, RunKind).Some?
    ensures var i := FirstOfKind(facets, RunKind).value;
            var r := WithRunFacet(facets, record, run, now);
            |r| == |facets| &&
            (forall j :: 0 <= j < |facets| && j != i ==> r[j] == facets[j]) &&
            r[i].DockerRunFacet? && r[i].timestamp == facets[i].timestamp && r[i].imageId == facets[i].imageId &&
            r[i].containerRecords == facets[i].containerRecords + [record] && r[i].runs == facets[i].runs + [run]
  {
  }

  /** With no run facet present, exactly one is appended, carrying the full image ID and `now`. */
  lemma {:induction false} RunFacetCreated(facets: seq<Facet>, record: ContainerRecord, run: Run, now: int)
    requires CountKind(facets, RunKind) == 0
    ensures WithRunFacet(facets, record, run, now)
         == facets + [DockerRunFacet(now, record.imageId, [record], [run])]
    ensures CountKind(WithRunFacet(facets, record, run, now), RunKind) == 1
  {
    CountZeroIffNoneFound(facets, RunKind);
    assert RunEvidenceAdded(NewRunFacet(now, record.imageId), record, run)
        == DockerRunFacet(now, record.imageId, [] + [record], [] + [run]);
    assert [] + [record] == [record] && [] + [run] == [run];
    CountKindAppend(facets, DockerRunFacet(now, record.imageId, [record], [run]), RunKind);
  }

  /** The number of run facets becomes at least one and otherwise does not change; "from" facets are untouched. */
  lemma {:induction false} RunFacetCounts(facets: seq<Facet>, record: ContainerRecord, run: Run, now: int)
    ensures var r := WithRunFacet(facets, record, run, now);
            CountKind(r, RunKind) == (if CountKind(facets, RunKind) == 0 then 1 else CountKind(facets, RunKind)) &&
            CountKind(r, FromKind) == CountKind(facets, FromKind)
  {
    CountZeroIffNoneFound(facets, RunKind);
    match FirstOfKind(facets, RunKind)
    case Some(i) =>
      CountKindUpdate(facets, i, RunEvidenceAdded(facets[i], record, run), RunKind);
      CountKindUpdate(facets, i, RunEvidenceAdded(facets[i], record, run), FromKind);
    case None =>
      var f := RunEvidenceAdded(NewRunFacet(now, record.imageId), record, run);
      CountKindAppend(facets, f, RunKind);
      CountKindAppend(facets, f, FromKind);
  }

  // -------------------------------------------------------------- from facet

  /**
   * An existing "from" facet is reused whatever its other image ID, inverse flag
   * and timestamp: it keeps them, and only gains the run.
   */
  lemma FromFacetReused(facets: seq<Facet>, imageId: string, otherImageId: string, inverse: bool,
                                           run: Run, timestamp: int)
    requires FirstOfKind(facets, FromKind).Some?
    ensures var i := FirstOfKind(facets, FromKind).value;
            var r := WithFromFacet(facets, imageId, otherImageId, inverse, run, timestamp);
            |r| == |facets| &&
            (forall j :: 0 <= j < |facets| && j != i ==> r[j] == facets[j]) &&
            r[i].DockerFromFacet? && r[i].timestamp == facets[i].timestamp && r[i].imageId == facets[i].imageId &&
            r[i].otherImageId == facets[i].otherImageId && r[i].inverse == facets[i].inverse &&
            r[i].runs == facets[i].runs + [run]
  {
  }

  /** With no "from" facet present, exactly one is appended with exactly the given fields. */
  lemma {:induction false} FromFacetCreated(facets: seq<Facet>, imageId: string, otherImageId: string, inverse: bool,
                                            run: Run, timestamp: int)
    requires CountKind(facets, FromKind) == 0
    ensures WithFromFacet(facets, imageId, otherImageId, inverse, run, timestamp)
         == facets + [DockerFromFacet(timestamp, imageId, otherImageId, inverse, [run])]
    ensures CountKind(WithFromFacet(facets, imageId, otherImageId, inverse, run, timestamp), FromKind) == 1
  {
    CountZeroIffNoneFound(facets, FromKind);
    assert [] + [run] == [run];
    CountKindAppend(facets, DockerFromFacet(timestamp, imageId, otherImageId, inverse, [run]), FromKind);
  }

  lemma {:induction false} FromFacetCounts(facets: seq<Facet>, imageId: string, otherImageId: string, inverse: bool,
                                           run: Run, timestamp: int)
    ensures var r := WithFromFacet(facets, imageId, otherImageId, inverse, run, timestamp);
            CountKind(r, FromKind) == (if CountKind(facets, FromKind) == 0 then 1 else CountKind(facets, FromKind)) &&
            CountKind(r, RunKind) == CountKind(facets, RunKind)
  {
    CountZeroIffNoneFound(facets, FromKind);
    match FirstOfKind(facets, FromKind)
    case Some(i) =>
      CountKindUpdate(facets, i, FromEvidenceAdded(facets[i], run), FromKind);
      CountKindUpdate(facets, i, FromEvidenceAdded(facets[i], run), RunKind);
    case None =>
      var f := FromEvidenceAdded(DockerFromFacet(timestamp, imageId, otherImageId, inverse, []), run);
      CountKindAppend(facets, f, FromKind);
      CountKindAppend(facets, f, RunKind);
  }

  // ------------------------------------------------------ store-level invariant

  lemma {:induction false} AddRunFacetKeepsWellFormed(records: map<string, Fingerprint>, record: ContainerRecord,
                                                      run: Run, now: int)
    requires WellFormed(records)
    ensures WellFormed(AfterAddRunFacet(records, record, run, now).records)
  {
    if |record.imageId| == FullIdLength {
      var key := record.imageId[..KeyLength];
      var made := GetOrCreate(records, run, key);
      RunFacetCounts(made[key].facets, record, run, now);
    }
  }

  lemma {:induction false} AddHalfFromFacetKeepsWellFormed(records: map<string, Fingerprint>, imageId: string,
                                                           otherImageId: string, inverse: bool, run: Run, timestamp: int)
    requires WellFormed(records)
    ensures WellFormed(AfterAddHalfFromFacet(records, imageId, otherImageId, inverse, run, timestamp).records)
  {
    if |imageId| == FullIdLength {
      var key := imageId[..KeyLength];
      var made := GetOrCreate(records, run, key);
      FromFacetCounts(made[key].facets, imageId, otherImageId, inverse, run, timestamp);
    }
  }

  lemma {:induction false} AddFromFacetKeepsWellFormed(records: map<string, Fingerprint>, baseImageId: string,
                                                       derivedImageId: string, run: Run, now: int)
    requires WellFormed(records)
    ensures WellFormed(AfterAddFromFacet(records, baseImageId, derivedImageId, run, now).records)
  {
    var first := AfterAddHalfFromFacet(records, baseImageId, derivedImageId, false, run, now);
    AddHalfFromFacetKeepsWellFormed(records, baseImageId, derivedImageId, false, run, now);
    if first.outcome.Pass? {
      AddHalfFromFacetKeepsWellFormed(first.records, derivedImageId, baseImageId, true, run, now);
    }
  }

  /** One call of a public or private entry point that writes facets. */
  datatype Call =
    | AddRun(record: ContainerRecord, run: Run, now: int)
    | AddHalfFrom(imageId: string, otherImageId: string, inverse: bool, run: Run, timestamp: int)
    | AddFrom(baseImageId: string, derivedImageId: string, run: Run, now: int)

  function Apply(records: map<string, Fingerprint>, call: Call): Effect {
    match call
    case AddRun(record, run, now) => AfterAddRunFacet(records, record, run, now)
    case AddHalfFrom(imageId, other, inverse, run, timestamp) =>
      AfterAddHalfFromFacet(records, imageId, other, inverse, run, timestamp)
    case AddFrom(base, derived, run, now) => AfterAddFromFacet(records, base, derived, run, now)
  }

  /** The map after a sequence of calls, each made whether or not an earlier one threw. */
  function Replay(records: map<string, Fingerprint>, calls: seq<Call>): map<string, Fingerprint>
    decreases |calls|
  {
    if calls == [] then records else Replay(Apply(records, calls[0]).records, calls[1..])
  }

  /** However many facet writes happen, no record ever gains a second facet of a Docker kind. */
  lemma {:induction false} ReplayKeepsWellFormed(records: map<string, Fingerprint>, calls: seq<Call>)
    requires WellFormed(records)
    ensures WellFormed(Replay(records, calls))
    decreases |calls|
  {
    if calls != [] {
      match calls[0] {
        case AddRun(record, run, now) => AddRunFacetKeepsWellFormed(records, record, run, now);
        case AddHalfFrom(imageId, other, inverse, run, timestamp) =>
          AddHalfFromFacetKeepsWellFormed(records, imageId, other, inverse, run, timestamp);
        case AddFrom(base, derived, run, now) => AddFromFacetKeepsWellFormed(records, base, derived, run, now);
      }
      ReplayKeepsWellFormed(Apply(records, calls[0]).records, calls[1..]);
    }
  }

  /**
   * A valid `addRunFacet` lands its evidence in the image's record: the record's
   * run facet has the container record and the run as its latest `add`/`addFor` calls.
   */
  lemma {:induction false} RunFacetWritten(records: map<string, Fingerprint>, record: ContainerRecord,
                                           run: Run, now: int)
    requires |record.imageId| == FullIdLength
    ensures var e := AfterAddRunFacet(records, record, run, now);
            var f := FacetOf(e.records, record.imageId[..KeyLength], RunKind);
            e.outcome == Pass && f.Some? &&
            f.value.containerRecords != [] && f.value.containerRecords[|f.value.containerRecords| - 1] == record &&
            f.value.runs != [] && f.value.runs[|f.value.runs| - 1] == run
  {
    var key := record.imageId[..KeyLength];
    var facets := GetOrCreate(records, run, key)[key].facets;
    var r := WithRunFacet(facets, record, run, now);
    match FirstOfKind(facets, RunKind)
    case Some(i) =>
      FirstOfKindUnique(r, RunKind, i);
    case None =>
      FirstOfKindUnique(r, RunKind, |facets|);
  }

  /** Once a record holds one run facet, `addRunFacet` leaves it holding exactly one. */
  lemma {:induction false} AddRunFacetLeavesOneRunFacet(records: map<string, Fingerprint>, record: ContainerRecord,
                                                        run: Run, now: int)
    requires WellFormed(records)
    requires |record.imageId| == FullIdLength
    ensures var e := AfterAddRunFacet(records, record, run, now);
            var key := record.imageId[..KeyLength];
            e.outcome == Pass && key in e.records && CountKind(e.records[key].facets, RunKind) == 1
  {
    var key := record.imageId[..KeyLength];
    var made := GetOrCreate(records, run, key);
    RunFacetCounts(made[key].facets, record, run, now);
  }

  // ---------------------------------------------------------- lineage pairs

  /** When both IDs are valid, each side's record ends up with a "from" facet whose latest run is `run`. */
  lemma {:induction false} LineagePairWritten(records: map<string, Fingerprint>, baseImageId: string,
                                              derivedImageId: string, run: Run, now: int)
    requires |baseImageId| == FullIdLength && |derivedImageId| == FullIdLength
    ensures var e := AfterAddFromFacet(records, baseImageId, derivedImageId, run, now);
            e.outcome == Pass &&
            (var b := FacetOf(e.records, baseImageId[..KeyLength], FromKind);
             b.Some? && b.value.runs != [] && b.value.runs[|b.value.runs| - 1] == run) &&
            (var d := FacetOf(e.records, derivedImageId[..KeyLength], FromKind);
             d.Some? && d.value.runs != [] && d.value.runs[|d.value.runs| - 1] == run)
  {
    var kb, kd := baseImageId[..KeyLength], derivedImageId[..KeyLength];
    var first := AfterAddHalfFromFacet(records, baseImageId, derivedImageId, false, run, now);
    var madeB := GetOrCreate(records, run, kb);
    HalfFromFacetEndsWithRun(madeB[kb].facets, baseImageId, derivedImageId, false, run, now);
    var second := AfterAddHalfFromFacet(first.records, derivedImageId, baseImageId, true, run, now);
    var madeD := GetOrCreate(first.records, run, kd);
    HalfFromFacetEndsWithRun(madeD[kd].facets, derivedImageId, baseImageId, true, run, now);
    if kb != kd {
      assert second.records[kb] == first.records[kb];
    }
  }

  /** After one half, the first "from" facet of the record has `run` as its latest run. */
  lemma {:induction false} HalfFromFacetEndsWithRun(facets: seq<Facet>, imageId: string, otherImageId: string,
                                                    inverse: bool, run: Run, timestamp: int)
    ensures var r := WithFromFacet(facets, imageId, otherImageId, inverse, run, timestamp);
            var i := FirstOfKind(r, FromKind);
            i.Some? && r[i.value].runs != [] && r[i.value].runs[|r[i.value].runs| - 1] == run
  {
    var r := WithFromFacet(facets, imageId, otherImageId, inverse, run, timestamp);
    match FirstOfKind(facets, FromKind)
    case Some(i) =>
      FirstOfKindUnique(r, FromKind, i);
    case None =>
      FirstOfKindUnique(r, FromKind, |facets|);
  }

  /**
   * For two images with distinct keys and no lineage yet, the pair is created:
   * the base side points at the derived image (not inverse), the derived side at
   * the base image (inverse), both stamped with the same `now`.
   */
  lemma {:induction false} LineagePairCreated(records: map<string, Fingerprint>, baseImageId: string,
                                              derivedImageId: string, run: Run, now: int)
    requires |baseImageId| == FullIdLength && |derivedImageId| == FullIdLength
    requires baseImageId[..KeyLength] != derivedImageId[..KeyLength]
    requires FacetOf(records, baseImageId[..KeyLength], FromKind).None?
    requires FacetOf(records, derivedImageId[..KeyLength], FromKind).None?
    ensures var e := AfterAddFromFacet(records, baseImageId, derivedImageId, run, now);
            e.outcome == Pass &&
            FacetOf(e.records, baseImageId[..KeyLength], FromKind)
              == Some(DockerFromFacet(now, baseImageId, derivedImageId, false, [run])) &&
            FacetOf(e.records, derivedImageId[..KeyLength], FromKind)
              == Some(DockerFromFacet(now, derivedImageId, baseImageId, true, [run]))
  {
    var kb, kd := baseImageId[..KeyLength], derivedImageId[..KeyLength];
    var madeB := GetOrCreate(records, run, kb);
    FromFacetCreated(madeB[kb].facets, baseImageId, derivedImageId, false, run, now);
    var first := AfterAddHalfFromFacet(records, baseImageId, derivedImageId, false, run, now);
    var madeD := GetOrCreate(first.records, run, kd);
    assert madeD[kd].facets == (if kd in records then records[kd].facets else []);
    FromFacetCreated(madeD[kd].facets, derivedImageId, baseImageId, true, run, now);
    CreatedIsFirst(madeB[kb].facets, DockerFromFacet(now, baseImageId, derivedImageId, false, [run]));
    CreatedIsFirst(madeD[kd].facets, DockerFromFacet(now, derivedImageId, baseImageId, true, [run]));
  }

  /**
   * When both IDs share their key, the second half finds the facet the first
   * half created: the record keeps only the non-inverse facet, whose `addFor`
   * log lists the run twice (one call per half), and no inverse facet is written.
   */
  lemma {:induction false} LineageSameKeyKeepsBaseSide(records: map<string, Fingerprint>, baseImageId: string,
                                                       derivedImageId: string, run: Run, now: int)
    requires |baseImageId| == FullIdLength && |derivedImageId| == FullIdLength
    requires baseImageId[..KeyLength] == derivedImageId[..KeyLength]
    requires FacetOf(records, baseImageId[..KeyLength], FromKind).None?
    ensures var e := AfterAddFromFacet(records, baseImageId, derivedImageId, run, now);
            var key := baseImageId[..KeyLength];
            e.outcome == Pass &&
            FacetOf(e.records, key, FromKind) == Some(DockerFromFacet(now, baseImageId, derivedImageId, false, [run, run])) &&
            CountKind(e.records[key].facets, FromKind) == 1
  {
    var key := baseImageId[..KeyLength];
    var madeB := GetOrCreate(records, run, key);
    var created := DockerFromFacet(now, baseImageId, derivedImageId, false, [run]);
    FromFacetCreated(madeB[key].facets, baseImageId, derivedImageId, false, run, now);
    CreatedIsFirst(madeB[key].facets, created);
    var first := AfterAddHalfFromFacet(records, baseImageId, derivedImageId, false, run, now);
    var afterFirst := first.records[key].facets;
    assert afterFirst == madeB[key].facets + [created];
    FromFacetReused(afterFirst, derivedImageId, baseImageId, true, run, now);
    FromFacetCounts(afterFirst, derivedImageId, baseImageId, true, run, now);
    var r := WithFromFacet(afterFirst, derivedImageId, baseImageId, true, run, now);
    assert r == madeB[key].facets + [FromEvidenceAdded(created, run)];
    assert [run] + [run] == [run, run];
    CreatedIsFirst(madeB[key].facets, FromEvidenceAdded(created, run));
    var e := AfterAddFromFacet(records, baseImageId, derivedImageId, run, now);
    assert e.records[key].facets == r;
  }

  /** A "from" facet appended to a collection without one is what the scan finds. */
  lemma CreatedIsFirst(facets: seq<Facet>, f: Facet)
    requires CountKind(facets, FromKind) == 0 && f.DockerFromFacet?
    ensures FirstOfKind(facets + [f], FromKind) == Some(|facets|)
  {
    CountZeroIffNoneFound(facets, FromKind);
    FirstOfKindUnique(facets + [f], FromKind, |facets|);
  }

  /**
   * A bad derived ID throws only after the base half was written: the map is
   * that of the base half alone, so the lineage is one-sided.
   */
  lemma {:induction false} LineagePartialPair(records: map<string, Fingerprint>, baseImageId: string,
                                              derivedImageId: string, run: Run, now: int)
    requires |baseImageId| == FullIdLength && |derivedImageId| != FullIdLength
    ensures var e := AfterAddFromFacet(records, baseImageId, derivedImageId, run, now);
            e == Effect(AfterAddHalfFromFacet(records, baseImageId, derivedImageId, false, run, now).records,
                        Fail(BadImageId(derivedImageId))) &&
            (var b := FacetOf(e.records, baseImageId[..KeyLength], FromKind);
             b.Some? && b.value.runs != [] && b.value.runs[|b.value.runs| - 1] == run)
  {
    var kb := baseImageId[..KeyLength];
    var madeB := GetOrCreate(records, run, kb);
    HalfFromFacetEndsWithRun(madeB[kb].facets, baseImageId, derivedImageId, false, run, now);
  }
}
