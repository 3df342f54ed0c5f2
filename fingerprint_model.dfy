/**
 * The entities the Docker fingerprint code works on: Jenkins builds, container
 * records, the facets attached to a fingerprint, fingerprints themselves and the
 * fingerprint map that holds them. Jenkins owns these classes; only the parts the
 * Docker code reads or writes are modelled.
 */
module FingerprintModel {
  import opened Wrappers

  /** A Jenkins build, used only as an attribution tag; its internals are not modelled. */
  datatype Run = Run(id: string)

  /** One container started from an image. Only its image ID is read by the core. */
  datatype ContainerRecord = ContainerRecord(imageId: string, containerId: string)

  /** The two facet classes the core tests for with `instanceof`. */
  datatype Kind = RunKind | FromKind

  /**
   * A facet of a fingerprint. The evidence fields list every container record
   * and every run handed to the facet's `add`/`addFor`, in call order; whether
   * the facet itself drops duplicates is not part of this model.
   * `OtherFacet` stands for the facets other plugins attach to the same fingerprint.
   */
  datatype Facet =
    | DockerRunFacet(timestamp: int, imageId: string, containerRecords: seq<ContainerRecord>, runs: seq<Run>)
    | DockerFromFacet(timestamp: int, imageId: string, otherImageId: string, inverse: bool, runs: seq<Run>)
    | OtherFacet(timestamp: int, owner: string)
  {
    /** The `instanceof` test of the facet scan. */
    predicate Is(kind: Kind) {
      match kind
      case RunKind => DockerRunFacet?
      case FromKind => DockerFromFacet?
    }
  }

  /** A fingerprint record: the build that created it, its file name and its facet collection. */
  datatype Fingerprint = Fingerprint(original: Run, fileName: string, facets: seq<Facet>)

  /** Jenkins' fingerprint map: records keyed by (truncated) digest. */
  class FingerprintMap {
    var records: map<string, Fingerprint>
  }

  /** Index of the first facet of the given kind, as the scan with `break` finds it. */
  function FirstOfKind(facets: seq<Facet>, kind: Kind): (r: Option<nat>)
    ensures r.Some? ==> r.value < |facets| && facets[r.value].Is(kind)
    ensures r.Some? ==> forall j :: 0 <= j < r.value ==> !facets[j].Is(kind)
    ensures r.None? ==> forall j :: 0 <= j < |facets| ==> !facets[j].Is(kind)
  {
    if |facets| == 0 then None
    else if facets[0].Is(kind) then Some(0)
    else match FirstOfKind(facets[1..], kind)
      case None => None
      case Some(i) => Some(i + 1)
  }

  /** How many facets of the given kind the collection holds. */
  function CountKind(facets: seq<Facet>, kind: Kind): nat
  {
    if |facets| == 0 then 0
    else (if facets[0].Is(kind) then 1 else 0) + CountKind(facets[1..], kind)
  }

  /** The invariant the find-or-create code keeps: no kind of Docker facet occurs twice. */
  predicate AtMostOneOfEachKind(facets: seq<Facet>) {
    CountKind(facets, RunKind) <= 1 && CountKind(facets, FromKind) <= 1
  }

  /** Every record of the map keeps `AtMostOneOfEachKind`. */
  predicate WellFormed(records: map<string, Fingerprint>) {
    forall key :: key in records ==> AtMostOneOfEachKind(records[key].facets)
  }

  /** The first facet of the given kind in the record under `key`, if the record exists. */
  function FacetOf(records: map<string, Fingerprint>, key: string, kind: Kind): (r: Option<Facet>)
    ensures r.Some? ==> key in records && r.value in records[key].facets && r.value.Is(kind)
    ensures r.None? <==> key !in records || CountKind(records[key].facets, kind) == 0
  {
    if key !in records then None
    else
      CountZeroIffNoneFound(records[key].facets, kind);
      match FirstOfKind(records[key].facets, kind)
      case None => None
      case Some(i) => Some(records[key].facets[i])
  }

  lemma {:induction false} CountZeroIffNoneFound(facets: seq<Facet>, kind: Kind)
    ensures CountKind(facets, kind) == 0 <==> FirstOfKind(facets, kind).None?
  {
    if |facets| > 0 {
      CountZeroIffNoneFound(facets[1..], kind);
    }
  }

  /** The scan's result is determined by where the first facet of the kind sits. */
  lemma FirstOfKindUnique(facets: seq<Facet>, kind: Kind, i: nat)
    requires i < |facets| && facets[i].Is(kind)
    requires forall j :: 0 <= j < i ==> !facets[j].Is(kind)
    ensures FirstOfKind(facets, kind) == Some(i)
  {
  }

  lemma {:induction false} CountKindAppend(facets: seq<Facet>, f: Facet, kind: Kind)
    ensures CountKind(facets + [f], kind) == CountKind(facets, kind) + (if f.Is(kind) then 1 else 0)
  {
    if |facets| > 0 {
      assert (facets + [f])[1..] == facets[1..] + [f];
      CountKindAppend(facets[1..], f, kind);
    }
  }

  /** Replacing one facet changes the count only by what was removed and what was put in. */
  lemma {:induction false} CountKindUpdate(facets: seq<Facet>, i: nat, f: Facet, kind: Kind)
    requires i < |facets|
    ensures CountKind(facets[i := f], kind)
         == CountKind(facets, kind) - (if facets[i].Is(kind) then 1 else 0) + (if f.Is(kind) then 1 else 0)
  {
    if i == 0 {
      assert facets[i := f][1..] == facets[1..];
    } else {
      assert facets[i := f][1..] == facets[1..][i - 1 := f];
      CountKindUpdate(facets[1..], i - 1, f, kind);
    }
  }
}
