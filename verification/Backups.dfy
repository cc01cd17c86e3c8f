/** Backup candidates: internal/s3backup/s3backup.go. */
module Backups {
  import opened Wrappers
  import opened Sorting

  const MANIFEST := "manifest"
  const FALLBACK_NAME := "fallback-name"

  datatype Candidate = Candidate(
    resourceID: string,
    resourceName: string,
    resourceType: string,
    key: string,
    etag: string,
    checksum: string,
    size: int,
    lastModified: int,
    confidence: string)

  // -------------------------------------------------------------- ranking

  /** The comparator of the sort: manifests first, then newest first. */
  predicate Ranks(a: Candidate, b: Candidate) {
    if a.confidence != b.confidence then a.confidence == MANIFEST else a.lastModified > b.lastModified
  }

  predicate Known(c: Candidate) {
    c.confidence == MANIFEST || c.confidence == FALLBACK_NAME
  }

  /** On the two confidences that are ever built, the comparator is a strict weak order. */
  lemma KnownCandidatesAreRanked()
    ensures WeakOrder(Ranks, Known)
  {
    assert MANIFEST != FALLBACK_NAME;
  }

  /** What ranks before `c`, while `b` does not, ranks before `b`. */
  lemma RanksBeforeWorse(a: Candidate, b: Candidate, c: Candidate)
    requires Known(a) && Known(b) && Known(c) && Ranks(a, c) && !Ranks(b, c)
    ensures Ranks(a, b)
  {
    KnownCandidatesAreRanked();
  }

  /** Two candidates of one other confidence, one newer, and a third of another. */
  predicate Unranked(a: Candidate, b: Candidate, c: Candidate) {
    && a.confidence == c.confidence != b.confidence
    && a.confidence != MANIFEST && b.confidence != MANIFEST
    && a.lastModified > c.lastModified
  }

  /** The comparator is a strict weak order on a set of candidates exactly when the set
      holds no two of one other confidence, one newer, beside a third of another. */
  lemma RanksExactly(among: Candidate -> bool)
    ensures WeakOrder(Ranks, among) <==>
      forall a, b, c | among(a) && among(b) && among(c) :: !Unranked(a, b, c)
  {
    if a, b, c :| among(a) && among(b) && among(c) && Unranked(a, b, c) {
      assert Ranks(a, c) && !Ranks(a, b) && !Ranks(b, c);
    }
  }

  // -------------------------------------------------------------- the best candidate per key

  function FirstWithKey(s: seq<Candidate>, key: string): Option<Candidate> {
    if s == [] then None
    else if s[0].key == key then Some(s[0])
    else FirstWithKey(s[1..], key)
  }

  /** The best candidate of a key: going through the list, a candidate is given up only
      for one that ranks strictly before it. */
  function Best(s: seq<Candidate>, key: string): Option<Candidate> {
    if s == [] then None
    else
      var c, best := s[|s| - 1], Best(s[..|s| - 1], key);
      if c.key == key && (best.None? || Ranks(c, best.value)) then Some(c) else best
  }

  /** Place `i` holds a candidate of the key; none ranks before it, and it ranks strictly
      before all earlier ones. */
  predicate IsBestAt(s: seq<Candidate>, key: string, i: int) {
    && 0 <= i < |s| && s[i].key == key
    && (forall j | 0 <= j < |s| && s[j].key == key :: !Ranks(s[j], s[i]))
    && (forall j | 0 <= j < i && s[j].key == key :: Ranks(s[i], s[j]))
  }

  lemma BestIsReplaced(s: seq<Candidate>, c: Candidate, key: string, i: int)
    requires forall other <- s :: Known(other)
    requires IsBestAt(s, key, i) && Known(c) && c.key == key && Ranks(c, s[i])
    ensures IsBestAt(s + [c], key, |s|)
  {
    forall j | 0 <= j < |s| && s[j].key == key ensures Ranks(c, s[j]) && !Ranks(s[j], c) {
      assert Known(s[j]) && Known(s[i]) && !Ranks(s[j], s[i]);
      RanksBeforeWorse(c, s[j], s[i]);
    }
  }

  lemma BestStays(s: seq<Candidate>, c: Candidate, key: string, i: int)
    requires IsBestAt(s, key, i) && !(c.key == key && Ranks(c, s[i]))
    ensures IsBestAt(s + [c], key, i)
  {
  }

  /** The best candidate of a key stands at its best place, if the list has the key at all. */
  lemma {:induction false} BestMeaning(s: seq<Candidate>, key: string)
    requires forall c <- s :: Known(c)
    ensures Best(s, key).None? <==> forall c <- s :: c.key != key
    ensures Best(s, key).Some? ==> exists i :: IsBestAt(s, key, i) && s[i] == Best(s, key).value
    decreases |s|
  {
    if s != [] {
      var front, c := s[..|s| - 1], s[|s| - 1];
      assert s == front + [c];
      BestMeaning(front, key);
      if Best(front, key).Some? {
        var i :| IsBestAt(front, key, i) && front[i] == Best(front, key).value;
        assert s[i] == front[i];
        if c.key == key && Ranks(c, front[i]) {
          BestIsReplaced(front, c, key, i);
        } else {
          BestStays(front, c, key, i);
        }
      } else if c.key == key {
        assert IsBestAt(s, key, |s| - 1);
      }
    }
  }

  lemma {:induction false} InsertedFirst(s: seq<Candidate>, x: Candidate, key: string)
    requires Sorted(Ranks, s) && Known(x) && forall c <- s :: Known(c)
    ensures FirstWithKey(Insert(Ranks, s, x), key) ==
      var first := FirstWithKey(s, key);
      if x.key == key && (first.None? || Ranks(x, first.value)) then Some(x) else first
    decreases |s|
  {
    if s != [] {
      assert s[0] in s;
      if Ranks(x, s[0]) {
        assert ([x] + s)[1..] == s;
        RankedBeforeFirst(s, x, key);
      } else {
        var tail := Insert(Ranks, s[1..], x);
        assert ([s[0]] + tail)[1..] == tail;
        InsertedFirst(s[1..], x, key);
      }
    } else {
      assert [x][1..] == [];
    }
  }

  /** What ranks before the head of a sorted list ranks before all of it. */
  lemma RankedBeforeFirst(s: seq<Candidate>, x: Candidate, key: string)
    requires s != [] && Sorted(Ranks, s) && Known(x) && (forall c <- s :: Known(c)) && Ranks(x, s[0])
    ensures FirstWithKey(s, key).Some? ==> Ranks(x, FirstWithKey(s, key).value)
  {
    if FirstWithKey(s, key).Some? {
      FirstWithKeyIsThere(s, key);
      var c := FirstWithKey(s, key).value;
      var i :| 0 <= i < |s| && s[i] == c;
      assert Known(s[0]) && Known(c);
      if i > 0 {
        assert !Ranks(s[i], s[0]);
        RanksBeforeWorse(x, c, s[0]);
      }
    }
  }

  lemma {:induction false} FirstWithKeyIsThere(s: seq<Candidate>, key: string)
    ensures FirstWithKey(s, key).Some? <==> exists c <- s :: c.key == key
    ensures FirstWithKey(s, key).Some? ==> FirstWithKey(s, key).value in s && FirstWithKey(s, key).value.key == key
  {
    if s != [] {
      FirstWithKeyIsThere(s[1..], key);
      assert s == [s[0]] + s[1..];
    }
  }

  /** In the sorted list, the first candidate of a key is the best of the unsorted list. */
  lemma {:induction false} SortingPutsBestFirst(s: seq<Candidate>, key: string)
    requires forall c <- s :: Known(c)
    ensures FirstWithKey(StableSort(Ranks, s), key) == Best(s, key)
    decreases |s|
  {
    if s != [] {
      var front := s[..|s| - 1];
      assert s[|s| - 1] in s;
      SortingPutsBestFirst(front, key);
      KnownCandidatesAreRanked();
      StableSortSorts(Ranks, Known, front);
      StableSortKeeps(Ranks, front);
      SameElements(StableSort(Ranks, front), front);
      InsertedFirst(StableSort(Ranks, front), s[|s| - 1], key);
    }
  }

  // -------------------------------------------------------------- keeping the first of each key

  predicate HasKey(s: seq<Candidate>, key: string) {
    exists c <- s :: c.key == key
  }

  function Dedupe(s: seq<Candidate>): seq<Candidate> {
    if s == [] then []
    else
      var kept, c := Dedupe(s[..|s| - 1]), s[|s| - 1];
      if HasKey(kept, c.key) then kept else kept + [c]
  }

  predicate DistinctKeys(s: seq<Candidate>) {
    forall i, j | 0 <= i < j < |s| :: s[i].key != s[j].key
  }

  lemma {:induction false} DedupeMeaning(s: seq<Candidate>)
    ensures DistinctKeys(Dedupe(s))
    ensures forall c <- Dedupe(s) :: c in s
    ensures forall c <- s :: HasKey(Dedupe(s), c.key)
    decreases |s|
  {
    if s != [] {
      var front, last := s[..|s| - 1], s[|s| - 1];
      assert s == front + [last];
      DedupeMeaning(front);
      KeptOneMore(Dedupe(front), last);
    }
  }

  lemma KeptOneMore(kept: seq<Candidate>, c: Candidate)
    requires DistinctKeys(kept)
    ensures var after := if HasKey(kept, c.key) then kept else kept + [c];
      && DistinctKeys(after)
      && HasKey(after, c.key)
      && forall key: string | HasKey(kept, key) :: HasKey(after, key)
  {
    var after := if HasKey(kept, c.key) then kept else kept + [c];
    if !HasKey(kept, c.key) {
      assert after[|kept|] == c;
      forall key: string | HasKey(kept, key) ensures HasKey(after, key) {
        var other :| other in kept && other.key == key;
        assert other in after;
      }
    }
  }

  lemma AppendSorted(s: seq<Candidate>, c: Candidate)
    requires Sorted(Ranks, s) && forall other <- s :: !Ranks(c, other)
    ensures Sorted(Ranks, s + [c])
  {
  }

  lemma LastRanksBehind(s: seq<Candidate>, kept: seq<Candidate>)
    requires s != [] && Sorted(Ranks, s) && forall c <- kept :: c in s[..|s| - 1]
    ensures forall c <- kept :: !Ranks(s[|s| - 1], c)
  {
    forall c <- kept ensures !Ranks(s[|s| - 1], c) {
      var k :| 0 <= k < |s| - 1 && s[..|s| - 1][k] == c;
      assert s[k] == c;
    }
  }

  lemma FrontSorted(s: seq<Candidate>, n: nat)
    requires n <= |s| && Sorted(Ranks, s)
    ensures Sorted(Ranks, s[..n])
  {
  }

  lemma {:induction false} DedupeKeepsSorted(s: seq<Candidate>)
    requires Sorted(Ranks, s)
    ensures Sorted(Ranks, Dedupe(s))
    decreases |s|
  {
    if s != [] {
      var n := |s| - 1;
      FrontSorted(s, n);
      DedupeKeepsSorted(s[..n]);
      DedupeMeaning(s[..n]);
      LastRanksBehind(s, Dedupe(s[..n]));
      AppendSorted(Dedupe(s[..n]), s[n]);
    }
  }

  lemma {:induction false} FirstWithKeyAppend(s: seq<Candidate>, c: Candidate, key: string)
    ensures FirstWithKey(s + [c], key) ==
      if FirstWithKey(s, key).Some? then FirstWithKey(s, key) else if c.key == key then Some(c) else None
  {
    if s == [] {
      assert s + [c] == [c] && [c][1..] == [];
    } else {
      assert (s + [c])[1..] == s[1..] + [c];
      FirstWithKeyAppend(s[1..], c, key);
    }
  }

  lemma {:induction false} DedupeKeepsFirst(s: seq<Candidate>, key: string)
    ensures FirstWithKey(Dedupe(s), key) == FirstWithKey(s, key)
    decreases |s|
  {
    if s != [] {
      var front, c := s[..|s| - 1], s[|s| - 1];
      assert s == front + [c];
      DedupeKeepsFirst(front, key);
      FirstWithKeyAppend(front, c, key);
      FirstWithKeyAppend(Dedupe(front), c, key);
      FirstWithKeyIsThere(Dedupe(front), key);
    }
  }

  lemma {:induction false} DistinctKeysFirst(s: seq<Candidate>, c: Candidate)
    requires DistinctKeys(s) && c in s
    ensures FirstWithKey(s, c.key) == Some(c)
    decreases |s|
  {
    if s[0] != c {
      assert s == [s[0]] + s[1..];
      var i :| 0 <= i < |s| && s[i] == c;
      assert s[0].key != s[i].key;
      DistinctKeysFirst(s[1..], c);
    } else {
      assert s[0].key == c.key;
    }
  }

  // -------------------------------------------------------------- main result

  /** The candidates as they are returned. */
  function Ranked(candidates: seq<Candidate>): seq<Candidate> {
    Dedupe(StableSort(Ranks, candidates))
  }

  lemma {:induction false} SortedThenFirst(candidates: seq<Candidate>, key: string)
    requires forall c <- candidates :: Known(c)
    ensures FirstWithKey(Ranked(candidates), key) == Best(candidates, key)
  {
    SortingPutsBestFirst(candidates, key);
    DedupeKeepsFirst(StableSort(Ranks, candidates), key);
  }

  /** Sorting and keeping the first of each key yields, in ranking order and once per
      key, the best candidate of every key there is. */
  lemma RankingPicksTheBest(candidates: seq<Candidate>)
    requires forall c <- candidates :: Known(c)
    ensures DistinctKeys(Ranked(candidates)) && Sorted(Ranks, Ranked(candidates))
    ensures forall key: string :: HasKey(Ranked(candidates), key) <==> HasKey(candidates, key)
    ensures forall c <- Ranked(candidates) :: c in candidates && Best(candidates, c.key) == Some(c)
  {
    var sorted := StableSort(Ranks, candidates);
    KnownCandidatesAreRanked();
    StableSortSorts(Ranks, Known, candidates);
    StableSortKeeps(Ranks, candidates);
    SameElements(sorted, candidates);
    DedupeMeaning(sorted);
    DedupeKeepsSorted(sorted);
    forall c <- Ranked(candidates) ensures Best(candidates, c.key) == Some(c) {
      DistinctKeysFirst(Ranked(candidates), c);
      SortedThenFirst(candidates, c.key);
    }
    forall key: string | HasKey(candidates, key) ensures HasKey(Ranked(candidates), key) {
      var c :| c in candidates && c.key == key;
      assert c in sorted;
    }
  }

  /** The best candidate comes from a manifest if any does, and among those of its kind
      none is newer. */
  lemma BestPrefersManifests(candidates: seq<Candidate>, key: string, other: Candidate)
    requires (forall c <- candidates :: Known(c)) && Best(candidates, key).Some?
    requires other in candidates && other.key == key
    ensures other.confidence == MANIFEST ==> Best(candidates, key).value.confidence == MANIFEST
    ensures other.confidence == Best(candidates, key).value.confidence ==>
      other.lastModified <= Best(candidates, key).value.lastModified
  {
    BestMeaning(candidates, key);
    var i :| IsBestAt(candidates, key, i) && candidates[i] == Best(candidates, key).value;
    var j :| 0 <= j < |candidates| && candidates[j] == other;
    assert !Ranks(other, Best(candidates, key).value);
  }

  // -------------------------------------------------------------- the client's loops

  datatype ManifestObject = ManifestObject(key: string, checksum: string, size: int)

  datatype Manifest = Manifest(
    resourceID: string,
    resourceName: string,
    resourceType: string,
    createdAt: int,
    objects: seq<ManifestObject>)

  datatype Resource = Resource(id: string, name: string, resourceType: string)

  /** What the name tests and the download say about a listed object: a manifest that was
      read, or not, and that matches the resource, or not; a backup file whose name
      matches the resource; or neither. */
  datatype Verdict =
    | ManifestFile(manifest: Option<Manifest>, matches: bool)
    | NamedBackup
    | Unrelated

  datatype Listed = Listed(key: string, etag: string, size: int, lastModified: int, verdict: Verdict)

  function FromObject(manifest: Manifest, entry: ManifestObject): seq<Candidate> {
    if entry.key == "" then []
    else
      [Candidate(
        manifest.resourceID, manifest.resourceName, manifest.resourceType,
        entry.key, "", entry.checksum, entry.size, manifest.createdAt, MANIFEST)]
  }

  function FromObjects(manifest: Manifest, objects: seq<ManifestObject>): seq<Candidate> {
    if objects == [] then []
    else FromObjects(manifest, objects[..|objects| - 1]) + FromObject(manifest, objects[|objects| - 1])
  }

  function FromListed(resource: Resource, listed: Listed): seq<Candidate> {
    if listed.key == "" || listed.key[|listed.key| - 1] == '/' then []
    else
      match listed.verdict
      case ManifestFile(manifest, matches) =>
        if manifest.None? || !matches then [] else FromObjects(manifest.value, manifest.value.objects)
      case NamedBackup =>
        [Candidate(
          resource.id, resource.name, resource.resourceType,
          listed.key, listed.etag, "", listed.size, listed.lastModified, FALLBACK_NAME)]
      case Unrelated => []
  }

  function Collected(resource: Resource, objects: seq<Listed>): seq<Candidate> {
    if objects == [] then []
    else Collected(resource, objects[..|objects| - 1]) + FromListed(resource, objects[|objects| - 1])
  }

  lemma {:induction false} FromObjectsKnown(manifest: Manifest, objects: seq<ManifestObject>)
    ensures forall c <- FromObjects(manifest, objects) :: Known(c)
  {
    if objects != [] {
      FromObjectsKnown(manifest, objects[..|objects| - 1]);
    }
  }

  /** Only the two ranked confidences are ever built. */
  lemma {:induction false} CollectedAreKnown(resource: Resource, objects: seq<Listed>)
    ensures forall c <- Collected(resource, objects) :: Known(c)
  {
    if objects != [] {
      CollectedAreKnown(resource, objects[..|objects| - 1]);
      var verdict := objects[|objects| - 1].verdict;
      if verdict.ManifestFile? && verdict.manifest.Some? {
        FromObjectsKnown(verdict.manifest.value, verdict.manifest.value.objects);
      }
    }
  }

  method CandidatesFromManifest(manifest: Manifest) returns (out: seq<Candidate>)
    ensures out == FromObjects(manifest, manifest.objects)
  {
    out := [];
    for i := 0 to |manifest.objects|
      invariant out == FromObjects(manifest, manifest.objects[..i])
    {
      assert manifest.objects[..i + 1][..i] == manifest.objects[..i];
      var entry := manifest.objects[i];
      if entry.key == "" {
        continue;
      }
      out := out + [Candidate(
        manifest.resourceID, manifest.resourceName, manifest.resourceType,
        entry.key, "", entry.checksum, entry.size, manifest.createdAt, MANIFEST)];
    }
    assert manifest.objects[..|manifest.objects|] == manifest.objects;
  }

  /** Sorts in place and stably. The library's sort is taken to be a stable one; among the
      ranked candidates there is only one, `StableSortIsTheOnlyOne`. */
  method SortCandidates(a: array<Candidate>)
    modifies a
    ensures multiset(a[..]) == multiset(old(a[..]))
    ensures (forall c <- old(a[..]) :: Known(c)) ==>
      && Sorted(Ranks, a[..])
      && exists places: seq<nat> :: StablySorted(Ranks, old(a[..]), a[..], places)
  {
    SortedStably(a[..]);
    var sorted := StableSort(Ranks, a[..]);
    StableSortKeeps(Ranks, a[..]);
    SameElements(sorted, a[..]);
    forall i | 0 <= i < a.Length {
      a[i] := sorted[i];
    }
    assert a[..] == sorted;
  }

  lemma SortedStably(s: seq<Candidate>)
    ensures (forall c <- s :: Known(c)) ==>
      && Sorted(Ranks, StableSort(Ranks, s))
      && exists places: seq<nat> :: StablySorted(Ranks, s, StableSort(Ranks, s), places)
  {
    if forall c <- s :: Known(c) {
      KnownCandidatesAreRanked();
      StableSortSorts(Ranks, Known, s);
      var places := StableSortIsStable(Ranks, Known, s);
    }
  }

  lemma OnlyStableSort(s: seq<Candidate>, r: seq<Candidate>)
    requires forall c <- s :: Known(c)
    requires exists places: seq<nat> :: StablySorted(Ranks, s, r, places)
    ensures r == StableSort(Ranks, s)
  {
    var places :| StablySorted(Ranks, s, r, places);
    KnownCandidatesAreRanked();
    StableSortIsTheOnlyOne(Ranks, Known, s, r, places);
  }

  method DedupeCandidates(candidates: seq<Candidate>) returns (out: seq<Candidate>)
    ensures out == Dedupe(candidates)
  {
    var seen: set<string> := {};
    out := [];
    for i := 0 to |candidates|
      invariant out == Dedupe(candidates[..i])
      invariant seen == set c <- out :: c.key
    {
      assert candidates[..i + 1][..i] == candidates[..i];
      var candidate := candidates[i];
      if candidate.key in seen {
        continue;
      }
      seen := seen + {candidate.key};
      out := out + [candidate];
    }
    assert candidates[..|candidates|] == candidates;
  }

  /** A listed object offers this candidate: a manifest that was read and matches the
      resource, by one of its named objects and with its own resource and time; or a file
      whose name matches, for the resource asked for and with its own time. Keys that are
      empty or end in a slash offer nothing. */
  predicate Offers(resource: Resource, listed: Listed, c: Candidate) {
    && listed.key != "" && listed.key[|listed.key| - 1] != '/'
    && match listed.verdict {
      case ManifestFile(manifest, matches) =>
        && manifest.Some? && matches
        && var m := manifest.value;
        exists entry <- m.objects :: entry.key != "" &&
          c == Candidate(m.resourceID, m.resourceName, m.resourceType, entry.key, "", entry.checksum, entry.size,
                         m.createdAt, "manifest")
      case NamedBackup =>
        c == Candidate(resource.id, resource.name, resource.resourceType, listed.key, listed.etag, "", listed.size,
                       listed.lastModified, "fallback-name")
      case Unrelated => false
    }
  }

  lemma {:induction false} FromObjectsExactly(manifest: Manifest, objects: seq<ManifestObject>, c: Candidate)
    ensures c in FromObjects(manifest, objects) <==>
      exists entry <- objects :: entry.key != "" &&
        c == Candidate(manifest.resourceID, manifest.resourceName, manifest.resourceType, entry.key, "", entry.checksum,
                       entry.size, manifest.createdAt, "manifest")
  {
    if objects != [] {
      var n := |objects| - 1;
      FromObjectsExactly(manifest, objects[..n], c);
      assert objects == objects[..n] + [objects[n]];
    }
  }

  lemma FromListedExactly(resource: Resource, listed: Listed, c: Candidate)
    ensures c in FromListed(resource, listed) <==> Offers(resource, listed, c)
  {
    if listed.verdict.ManifestFile? && listed.verdict.manifest.Some? {
      FromObjectsExactly(listed.verdict.manifest.value, listed.verdict.manifest.value.objects, c);
    }
  }

  /** What is collected is what some listed object offers. */
  lemma {:induction false} CollectedExactly(resource: Resource, objects: seq<Listed>, c: Candidate)
    ensures c in Collected(resource, objects) <==> exists listed <- objects :: Offers(resource, listed, c)
  {
    if objects != [] {
      var n := |objects| - 1;
      CollectedExactly(resource, objects[..n], c);
      FromListedExactly(resource, objects[n], c);
      assert objects == objects[..n] + [objects[n]];
    }
  }

  /** The best of what is collected stands for everything offered under its key. */
  lemma OfferedIsRepresented(resource: Resource, objects: seq<Listed>, out: seq<Candidate>, c: Candidate)
    requires out == Ranked(Collected(resource, objects))
    requires exists listed <- objects :: Offers(resource, listed, c)
    ensures exists b <- out :: b.key == c.key && AtLeastAsGood(b, c)
  {
    var candidates := Collected(resource, objects);
    CollectedExactly(resource, objects, c);
    CollectedAreKnown(resource, objects);
    RankingPicksTheBest(candidates);
    assert HasKey(candidates, c.key);
    var b :| b in out && b.key == c.key;
    BestPrefersManifests(candidates, c.key, c);
  }

  /** From a manifest if the other is, and of one kind no older. */
  predicate AtLeastAsGood(b: Candidate, c: Candidate) {
    && (c.confidence == "manifest" ==> b.confidence == "manifest")
    && (c.confidence == b.confidence ==> c.lastModified <= b.lastModified)
  }

  lemma SortedMeans(out: seq<Candidate>, i: nat, j: nat)
    requires Sorted(Ranks, out) && i < j < |out|
    ensures AtLeastAsGood(out[i], out[j])
  {
    assert !Ranks(out[j], out[i]);
  }

  /** All candidates of a resource, best first and one per key: each returned one is offered
      by a listed object, and for whatever is offered one of its key is returned that is at
      least as good. */
  method ListCandidates(resource: Resource, objects: seq<Listed>) returns (out: seq<Candidate>)
    ensures out == Ranked(Collected(resource, objects))
    ensures DistinctKeys(out) && Sorted(Ranks, out)
    ensures forall c <- out :: Best(Collected(resource, objects), c.key) == Some(c)
    ensures forall c <- out :: exists listed <- objects :: Offers(resource, listed, c)
    ensures forall listed <- objects, c: Candidate | Offers(resource, listed, c) ::
      exists b <- out :: b.key == c.key && AtLeastAsGood(b, c)
    ensures forall i, j | 0 <= i < j < |out| :: out[i].key != out[j].key && AtLeastAsGood(out[i], out[j])
  {
    var candidates: seq<Candidate> := [];
    for i := 0 to |objects|
      invariant candidates == Collected(resource, objects[..i])
    {
      assert objects[..i + 1][..i] == objects[..i];
      var listed := objects[i];
      if listed.key == "" || listed.key[|listed.key| - 1] == '/' {
        continue;
      }
      match listed.verdict
      case ManifestFile(manifest, matches) =>
        if manifest.None? || !matches {
          continue;
        }
        var found := CandidatesFromManifest(manifest.value);
        candidates := candidates + found;
      case NamedBackup =>
        candidates := candidates + [Candidate(
          resource.id, resource.name, resource.resourceType,
          listed.key, listed.etag, "", listed.size, listed.lastModified, FALLBACK_NAME)];
      case Unrelated =>
    }
    assert objects[..|objects|] == objects;
    CollectedAreKnown(resource, objects);
    RankingPicksTheBest(candidates);
    var slice := new Candidate[|candidates|](i requires 0 <= i < |candidates| => candidates[i]);
    assert slice[..] == candidates;
    SortCandidates(slice);
    OnlyStableSort(candidates, slice[..]);
    out := DedupeCandidates(slice[..]);
    forall c <- out ensures exists listed <- objects :: Offers(resource, listed, c) {
      CollectedExactly(resource, objects, c);
    }
    forall listed <- objects, c: Candidate | Offers(resource, listed, c)
      ensures exists b <- out :: b.key == c.key && AtLeastAsGood(b, c)
    {
      OfferedIsRepresented(resource, objects, out, c);
    }
    forall i, j | 0 <= i < j < |out| ensures AtLeastAsGood(out[i], out[j]) {
      SortedMeans(out, i, j);
    }
  }
}
