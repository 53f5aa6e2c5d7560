/** Append-only policy locks (_validate_policy_locks in scripts/validate_claude.py), one update
    at a time and over every run of accepted updates. */
module PolicyLocks {
  import opened Ordering

  /** NotClosed is an entry that is not a mapping of exactly the three keys, NonText one whose
      version is not a string. */
  datatype Entry = NotClosed | NonText | Lock(version: string, registry: string, digest: string)

  /** The field of that name: a list, empty when the field is missing; a mapping or a string; or a
      value without a length. */
  datatype Field = List(entries: seq<Entry>) | Sized | Unsized

  /** headerExact: the file has exactly its three keys and the expected schema version. */
  datatype LockFile = LockFile(headerExact: bool, locks: Field)

  datatype Finding =
    | HeaderNotExact
    | NotAList
    | PrefixNotRetained
    | EntryNotClosed
    | InvalidBinding
    | DuplicateVersion(version: string)
    | NotContiguous(name: string)
    | StaleDigest(path: string)

  // ---------- versions and digests ----------

  datatype Version = Version(name: string, ordinal: nat)

  /** The keyword arguments of one use of the validator: the version pattern as the groups it
      matches, the locked policies in the order they are checked, and their contract files. */
  datatype Scheme = Scheme(parse: string -> Option<Version>, names: seq<string>, paths: map<string, string>)

  ghost predicate ValidScheme(scheme: Scheme)
  {
    forall name :: name in scheme.names <==> name in scheme.paths
  }

  function PathOf(name: string, scheme: Scheme): string
  {
    if name in scheme.paths then scheme.paths[name] else ""
  }

  predicate Digit(c: char) { '0' <= c <= '9' }

  /** [0-9a-f]{64} */
  predicate IsDigest(s: string)
  {
    |s| == 64 && forall i :: 0 <= i < 64 ==> Digit(s[i]) || 'a' <= s[i] <= 'f'
  }

  /** The version matches, names a locked policy, and the entry points at that policy's file. */
  predicate Bound(entry: Entry, scheme: Scheme)
  {
    && entry.Lock?
    && scheme.parse(entry.version).Some?
    && scheme.parse(entry.version).value.name in scheme.paths
    && entry.registry == PathOf(scheme.parse(entry.version).value.name, scheme)
    && IsDigest(entry.digest)
  }

  function VersionOf(entry: Entry, scheme: Scheme): Version
    requires Bound(entry, scheme)
  {
    scheme.parse(entry.version).value
  }

  // ---------- what a list of entries holds ----------

  /** The well-bound entries of one base, in list order. */
  function EntriesOf(records: seq<Entry>, b: string, scheme: Scheme): (r: seq<Entry>)
    ensures forall e :: e in r ==> e in records && Bound(e, scheme) && VersionOf(e, scheme).name == b
  {
    if records == [] then []
    else
      var front, last := records[..|records| - 1], records[|records| - 1];
      EntriesOf(front, b, scheme)
      + (if Bound(last, scheme) && VersionOf(last, scheme).name == b then [last] else [])
  }

  function Ordinals(entries: seq<Entry>, scheme: Scheme): seq<nat>
    requires forall e :: e in entries ==> Bound(e, scheme)
  {
    seq(|entries|, i requires 0 <= i < |entries| => assert entries[i] in entries; VersionOf(entries[i], scheme).ordinal)
  }

  function OrdinalsOf(records: seq<Entry>, b: string, scheme: Scheme): seq<nat>
  {
    Ordinals(EntriesOf(records, b, scheme), scheme)
  }

  /** The first entry carrying the largest ordinal. */
  function LatestOf(records: seq<Entry>, b: string, scheme: Scheme): (r: Option<Entry>)
    ensures r.Some? ==> Bound(r.value, scheme)
  {
    if records == [] then None
    else
      var before, last := LatestOf(records[..|records| - 1], b, scheme), records[|records| - 1];
      if Bound(last, scheme) && VersionOf(last, scheme).name == b
         && (before.None? || VersionOf(last, scheme).ordinal > VersionOf(before.value, scheme).ordinal)
      then Some(last) else before
  }

  function Seen(records: seq<Entry>, scheme: Scheme): set<string>
  {
    set e | e in records && Bound(e, scheme) :: e.version
  }

  /** Each ordinal from 1 up to their number, exactly once. */
  ghost predicate OneToTop(ordinals: seq<nat>)
  {
    && ordinals != []
    && NoDuplicates(ordinals)
    && forall k: nat :: k in ordinals <==> 1 <= k <= |ordinals|
  }

  // ---------- the findings as a function ----------

  function EntryFindings(records: seq<Entry>, scheme: Scheme): seq<Finding>
  {
    if records == [] then []
    else
      var front, last := records[..|records| - 1], records[|records| - 1];
      EntryFindings(front, scheme) + FindingsAt(front, last, scheme)
  }

  /** What one entry is blamed for, given the entries before it. */
  function FindingsAt(front: seq<Entry>, last: Entry, scheme: Scheme): seq<Finding>
  {
    if last.NotClosed? then [EntryNotClosed]
    else if !Bound(last, scheme) then [InvalidBinding]
    else if last.version in Seen(front, scheme) then [DuplicateVersion(last.version)]
    else []
  }

  ghost function FindingsFor(records: seq<Entry>, current: map<string, string>, b: string, scheme: Scheme): seq<Finding>
    requires PathOf(b, scheme) in current
  {
    var latest := LatestOf(records, b, scheme);
    (if OneToTop(OrdinalsOf(records, b, scheme)) then [] else [NotContiguous(b)])
    + (if latest.Some? && latest.value.digest == current[PathOf(b, scheme)] then []
       else [StaleDigest(PathOf(b, scheme))])
  }

  ghost function BaseFindings(records: seq<Entry>, current: map<string, string>, todo: seq<string>,
                              scheme: Scheme): seq<Finding>
    requires forall b :: b in todo ==> PathOf(b, scheme) in current
  {
    if todo == [] then []
    else
      BaseFindings(records, current, todo[..|todo| - 1], scheme)
      + FindingsFor(records, current, todo[|todo| - 1], scheme)
  }

  /** The trusted entries, as far as they are a list. */
  function OldLocks(historical: Option<LockFile>): seq<Entry>
  {
    if historical.Some? && historical.value.locks.List? then historical.value.locks.entries else []
  }

  /** A trusted field that is no list is never the beginning of one. */
  predicate RetainsPrefix(historical: Option<LockFile>, records: seq<Entry>)
  {
    (historical.Some? ==> historical.value.locks.List?) && OldLocks(historical) <= records
  }

  /** The validator raises instead of reporting: a trusted field without a length is measured, or a
      version that is not a string is matched. */
  predicate Raises(file: LockFile, historical: Option<LockFile>)
  {
    file.locks.List? && ((historical.Some? && historical.value.locks.Unsized?) || NonText in file.locks.entries)
  }

  ghost function Findings(file: LockFile, current: map<string, string>, historical: Option<LockFile>,
                          scheme: Scheme): seq<Finding>
    requires forall b :: b in scheme.names ==> PathOf(b, scheme) in current
  {
    (if file.headerExact then [] else [HeaderNotExact])
    + (if !file.locks.List? then [NotAList]
       else
         (if RetainsPrefix(historical, file.locks.entries) then [] else [PrefixNotRetained])
         + EntryFindings(file.locks.entries, scheme)
         + BaseFindings(file.locks.entries, current, scheme.names, scheme))
  }

  /** What validating comes to: the findings, or None when the validator raises. */
  ghost function Validation(file: LockFile, current: map<string, string>, historical: Option<LockFile>,
                            scheme: Scheme): Option<seq<Finding>>
    requires forall b :: b in scheme.names ==> PathOf(b, scheme) in current
  {
    if Raises(file, historical) then None else Some(Findings(file, current, historical, scheme))
  }

  predicate NothingFound(validation: Option<seq<Finding>>)
  {
    validation.Some? && validation.value == []
  }

  // ---------- the validator ----------

  predicate NatLeq(a: nat, b: nat) { a <= b }

  function Range(top: nat): seq<nat>
  {
    seq(top, i => i + 1)
  }

  /** sorted(ordinals) == list(range(1, last + 1)) says that each of 1..top occurs exactly once. */
  lemma SortedIsRange(ordinals: seq<nat>, sorted: seq<nat>)
    requires ordinals != [] && multiset(sorted) == multiset(ordinals) && Ordered(NatLeq, sorted)
    ensures |sorted| == |ordinals| > 0
    ensures sorted == Range(sorted[|sorted| - 1]) <==> OneToTop(ordinals)
  {
    SameLength(sorted, ordinals);
    var n := |sorted|;
    forall k: nat ensures k in ordinals <==> k in sorted {
      assert k in ordinals <==> k in multiset(ordinals);
      assert k in sorted <==> k in multiset(sorted);
    }
    if sorted == Range(sorted[n - 1]) {
      RangeHolds(n);
      BagDecidesDuplicates(sorted, ordinals);
    }
    if OneToTop(ordinals) {
      RangeHolds(n);
      BagDecidesDuplicates(ordinals, sorted);
      NoDuplicatesSameBag(sorted, Range(n));
      OrderedUnique(NatLeq, sorted, Range(n));
    }
  }

  lemma RangeHolds(n: nat)
    ensures NoDuplicates(Range(n)) && Ordered(NatLeq, Range(n)) && |Range(n)| == n
    ensures forall k: nat :: k in Range(n) <==> 1 <= k <= n
  {
    forall k: nat ensures k in Range(n) <==> 1 <= k <= n {
      if 1 <= k <= n { assert Range(n)[k - 1] == k; }
    }
  }

  method Contiguous(ordinals: seq<nat>) returns (yes: bool)
    ensures yes <==> OneToTop(ordinals)
  {
    if ordinals == [] { return false; }
    var sorted := SortBy(ordinals, NatLeq);
    SortedIsRange(ordinals, sorted);
    return sorted == Range(sorted[|sorted| - 1]);
  }

  function Lookup(latest: map<string, Entry>, b: string): Option<Entry>
  {
    if b in latest then Some(latest[b]) else None
  }

  /** What the loop variables hold after a prefix of the records. */
  ghost predicate Tracks(records: seq<Entry>, scheme: Scheme, seen: set<string>, ordinals: map<string, seq<nat>>,
                         latest: map<string, Entry>)
  {
    && seen == Seen(records, scheme)
    && forall b :: b in scheme.names ==> TracksOne(records, b, scheme, ordinals, latest)
  }

  ghost predicate TracksOne(records: seq<Entry>, b: string, scheme: Scheme, ordinals: map<string, seq<nat>>,
                            latest: map<string, Entry>)
  {
    && b in ordinals && ordinals[b] == OrdinalsOf(records, b, scheme)
    && LatestOf(records, b, scheme) == Lookup(latest, b)
  }

  predicate Belongs(entry: Entry, b: string, scheme: Scheme)
  {
    Bound(entry, scheme) && VersionOf(entry, scheme).name == b
  }

  lemma OrdinalsSnoc(front: seq<Entry>, last: Entry, b: string, scheme: Scheme)
    ensures OrdinalsOf(front + [last], b, scheme) == OrdinalsOf(front, b, scheme)
      + if Belongs(last, b, scheme) then [VersionOf(last, scheme).ordinal] else []
  {
    assert (front + [last])[..|front|] == front;
  }

  lemma LatestSnoc(front: seq<Entry>, last: Entry, b: string, scheme: Scheme)
    ensures var before := LatestOf(front, b, scheme);
      LatestOf(front + [last], b, scheme) ==
      if Belongs(last, b, scheme)
        && (before.None? || VersionOf(last, scheme).ordinal > VersionOf(before.value, scheme).ordinal)
      then Some(last) else before
  {
    assert (front + [last])[..|front|] == front;
  }

  lemma SeenSnoc(front: seq<Entry>, last: Entry, scheme: Scheme)
    ensures Seen(front + [last], scheme) == Seen(front, scheme) + if Bound(last, scheme) then {last.version} else {}
  {
  }

  lemma TracksUnbound(front: seq<Entry>, last: Entry, scheme: Scheme, seen: set<string>,
                      ordinals: map<string, seq<nat>>, latest: map<string, Entry>)
    requires Tracks(front, scheme, seen, ordinals, latest) && !Bound(last, scheme)
    ensures Tracks(front + [last], scheme, seen, ordinals, latest)
  {
    SeenSnoc(front, last, scheme);
    forall b | b in scheme.names ensures TracksOne(front + [last], b, scheme, ordinals, latest) {
      assert TracksOne(front, b, scheme, ordinals, latest);
      OrdinalsSnoc(front, last, b, scheme);
      LatestSnoc(front, last, b, scheme);
    }
  }

  function OrdinalsAfter(ordinals: map<string, seq<nat>>, v: Version): map<string, seq<nat>>
    requires v.name in ordinals
  {
    ordinals[v.name := ordinals[v.name] + [v.ordinal]]
  }

  function LatestAfter(latest: map<string, Entry>, entry: Entry, v: Version, scheme: Scheme): map<string, Entry>
    requires v.name in latest ==> Bound(latest[v.name], scheme)
  {
    if v.name !in latest || v.ordinal > VersionOf(latest[v.name], scheme).ordinal then latest[v.name := entry]
    else latest
  }

  lemma TracksBound(front: seq<Entry>, last: Entry, scheme: Scheme, seen: set<string>, ordinals: map<string, seq<nat>>,
                    latest: map<string, Entry>)
    requires ValidScheme(scheme) && Tracks(front, scheme, seen, ordinals, latest) && Bound(last, scheme)
    ensures var v := VersionOf(last, scheme);
      && v.name in ordinals
      && (v.name in latest ==> Bound(latest[v.name], scheme))
      && Tracks(front + [last], scheme, seen + {last.version},
                OrdinalsAfter(ordinals, v), LatestAfter(latest, last, v, scheme))
  {
    var v := VersionOf(last, scheme);
    assert TracksOne(front, v.name, scheme, ordinals, latest);
    SeenSnoc(front, last, scheme);
    forall b | b in scheme.names
      ensures TracksOne(front + [last], b, scheme, OrdinalsAfter(ordinals, v), LatestAfter(latest, last, v, scheme))
    {
      assert TracksOne(front, b, scheme, ordinals, latest);
      OrdinalsSnoc(front, last, b, scheme);
      LatestSnoc(front, last, b, scheme);
    }
  }

  /** The body of the loop over the records. */
  method RecordEntry(ghost front: seq<Entry>, item: Entry, scheme: Scheme,
                     seen: set<string>, ordinals: map<string, seq<nat>>, latest: map<string, Entry>)
      returns (findings: seq<Finding>, seen': set<string>, ordinals': map<string, seq<nat>>,
               latest': map<string, Entry>)
    requires ValidScheme(scheme) && Tracks(front, scheme, seen, ordinals, latest)
    ensures findings == FindingsAt(front, item, scheme)
    ensures Tracks(front + [item], scheme, seen', ordinals', latest')
  {
    findings, seen', ordinals', latest' := [], seen, ordinals, latest;
    if item.NotClosed? {
      TracksUnbound(front, item, scheme, seen, ordinals, latest);
      findings := [EntryNotClosed];
    } else if !Bound(item, scheme) {
      TracksUnbound(front, item, scheme, seen, ordinals, latest);
      findings := [InvalidBinding];
    } else {
      TracksBound(front, item, scheme, seen, ordinals, latest);
      if item.version in seen {
        findings := [DuplicateVersion(item.version)];
      }
      var version := VersionOf(item, scheme);
      seen' := seen + {item.version};
      ordinals' := OrdinalsAfter(ordinals, version);
      latest' := LatestAfter(latest, item, version, scheme);
    }
  }

  /** The loop over the records: findings, ordinals and latest entry per policy. */
  method ScanEntries(records: seq<Entry>, scheme: Scheme)
      returns (ok: bool, findings: seq<Finding>, ordinals: map<string, seq<nat>>, latest: map<string, Entry>)
    requires ValidScheme(scheme)
    ensures ok <==> NonText !in records
    ensures ok ==> findings == EntryFindings(records, scheme)
    ensures ok ==> Tracks(records, scheme, Seen(records, scheme), ordinals, latest)
  {
    hide Tracks, FindingsAt, ValidScheme;
    ok := true;
    findings := [];
    latest := map[];
    var seen: set<string> := {};
    ordinals := map b | b in scheme.names :: [];
    NothingTracked(scheme, ordinals);
    for i := 0 to |records|
      invariant ok && NonText !in records[..i]
      invariant findings == EntryFindings(records[..i], scheme)
      invariant Tracks(records[..i], scheme, seen, ordinals, latest)
    {
      if records[i].NonText? { return false, [], map[], map[]; }
      var found;
      found, seen, ordinals, latest := RecordEntry(records[..i], records[i], scheme, seen, ordinals, latest);
      findings := findings + found;
      EntryFindingsSnoc(records[..i], records[i], scheme);
      assert records[..i + 1] == records[..i] + [records[i]];
    }
    assert records[..|records|] == records;
    TracksSeen(records, scheme, seen, ordinals, latest);
  }

  lemma NothingTracked(scheme: Scheme, ordinals: map<string, seq<nat>>)
    requires ordinals == map b | b in scheme.names :: []
    ensures Tracks([], scheme, {}, ordinals, map[])
  {
  }

  lemma TracksSeen(records: seq<Entry>, scheme: Scheme, seen: set<string>, ordinals: map<string, seq<nat>>,
                   latest: map<string, Entry>)
    requires Tracks(records, scheme, seen, ordinals, latest)
    ensures Tracks(records, scheme, Seen(records, scheme), ordinals, latest)
  {
  }

  lemma EntryFindingsSnoc(front: seq<Entry>, last: Entry, scheme: Scheme)
    ensures EntryFindings(front + [last], scheme) == EntryFindings(front, scheme) + FindingsAt(front, last, scheme)
  {
    assert (front + [last])[..|front|] == front;
  }

  method ValidatePolicyLocks(file: LockFile, current: map<string, string>, historical: Option<LockFile>, scheme: Scheme)
      returns (validation: Option<seq<Finding>>)
    requires ValidScheme(scheme) && forall b :: b in scheme.names ==> PathOf(b, scheme) in current
    ensures validation == Validation(file, current, historical, scheme)
  {
    var findings := if file.headerExact then [] else [HeaderNotExact];
    if !file.locks.List? { return Some(findings + [NotAList]); }
    var records := file.locks.entries;
    var prefix := [];
    if historical.Some? {
      match historical.value.locks {
        case List(trusted) => if !(trusted <= records) { prefix := [PrefixNotRetained]; }
        case Sized => prefix := [PrefixNotRetained];
        case Unsized => return None;
      }
    }
    var ok, entries, ordinals, latest := ScanEntries(records, scheme);
    if !ok { return None; }
    var perBase := CheckBases(records, current, scheme, ordinals, latest);
    return Some(findings + (prefix + entries + perBase));
  }

  /** The loop over the locked contracts. */
  method CheckBases(records: seq<Entry>, current: map<string, string>, scheme: Scheme, ordinals: map<string, seq<nat>>,
                    latest: map<string, Entry>)
      returns (findings: seq<Finding>)
    requires forall b :: b in scheme.names ==> PathOf(b, scheme) in current
    requires Tracks(records, scheme, Seen(records, scheme), ordinals, latest)
    ensures findings == BaseFindings(records, current, scheme.names, scheme)
  {
    findings := [];
    for i := 0 to |scheme.names|
      invariant findings == BaseFindings(records, current, scheme.names[..i], scheme)
    {
      var b := scheme.names[i];
      assert scheme.names[..i + 1][..i] == scheme.names[..i];
      assert TracksOne(records, b, scheme, ordinals, latest);
      var contiguous := Contiguous(ordinals[b]);
      var stale := b !in latest || latest[b].digest != current[PathOf(b, scheme)];
      findings := findings
        + ((if contiguous then [] else [NotContiguous(b)]) + (if stale then [StaleDigest(PathOf(b, scheme))] else []));
    }
    assert scheme.names[..|scheme.names|] == scheme.names;
  }

  // ---------- acceptance ----------

  /** The update is accepted: no finding at all. */
  ghost predicate Accepted(file: LockFile, current: map<string, string>, historical: Option<LockFile>, scheme: Scheme)
  {
    && file.headerExact
    && file.locks.List?
    && RetainsPrefix(historical, file.locks.entries)
    && WellFormed(file.locks.entries, scheme)
    && forall b :: b in scheme.names ==> BaseAccepted(file.locks.entries, current, b, scheme)
  }

  /** Every entry is bound and no version is locked twice. */
  ghost predicate WellFormed(records: seq<Entry>, scheme: Scheme)
  {
    && (forall i :: 0 <= i < |records| ==> Bound(records[i], scheme))
    && (forall i, j :: 0 <= i < j < |records| ==> records[i].Lock? && records[j].Lock? ==>
        records[i].version != records[j].version)
  }

  ghost predicate BaseAccepted(records: seq<Entry>, current: map<string, string>, b: string, scheme: Scheme)
  {
    && OneToTop(OrdinalsOf(records, b, scheme))
    && LatestOf(records, b, scheme).Some?
    && PathOf(b, scheme) in current
    && LatestOf(records, b, scheme).value.digest == current[PathOf(b, scheme)]
  }

  lemma WellFormedSnoc(front: seq<Entry>, last: Entry, scheme: Scheme)
    ensures WellFormed(front + [last], scheme) <==>
      WellFormed(front, scheme) && Bound(last, scheme) && last.version !in Seen(front, scheme)
  {
    var records, n := front + [last], |front|;
    if WellFormed(records, scheme) {
      assert forall i :: 0 <= i < n ==> records[i] == front[i];
      assert Bound(records[n], scheme);
    }
    if WellFormed(front, scheme) && Bound(last, scheme) && last.version !in Seen(front, scheme) {
      forall i | 0 <= i < n ensures Bound(records[i], scheme) && records[i].version != last.version {
        assert records[i] == front[i] && front[i] in front;
      }
    }
  }

  lemma {:induction false} NoEntryFindings(records: seq<Entry>, scheme: Scheme)
    ensures EntryFindings(records, scheme) == [] <==> WellFormed(records, scheme)
  {
    if records != [] {
      var n := |records| - 1;
      NoEntryFindings(records[..n], scheme);
      WellFormedSnoc(records[..n], records[n], scheme);
      assert records == records[..n] + [records[n]];
    }
  }

  lemma {:induction false} NoBaseFindings(records: seq<Entry>, current: map<string, string>, todo: seq<string>,
                                          scheme: Scheme)
    requires forall b :: b in todo ==> PathOf(b, scheme) in current
    ensures BaseFindings(records, current, todo, scheme) == [] <==>
      forall b :: b in todo ==> BaseAccepted(records, current, b, scheme)
  {
    if todo != [] {
      var n := |todo| - 1;
      var front, last := todo[..n], todo[n];
      NoBaseFindings(records, current, front, scheme);
      assert todo == front + [last];
      assert (forall b :: b in todo ==> BaseAccepted(records, current, b, scheme)) <==>
             (forall b :: b in front ==> BaseAccepted(records, current, b, scheme))
             && BaseAccepted(records, current, last, scheme);
    }
  }

  lemma TextOnly(records: seq<Entry>, scheme: Scheme)
    requires WellFormed(records, scheme)
    ensures NonText !in records
  {
    forall i | 0 <= i < |records| ensures records[i] != NonText {
      assert Bound(records[i], scheme);
    }
  }

  /** The validator is silent exactly on accepted updates. */
  lemma SilentIffAccepted(file: LockFile, current: map<string, string>, historical: Option<LockFile>, scheme: Scheme)
    requires forall b :: b in scheme.names ==> PathOf(b, scheme) in current
    ensures NothingFound(Validation(file, current, historical, scheme)) <==> Accepted(file, current, historical, scheme)
  {
    if file.locks.List? {
      NoEntryFindings(file.locks.entries, scheme);
      NoBaseFindings(file.locks.entries, current, scheme.names, scheme);
      if WellFormed(file.locks.entries, scheme) { TextOnly(file.locks.entries, scheme); }
    }
  }

  // ---------- runs of accepted updates ----------

  datatype Update = Update(file: LockFile, current: map<string, string>)

  /** Each update is validated against the file of the one before it; the first against
      whatever was trusted then, if anything. */
  ghost predicate Run(updates: seq<Update>, trusted: Option<LockFile>, scheme: Scheme)
  {
    forall i {:trigger Silent(updates[i], Before(updates, trusted, i), scheme)} :: 0 <= i < |updates| ==>
      Silent(updates[i], Before(updates, trusted, i), scheme)
  }

  function Before(updates: seq<Update>, trusted: Option<LockFile>, i: nat): Option<LockFile>
    requires i < |updates|
  {
    if i == 0 then trusted else Some(updates[i - 1].file)
  }

  ghost predicate Silent(update: Update, before: Option<LockFile>, scheme: Scheme)
  {
    && (forall b :: b in scheme.names ==> PathOf(b, scheme) in update.current)
    && NothingFound(Validation(update.file, update.current, before, scheme))
  }

  lemma RunStep(updates: seq<Update>, trusted: Option<LockFile>, scheme: Scheme, i: nat)
    requires Run(updates, trusted, scheme) && i < |updates|
    ensures OldLocks(Before(updates, trusted, i)) <= Locks(updates[i])
  {
    RunAccepts(updates, trusted, scheme, i);
  }

  lemma RunWellFormed(updates: seq<Update>, trusted: Option<LockFile>, scheme: Scheme, i: nat)
    requires Run(updates, trusted, scheme) && i < |updates|
    ensures WellFormed(Locks(updates[i]), scheme)
  {
    RunAccepts(updates, trusted, scheme, i);
  }

  lemma PrefixTransitive<T>(a: seq<T>, b: seq<T>, c: seq<T>)
    requires a <= b <= c
    ensures a <= c
  {
  }

  lemma RunBase(updates: seq<Update>, trusted: Option<LockFile>, scheme: Scheme, i: nat, b: string)
    requires Run(updates, trusted, scheme) && i < |updates| && b in scheme.names
    ensures BaseAccepted(Locks(updates[i]), updates[i].current, b, scheme)
  {
    RunAccepts(updates, trusted, scheme, i);
  }

  lemma RunAccepts(updates: seq<Update>, trusted: Option<LockFile>, scheme: Scheme, i: nat)
    requires Run(updates, trusted, scheme) && i < |updates|
    ensures Accepted(updates[i].file, updates[i].current, Before(updates, trusted, i), scheme)
  {
    assert Silent(updates[i], Before(updates, trusted, i), scheme);
    SilentIffAccepted(updates[i].file, updates[i].current, Before(updates, trusted, i), scheme);
  }

  function Locks(update: Update): seq<Entry>
  {
    OldLocks(Some(update.file))
  }

  /** Lists that each extend the one before extend all the earlier ones. */
  lemma {:induction false} ChainOfPrefixes<T>(lists: seq<seq<T>>, start: seq<T>, i: nat, j: nat)
    requires i <= j < |lists|
    requires start <= lists[0]
    requires forall k, l :: 0 <= k && l == k + 1 < |lists| ==> lists[k] <= lists[l]
    ensures start <= lists[i] <= lists[j]
    decreases j
  {
    if i < j {
      ChainOfPrefixes(lists, start, i, j - 1);
      PrefixTransitive(lists[i], lists[j - 1], lists[j]);
    } else if j > 0 {
      ChainOfPrefixes(lists, start, j - 1, j - 1);
      PrefixTransitive(start, lists[j - 1], lists[j]);
    }
  }

  /** Nothing accepted is ever dropped or rewritten, the trusted start included. */
  lemma RunKeepsPrefix(updates: seq<Update>, trusted: Option<LockFile>, scheme: Scheme, i: nat, j: nat)
    requires Run(updates, trusted, scheme) && i <= j < |updates|
    ensures OldLocks(trusted) <= Locks(updates[i]) <= Locks(updates[j])
  {
    var lists := seq(|updates|, k requires 0 <= k < |updates| => Locks(updates[k]));
    RunStep(updates, trusted, scheme, 0);
    forall k, l | 0 <= k && l == k + 1 < |lists| ensures lists[k] <= lists[l] {
      RunStep(updates, trusted, scheme, l);
    }
    ChainOfPrefixes(lists, OldLocks(trusted), i, j);
  }

  /** In every accepted state each base locks the ordinals 1..k, each exactly once. */
  lemma RunKeepsOrdinals(updates: seq<Update>, trusted: Option<LockFile>, scheme: Scheme, i: nat, b: string)
    requires Run(updates, trusted, scheme) && i < |updates| && b in scheme.names
    ensures OneToTop(OrdinalsOf(Locks(updates[i]), b, scheme))
  {
    RunBase(updates, trusted, scheme, i, b);
  }

  /** A version once locked keeps its registry and digest in every later state. */
  lemma RunKeepsDigests(updates: seq<Update>, trusted: Option<LockFile>, scheme: Scheme, i: nat, j: nat, e: Entry,
                        f: Entry)
    requires Run(updates, trusted, scheme) && i <= j < |updates|
    requires e in Locks(updates[i]) && f in Locks(updates[j])
    requires e.Lock? && f.Lock? && e.version == f.version
    ensures e == f
  {
    RunKeepsPrefix(updates, trusted, scheme, i, j);
    RunWellFormed(updates, trusted, scheme, j);
    var early, late := Locks(updates[i]), Locks(updates[j]);
    var p :| 0 <= p < |early| && early[p] == e;
    var q :| 0 <= q < |late| && late[q] == f;
    assert late[p] == e;
    assert p == q;
  }

  lemma {:induction false} EntriesOfPrefix(early: seq<Entry>, late: seq<Entry>, b: string, scheme: Scheme)
    requires early <= late
    ensures EntriesOf(early, b, scheme) <= EntriesOf(late, b, scheme)
    decreases |late|
  {
    if |early| < |late| {
      EntriesOfPrefix(early, late[..|late| - 1], b, scheme);
    } else {
      assert early == late;
    }
  }

  /** The latest entry carries the largest ordinal of its base. */
  lemma {:induction false} LatestIsLargest(records: seq<Entry>, b: string, scheme: Scheme)
    ensures var latest, entries := LatestOf(records, b, scheme), EntriesOf(records, b, scheme);
      && (latest.None? <==> entries == [])
      && (latest.Some? ==> latest.value in entries)
      && forall e :: latest.Some? && e in entries ==>
           VersionOf(e, scheme).ordinal <= VersionOf(latest.value, scheme).ordinal
  {
    if records != [] {
      LatestIsLargest(records[..|records| - 1], b, scheme);
    }
  }

  lemma LatestCarriesTop(records: seq<Entry>, b: string, scheme: Scheme)
    requires OneToTop(OrdinalsOf(records, b, scheme))
    ensures LatestOf(records, b, scheme).Some?
    ensures LatestOf(records, b, scheme).value in EntriesOf(records, b, scheme)
    ensures VersionOf(LatestOf(records, b, scheme).value, scheme).ordinal == |EntriesOf(records, b, scheme)|
  {
    LatestIsLargest(records, b, scheme);
    var entries, ordinals := EntriesOf(records, b, scheme), OrdinalsOf(records, b, scheme);
    var latest := LatestOf(records, b, scheme).value;
    var k :| 0 <= k < |entries| && entries[k] == latest;
    assert ordinals[k] in ordinals;
    assert |ordinals| in ordinals;
    var t :| 0 <= t < |ordinals| && ordinals[t] == |ordinals|;
    assert entries[t] in entries;
  }

  lemma OrdinalIdentifiesEntry(records: seq<Entry>, b: string, scheme: Scheme, e: Entry, f: Entry)
    requires NoDuplicates(OrdinalsOf(records, b, scheme))
    requires e in EntriesOf(records, b, scheme) && f in EntriesOf(records, b, scheme)
    requires VersionOf(e, scheme).ordinal == VersionOf(f, scheme).ordinal
    ensures e == f
  {
    var entries, ordinals := EntriesOf(records, b, scheme), OrdinalsOf(records, b, scheme);
    var i :| 0 <= i < |entries| && entries[i] == e;
    var j :| 0 <= j < |entries| && entries[j] == f;
    assert ordinals[i] == ordinals[j];
  }

  /** The largest locked ordinal of a policy. */
  function Top(update: Update, b: string, scheme: Scheme): nat
  {
    var latest := LatestOf(Locks(update), b, scheme);
    if latest.Some? then VersionOf(latest.value, scheme).ordinal else 0
  }

  /** The top version never goes down, and a contract whose digest differs between two accepted
      states has a strictly larger top version in the later one. */
  lemma ChangedDigestNeedsNewVersion(updates: seq<Update>, trusted: Option<LockFile>, scheme: Scheme, i: nat, j: nat,
                                     b: string)
    requires Run(updates, trusted, scheme) && i <= j < |updates| && b in scheme.names
    ensures PathOf(b, scheme) in updates[i].current && PathOf(b, scheme) in updates[j].current
    ensures Top(updates[i], b, scheme) <= Top(updates[j], b, scheme)
    ensures updates[i].current[PathOf(b, scheme)] != updates[j].current[PathOf(b, scheme)] ==>
      Top(updates[i], b, scheme) < Top(updates[j], b, scheme)
  {
    RunKeepsPrefix(updates, trusted, scheme, i, j);
    RunBase(updates, trusted, scheme, i, b);
    RunBase(updates, trusted, scheme, j, b);
    EntriesOfPrefix(Locks(updates[i]), Locks(updates[j]), b, scheme);
    LatestCarriesTop(Locks(updates[i]), b, scheme);
    LatestCarriesTop(Locks(updates[j]), b, scheme);
    if Top(updates[i], b, scheme) == Top(updates[j], b, scheme) {
      SameTopSameLatest(Locks(updates[i]), Locks(updates[j]), b, scheme);
    }
  }

  lemma SameTopSameLatest(early: seq<Entry>, late: seq<Entry>, b: string, scheme: Scheme)
    requires OneToTop(OrdinalsOf(early, b, scheme)) && OneToTop(OrdinalsOf(late, b, scheme))
    requires EntriesOf(early, b, scheme) <= EntriesOf(late, b, scheme)
    requires |EntriesOf(early, b, scheme)| == |EntriesOf(late, b, scheme)|
    ensures LatestOf(early, b, scheme) == LatestOf(late, b, scheme)
  {
    LatestCarriesTop(early, b, scheme);
    LatestCarriesTop(late, b, scheme);
    OrdinalIdentifiesEntry(late, b, scheme, LatestOf(early, b, scheme).value, LatestOf(late, b, scheme).value);
  }
}
