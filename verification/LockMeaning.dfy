/** What an accepted lock file holds, entry by entry and policy by policy, and what each finding says,
    in terms of versions, files and digests alone. */
module LockMeaning {
  import opened Ordering
  import opened PolicyLocks

  // ---------- one entry ----------

  /** 64 lower-case hexadecimal digits. */
  predicate HexDigest(s: string)
  {
    |s| == 64 && forall c :: c in s ==> c in "0123456789abcdef"
  }

  lemma DigestMeans(s: string)
    ensures IsDigest(s) <==> HexDigest(s)
  {
    var digits := "0123456789abcdef";
    forall c: char ensures Digit(c) || 'a' <= c <= 'f' <==> c in digits {
      if Digit(c) { assert digits[c as int - '0' as int] == c; }
      if 'a' <= c <= 'f' { assert digits[10 + c as int - 'a' as int] == c; }
    }
    if HexDigest(s) {
      forall i | 0 <= i < 64 ensures Digit(s[i]) || 'a' <= s[i] <= 'f' { assert s[i] in s; }
    }
    if IsDigest(s) {
      forall c | c in s ensures c in digits { var i :| 0 <= i < |s| && s[i] == c; }
    }
  }

  /** The version names a locked policy, the registry is that policy's own file, and the digest is one. */
  predicate Proper(entry: Entry, scheme: Scheme)
  {
    && entry.Lock? && scheme.parse(entry.version).Some?
    && var b := scheme.parse(entry.version).value.name;
       b in scheme.paths && entry.registry == scheme.paths[b] && HexDigest(entry.digest)
  }

  lemma BoundIsProper(entry: Entry, scheme: Scheme)
    ensures Bound(entry, scheme) <==> Proper(entry, scheme)
  {
    if entry.Lock? { DigestMeans(entry.digest); }
  }

  /** The entry locks version n of policy b. */
  predicate LocksAs(entry: Entry, scheme: Scheme, b: string, n: nat)
  {
    Proper(entry, scheme) && scheme.parse(entry.version) == Some(Version(b, n))
  }

  lemma EntryLocks(entry: Entry, scheme: Scheme)
    ensures forall b, n: nat :: LocksAs(entry, scheme, b, n) <==>
      Bound(entry, scheme) && VersionOf(entry, scheme) == Version(b, n)
  {
    BoundIsProper(entry, scheme);
  }

  // ---------- the versions of one policy ----------

  ghost predicate Locked(records: seq<Entry>, scheme: Scheme, b: string, n: nat)
  {
    exists i :: 0 <= i < |records| && LocksAs(records[i], scheme, b, n)
  }

  ghost predicate LockedTwice(records: seq<Entry>, scheme: Scheme, b: string, n: nat)
  {
    exists i, j :: 0 <= i < j < |records| && LocksAs(records[i], scheme, b, n) && LocksAs(records[j], scheme, b, n)
  }

  /** Versions 1 to k of the policy are locked, once each, and no others. */
  ghost predicate LockedThrough(records: seq<Entry>, scheme: Scheme, b: string, k: nat)
  {
    k >= 1 && forall n: nat :: (Locked(records, scheme, b, n) <==> 1 <= n <= k) && !LockedTwice(records, scheme, b, n)
  }

  /** Entry i is the first to lock the policy's largest version. */
  ghost predicate LargestAt(records: seq<Entry>, scheme: Scheme, b: string, i: nat, n: nat)
  {
    && i < |records| && LocksAs(records[i], scheme, b, n)
    && (forall m: nat :: Locked(records, scheme, b, m) ==> m <= n)
    && forall j: nat :: j < i ==> !LocksAs(records[j], scheme, b, n)
  }

  /** The contract's current digest is the one locked for its largest version. */
  ghost predicate Current(records: seq<Entry>, current: map<string, string>, scheme: Scheme, b: string)
  {
    exists i: nat, n: nat :: LargestAt(records, scheme, b, i, n) && b in scheme.paths && scheme.paths[b] in current
      && records[i].digest == current[scheme.paths[b]]
  }

  lemma LockedSnoc(front: seq<Entry>, last: Entry, scheme: Scheme, b: string, n: nat)
    ensures Locked(front + [last], scheme, b, n) <==> Locked(front, scheme, b, n) || LocksAs(last, scheme, b, n)
    ensures LockedTwice(front + [last], scheme, b, n) <==>
      LockedTwice(front, scheme, b, n) || (Locked(front, scheme, b, n) && LocksAs(last, scheme, b, n))
  {
    hide LocksAs;
    var all, k := front + [last], |front|;
    assert all[k] == last && forall i :: 0 <= i < k ==> all[i] == front[i];
    if Locked(front, scheme, b, n) && LocksAs(last, scheme, b, n) {
      var i :| 0 <= i < k && LocksAs(front[i], scheme, b, n);
      assert LocksAs(all[i], scheme, b, n) && LocksAs(all[k], scheme, b, n);
    }
    if LockedTwice(front, scheme, b, n) {
      var i, j :| 0 <= i < j < k && LocksAs(front[i], scheme, b, n) && LocksAs(front[j], scheme, b, n);
      assert LocksAs(all[i], scheme, b, n) && LocksAs(all[j], scheme, b, n);
    }
    if LockedTwice(all, scheme, b, n) {
      var i, j :| 0 <= i < j < |all| && LocksAs(all[i], scheme, b, n) && LocksAs(all[j], scheme, b, n);
      assert LocksAs(front[i], scheme, b, n);
    }
  }

  ghost predicate Repeats(ordinals: seq<nat>, n: nat)
  {
    exists i, j :: 0 <= i < j < |ordinals| && ordinals[i] == ordinals[j] == n
  }

  lemma RepeatsSnoc(front: seq<nat>, last: nat, n: nat)
    ensures Repeats(front + [last], n) <==> Repeats(front, n) || (n in front && last == n)
  {
    var all, k := front + [last], |front|;
    assert all[k] == last && forall i :: 0 <= i < k ==> all[i] == front[i];
    if n in front && last == n {
      var i :| 0 <= i < k && front[i] == n;
      assert all[i] == n && all[k] == n;
    }
    if Repeats(front, n) {
      var i, j :| 0 <= i < j < k && front[i] == front[j] == n;
      assert all[i] == n && all[j] == n;
    }
    if Repeats(all, n) {
      var i, j :| 0 <= i < j < |all| && all[i] == all[j] == n;
      assert front[i] == n;
    }
  }

  lemma {:induction false} OrdinalsMean(records: seq<Entry>, scheme: Scheme, b: string, n: nat)
    ensures n in OrdinalsOf(records, b, scheme) <==> Locked(records, scheme, b, n)
    ensures Repeats(OrdinalsOf(records, b, scheme), n) <==> LockedTwice(records, scheme, b, n)
  {
    hide OrdinalsOf, Locked, LockedTwice, Repeats, LocksAs, Bound;
    if records == [] {
      NoOrdinals(records, scheme, b, n);
    } else {
      var front, last := records[..|records| - 1], records[|records| - 1];
      assert records == front + [last];
      OrdinalsMean(front, scheme, b, n);
      OrdinalsSnoc(front, last, b, scheme);
      LockedSnoc(front, last, scheme, b, n);
      EntryLocks(last, scheme);
      var before := OrdinalsOf(front, b, scheme);
      if Belongs(last, b, scheme) {
        RepeatsSnoc(before, VersionOf(last, scheme).ordinal, n);
        assert LocksAs(last, scheme, b, n) <==> VersionOf(last, scheme).ordinal == n;
      } else {
        assert before + [] == before;
      }
    }
  }

  lemma NoOrdinals(none: seq<Entry>, scheme: Scheme, b: string, n: nat)
    requires none == []
    ensures OrdinalsOf(none, b, scheme) == [] && !Locked(none, scheme, b, n) && !LockedTwice(none, scheme, b, n)
    ensures !Repeats([], n)
  {
  }

  lemma OneToTopMeans(records: seq<Entry>, scheme: Scheme, b: string)
    ensures OneToTop(OrdinalsOf(records, b, scheme)) <==> exists k: nat :: LockedThrough(records, scheme, b, k)
  {
    hide OrdinalsOf, Locked, LockedTwice;
    var ordinals := OrdinalsOf(records, b, scheme);
    forall n: nat
      ensures n in ordinals <==> Locked(records, scheme, b, n)
      ensures Repeats(ordinals, n) <==> LockedTwice(records, scheme, b, n)
    {
      OrdinalsMean(records, scheme, b, n);
    }
    if OneToTop(ordinals) {
      assert LockedThrough(records, scheme, b, |ordinals|);
    }
    if k: nat :| LockedThrough(records, scheme, b, k) {
      assert Locked(records, scheme, b, k);
      forall i, j | 0 <= i < j < |ordinals| ensures ordinals[i] != ordinals[j] {
        assert !Repeats(ordinals, ordinals[i]);
      }
      RangeHolds(k);
      forall n: nat ensures n in ordinals <==> n in Range(k) { }
      NoDuplicatesSameBag(ordinals, Range(k));
      SameLength(ordinals, Range(k));
    }
  }

  lemma {:induction false} LatestMeans(records: seq<Entry>, scheme: Scheme, b: string)
    ensures var latest := LatestOf(records, b, scheme);
      && (latest.None? <==> forall n: nat :: !Locked(records, scheme, b, n))
      && (latest.Some? ==> exists i: nat, n: nat :: LargestAt(records, scheme, b, i, n) && records[i] == latest.value)
  {
    hide Locked, LocksAs, Bound;
    if records == [] {
      forall n: nat ensures !Locked(records, scheme, b, n) { NoOrdinals(records, scheme, b, n); }
    } else {
      var front, last := records[..|records| - 1], records[|records| - 1];
      assert records == front + [last];
      LatestMeans(front, scheme, b);
      LatestSnoc(front, last, b, scheme);
      EntryLocks(last, scheme);
      forall n: nat
        ensures Locked(records, scheme, b, n) <==> Locked(front, scheme, b, n) || LocksAs(last, scheme, b, n)
      {
        LockedSnoc(front, last, scheme, b, n);
      }
      LatestStep(front, last, scheme, b);
    }
  }

  lemma LatestStep(front: seq<Entry>, last: Entry, scheme: Scheme, b: string)
    requires var latest := LatestOf(front, b, scheme);
      && (latest.None? <==> forall n: nat :: !Locked(front, scheme, b, n))
      && (latest.Some? ==> exists i: nat, n: nat :: LargestAt(front, scheme, b, i, n) && front[i] == latest.value)
    requires forall n: nat ::
      Locked(front + [last], scheme, b, n) <==> Locked(front, scheme, b, n) || LocksAs(last, scheme, b, n)
    ensures var latest := LatestOf(front + [last], b, scheme);
      latest.Some? ==>
        exists i: nat, n: nat :: LargestAt(front + [last], scheme, b, i, n) && (front + [last])[i] == latest.value
  {
    hide Locked, LocksAs, Bound, LatestOf;
    var records, k := front + [last], |front|;
    LatestSnoc(front, last, b, scheme);
    EntryLocks(last, scheme);
    assert records[k] == last && forall i :: 0 <= i < k ==> records[i] == front[i];
    var before := LatestOf(front, b, scheme);
    if before.Some? {
      var i: nat, n: nat :| LargestAt(front, scheme, b, i, n) && front[i] == before.value;
      EntryLocks(front[i], scheme);
      IsLocked(front, scheme, b, i, n);
      if Belongs(last, b, scheme) && VersionOf(last, scheme).ordinal > n {
        NewLargest(front, last, scheme, b);
      } else {
        assert LargestAt(records, scheme, b, i, n) && records[i] == before.value;
      }
    } else if Belongs(last, b, scheme) {
      NewLargest(front, last, scheme, b);
    }
  }

  lemma IsLocked(records: seq<Entry>, scheme: Scheme, b: string, i: nat, n: nat)
    requires i < |records| && LocksAs(records[i], scheme, b, n)
    ensures Locked(records, scheme, b, n)
  {
    hide LocksAs;
  }

  lemma NewLargest(front: seq<Entry>, last: Entry, scheme: Scheme, b: string)
    requires Belongs(last, b, scheme)
    requires forall m: nat :: Locked(front, scheme, b, m) ==> m < VersionOf(last, scheme).ordinal
    requires forall n: nat ::
      Locked(front + [last], scheme, b, n) <==> Locked(front, scheme, b, n) || LocksAs(last, scheme, b, n)
    ensures LargestAt(front + [last], scheme, b, |front|, VersionOf(last, scheme).ordinal)
  {
    hide Locked, LocksAs, Bound;
    var records, n := front + [last], VersionOf(last, scheme).ordinal;
    EntryLocks(last, scheme);
    assert records[|front|] == last;
    forall j | 0 <= j < |front| ensures !LocksAs(records[j], scheme, b, n) {
      assert records[j] == front[j];
      if LocksAs(front[j], scheme, b, n) { IsLocked(front, scheme, b, j, n); }
    }
  }

  lemma LargestIsUnique(records: seq<Entry>, scheme: Scheme, b: string, i: nat, n: nat, j: nat, m: nat)
    requires LargestAt(records, scheme, b, i, n) && LargestAt(records, scheme, b, j, m)
    ensures i == j && n == m
  {
    hide Locked, LocksAs;
    IsLocked(records, scheme, b, i, n);
    IsLocked(records, scheme, b, j, m);
  }

  /** A policy is current exactly when the latest entry the validator keeps for it has its digest. */
  lemma CurrentMeans(records: seq<Entry>, current: map<string, string>, scheme: Scheme, b: string)
    requires b in scheme.paths && scheme.paths[b] in current
    ensures Current(records, current, scheme, b) <==>
      LatestOf(records, b, scheme).Some? && LatestOf(records, b, scheme).value.digest == current[PathOf(b, scheme)]
  {
    hide Locked, LocksAs, Bound, LatestOf;
    LatestMeans(records, scheme, b);
    var latest := LatestOf(records, b, scheme);
    if latest.Some? {
      var i: nat, n: nat :| LargestAt(records, scheme, b, i, n) && records[i] == latest.value;
      forall j: nat, m: nat | LargestAt(records, scheme, b, j, m)
        ensures j == i
      {
        LargestIsUnique(records, scheme, b, i, n, j, m);
      }
    } else {
      forall j: nat, m: nat ensures !LargestAt(records, scheme, b, j, m) { LargestIsLocked(records, scheme, b, j, m); }
    }
  }

  lemma LargestIsLocked(records: seq<Entry>, scheme: Scheme, b: string, i: nat, n: nat)
    ensures LargestAt(records, scheme, b, i, n) ==> Locked(records, scheme, b, n)
  {
  }

  // ---------- acceptance ----------

  ghost predicate VersionsDiffer(records: seq<Entry>)
  {
    forall i, j :: 0 <= i < j < |records| && records[i].Lock? && records[j].Lock? ==>
      records[i].version != records[j].version
  }

  /** An update is accepted if and only if its header is exact, its list extends the trusted one, every
      entry binds a locked policy's version to that policy's own file and a digest, no version is
      locked twice, and of every policy versions 1 to some k are locked, the last with its contract's
      digest. */
  lemma AcceptedMeans(file: LockFile, current: map<string, string>, historical: Option<LockFile>, scheme: Scheme)
    requires ValidScheme(scheme) && forall b :: b in scheme.names ==> PathOf(b, scheme) in current
    ensures NothingFound(Validation(file, current, historical, scheme)) <==>
      && file.headerExact && file.locks.List?
      && (historical.Some? ==> historical.value.locks.List? && historical.value.locks.entries <= file.locks.entries)
      && (forall e :: e in file.locks.entries ==> Proper(e, scheme))
      && VersionsDiffer(file.locks.entries)
      && forall b :: b in scheme.names ==>
           (exists k: nat :: LockedThrough(file.locks.entries, scheme, b, k))
           && Current(file.locks.entries, current, scheme, b)
  {
    hide Bound, Proper, OneToTop, OrdinalsOf, LatestOf, LockedThrough, Current, Validation;
    SilentIffAccepted(file, current, historical, scheme);
    if file.locks.List? {
      var records := file.locks.entries;
      forall e ensures Bound(e, scheme) <==> Proper(e, scheme) { BoundIsProper(e, scheme); }
      forall b | b in scheme.names
        ensures BaseAccepted(records, current, b, scheme) <==>
          (exists k: nat :: LockedThrough(records, scheme, b, k)) && Current(records, current, scheme, b)
      {
        OneToTopMeans(records, scheme, b);
        CurrentMeans(records, current, scheme, b);
      }
    }
  }

  // ---------- what each finding says ----------

  predicate Unproper(entry: Entry, scheme: Scheme)
  {
    !entry.NotClosed? && !Proper(entry, scheme)
  }

  /** The finding is about some entry of the list. */
  ghost predicate EntryBlamed(records: seq<Entry>, scheme: Scheme, finding: Finding)
  {
    match finding
    case EntryNotClosed => NotClosed in records
    case InvalidBinding => exists e :: e in records && Unproper(e, scheme)
    case DuplicateVersion(version) => VersionTwice(records, scheme, version)
    case _ => false
  }

  lemma {:induction false} EntryFindingsMean(records: seq<Entry>, scheme: Scheme, finding: Finding)
    ensures finding in EntryFindings(records, scheme) <==> EntryBlamed(records, scheme, finding)
  {
    hide EntryBlamed, FindingsAt;
    if records == [] {
      NobodyBlamed(records, scheme, finding);
    } else {
      var front, last := records[..|records| - 1], records[|records| - 1];
      assert records == front + [last];
      EntryFindingsMean(front, scheme, finding);
      OneMoreBlamed(front, last, scheme, finding);
    }
  }

  lemma NobodyBlamed(none: seq<Entry>, scheme: Scheme, finding: Finding)
    requires none == []
    ensures !EntryBlamed(none, scheme, finding)
  {
  }

  lemma OneMoreBlamed(front: seq<Entry>, last: Entry, scheme: Scheme, finding: Finding)
    ensures EntryBlamed(front + [last], scheme, finding) <==>
      EntryBlamed(front, scheme, finding) || finding in FindingsAt(front, last, scheme)
  {
    hide Bound, Proper, VersionTwice, Seen;
    var records := front + [last];
    assert last in records && forall e :: e in front ==> e in records;
    BoundIsProper(last, scheme);
    SeenMeans(front, scheme);
    if finding.DuplicateVersion? { VersionTwiceSnoc(front, last, scheme, finding.version); }
    ProperIsLock(last, scheme);
  }

  lemma ProperIsLock(entry: Entry, scheme: Scheme)
    ensures Proper(entry, scheme) ==> entry.Lock?
  {
  }

  predicate Carries(entry: Entry, scheme: Scheme, version: string)
  {
    Proper(entry, scheme) && entry.version == version
  }

  /** Two proper entries carry the version. */
  ghost predicate VersionTwice(records: seq<Entry>, scheme: Scheme, version: string)
  {
    exists i, j ::
      0 <= i < j < |records| && Carries(records[i], scheme, version) && Carries(records[j], scheme, version)
  }

  lemma NothingTwice(none: seq<Entry>, scheme: Scheme, version: string)
    requires none == []
    ensures !VersionTwice(none, scheme, version)
  {
  }

  lemma SeenMeans(records: seq<Entry>, scheme: Scheme)
    ensures forall version ::
      version in Seen(records, scheme) <==> exists e :: e in records && Carries(e, scheme, version)
  {
    hide Bound;
    forall e ensures Bound(e, scheme) <==> Proper(e, scheme) { BoundIsProper(e, scheme); }
    forall version | version in Seen(records, scheme) ensures exists e :: e in records && Carries(e, scheme, version) {
      var e :| e in records && Bound(e, scheme) && e.version == version;
      assert Carries(e, scheme, version);
    }
  }

  lemma VersionTwiceSnoc(front: seq<Entry>, last: Entry, scheme: Scheme, version: string)
    ensures VersionTwice(front + [last], scheme, version) <==>
      || VersionTwice(front, scheme, version)
      || (Carries(last, scheme, version) && exists e :: e in front && Carries(e, scheme, version))
  {
    hide Carries;
    var all, k := front + [last], |front|;
    assert all[k] == last && forall i :: 0 <= i < k ==> all[i] == front[i];
    if Carries(last, scheme, version) && exists e :: e in front && Carries(e, scheme, version) {
      var e :| e in front && Carries(e, scheme, version);
      var i :| 0 <= i < k && front[i] == e;
      assert all[i] == e && all[k] == last;
    }
    if VersionTwice(front, scheme, version) {
      var i, j :| 0 <= i < j < k && Carries(front[i], scheme, version) && Carries(front[j], scheme, version);
      assert all[i] == front[i] && all[j] == front[j];
    }
    if VersionTwice(all, scheme, version) {
      var i, j :| 0 <= i < j < |all| && Carries(all[i], scheme, version) && Carries(all[j], scheme, version);
      assert front[i] == all[i] && front[i] in front;
      if j < k { assert front[j] == all[j]; }
    }
  }

  ghost predicate Through(records: seq<Entry>, scheme: Scheme, b: string)
  {
    exists k: nat :: LockedThrough(records, scheme, b, k)
  }

  ghost predicate BaseBlamed(records: seq<Entry>, current: map<string, string>, scheme: Scheme, todo: seq<string>,
                             finding: Finding)
  {
    match finding
    case NotContiguous(b) => b in todo && !Through(records, scheme, b)
    case StaleDigest(path) =>
      exists b :: b in todo && PathOf(b, scheme) == path && !Current(records, current, scheme, b)
    case _ => false
  }

  lemma {:induction false} BaseFindingsMean(records: seq<Entry>, current: map<string, string>, scheme: Scheme,
                                            todo: seq<string>, finding: Finding)
    requires forall b :: b in todo ==> b in scheme.paths && PathOf(b, scheme) in current
    ensures finding in BaseFindings(records, current, todo, scheme) <==>
      BaseBlamed(records, current, scheme, todo, finding)
  {
    hide OneToTop, OrdinalsOf, LatestOf, Through, Current;
    if todo != [] {
      var n := |todo| - 1;
      assert todo == todo[..n] + [todo[n]];
      BaseFindingsMean(records, current, scheme, todo[..n], finding);
      BaseMeans(records, current, scheme, todo[n]);
    }
  }

  lemma BaseMeans(records: seq<Entry>, current: map<string, string>, scheme: Scheme, b: string)
    requires b in scheme.paths && PathOf(b, scheme) in current
    ensures OneToTop(OrdinalsOf(records, b, scheme)) <==> Through(records, scheme, b)
    ensures Current(records, current, scheme, b) <==>
      LatestOf(records, b, scheme).Some? && LatestOf(records, b, scheme).value.digest == current[PathOf(b, scheme)]
  {
    hide OneToTop, OrdinalsOf, LatestOf, LockedThrough, Current;
    OneToTopMeans(records, scheme, b);
    CurrentMeans(records, current, scheme, b);
  }

  /** What each finding of the validator is about. */
  ghost predicate Blamed(file: LockFile, current: map<string, string>, historical: Option<LockFile>, scheme: Scheme,
                         finding: Finding)
  {
    match finding
    case HeaderNotExact => !file.headerExact
    case NotAList => !file.locks.List?
    case PrefixNotRetained =>
      && file.locks.List? && historical.Some?
      && !(historical.value.locks.List? && historical.value.locks.entries <= file.locks.entries)
    case _ =>
      && file.locks.List?
      && (EntryBlamed(file.locks.entries, scheme, finding)
          || BaseBlamed(file.locks.entries, current, scheme, scheme.names, finding))
  }

  /** The validator raises instead of answering exactly when it has a list to look at and either meets an
      entry whose version is no text or compares the list with trusted locks that have no length. */
  lemma RaisesWhen(file: LockFile, current: map<string, string>, historical: Option<LockFile>, scheme: Scheme)
    requires forall b :: b in scheme.names ==> PathOf(b, scheme) in current
    ensures Validation(file, current, historical, scheme) == None <==>
      && file.locks.List?
      && ((historical.Some? && historical.value.locks.Unsized?)
          || exists i :: 0 <= i < |file.locks.entries| && file.locks.entries[i].NonText?)
  {
    if file.locks.List? && NonText in file.locks.entries {
      var i :| 0 <= i < |file.locks.entries| && file.locks.entries[i] == NonText;
      assert file.locks.entries[i].NonText?;
    }
  }

  /** A finding is reported exactly when there is something it is about. */
  lemma FindingsMean(file: LockFile, current: map<string, string>, historical: Option<LockFile>, scheme: Scheme,
                     finding: Finding)
    requires ValidScheme(scheme) && forall b :: b in scheme.names ==> PathOf(b, scheme) in current
    ensures finding in Findings(file, current, historical, scheme) <==>
      Blamed(file, current, historical, scheme, finding)
  {
    hide EntryFindings, BaseFindings, BaseBlamed, EntryBlamed;
    if file.locks.List? {
      EntryFindingsMean(file.locks.entries, scheme, finding);
      BaseFindingsMean(file.locks.entries, current, scheme, scheme.names, finding);
      BlamedApart(file.locks.entries, current, scheme, finding);
    }
  }

  lemma BlamedApart(records: seq<Entry>, current: map<string, string>, scheme: Scheme, finding: Finding)
    ensures finding.HeaderNotExact? || finding.NotAList? || finding.PrefixNotRetained? ==>
      !EntryBlamed(records, scheme, finding) && !BaseBlamed(records, current, scheme, scheme.names, finding)
  {
  }

  // ---------- runs ----------

  /** Every lock ever accepted names its own policy's file. */
  lemma RunBindsFiles(updates: seq<Update>, trusted: Option<LockFile>, scheme: Scheme, i: nat, e: Entry)
    requires Run(updates, trusted, scheme) && i < |updates| && e in Locks(updates[i])
    ensures Proper(e, scheme)
  {
    hide Bound, Proper;
    RunWellFormed(updates, trusted, scheme, i);
    var k :| 0 <= k < |Locks(updates[i])| && Locks(updates[i])[k] == e;
    BoundIsProper(e, scheme);
  }

  /** In every accepted state each policy's contract has the digest locked for its largest version. */
  lemma RunStaysCurrent(updates: seq<Update>, trusted: Option<LockFile>, scheme: Scheme, i: nat, b: string)
    requires ValidScheme(scheme) && Run(updates, trusted, scheme) && i < |updates| && b in scheme.names
    ensures Current(Locks(updates[i]), updates[i].current, scheme, b)
    ensures exists k: nat :: LockedThrough(Locks(updates[i]), scheme, b, k)
  {
    hide Bound, OneToTop, OrdinalsOf, LatestOf, LockedThrough, Current;
    RunBase(updates, trusted, scheme, i, b);
    OneToTopMeans(Locks(updates[i]), scheme, b);
    CurrentMeans(Locks(updates[i]), updates[i].current, scheme, b);
  }
}
