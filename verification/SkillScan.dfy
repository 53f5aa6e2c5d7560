/** scanSkillRoot (internal/claudeadapter/inventoryscan.go): every entry of a skill root becomes
    a skill, a recorded gap, or is a plain directory that never claimed to be a skill. */
module SkillScan {
  import opened Ordering
  import opened CoverageGaps
  import opened InventoryGraph
  import opened HostTree
  import opened Visits
  import GraphIdentity

  /** The digest function and the host that one scan sees. */
  datatype World = World(hex: Hex, host: Host)

  function ManifestPath(root: Path, name: string): Path { root + [name, "SKILL.md"] }

  /** What reading one manifest comes to. A link was put there to be a component, so a missing
      file behind it is a dangling link; a plain entry without the file is not a component. */
  function FileVisit<T>(w: World, path: Path, e: Entry, parse: string -> Option<T>): Visit<T>
  {
    match w.host.read(path)
    case ReadRefused => Missed(if e.isSymlink then UNRESOLVABLE_SYMLINK else UNREADABLE)
    case ReadMissing => if e.isSymlink then Missed(UNRESOLVABLE_SYMLINK) else Absent
    case Content(text, truncated) =>
      if truncated then Missed(TRUNCATED)
      else match parse(text) case None => Missed(UNPARSEABLE) case Some(item) => Found(item)
  }

  /** The skill that a manifest's text declares, if it names one. */
  function SkillFrom(w: World, path: Path, scope: string, text: string): Option<SkillDescriptor>
  {
    match w.host.frontmatterName(text)
    case None => None
    case Some(name) =>
      Some(Skill(name, "", scope, true, false, w.host.pseudonym(path), w.hex(["skill-manifest", name, text])))
  }

  function ParseSkill(w: World, path: Path, scope: string): string -> Option<SkillDescriptor>
  {
    (text: string) => SkillFrom(w, path, scope, text)
  }

  function SkillVisit(w: World, root: Path, scope: string): Entry -> Visit<SkillDescriptor>
  {
    (e: Entry) =>
      if Eligible(e)
      then FileVisit(w, ManifestPath(root, e.name), e, ParseSkill(w, ManifestPath(root, e.name), scope))
      else Ineligible
  }

  // ---------- one file behind an entry, said of the host alone ----------

  /** The link leads nowhere: what it points at is refused or missing. */
  predicate BrokenLink(w: World, path: Path, e: Entry)
  {
    e.isSymlink && (w.host.read(path).ReadRefused? || w.host.read(path).ReadMissing?)
  }

  predicate RefusedFile(w: World, path: Path, e: Entry)
  {
    !e.isSymlink && w.host.read(path).ReadRefused?
  }

  predicate NoFile(w: World, path: Path, e: Entry)
  {
    !e.isSymlink && w.host.read(path).ReadMissing?
  }

  predicate CutShort(w: World, path: Path)
  {
    w.host.read(path).Content? && w.host.read(path).truncated
  }

  /** The whole text was read. */
  predicate Whole(w: World, path: Path)
  {
    w.host.read(path).Content? && !w.host.read(path).truncated
  }

  function WholeText(w: World, path: Path): string
  {
    match w.host.read(path) case Content(text, _) => text case _ => ""
  }

  predicate Declares(w: World, path: Path)
  {
    Whole(w, path) && w.host.frontmatterName(WholeText(w, path)).Some?
  }

  /** The skill that a manifest's text declares. */
  predicate DeclaredBy(w: World, path: Path, scope: string, s: SkillDescriptor)
  {
    && Declares(w, path) && s.name == w.host.frontmatterName(WholeText(w, path)).value
    && s.path == w.host.pseudonym(path) && s.scope == scope && s.enabled && !s.disabled && s.version == ""
    && s.fingerprint == w.hex(["skill-manifest", s.name, WholeText(w, path)])
  }

  /** Nothing of the entry is lost: its manifest, if it has one, was read whole and names a skill. */
  predicate TakenIn(w: World, root: Path, e: Entry)
  {
    Eligible(e) ==> NoFile(w, ManifestPath(root, e.name), e) || Declares(w, ManifestPath(root, e.name))
  }

  lemma TakenInMeans(w: World, root: Path, scope: string, e: Entry)
    ensures !SkillVisit(w, root, scope)(e).Missed? <==> TakenIn(w, root, e)
  {
  }

  // ---------- the scan of a root ----------

  predicate SkillLeq(x: SkillDescriptor, y: SkillDescriptor)
  {
    if x.name == y.name then StringLeq(x.path, y.path) else StringLeq(x.name, y.name)
  }

  lemma SkillLeqIsOrder()
    ensures Total(SkillLeq) && Transitive(SkillLeq)
  {
    forall x: SkillDescriptor, y: SkillDescriptor ensures SkillLeq(x, y) || SkillLeq(y, x) {
      StringLeqTotal(x.name, y.name);
      StringLeqTotal(x.path, y.path);
    }
    forall x: SkillDescriptor, y: SkillDescriptor, z: SkillDescriptor | SkillLeq(x, y) && SkillLeq(y, z)
      ensures SkillLeq(x, z)
    {
      SkillLeqTransitive(x, y, z);
    }
  }

  lemma SkillLeqTransitive(x: SkillDescriptor, y: SkillDescriptor, z: SkillDescriptor)
    requires SkillLeq(x, y) && SkillLeq(y, z)
    ensures SkillLeq(x, z)
  {
    if x.name == y.name == z.name {
      StringLeqTransitive(x.path, y.path, z.path);
    } else if x.name != y.name && y.name != z.name {
      StringLeqTransitive(x.name, y.name, z.name);
      if x.name == z.name { StringLeqAntisymmetric(x.name, y.name); }
    }
  }

  datatype Scan = Scan(skills: seq<SkillDescriptor>, gaps: Tally, observed: bool)

  /** What scanning one skill root returns. */
  function ScanOf(w: World, root: Path, scope: string): Scan
  {
    var listing := w.host.list(root);
    if w.host.probe(root).Missing? then Scan([], map[], false)
    else if w.host.probe(root).Refused? || listing.ListRefused? then
      Scan([], Added(map[], RootGap(w.host, root)), false)
    else Scan(SortedBy(SkillLeq, FoundIn(SkillVisit(w, root, scope), listing.entries)),
              GapsIn(SkillVisit(w, root, scope), listing.entries), true)
  }

  method ScanSkillRoot(w: World, root: Path, scope: string)
      returns (skills: seq<SkillDescriptor>, tally: Tally, observed: bool)
    requires ValidHost(w.host)
    ensures Scan(skills, tally, observed) == ScanOf(w, root, scope)
  {
    hide FoundIn, GapsIn, Added, InjectivePaths, SkillLeq, Ordered;
    var gaps := new Gaps();
    match w.host.probe(root) {
      case Refused =>
        gaps.Add(RootGap(w.host, root));
        return [], gaps.tally, false;
      case Missing =>
        return [], map[], false;
      case Present =>
    }
    var listing := w.host.list(root);
    if listing.ListRefused? {
      gaps.Add(RootGap(w.host, root));
      return [], gaps.tally, false;
    }
    var entries := listing.entries;
    assert ValidListing(w.host.list(root));
    ghost var visit := SkillVisit(w, root, scope);
    skills := [];
    NoEntries(visit, entries[..0]);
    for i := 0 to |entries|
      invariant |skills| <= i
      invariant skills == FoundIn(visit, entries[..i])
      invariant gaps.tally == GapsIn(visit, entries[..i])
    {
      var e := entries[i];
      assert entries[..i + 1] == entries[..i] + [e];
      OneMoreEntry(visit, entries[..i], e);
      if |skills| >= MAX_SKILL_MANIFESTS || (!e.isDir && !e.isSymlink) { continue; }
      var path := ManifestPath(root, e.name);
      match w.host.read(path) {
        case ReadRefused =>
          if e.isSymlink { gaps.Add(UNRESOLVABLE_SYMLINK); } else { gaps.Add(UNREADABLE); }
        case ReadMissing =>
          if e.isSymlink { gaps.Add(UNRESOLVABLE_SYMLINK); }
        case Content(text, truncated) =>
          if truncated {
            gaps.Add(TRUNCATED);
          } else {
            match w.host.frontmatterName(text) {
              case None => gaps.Add(UNPARSEABLE);
              case Some(name) =>
                skills := skills + [Skill(name, "", scope, true, false, w.host.pseudonym(path),
                                          w.hex(["skill-manifest", name, text]))];
            }
          }
      }
    }
    assert entries[..|entries|] == entries;
    SkillLeqIsOrder();
    skills := SortBy(skills, SkillLeq);
    OneSortedSkillList(w, root, scope, entries, skills);
    return skills, gaps.tally, true;
  }

  // ---------- nothing is skipped silently ----------

  /** Every directory or link of a skill root that could be listed is a skill, a recorded gap, or
      a plain directory without a SKILL.md. */
  lemma NothingSkippedSilently(w: World, root: Path, scope: string)
    requires w.host.probe(root).Present?
    ensures var scan, visit := ScanOf(w, root, scope), SkillVisit(w, root, scope);
      match w.host.list(root)
      case ListRefused => TotalOf(scan.gaps) == 1
      case Listed(entries) =>
        CountOf(IsCandidate(visit), entries) == |scan.skills| + TotalOf(scan.gaps) + CountOf(IsAbsent(visit), entries)
  {
    hide FoundIn, GapsIn, IsCandidate, IsAbsent, SkillVisit;
    var visit := SkillVisit(w, root, scope);
    match w.host.list(root) {
      case ListRefused => TotalsAdd(map[], map[], RootGap(w.host, root));
      case Listed(entries) =>
        EntriesAccounted(visit, entries);
        SameLength(SortedBy(SkillLeq, FoundIn(visit, entries)), FoundIn(visit, entries));
    }
  }

  /** Each class counts exactly the entries of the root that were missed for that reason. */
  lemma {:induction false} GapsByCause(w: World, root: Path, scope: string, entries: seq<Entry>, gap: GapClass)
    ensures Count(GapsIn(SkillVisit(w, root, scope), entries), gap) ==
      CountOf(IsMissed(SkillVisit(w, root, scope), gap), entries)
  {
    hide GapsIn, CountOf;
    assert Classified(SkillVisit(w, root, scope));
    CountedByCause(SkillVisit(w, root, scope), entries, gap);
  }

  /** No recorded gap of a root has a cause: it is absent, or readable with every entry a skill, a
      plain directory or no candidate. */
  ghost predicate Clean(w: World, root: Path, scope: string)
  {
    match w.host.probe(root)
    case Refused => false
    case Missing => true
    case Present =>
      match w.host.list(root)
      case ListRefused => false
      case Listed(entries) => forall e :: e in entries ==> TakenIn(w, root, e)
  }

  /** A total of zero says exactly that nothing of the root was missed. */
  lemma ZeroMeansClean(w: World, root: Path, scope: string)
    ensures var gaps := ScanOf(w, root, scope).gaps;
      TotalOf(gaps) >= 0 && (TotalOf(gaps) == 0 <==> Clean(w, root, scope))
  {
    hide SkillVisit, GapsIn, TakenIn;
    TotalsAdd(map[], map[], RootGap(w.host, root));
    assert TotalOf(map[]) == 0;
    forall e
      ensures !SkillVisit(w, root, scope)(e).Missed? <==> TakenIn(w, root, e)
    {
      TakenInMeans(w, root, scope, e);
    }
    if w.host.probe(root).Present? && w.host.list(root).Listed? {
      NoGapsMeansNoneMissed(SkillVisit(w, root, scope), w.host.list(root).entries);
    }
  }

  // ---------- what the skills are ----------

  ghost predicate SkillOf(w: World, root: Path, scope: string, s: SkillDescriptor)
  {
    && s.scope == scope && OwnFlags(s)
    && exists name :: s.path == w.host.pseudonym(ManifestPath(root, name))
  }

  lemma FoundIsSkillOf(w: World, root: Path, scope: string, e: Entry)
    requires SkillVisit(w, root, scope)(e).Found?
    ensures SkillOf(w, root, scope, SkillVisit(w, root, scope)(e).item)
    ensures SkillVisit(w, root, scope)(e).item.path == w.host.pseudonym(ManifestPath(root, e.name))
  {
  }

  /** Every scanned skill is the finding of an entry. */
  lemma ScannedSkillsOf(w: World, root: Path, scope: string)
    ensures forall s :: s in ScanOf(w, root, scope).skills ==> SkillOf(w, root, scope, s)
  {
    hide SkillVisit, GapsIn, FoundIn, SkillOf;
    var skills, visit := ScanOf(w, root, scope).skills, SkillVisit(w, root, scope);
    forall s | s in skills ensures SkillOf(w, root, scope, s) {
      var entries := w.host.list(root).entries;
      SameMembers(skills, FoundIn(visit, entries));
      FoundMember(visit, entries, s);
      var e :| e in entries && visit(e) == Found(s);
      FoundIsSkillOf(w, root, scope, e);
    }
  }

  function PathOf(): SkillDescriptor -> string
  {
    (s: SkillDescriptor) => s.path
  }

  lemma SkillPathsSeparate(w: World, root: Path, scope: string)
    requires InjectivePaths(w.host.pseudonym)
    ensures Separates(SkillVisit(w, root, scope), PathOf())
  {
    hide SkillVisit;
    var visit := SkillVisit(w, root, scope);
    forall e, f | visit(e).Found? && visit(f).Found? && PathOf()(visit(e).item) == PathOf()(visit(f).item)
      ensures e.name == f.name
    {
      FoundIsSkillOf(w, root, scope, e);
      FoundIsSkillOf(w, root, scope, f);
      var p, q := ManifestPath(root, e.name), ManifestPath(root, f.name);
      assert p == q;
      assert p[|root|] == e.name && q[|root|] == f.name;
    }
  }

  /** No two skills of one scan share a manifest. */
  lemma ScannedPathsDistinct(w: World, root: Path, scope: string)
    requires ValidHost(w.host)
    ensures NoDuplicates(Map(PathOf(), ScanOf(w, root, scope).skills))
  {
    hide GapsIn, FoundIn, SortedBy, SkillVisit;
    var skills, visit := ScanOf(w, root, scope).skills, SkillVisit(w, root, scope);
    if skills != [] {
      var entries := w.host.list(root).entries;
      assert ValidListing(w.host.list(root));
      SkillPathsSeparate(w, root, scope);
      FoundDistinct(visit, PathOf(), entries);
      MapBag(PathOf(), FoundIn(visit, entries), skills);
      BagDecidesDuplicates(Map(PathOf(), FoundIn(visit, entries)), Map(PathOf(), skills));
    }
  }

  /** Manifests are distinct, so sorting by name and then path has one result. */
  lemma OneSortedSkillList(w: World, root: Path, scope: string, entries: seq<Entry>, r: seq<SkillDescriptor>)
    requires InjectivePaths(w.host.pseudonym) && NoDuplicates(Map(EntryName(), entries))
    requires Ordered(SkillLeq, r) && multiset(r) == multiset(FoundIn(SkillVisit(w, root, scope), entries))
    ensures r == SortedBy(SkillLeq, FoundIn(SkillVisit(w, root, scope), entries))
  {
    hide FoundIn, SortedBy, SkillLeq, SkillVisit;
    var found := FoundIn(SkillVisit(w, root, scope), entries);
    SkillPathsSeparate(w, root, scope);
    FoundDistinct(SkillVisit(w, root, scope), PathOf(), entries);
    SkillLeqIsOrder();
    forall x, y | x in found && y in found && SkillLeq(x, y) && SkillLeq(y, x) ensures x == y {
      SkillTie(x, y);
      GraphIdentity.SameKeySameElement(PathOf(), found, x, y);
    }
    SortedByUnique(SkillLeq, found, r);
  }

  lemma SkillTie(x: SkillDescriptor, y: SkillDescriptor)
    requires SkillLeq(x, y) && SkillLeq(y, x)
    ensures x.path == y.path
  {
    if x.name == y.name { StringLeqAntisymmetric(x.path, y.path); } else { StringLeqAntisymmetric(x.name, y.name); }
  }
}
