/** What a skill root, a markdown root and a manifest file come to, said of the host alone: its
    listings, its reads and the names its texts declare. */
module ScanCauses {
  import opened Ordering
  import opened CoverageGaps
  import opened InventoryGraph
  import opened HostTree
  import opened Visits
  import opened SkillScan
  import opened BundleScan

  /** The gap class that a file that could not be taken in counts for. */
  predicate Because(w: World, path: Path, e: Entry, gap: GapClass, unparseable: bool)
  {
    || (gap == "unresolvable_symlink" && BrokenLink(w, path, e))
    || (gap == "unreadable_component_manifest" && RefusedFile(w, path, e))
    || (gap == "truncated_component_manifest" && CutShort(w, path))
    || (gap == "unparseable_component_manifest" && unparseable)
  }

  // ---------- skill roots ----------

  /** The file was read whole and names no skill. */
  predicate Nameless(w: World, path: Path)
  {
    Whole(w, path) && w.host.frontmatterName(WholeText(w, path)).None?
  }

  function GapOf(w: World, root: Path, gap: GapClass): Entry -> bool
  {
    (e: Entry) => Eligible(e) && Because(w, ManifestPath(root, e.name), e, gap, Nameless(w, ManifestPath(root, e.name)))
  }

  function NamedSkill(w: World, root: Path): Entry -> bool
  {
    (e: Entry) => Eligible(e) && Declares(w, ManifestPath(root, e.name))
  }

  function PlainDirectory(w: World, root: Path): Entry -> bool
  {
    (e: Entry) => Eligible(e) && NoFile(w, ManifestPath(root, e.name), e)
  }

  function AnyEligible(): Entry -> bool
  {
    (e: Entry) => Eligible(e)
  }

  lemma {:induction false} SameCounts(p: Entry -> bool, q: Entry -> bool, entries: seq<Entry>)
    requires forall e :: e in entries ==> p(e) == q(e)
    ensures CountOf(p, entries) == CountOf(q, entries)
  {
    if entries != [] {
      var n := |entries| - 1;
      assert entries == entries[..n] + [entries[n]];
      assert entries[n] in entries;
      SameCounts(p, q, entries[..n]);
    }
  }

  lemma ClassNames()
    ensures UNRESOLVABLE_SYMLINK == "unresolvable_symlink" && UNREADABLE == "unreadable_component_manifest"
    ensures TRUNCATED == "truncated_component_manifest" && UNPARSEABLE == "unparseable_component_manifest"
    ensures UNRESOLVABLE_SYMLINK != UNREADABLE && UNRESOLVABLE_SYMLINK != TRUNCATED
    ensures UNRESOLVABLE_SYMLINK != UNPARSEABLE
    ensures UNREADABLE != TRUNCATED && UNREADABLE != UNPARSEABLE && TRUNCATED != UNPARSEABLE
  {
    assert UNRESOLVABLE_SYMLINK[2] == 'r' && UNREADABLE[2] == 'r' && TRUNCATED[0] == 't' && UNPARSEABLE[2] == 'p';
    assert UNRESOLVABLE_SYMLINK[3] == 'e' && UNREADABLE[5] == 'd' && UNRESOLVABLE_SYMLINK[5] == 'o';
  }

  lemma VisitMeans(w: World, root: Path, scope: string, e: Entry)
    ensures var visit := SkillVisit(w, root, scope)(e);
      && (visit.Ineligible? <==> !Eligible(e))
      && (visit.Absent? <==> PlainDirectory(w, root)(e))
      && (visit.Found? <==> NamedSkill(w, root)(e))
      && forall gap :: (visit.Missed? && visit.gap == gap) <==> GapOf(w, root, gap)(e)
  {
    ClassNames();
  }

  /** Every gap class of a listed skill root counts its own cause: links that lead nowhere, files
      refused, files cut short, and files that declare no name. */
  lemma SkillGapsCounted(w: World, root: Path, scope: string, gap: GapClass)
    requires w.host.probe(root).Present? && w.host.list(root).Listed?
    ensures Count(ScanOf(w, root, scope).gaps, gap) == CountOf(GapOf(w, root, gap), w.host.list(root).entries)
  {
    hide SkillVisit, GapsIn, FoundIn, CountOf, GapOf;
    var entries, visit := w.host.list(root).entries, SkillVisit(w, root, scope);
    GapsByCause(w, root, scope, entries, gap);
    forall e | e in entries ensures IsMissed(visit, gap)(e) == GapOf(w, root, gap)(e) { VisitMeans(w, root, scope, e); }
    SameCounts(IsMissed(visit, gap), GapOf(w, root, gap), entries);
  }

  lemma FoundMeans(w: World, root: Path, scope: string, e: Entry, s: SkillDescriptor)
    ensures SkillVisit(w, root, scope)(e) == Found(s) <==>
      Eligible(e) && DeclaredBy(w, ManifestPath(root, e.name), scope, s)
  {
  }

  ghost predicate DeclaredIn(w: World, root: Path, entries: seq<Entry>, scope: string, s: SkillDescriptor)
  {
    exists e :: e in entries && Eligible(e) && DeclaredBy(w, ManifestPath(root, e.name), scope, s)
  }

  /** The skills of a listed root are those its entries' manifests declare, one each; an entry leaves
      neither a skill nor a gap exactly when it is a plain directory without the file. */
  lemma SkillsDeclared(w: World, root: Path, scope: string)
    requires w.host.probe(root).Present? && w.host.list(root).Listed?
    ensures var entries, skills := w.host.list(root).entries, ScanOf(w, root, scope).skills;
      && (forall s :: s in skills <==> DeclaredIn(w, root, entries, scope, s))
      && |skills| == CountOf(NamedSkill(w, root), entries)
      && CountOf(AnyEligible(), entries) - |skills| - TotalOf(ScanOf(w, root, scope).gaps)
         == CountOf(PlainDirectory(w, root), entries)
  {
    hide SkillVisit, GapsIn, FoundIn, CountOf, DeclaredBy, PlainDirectory, NamedSkill;
    var entries, visit := w.host.list(root).entries, SkillVisit(w, root, scope);
    var skills := ScanOf(w, root, scope).skills;
    SameMembers(skills, FoundIn(visit, entries));
    SameLength(skills, FoundIn(visit, entries));
    forall s: SkillDescriptor ensures s in skills <==> DeclaredIn(w, root, entries, scope, s) {
      FoundMember(visit, entries, s);
      forall e: Entry
        ensures visit(e) == Found(s) <==> Eligible(e) && DeclaredBy(w, ManifestPath(root, e.name), scope, s)
      {
        FoundMeans(w, root, scope, e, s);
      }
    }
    forall e: Entry
      ensures (visit(e).Ineligible? <==> !Eligible(e)) && (visit(e).Absent? <==> PlainDirectory(w, root)(e))
      ensures visit(e).Found? <==> NamedSkill(w, root)(e)
    {
      VisitMeans(w, root, scope, e);
    }
    FoundCount(visit, entries);
    EntriesAccounted(visit, entries);
    SameCounts(IsFound(visit), NamedSkill(w, root), entries);
    SameCounts(IsCandidate(visit), AnyEligible(), entries);
    SameCounts(IsAbsent(visit), PlainDirectory(w, root), entries);
  }

  function IsFound<T>(visit: Entry -> Visit<T>): Entry -> bool
  {
    (e: Entry) => visit(e).Found?
  }

  lemma {:induction false} FoundCount<T>(visit: Entry -> Visit<T>, entries: seq<Entry>)
    ensures |FoundIn(visit, entries)| == CountOf(IsFound(visit), entries)
  {
    if entries != [] { FoundCount(visit, entries[..|entries| - 1]); }
  }

  /** A refused root is one gap, of the class that says whether it is a link. */
  lemma RefusedRootCounted(w: World, root: Path, scope: string, gap: GapClass)
    requires w.host.probe(root).Refused? || (w.host.probe(root).Present? && w.host.list(root).ListRefused?)
    ensures ScanOf(w, root, scope).skills == [] && !ScanOf(w, root, scope).observed && ItemsOf(w, root).items == []
    ensures Count(ScanOf(w, root, scope).gaps, gap) == Count(ItemsOf(w, root).gaps, gap)
      == if gap == (if w.host.linked(root) then "unresolvable_symlink" else "unreadable_component_manifest")
         then 1 else 0
  {
    ClassNames();
  }

  // ---------- markdown roots ----------

  function MarkdownGap(w: World, root: Path, gap: GapClass): Entry -> bool
  {
    (e: Entry) => Markdown(e) && Because(w, root + [e.name], e, gap, false)
  }

  function ReadableMarkdown(w: World, root: Path): Entry -> bool
  {
    (e: Entry) => Markdown(e) && Whole(w, root + [e.name])
  }

  lemma MarkdownMeans(w: World, root: Path, e: Entry)
    ensures var visit := MarkdownVisit(w, root)(e);
      && (visit.Found? <==> ReadableMarkdown(w, root)(e))
      && (forall gap :: (visit.Missed? && visit.gap == gap) <==> MarkdownGap(w, root, gap)(e))
  {
    ClassNames();
  }

  lemma ItemMeans(w: World, root: Path, e: Entry, x: Item)
    ensures MarkdownVisit(w, root)(e) == Found(x) <==> Markdown(e) && ItemFromFile(w, root + [e.name], e, x)
  {
    var path := root + [e.name];
    if Markdown(e) && Whole(w, path) {
      var base, text := e.name[..|e.name| - 3], WholeText(w, path);
      var item := MarkdownVisit(w, root)(e).item;
      assert e.name == base + ".md";
      assert item.name == ItemName(w, e, text);
      assert item.name + ".md" == e.name <==> item.name == base by { PlusExtension(item.name, base); }
      assert x.name + ".md" == e.name <==> x.name == base by { PlusExtension(x.name, base); }
      assert x == item <==> x.name == item.name && x.path == item.path && x.fingerprint == item.fingerprint;
    }
  }

  lemma PlusExtension(x: string, y: string)
    ensures x + ".md" == y + ".md" <==> x == y
  {
    assert (x + ".md")[..|x + ".md"| - 3] == x && (y + ".md")[..|y + ".md"| - 3] == y;
  }

  /** How far a markdown scan gets: to the end, or to the file that makes 256 components. */
  predicate StopsAt(w: World, root: Path, entries: seq<Entry>, k: nat)
  {
    && k <= |entries|
    && (forall j :: 0 <= j < k ==> CountOf(ReadableMarkdown(w, root), entries[..j]) < 256)
    && (k < |entries| ==> CountOf(ReadableMarkdown(w, root), entries[..k]) == 256)
  }

  lemma {:induction false} ReachedMeans(w: World, root: Path, entries: seq<Entry>) returns (k: nat)
    ensures StopsAt(w, root, entries, k) && Reached(MarkdownVisit(w, root), MAX_BUNDLED, entries) == entries[..k]
  {
    hide MarkdownVisit, FoundIn, CountOf, ReadableMarkdown;
    var visit, p := MarkdownVisit(w, root), ReadableMarkdown(w, root);
    if entries == [] {
      k := 0;
      FoundCount(visit, []);
      NoneCounted(p);
    } else {
      var n := |entries| - 1;
      var front := entries[..n];
      k := ReachedMeans(w, root, front);
      assert forall j :: 0 <= j <= n ==> front[..j] == entries[..j];
      FoundCount(visit, front[..k]);
      forall e: Entry ensures IsFound(visit)(e) == p(e) { MarkdownMeans(w, root, e); }
      SameCounts(IsFound(visit), p, front[..k]);
      if k > 0 { CountStep(p, front, k - 1); } else { NoneCounted(p); }
      if CountOf(p, front[..k]) < 256 {
        assert k == n && entries[..n + 1] == front + [entries[n]] && front[..k] == front;
        k := n + 1;
      }
    }
  }

  lemma NoneCounted(p: Entry -> bool)
    ensures CountOf(p, []) == 0
  {
  }

  lemma CountStep(p: Entry -> bool, entries: seq<Entry>, k: nat)
    requires k < |entries|
    ensures CountOf(p, entries[..k + 1]) <= CountOf(p, entries[..k]) + 1
  {
    assert entries[..k + 1][..k] == entries[..k];
  }

  ghost predicate ComponentIn(w: World, root: Path, entries: seq<Entry>, x: Item)
  {
    exists e :: e in entries && Markdown(e) && ItemFromFile(w, root + [e.name], e, x)
  }

  /** A listed markdown root yields the components of the files up to where it stops, and each gap
      class counts its own cause among them. */
  lemma MarkdownDeclared(w: World, root: Path) returns (k: nat)
    requires w.host.probe(root).Present? && w.host.list(root).Listed?
    ensures StopsAt(w, root, w.host.list(root).entries, k)
    ensures var entries, scan := w.host.list(root).entries[..k], ItemsOf(w, root);
      && (forall x :: x in scan.items <==> ComponentIn(w, root, entries, x))
      && |scan.items| == CountOf(ReadableMarkdown(w, root), entries)
      && forall gap :: Count(scan.gaps, gap) == CountOf(MarkdownGap(w, root, gap), entries)
  {
    hide MarkdownVisit, GapsIn, FoundIn, CountOf, ItemFromFile, ReadableMarkdown, MarkdownGap, Reached, StopsAt;
    var visit, all := MarkdownVisit(w, root), w.host.list(root).entries;
    k := ReachedMeans(w, root, all);
    assert StopsAt(w, root, all, k) ==> k <= |all| by { StopsInside(w, root, all, k); }
    var entries, items := all[..k], ItemsOf(w, root).items;
    SameMembers(items, FoundIn(visit, entries));
    SameLength(items, FoundIn(visit, entries));
    forall x ensures x in items <==> ComponentIn(w, root, entries, x) {
      FoundMember(visit, entries, x);
      forall e: Entry ensures visit(e) == Found(x) <==> Markdown(e) && ItemFromFile(w, root + [e.name], e, x) {
        ItemMeans(w, root, e, x);
      }
    }
    FoundCount(visit, entries);
    forall e: Entry ensures IsFound(visit)(e) == ReadableMarkdown(w, root)(e) { MarkdownMeans(w, root, e); }
    SameCounts(IsFound(visit), ReadableMarkdown(w, root), entries);
    forall gap ensures Count(GapsIn(visit, entries), gap) == CountOf(MarkdownGap(w, root, gap), entries) {
      MarkdownClassified(w, root);
      CountedByCause(visit, entries, gap);
      forall e: Entry ensures IsMissed(visit, gap)(e) == MarkdownGap(w, root, gap)(e) { MarkdownMeans(w, root, e); }
      SameCounts(IsMissed(visit, gap), MarkdownGap(w, root, gap), entries);
    }
  }

  lemma StopsInside(w: World, root: Path, entries: seq<Entry>, k: nat)
    ensures StopsAt(w, root, entries, k) ==> k <= |entries|
  {
  }

  lemma MarkdownClassified(w: World, root: Path)
    ensures Classified(MarkdownVisit(w, root))
  {
  }

  // ---------- one manifest ----------

  /** Hooks and server files: one gap when refused, cut short or malformed, none otherwise. */
  lemma ManifestGapsCounted<T>(w: World, path: Path, parse: string -> Option<T>, gap: GapClass)
    ensures Count(ManifestGaps(w, path, parse), gap) ==
      if || (gap == "unreadable_component_manifest" && w.host.read(path).ReadRefused?)
         || (gap == "truncated_component_manifest" && CutShort(w, path))
         || (gap == "unparseable_component_manifest" && Whole(w, path) && parse(WholeText(w, path)).None?)
      then 1 else 0
  {
    ClassNames();
  }
}
