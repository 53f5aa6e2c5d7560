/** The read-only host a scan walks (internal/adaptersdk/hostview.go): a tree of bounded
    listings and bounded reads. What decodes a file's bytes is a parameter of the host. */
module HostTree {
  import opened Ordering
  import opened CoverageGaps

  /** A path as its components, so that joining never makes two paths one. */
  type Path = seq<string>

  datatype Entry = Entry(name: string, isDir: bool, isSymlink: bool)
  datatype Probe = Refused | Missing | Present
  datatype Listing = ListRefused | Listed(entries: seq<Entry>)
  datatype Read = ReadRefused | ReadMissing | Content(text: string, truncated: bool)

  /** The two keys of settings.json that are read; a server maps to its disabled flag. */
  datatype Settings = Settings(enabledPlugins: map<string, bool>, servers: map<string, bool>)

  /** One entry of a bundled .mcp.json. */
  datatype Declaration = Declaration(disabled: bool, tools: seq<string>)

  datatype Host = Host(
    probe: Path -> Probe,
    list: Path -> Listing,
    read: Path -> Read,
    linked: Path -> bool,
    pseudonym: Path -> string,
    frontmatterName: string -> Option<string>,
    manifestName: string -> Option<string>,
    settings: string -> Option<Settings>,
    installed: string -> Option<map<string, seq<string>>>,
    hookEvents: string -> Option<set<string>>,
    declarations: string -> Option<map<string, Declaration>>)

  const MAX_LISTING := 512
  const MAX_SCANNED_ENTRIES := 256
  const MAX_SKILL_MANIFESTS := 512
  const MAX_CACHE_MARKETPLACES := 64
  const MAX_CACHE_PLUGINS := 1024
  const MAX_CACHE_VERSIONS := 8
  const MAX_BUNDLED := 256
  const MAX_TOOLS := 128

  function EntryName(): Entry -> string
  {
    (e: Entry) => e.name
  }

  ghost predicate InjectivePaths(pseudonym: Path -> string)
  {
    forall p, q {:trigger pseudonym(p), pseudonym(q)} :: pseudonym(p) == pseudonym(q) ==> p == q
  }

  /** A listing over the bound is refused whole, and a directory holds a name once. */
  ghost predicate ValidListing(listing: Listing)
  {
    listing.Listed? ==> |listing.entries| <= MAX_LISTING && NoDuplicates(Map(EntryName(), listing.entries))
  }

  ghost predicate ValidHost(host: Host)
  {
    && InjectivePaths(host.pseudonym)
    && forall p :: ValidListing(host.list(p))
  }

  function RootGap(host: Host, root: Path): GapClass
  {
    if host.linked(root) then UNRESOLVABLE_SYMLINK else UNREADABLE
  }

  /** Only directories and symlinks can hold anything. */
  predicate Eligible(e: Entry)
  {
    e.isDir || e.isSymlink
  }

  // ---------- sorted names ----------

  function SortStrings(s: seq<string>): seq<string>
  {
    SortedBy(StringLeq, s)
  }

  /** sort.Strings has one possible result. */
  method Sorted(s: seq<string>) returns (r: seq<string>)
    ensures r == SortStrings(s)
  {
    StringLeqIsTotalOrder();
    r := SortBy(s, StringLeq);
    forall x, y | x in s && y in s && StringLeq(x, y) && StringLeq(y, x) ensures x == y {
      StringLeqAntisymmetric(x, y);
    }
    SortedByUnique(StringLeq, s, r);
  }

  // ---------- names of the eligible entries ----------

  function EligibleNames(entries: seq<Entry>): seq<string>
  {
    if entries == [] then []
    else
      var before, e := EligibleNames(entries[..|entries| - 1]), entries[|entries| - 1];
      if Eligible(e) then before + [e.name] else before
  }

  /** The sorted names of the entries of a directory that can hold anything. */
  function Names(host: Host, dir: Path): Option<seq<string>>
  {
    var listing := host.list(dir);
    if listing.Listed? then Some(SortStrings(EligibleNames(listing.entries))) else None
  }

  method ListNames(host: Host, dir: Path) returns (r: Option<seq<string>>)
    ensures r == Names(host, dir)
  {
    var listing := host.list(dir);
    if listing.ListRefused? { return None; }
    var names: seq<string> := [];
    var entries := listing.entries;
    for i := 0 to |entries|
      invariant names == EligibleNames(entries[..i])
    {
      assert entries[..i + 1][..i] == entries[..i];
      if !entries[i].isDir && !entries[i].isSymlink { continue; }
      names := names + [entries[i].name];
    }
    assert entries[..|entries|] == entries;
    names := Sorted(names);
    return Some(names);
  }

  lemma {:induction false} EligibleNamesDistinct(entries: seq<Entry>)
    requires NoDuplicates(Map(EntryName(), entries))
    ensures NoDuplicates(EligibleNames(entries))
    ensures forall name :: name in EligibleNames(entries) ==> exists e :: e in entries && Eligible(e) && e.name == name
    ensures |EligibleNames(entries)| <= |entries|
  {
    if entries != [] {
      var n := |entries| - 1;
      var names := Map(EntryName(), entries);
      assert entries == entries[..n] + [entries[n]];
      assert NoDuplicates(Map(EntryName(), entries[..n])) by {
        assert Map(EntryName(), entries[..n]) == names[..n];
      }
      EligibleNamesDistinct(entries[..n]);
      forall name | name in EligibleNames(entries[..n]) ensures name != entries[n].name {
        var e :| e in entries[..n] && Eligible(e) && e.name == name;
        var i :| 0 <= i < n && entries[..n][i] == e;
        assert names[i] != names[n];
      }
      NoDuplicatesSnoc(EligibleNames(entries[..n]), entries[n].name);
    }
  }

  /** A directory's names are distinct and no more than a listing holds. */
  lemma NamesDistinct(host: Host, dir: Path)
    requires ValidHost(host) && Names(host, dir).Some?
    ensures NoDuplicates(Names(host, dir).value) && |Names(host, dir).value| <= MAX_LISTING
  {
    var listing := host.list(dir);
    assert ValidListing(listing);
    var names := EligibleNames(listing.entries);
    EligibleNamesDistinct(listing.entries);
    BagDecidesDuplicates(names, SortStrings(names));
    SameLength(names, SortStrings(names));
  }

  lemma {:induction false} EligibleNamesMember(entries: seq<Entry>, name: string)
    ensures name in EligibleNames(entries) <==> exists e :: e in entries && (e.isDir || e.isSymlink) && e.name == name
  {
    if entries != [] {
      var n := |entries| - 1;
      assert entries == entries[..n] + [entries[n]];
      EligibleNamesMember(entries[..n], name);
    }
  }

  /** A directory's names are those of its directories and links, in byte order. */
  lemma NamesMean(host: Host, dir: Path, name: string)
    ensures Names(host, dir).Some? <==> host.list(dir).Listed?
    ensures Names(host, dir).Some? ==> Ordered(StringLeq, Names(host, dir).value)
    ensures Names(host, dir).Some? ==>
      (name in Names(host, dir).value <==>
       exists e :: e in host.list(dir).entries && (e.isDir || e.isSymlink) && e.name == name)
  {
    if host.list(dir).Listed? {
      var names := EligibleNames(host.list(dir).entries);
      StringLeqIsTotalOrder();
      SortedByOrdered(StringLeq, names);
      SameMembers(SortStrings(names), names);
      EligibleNamesMember(host.list(dir).entries, name);
    }
  }
}
