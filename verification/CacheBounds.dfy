/** What a plugin-cache scan returns, in closed form: the first 1024 version directories, where
    each marketplace and folder is cut at its own bound, and when those cuts lose something. */
module CacheBounds {
  import opened Ordering
  import opened CoverageGaps
  import opened HostTree
  import opened SkillScan
  import opened CacheScan

  // ---------- the version directories of a cache ----------

  function PlaceIn(market: string, folder: string): string -> Place
  {
    (version: string) => Place(market, folder, version)
  }

  /** The version directories of one folder, at most limit of them. */
  function FolderPlaces(w: World, root: Path, limit: nat, market: string, folder: string): seq<Place>
  {
    match Names(w.host, root + [market, folder])
    case None => []
    case Some(versions) => Map(PlaceIn(market, folder), First(limit, versions))
  }

  function FoldersPlaces(w: World, root: Path, limit: nat, market: string, folders: seq<string>): seq<Place>
  {
    if folders == [] then []
    else
      FoldersPlaces(w, root, limit, market, folders[..|folders| - 1])
      + FolderPlaces(w, root, limit, market, folders[|folders| - 1])
  }

  function MarketPlaces(w: World, root: Path, limit: nat, market: string): seq<Place>
  {
    match Names(w.host, root + [market])
    case None => []
    case Some(folders) => FoldersPlaces(w, root, limit, market, folders)
  }

  function AllPlaces(w: World, root: Path, limit: nat, markets: seq<string>): seq<Place>
  {
    if markets == [] then []
    else AllPlaces(w, root, limit, markets[..|markets| - 1]) + MarketPlaces(w, root, limit, markets[|markets| - 1])
  }

  // ---------- closed form ----------

  lemma FirstConcat<A>(n: nat, s: seq<A>, t: seq<A>)
    ensures First(n, First(n, s) + t) == First(n, s + t)
  {
    if |s| > n {
      assert (s[..n] + t)[..n] == s[..n];
      assert (s + t)[..n] == s[..n];
    }
  }

  lemma FirstAll<A>(n: nat, s: seq<A>)
    requires |s| <= n
    ensures First(n, s) == s
  {
  }

  lemma {:induction false} VersionsClosed(w: World, root: Path, market: string, folder: string, versions: seq<string>,
                                          walk: Walk)
    requires |walk.places| <= MAX_CACHE_PLUGINS
    ensures AfterVersions(w, root, market, folder, versions, walk).places
         == First(MAX_CACHE_PLUGINS, walk.places + Map(PlaceIn(market, folder), versions))
  {
    hide WithPlaceGaps;
    var f := PlaceIn(market, folder);
    if versions == [] {
      assert walk.places + Map(f, versions) == walk.places;
    } else {
      var n := |versions| - 1;
      VersionsClosed(w, root, market, folder, versions[..n], walk);
      var before := walk.places + Map(f, versions[..n]);
      assert walk.places + Map(f, versions) == before + [f(versions[n])];
      FirstConcat(MAX_CACHE_PLUGINS, before, [f(versions[n])]);
      var now := First(MAX_CACHE_PLUGINS, before);
      assert |now| >= MAX_CACHE_PLUGINS ==> First(MAX_CACHE_PLUGINS, now + [f(versions[n])]) == now;
    }
  }

  lemma {:induction false} FoldersClosed(w: World, root: Path, market: string, folders: seq<string>, walk: Walk)
    requires |walk.places| <= MAX_CACHE_PLUGINS
    ensures AfterFolders(w, root, market, folders, walk).places
         == First(MAX_CACHE_PLUGINS, walk.places + FoldersPlaces(w, root, MAX_CACHE_VERSIONS, market, folders))
  {
    hide Names, AfterFolder, FolderPlaces, First;
    if folders == [] {
      assert walk.places + [] == walk.places;
      FirstAll(MAX_CACHE_PLUGINS, walk.places);
    } else {
      var n := |folders| - 1;
      var front, last := folders[..n], folders[n];
      assert FoldersPlaces(w, root, MAX_CACHE_VERSIONS, market, folders)
          == FoldersPlaces(w, root, MAX_CACHE_VERSIONS, market, front)
          + FolderPlaces(w, root, MAX_CACHE_VERSIONS, market, last);
      FoldersClosed(w, root, market, front, walk);
      var found := FoldersPlaces(w, root, MAX_CACHE_VERSIONS, market, front);
      var more := FolderPlaces(w, root, MAX_CACHE_VERSIONS, market, last);
      FolderClosed(w, root, market, last, AfterFolders(w, root, market, front, walk));
      FirstConcat(MAX_CACHE_PLUGINS, walk.places + found, more);
      assert (walk.places + found) + more == walk.places + (found + more);
    }
  }

  lemma FolderClosed(w: World, root: Path, market: string, folder: string, walk: Walk)
    requires |walk.places| <= MAX_CACHE_PLUGINS
    ensures AfterFolder(w, root, market, folder, walk).places
         == First(MAX_CACHE_PLUGINS, walk.places + FolderPlaces(w, root, MAX_CACHE_VERSIONS, market, folder))
  {
    hide Names, AfterVersions, Map, Added;
    var more := FolderPlaces(w, root, MAX_CACHE_VERSIONS, market, folder);
    if Full(walk) {
      assert (walk.places + more)[..MAX_CACHE_PLUGINS] == walk.places;
      assert |more| == 0 ==> walk.places + more == walk.places;
    } else {
      match Names(w.host, root + [market, folder]) {
        case None => assert walk.places + [] == walk.places;
        case Some(versions) => VersionsClosed(w, root, market, folder, First(MAX_CACHE_VERSIONS, versions), walk);
      }
    }
  }

  lemma MarketClosed(w: World, root: Path, market: string, walk: Walk)
    requires |walk.places| <= MAX_CACHE_PLUGINS
    ensures AfterMarket(w, root, market, walk).places
         == First(MAX_CACHE_PLUGINS, walk.places + MarketPlaces(w, root, MAX_CACHE_VERSIONS, market))
  {
    hide Names, AfterFolders, Added;
    match Names(w.host, root + [market]) {
      case None => assert walk.places + [] == walk.places;
      case Some(folders) => FoldersClosed(w, root, market, folders, walk);
    }
  }

  /** The candidates are exactly the first 1024 version directories in marketplace, folder and
      version order, with at most eight versions of each folder. */
  lemma {:induction false} WalkClosed(w: World, root: Path, markets: seq<string>)
    ensures AfterMarkets(w, root, markets).places
         == First(MAX_CACHE_PLUGINS, AllPlaces(w, root, MAX_CACHE_VERSIONS, markets))
  {
    hide AfterMarket, MarketPlaces;
    if markets != [] {
      var n := |markets| - 1;
      WalkClosed(w, root, markets[..n]);
      MarketClosed(w, root, markets[n], AfterMarkets(w, root, markets[..n]));
      FirstConcat(MAX_CACHE_PLUGINS, AllPlaces(w, root, MAX_CACHE_VERSIONS, markets[..n]),
                  MarketPlaces(w, root, MAX_CACHE_VERSIONS, markets[n]));
    }
  }

  // ---------- no version directory twice ----------

  lemma MapDistinct<A, B>(f: A -> B, s: seq<A>)
    requires NoDuplicates(s) && forall x, y :: x in s && y in s && f(x) == f(y) ==> x == y
    ensures NoDuplicates(Map(f, s))
  {
    forall i, j | 0 <= i < j < |s| ensures Map(f, s)[i] != Map(f, s)[j] {
      assert s[i] in s && s[j] in s;
    }
  }

  lemma NoDuplicatesFirst<A>(n: nat, s: seq<A>)
    requires NoDuplicates(s)
    ensures NoDuplicates(First(n, s))
  {
  }

  lemma FolderPlacesDistinct(w: World, root: Path, limit: nat, market: string, folder: string)
    requires ValidHost(w.host)
    ensures NoDuplicates(FolderPlaces(w, root, limit, market, folder))
    ensures forall p :: p in FolderPlaces(w, root, limit, market, folder) ==> p.market == market && p.folder == folder
  {
    hide Names, ValidHost;
    var dir := root + [market, folder];
    if Names(w.host, dir).Some? {
      NamesDistinct(w.host, dir);
      NoDuplicatesFirst(limit, Names(w.host, dir).value);
      MapDistinct(PlaceIn(market, folder), First(limit, Names(w.host, dir).value));
    }
  }

  lemma {:induction false} FoldersPlacesDistinct(w: World, root: Path, limit: nat, market: string, folders: seq<string>)
    requires ValidHost(w.host) && NoDuplicates(folders)
    ensures NoDuplicates(FoldersPlaces(w, root, limit, market, folders))
    ensures forall p :: p in FoldersPlaces(w, root, limit, market, folders) ==>
      p.market == market && p.folder in folders
  {
    hide FolderPlaces, ValidHost;
    if folders != [] {
      var n := |folders| - 1;
      var front, last := folders[..n], folders[n];
      FoldersPlacesDistinct(w, root, limit, market, front);
      FolderPlacesDistinct(w, root, limit, market, last);
      assert last !in front;
      NoDuplicatesConcat(FoldersPlaces(w, root, limit, market, front), FolderPlaces(w, root, limit, market, last));
    }
  }

  lemma MarketPlacesDistinct(w: World, root: Path, limit: nat, market: string)
    requires ValidHost(w.host)
    ensures NoDuplicates(MarketPlaces(w, root, limit, market))
    ensures forall p :: p in MarketPlaces(w, root, limit, market) ==> p.market == market
  {
    hide Names, ValidHost, FoldersPlaces;
    var dir := root + [market];
    if Names(w.host, dir).Some? {
      NamesDistinct(w.host, dir);
      FoldersPlacesDistinct(w, root, limit, market, Names(w.host, dir).value);
    }
  }

  lemma {:induction false} AllPlacesDistinct(w: World, root: Path, limit: nat, markets: seq<string>)
    requires ValidHost(w.host) && NoDuplicates(markets)
    ensures NoDuplicates(AllPlaces(w, root, limit, markets))
    ensures forall p :: p in AllPlaces(w, root, limit, markets) ==> p.market in markets
  {
    hide MarketPlaces, ValidHost;
    if markets != [] {
      var n := |markets| - 1;
      var front, last := markets[..n], markets[n];
      AllPlacesDistinct(w, root, limit, front);
      MarketPlacesDistinct(w, root, limit, last);
      assert last !in front;
      NoDuplicatesConcat(AllPlaces(w, root, limit, front), MarketPlaces(w, root, limit, last));
    }
  }

  // ---------- a marketplace is reported exactly when it contributed ----------

  lemma {:induction false} ReportedIffContributed(w: World, root: Path, markets: seq<string>, market: string)
    requires ValidHost(w.host) && NoDuplicates(markets)
    ensures market in Contributing(w, root, markets) <==>
      exists p :: p in AfterMarkets(w, root, markets).places && p.market == market
    ensures market in Contributing(w, root, markets) ==> market in markets
    ensures NoDuplicates(Contributing(w, root, markets))
  {
    hide AfterMarket, ValidHost, MarketPlaces, AllPlaces;
    if markets != [] {
      var n := |markets| - 1;
      var front, last := markets[..n], markets[n];
      var before, after := AfterMarkets(w, root, front), AfterMarkets(w, root, markets);
      assert markets == front + [last] && last !in front;
      ReportedIffContributed(w, root, front, market);
      ReportedIffContributed(w, root, front, last);
      MarketAppends(w, root, front, last, before);
      WalkedMarkets(w, root, front);
      assert forall p :: p in before.places ==> p.market != last;
      NoDuplicatesSnoc(Contributing(w, root, front), last);
      if market == last {
        NewMarketAfter(before.places, after.places, last);
      } else {
        SameMarketBefore(before.places, after.places, last, market);
      }
    }
  }

  /** Visiting a marketplace appends version directories of that marketplace only. */
  lemma MarketAppends(w: World, root: Path, front: seq<string>, market: string, walk: Walk)
    requires ValidHost(w.host) && walk == AfterMarkets(w, root, front)
    ensures var after := AfterMarket(w, root, market, walk);
      walk.places <= after.places
      && forall k :: |walk.places| <= k < |after.places| ==> after.places[k].market == market
  {
    hide AfterMarket, ValidHost, MarketPlaces, AllPlaces, AfterMarkets;
    WalkClosed(w, root, front);
    MarketClosed(w, root, market, walk);
    MarketPlacesDistinct(w, root, MAX_CACHE_VERSIONS, market);
    var more := MarketPlaces(w, root, MAX_CACHE_VERSIONS, market);
    var after := AfterMarket(w, root, market, walk);
    forall k | |walk.places| <= k < |after.places| ensures after.places[k].market == market {
      assert after.places[k] == more[k - |walk.places|];
    }
  }

  lemma WalkedMarkets(w: World, root: Path, markets: seq<string>)
    requires ValidHost(w.host) && NoDuplicates(markets)
    ensures NoDuplicates(AfterMarkets(w, root, markets).places)
    ensures |AfterMarkets(w, root, markets).places| <= MAX_CACHE_PLUGINS
    ensures forall p :: p in AfterMarkets(w, root, markets).places ==> p.market in markets
  {
    hide AfterMarkets, ValidHost, AllPlaces;
    WalkClosed(w, root, markets);
    AllPlacesDistinct(w, root, MAX_CACHE_VERSIONS, markets);
    NoDuplicatesFirst(MAX_CACHE_PLUGINS, AllPlaces(w, root, MAX_CACHE_VERSIONS, markets));
  }

  lemma NewMarketAfter(before: seq<Place>, after: seq<Place>, last: string)
    requires before <= after && forall p :: p in before ==> p.market != last
    requires forall k :: |before| <= k < |after| ==> after[k].market == last
    ensures (exists p :: p in after && p.market == last) <==> |after| > |before|
  {
    if |after| > |before| {
      assert after[|before|] in after;
    } else {
      assert after == before;
    }
  }

  lemma SameMarketBefore(before: seq<Place>, after: seq<Place>, last: string, market: string)
    requires before <= after && market != last
    requires forall k :: |before| <= k < |after| ==> after[k].market == last
    ensures (exists p :: p in before && p.market == market) <==> exists p :: p in after && p.market == market
  {
    if p :| p in before && p.market == market { assert p in after; }
    if p :| p in after && p.market == market {
      var k :| 0 <= k < |after| && after[k] == p;
      assert after[k].market != last;
    }
  }

  // ---------- at most eight of a folder ----------

  function CountIn(places: seq<Place>, market: string, folder: string): nat
  {
    if places == [] then 0
    else
      CountIn(places[..|places| - 1], market, folder)
      + if places[|places| - 1].market == market && places[|places| - 1].folder == folder then 1 else 0
  }

  lemma {:induction false} CountInConcat(s: seq<Place>, t: seq<Place>, market: string, folder: string)
    ensures CountIn(s + t, market, folder) == CountIn(s, market, folder) + CountIn(t, market, folder)
  {
    if t == [] {
      assert s + t == s;
    } else {
      var n := |t| - 1;
      assert (s + t)[..|s| + n] == s + t[..n];
      CountInConcat(s, t[..n], market, folder);
    }
  }

  lemma {:induction false} CountInBound(places: seq<Place>, market: string, folder: string)
    ensures CountIn(places, market, folder) <= |places|
    ensures (forall p :: p in places ==> p.market != market || p.folder != folder) ==>
      CountIn(places, market, folder) == 0
  {
    if places != [] {
      CountInBound(places[..|places| - 1], market, folder);
    }
  }

  lemma {:induction false} FoldersCount(w: World, root: Path, limit: nat, market: string, folders: seq<string>,
                                        folder: string)
    requires ValidHost(w.host) && NoDuplicates(folders)
    ensures CountIn(FoldersPlaces(w, root, limit, market, folders), market, folder) <= limit
  {
    hide ValidHost, CountIn;
    if folders == [] {
      CountInBound([], market, folder);
    } else {
      var n := |folders| - 1;
      var front, last := folders[..n], folders[n];
      var before, more := FoldersPlaces(w, root, limit, market, front), FolderPlaces(w, root, limit, market, last);
      FoldersCount(w, root, limit, market, front, folder);
      FoldersPlacesDistinct(w, root, limit, market, front);
      FolderPlacesDistinct(w, root, limit, market, last);
      CountInConcat(before, more, market, folder);
      CountInBound(more, market, folder);
      assert last !in front;
      CountInBound(before, market, folder);
    }
  }

  lemma {:induction false} AllCount(w: World, root: Path, limit: nat, markets: seq<string>, market: string,
                                    folder: string)
    requires ValidHost(w.host) && NoDuplicates(markets)
    ensures CountIn(AllPlaces(w, root, limit, markets), market, folder) <= limit
  {
    hide ValidHost, CountIn, Names, FoldersPlaces;
    if markets == [] {
      CountInBound([], market, folder);
    } else {
      var n := |markets| - 1;
      var front, last := markets[..n], markets[n];
      var before, more := AllPlaces(w, root, limit, front), MarketPlaces(w, root, limit, last);
      AllCount(w, root, limit, front, market, folder);
      AllPlacesDistinct(w, root, limit, front);
      MarketPlacesDistinct(w, root, limit, last);
      CountInConcat(before, more, market, folder);
      CountInBound(more, market, folder);
      CountInBound(before, market, folder);
      assert last !in front;
      if last == market && Names(w.host, root + [market]).Some? {
        NamesDistinct(w.host, root + [market]);
        FoldersCount(w, root, limit, market, Names(w.host, root + [market]).value, folder);
      }
    }
  }

  /** The bounds of one scan: 1024 version directories in all, eight of any folder, none twice. */
  lemma CacheIsBounded(w: World, state: Path)
    requires ValidHost(w.host)
    ensures |CacheOf(w, state).candidates| <= MAX_CACHE_PLUGINS
    ensures |CacheOf(w, state).marketplaces| <= MAX_CACHE_MARKETPLACES
  {
    hide ValidHost, AfterMarkets, Contributing, Candidate, CacheMarket, Names;
    var root := CacheRoot(state);
    if CacheOf(w, state).observed {
      NamesDistinct(w.host, root);
      var markets := First(MAX_CACHE_MARKETPLACES, Names(w.host, root).value);
      WalkedMarkets(w, root, markets);
      ContributingBound(w, root, markets);
    }
  }

  lemma {:induction false} ContributingBound(w: World, root: Path, markets: seq<string>)
    ensures |Contributing(w, root, markets)| <= |markets|
  {
    hide AfterMarkets;
    if markets != [] { ContributingBound(w, root, markets[..|markets| - 1]); }
  }

  lemma EightPerFolder(w: World, root: Path, markets: seq<string>, market: string, folder: string)
    requires ValidHost(w.host) && NoDuplicates(markets)
    ensures CountIn(AfterMarkets(w, root, markets).places, market, folder) <= MAX_CACHE_VERSIONS
  {
    hide ValidHost, CountIn, AfterMarkets, AllPlaces;
    var all := AllPlaces(w, root, MAX_CACHE_VERSIONS, markets);
    WalkClosed(w, root, markets);
    AllCount(w, root, MAX_CACHE_VERSIONS, markets, market, folder);
    var kept := First(MAX_CACHE_PLUGINS, all);
    assert all == kept + all[|kept|..];
    CountInConcat(kept, all[|kept|..], market, folder);
  }
}
