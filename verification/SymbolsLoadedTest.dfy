/** The test double for the symbol loader, the event the tests feed the
    deriver, and the seven table-driven scenarios, each stated as a method
    whose contract is the scenario's expected result. */
module SymbolsLoadedTest {
  import opened Wrappers
  import opened Seqs
  import opened Paths
  import opened SharedObjs
  import opened Trace
  import opened SymbolsLoaded

  /** A shared object together with the symbols it exports. */
  datatype SoInstance = SoInstance(info: ObjInfo, syms: seq<string>)

  /** The mock loader's table from object to exported-symbol set. */
  type MockCache = map<ObjInfo, set<string>>

  /** `addSOSymbols`: records the object's symbol list as a set, replacing
      any earlier entry for the same object. */
  function AddSOSymbols(cache: MockCache, so: SoInstance): (c: MockCache)
    ensures so.info in c
    ensures forall s :: s in c[so.info] <==> s in so.syms
    ensures forall info :: info != so.info ==>
      (info in c <==> info in cache) && (info in c ==> c[info] == cache[info])
  {
    cache[so.info := Elems(so.syms)]
  }

  /** The mock's `GetExportedSymbols` as a loader: the recorded set, or the
      empty set (Go's nil map) for an object never recorded. */
  function MockLoader(cache: MockCache): Loader
  {
    info => Success(if info in cache then cache[info] else {})
  }

  /** The loader a table row builds: a fresh mock holding only the row's
      object. Looking that object up succeeds with exactly its listed
      symbols; every other object succeeds with no symbols. */
  function MockFor(so: SoInstance): (loader: Loader)
    ensures loader(so.info).Success?
    ensures forall s :: s in loader(so.info).value <==> s in so.syms
    ensures forall info :: info != so.info ==> loader(info) == Success({})
  {
    MockLoader(AddSOSymbols(map[], so))
  }

  /** After `addSOSymbols`, looking the object up succeeds with exactly its
      listed symbols, and every other object reads as before. */
  lemma MockLookupAfterAdd(cache: MockCache, so: SoInstance, other: ObjInfo)
    ensures var r := MockLoader(AddSOSymbols(cache, so))(so.info);
      r.Success? && forall s :: s in r.value <==> s in so.syms
    ensures other != so.info ==>
      MockLoader(AddSOSymbols(cache, so))(other) == MockLoader(cache)(other)
  {
  }

  /** `generateSOLoadedEvent`: the object's path, identity fields and an
      unrelated `flags` argument. The event's mount namespace is left at its
      zero value. */
  function GenerateSOLoadedEvent(info: ObjInfo): (e: Event)
    ensures e.args.Keys == {"pathname", "flags", "dev", "inode", "ctime"}
    ensures HasStr(e, "pathname") && e.args["pathname"].s == info.path
    ensures HasU32(e, "dev") && e.args["dev"].u32 == info.id.device
    ensures HasU64(e, "inode") && e.args["inode"].u64 == info.id.inode
    ensures HasU64(e, "ctime") && e.args["ctime"].u64 == info.id.ctime
    ensures e.mountNS == 0
  {
    Event(
      map[
        "pathname" := Str(info.path),
        "flags" := Int(0),
        "dev" := U32(info.id.device),
        "inode" := U64(info.id.inode),
        "ctime" := U64(info.id.ctime)
      ],
      0)
  }

  /** Extraction recovers the object from a generated event, except for the
      mount namespace, which the generated event does not carry. */
  lemma GeneratedEventRoundTrip(info: ObjInfo)
    ensures GetSharedObjectInfo(GenerateSOLoadedEvent(info)) == Success(info.(mountNS := 0))
  {
  }

  /** One table row: record the object in a fresh mock, build the generator,
      derive from the generated event. */
  method RunScenario(watchedSymbols: seq<string>, whitelist: seq<string>, so: SoInstance)
    returns (o: Outcome)
    requires LibrariesClean(SplitWhitelist(whitelist).1)
    ensures Admissible(
      Generator(
        MockFor(so),
        Elems(watchedSymbols),
        SplitWhitelist(whitelist).0,
        SplitWhitelist(whitelist).1),
      GenerateSOLoadedEvent(so.info),
      o)
  {
    var g := InitGenerator(MockFor(so), watchedSymbols, whitelist);
    assert g.watched == Elems(watchedSymbols);
    o := DeriveArgs(g, GenerateSOLoadedEvent(so.info));
  }

  const Watched: seq<string> := ["open", "close", "write"]

  /** The object the rows load: inode 1, the given path, other fields zero. */
  function TestInfo(path: string): ObjInfo
  {
    ObjInfo(ObjId(1, 0, 0), path, 0)
  }

  method ScenarioNoExports() returns (o: Outcome)
    ensures o == Suppressed
  {
    var so := SoInstance(TestInfo("1.so"), []);
    GeneratedEventRoundTrip(so.info);
    o := RunScenario(Watched, [], so);
  }

  method ScenarioOneWatchedExport() returns (o: Outcome)
    ensures o.Derived? && o.path == "1.so" && multiset(o.syms) == multiset{"open"}
  {
    var so := SoInstance(TestInfo("1.so"), ["open"]);
    GeneratedEventRoundTrip(so.info);
    o := RunScenario(Watched, [], so);
    assert Elems(["open"]) * Elems(Watched) == {"open"};
    EnumerationsArePermutations(o.syms, ["open"], {"open"});
  }

  method ScenarioAllWatchedExports() returns (o: Outcome)
    ensures o.Derived? && o.path == "1.so"
    ensures multiset(o.syms) == multiset{"open", "close", "write"}
  {
    var so := SoInstance(TestInfo("1.so"), ["open", "close", "write"]);
    GeneratedEventRoundTrip(so.info);
    o := RunScenario(Watched, [], so);
    var expected := ["open", "close", "write"];
    assert Elems(Watched) == {"open", "close", "write"};
    assert Elems(so.syms) == Elems(expected) == {"open", "close", "write"};
    assert Elems(so.syms) * Elems(Watched) == Elems(expected);
    EnumerationsArePermutations(o.syms, expected, Elems(expected));
  }

  method ScenarioPartlyWatchedExports() returns (o: Outcome)
    ensures o.Derived? && o.path == "1.so"
    ensures multiset(o.syms) == multiset{"open", "close"}
  {
    var so := SoInstance(TestInfo("1.so"), ["open", "close", "sync"]);
    GeneratedEventRoundTrip(so.info);
    o := RunScenario(Watched, [], so);
    var expected := ["open", "close"];
    assert Elems(Watched) == {"open", "close", "write"};
    assert Elems(so.syms) == {"open", "close", "sync"};
    assert Elems(expected) == {"open", "close"};
    assert {"open", "close", "sync"} * {"open", "close", "write"} == {"open", "close"};
    EnumerationsArePermutations(o.syms, expected, Elems(expected));
  }

  method ScenarioNoWatchedExports() returns (o: Outcome)
    ensures o == Suppressed
  {
    var so := SoInstance(TestInfo("1.so"), ["createdir", "rmdir", "walk"]);
    GeneratedEventRoundTrip(so.info);
    o := RunScenario(Watched, [], so);
    assert Elems(so.syms) * Elems(Watched) == {};
  }

  method ScenarioWhitelistedFullPath() returns (o: Outcome)
    ensures o == Suppressed
  {
    var so := SoInstance(TestInfo("/tmp/test.so"), ["open"]);
    GeneratedEventRoundTrip(so.info);
    var whitelist := ["/tmp/test"];
    SplitWhitelistSnoc([], "/tmp/test");
    assert [] + whitelist == whitelist;
    assert IsAbsolute("/tmp/test");
    o := RunScenario(Watched, whitelist, so);
    assert HasPrefix("/tmp/test.so", "/tmp/test");
  }

  /** The bare-name rule `test` matches `/lib/test.so`: the first known
      directory prefixing the path is `/lib/`, and joining `test` onto it
      gives `/lib/test`. */
  lemma LibraryNameRuleMatches(loader: Loader, watched: set<string>)
    ensures CleanName("test")
    ensures Whitelisted(Generator(loader, watched, [], ["test"]), "/lib/test.so")
  {
    var path := "/lib/test.so";
    assert path[1] == 'l' && path[4] == '/';
    assert !HasPrefix(path, KnownLibrariesDirs[0]) by { assert KnownLibrariesDirs[0][1] == 'u'; }
    assert !HasPrefix(path, KnownLibrariesDirs[1]) by { assert KnownLibrariesDirs[1][1] == 'u'; }
    assert !HasPrefix(path, KnownLibrariesDirs[2]) by { assert KnownLibrariesDirs[2][1] == 'u'; }
    assert !HasPrefix(path, KnownLibrariesDirs[3]) by { assert KnownLibrariesDirs[3][4] == '6'; }
    assert FirstKnownDir(path) == Some(4);
    var libs := ["test"];
    assert KnownLibrariesDirs[4] == "/lib/";
    assert Join("/lib/", libs[0]) == "/lib/test";
    assert HasPrefix(path, "/lib/test");
    assert MatchesLibraryRule(KnownLibrariesDirs[4], libs, path);
  }

  method ScenarioWhitelistedLibraryName() returns (o: Outcome)
    ensures o == Suppressed
  {
    var so := SoInstance(TestInfo("/lib/test.so"), ["open"]);
    GeneratedEventRoundTrip(so.info);
    var whitelist := ["test"];
    SplitWhitelistSnoc([], "test");
    assert [] + whitelist == whitelist;
    assert !IsAbsolute("test") by {
      assert "test"[0] != '/';
    }
    LibraryNameRuleMatches(MockFor(so), Elems(Watched));
    o := RunScenario(Watched, whitelist, so);
  }
}
