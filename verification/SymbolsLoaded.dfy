/** The "symbols loaded" deriver: from a "shared object loaded" event it
    either fails, suppresses the event, or derives the object's path together
    with the watched symbols the object exports. */
module SymbolsLoaded {
  import opened Wrappers
  import opened Seqs
  import opened Paths
  import opened SharedObjs
  import opened Trace

  /** The known system library directories, most specific first so that the
      first one prefixing a path is the deepest one. */
  const KnownLibrariesDirs: seq<string> := [
    "/usr/lib/x86_64-linux-gnu/",
    "/usr/lib64/",
    "/usr/lib/",
    "/lib64/",
    "/lib/"
  ]

  /** Every known directory is a clean absolute directory, so the join's
      contract applies to each of them and the restricted `Join` is what `path.Join`
      returns for them. */
  lemma KnownDirsAreDirectories()
    ensures forall i :: 0 <= i < |KnownLibrariesDirs| ==> IsDirectory(KnownLibrariesDirs[i])
  {
    var d := KnownLibrariesDirs;
    DotFreeDirectory(d[0]);
    DotFreeDirectory(d[1]);
    DotFreeDirectory(d[2]);
    DotFreeDirectory(d[3]);
    DotFreeDirectory(d[4]);
  }

  /** The ordering the list relies on: no entry extends an earlier one. */
  lemma KnownDirsMostSpecificFirst()
    ensures forall i, j :: 0 <= i < j < |KnownLibrariesDirs| ==>
      !HasPrefix(KnownLibrariesDirs[j], KnownLibrariesDirs[i])
  {
  }

  /** The generator built once from configuration: the loader, the watched
      symbols as a set, and the whitelist split into absolute path-prefix
      rules and bare library-name rules. */
  datatype Generator = Generator(
    loader: Loader,
    watched: set<string>,
    prefixes: seq<string>,
    libraries: seq<string>)

  /** Library names that the restricted `Join` handles as `path.Join` does. */
  predicate LibrariesClean(libraries: seq<string>)
  {
    forall i :: 0 <= i < |libraries| ==> CleanName(libraries[i])
  }

  // ---------------------------------------------------------------------------
  // Construction

  /** Reference split of a whitelist: absolute entries to the first list,
      everything else to the second, each list in whitelist order. */
  function SplitWhitelist(whitelist: seq<string>): (r: (seq<string>, seq<string>))
    ensures forall i :: 0 <= i < |r.0| ==> IsAbsolute(r.0[i])
    ensures forall i :: 0 <= i < |r.1| ==> !IsAbsolute(r.1[i])
  {
    if whitelist == [] then ([], [])
    else
      var init := whitelist[..|whitelist| - 1];
      var w := whitelist[|whitelist| - 1];
      var rest := SplitWhitelist(init);
      if IsAbsolute(w) then (rest.0 + [w], rest.1) else (rest.0, rest.1 + [w])
  }

  /** Appending one entry to the whitelist appends it to the list its
      leading character selects. */
  lemma SplitWhitelistSnoc(ws: seq<string>, w: string)
    ensures SplitWhitelist(ws + [w]).0 ==
      if IsAbsolute(w) then SplitWhitelist(ws).0 + [w] else SplitWhitelist(ws).0
    ensures SplitWhitelist(ws + [w]).1 ==
      if IsAbsolute(w) then SplitWhitelist(ws).1 else SplitWhitelist(ws).1 + [w]
  {
    assert (ws + [w])[..|ws|] == ws;
  }

  /** The split loses and invents nothing: every entry lands in exactly one
      of the two lists. */
  lemma {:induction false} SplitWhitelistIsPartition(whitelist: seq<string>)
    ensures multiset(SplitWhitelist(whitelist).0) + multiset(SplitWhitelist(whitelist).1)
      == multiset(whitelist)
    decreases |whitelist|
  {
    if whitelist != [] {
      var init, w := whitelist[..|whitelist| - 1], whitelist[|whitelist| - 1];
      assert whitelist == init + [w];
      SplitWhitelistIsPartition(init);
      SplitWhitelistSnoc(init, w);
    }
  }

  /** The split keeps relative order: splitting a concatenation concatenates
      the splits. */
  lemma {:induction false} SplitWhitelistKeepsOrder(a: seq<string>, b: seq<string>)
    ensures SplitWhitelist(a + b).0 == SplitWhitelist(a).0 + SplitWhitelist(b).0
    ensures SplitWhitelist(a + b).1 == SplitWhitelist(a).1 + SplitWhitelist(b).1
    decreases |b|
  {
    if b == [] {
      assert a + b == a;
    } else {
      var b', w := b[..|b| - 1], b[|b| - 1];
      assert b == b' + [w];
      assert a + b == (a + b') + [w];
      SplitWhitelistKeepsOrder(a, b');
      SplitWhitelistSnoc(a + b', w);
      SplitWhitelistSnoc(b', w);
      var sa, sb := SplitWhitelist(a), SplitWhitelist(b');
      if IsAbsolute(w) {
        assert sa.0 + sb.0 + [w] == sa.0 + (sb.0 + [w]);
      } else {
        assert sa.1 + sb.1 + [w] == sa.1 + (sb.1 + [w]);
      }
    }
  }

  /** `initSymbolsLoadedEventGenerator`. */
  method InitGenerator(loader: Loader, watchedSymbols: seq<string>, whitelist: seq<string>)
    returns (g: Generator)
    ensures g.loader == loader
    ensures forall s :: s in g.watched <==> s in watchedSymbols
    ensures (g.prefixes, g.libraries) == SplitWhitelist(whitelist)
    ensures forall w :: w in whitelist <==> w in g.prefixes || w in g.libraries
  {
    var watched: set<string> := {};
    for i := 0 to |watchedSymbols|
      invariant forall s :: s in watched <==> s in watchedSymbols[..i]
    {
      assert watchedSymbols[..i + 1] == watchedSymbols[..i] + [watchedSymbols[i]];
      watched := watched + {watchedSymbols[i]};
    }
    assert watchedSymbols[..|watchedSymbols|] == watchedSymbols;
    var prefixes: seq<string> := [];
    var libraries: seq<string> := [];
    for i := 0 to |whitelist|
      invariant (prefixes, libraries) == SplitWhitelist(whitelist[..i])
    {
      var w := whitelist[i];
      assert whitelist[..i + 1][..i] == whitelist[..i];
      if HasPrefix(w, "/") {
        prefixes := prefixes + [w];
      } else {
        libraries := libraries + [w];
      }
    }
    assert whitelist[..|whitelist|] == whitelist;
    g := Generator(loader, watched, prefixes, libraries);
    SplitWhitelistIsPartition(whitelist);
    forall w ensures w in whitelist <==> w in g.prefixes || w in g.libraries {
      assert w in whitelist <==> w in multiset(whitelist);
      assert w in g.prefixes <==> w in multiset(g.prefixes);
      assert w in g.libraries <==> w in multiset(g.libraries);
    }
  }

  // ---------------------------------------------------------------------------
  // Whitelist

  /** The first known library directory, at index `k` or later, that prefixes
      `path`. */
  function FirstKnownDirFrom(path: string, k: nat): (r: Option<nat>)
    requires k <= |KnownLibrariesDirs|
    ensures r.Some? ==>
      && k <= r.value < |KnownLibrariesDirs|
      && HasPrefix(path, KnownLibrariesDirs[r.value])
      && forall j :: k <= j < r.value ==> !HasPrefix(path, KnownLibrariesDirs[j])
    ensures r.None? ==> forall j :: k <= j < |KnownLibrariesDirs| ==> !HasPrefix(path, KnownLibrariesDirs[j])
    decreases |KnownLibrariesDirs| - k
  {
    if k == |KnownLibrariesDirs| then None
    else if HasPrefix(path, KnownLibrariesDirs[k]) then Some(k)
    else FirstKnownDirFrom(path, k + 1)
  }

  /** The index of the first known library directory that prefixes `path`. */
  function FirstKnownDir(path: string): Option<nat>
  {
    FirstKnownDirFrom(path, 0)
  }

  /** Some absolute path-prefix rule is a prefix of `path`. */
  predicate MatchesPrefixRule(prefixes: seq<string>, path: string)
  {
    exists i :: 0 <= i < |prefixes| && HasPrefix(path, prefixes[i])
  }

  /** Some library-name rule, joined onto `dir`, is a prefix of `path`. */
  predicate MatchesLibraryRule(dir: string, libraries: seq<string>, path: string)
    requires IsDirectory(dir) && LibrariesClean(libraries)
  {
    exists i :: 0 <= i < |libraries| && HasPrefix(path, Join(dir, libraries[i]))
  }

  /** Reference meaning of the whitelist: a path-prefix rule matches, or a
      library-name rule matches under the first known directory prefixing
      the path. */
  ghost predicate Whitelisted(g: Generator, path: string)
    requires LibrariesClean(g.libraries)
  {
    || MatchesPrefixRule(g.prefixes, path)
    || match FirstKnownDir(path)
       case None => false
       case Some(d) =>
         KnownDirsAreDirectories();
         MatchesLibraryRule(KnownLibrariesDirs[d], g.libraries, path)
  }

  /** Go's `isWhitelist`, with its loops. */
  method IsWhitelist(g: Generator, soPath: string) returns (b: bool)
    requires LibrariesClean(g.libraries)
    ensures b <==> Whitelisted(g, soPath)
    ensures MatchesPrefixRule(g.prefixes, soPath) ==> b
    ensures |g.libraries| == 0 ==> (b <==> MatchesPrefixRule(g.prefixes, soPath))
  {
    for i := 0 to |g.prefixes|
      invariant forall k :: 0 <= k < i ==> !HasPrefix(soPath, g.prefixes[k])
    {
      if HasPrefix(soPath, g.prefixes[i]) {
        return true;
      }
    }
    if |g.libraries| > 0 {
      KnownDirsAreDirectories();
      for d := 0 to |KnownLibrariesDirs|
        invariant forall k :: 0 <= k < d ==> !HasPrefix(soPath, KnownLibrariesDirs[k])
      {
        var libsDirectory := KnownLibrariesDirs[d];
        if HasPrefix(soPath, libsDirectory) {
          assert FirstKnownDir(soPath) == Some(d);
          for l := 0 to |g.libraries|
            invariant forall k :: 0 <= k < l ==> !HasPrefix(soPath, Join(libsDirectory, g.libraries[k]))
          {
            if HasPrefix(soPath, Join(libsDirectory, g.libraries[l])) {
              return true;
            }
          }
          // The Go code breaks out of the directory scan here and falls
          // through to `return false`.
          return false;
        }
      }
    }
    return false;
  }

  /** Because the list is most specific first, the directory the library
      rules are tested under is the deepest known directory containing the
      path: every other known directory prefixing the path is an ancestor
      of it. */
  lemma FirstKnownDirIsDeepest(path: string, j: nat)
    requires FirstKnownDir(path).Some?
    requires j < |KnownLibrariesDirs| && HasPrefix(path, KnownLibrariesDirs[j])
    ensures HasPrefix(KnownLibrariesDirs[FirstKnownDir(path).value], KnownLibrariesDirs[j])
  {
    var d := FirstKnownDir(path).value;
    var first, other := KnownLibrariesDirs[d], KnownLibrariesDirs[j];
    if |first| < |other| {
      PrefixesAreNested(path, first, other);
      KnownDirsMostSpecificFirst();
      assert false;
    }
    PrefixesAreNested(path, other, first);
  }

  /** Library rules are tried under the first matching known directory only:
      `/usr/lib/x86_64-linux-gnu/libc.so.6` is not whitelisted by the rule
      `x86_64-linux-gnu`, although joining that rule onto the broader
      `/usr/lib/`, which also prefixes the path, would match it. */
  lemma LibraryRuleNotTriedUnderBroaderDir(loader: Loader, watched: set<string>)
    ensures var g := Generator(loader, watched, [], ["x86_64-linux-gnu"]);
      var path := "/usr/lib/x86_64-linux-gnu/libc.so.6";
      && HasPrefix(path, KnownLibrariesDirs[2])
      && HasPrefix(path, Join(KnownLibrariesDirs[2], "x86_64-linux-gnu"))
      && !Whitelisted(g, path)
  {
    var path := "/usr/lib/x86_64-linux-gnu/libc.so.6";
    KnownDirsAreDirectories();
    assert HasPrefix(path, KnownLibrariesDirs[0]);
    assert FirstKnownDir(path) == Some(0);
    assert !HasPrefix(path, Join(KnownLibrariesDirs[0], "x86_64-linux-gnu"));
  }

  /** An empty library-name rule joins to the directory itself, so it
      whitelists every path under any known library directory. */
  lemma EmptyLibraryRuleWhitelistsKnownDirs(g: Generator, path: string, d: nat)
    requires LibrariesClean(g.libraries) && [] in g.libraries
    requires d < |KnownLibrariesDirs| && HasPrefix(path, KnownLibrariesDirs[d])
    ensures Whitelisted(g, path)
  {
    var first := FirstKnownDir(path).value;
    var dir := KnownLibrariesDirs[first];
    KnownDirsAreDirectories();
    var i :| 0 <= i < |g.libraries| && g.libraries[i] == [];
    assert Join(dir, g.libraries[i]) == dir[..|dir| - 1];
    assert HasPrefix(path, Join(dir, g.libraries[i]));
  }

  // ---------------------------------------------------------------------------
  // Field extraction

  /** `getSharedObjectInfo`: reads inode, dev, ctime and pathname, in that
      order, and takes the mount namespace from the event itself. */
  function GetSharedObjectInfo(e: Event): (r: Result<ObjInfo, Error>)
    ensures !HasU64(e, "inode") ==> r == Failure(ArgError(e, "inode"))
    ensures HasU64(e, "inode") && !HasU32(e, "dev") ==>
      r == Failure(ArgError(e, "dev"))
    ensures HasU64(e, "inode") && HasU32(e, "dev") && !HasU64(e, "ctime") ==>
      r == Failure(ArgError(e, "ctime"))
    ensures HasU64(e, "inode") && HasU32(e, "dev") && HasU64(e, "ctime")
      && !HasStr(e, "pathname")
      ==> r == Failure(ArgError(e, "pathname"))
    ensures r.Success? <==>
      HasU64(e, "inode") && HasU32(e, "dev") && HasU64(e, "ctime")
      && HasStr(e, "pathname")
    ensures r.Success? ==>
      && r.value.id == ObjId(e.args["inode"].u64, e.args["dev"].u32, e.args["ctime"].u64)
      && r.value.path == e.args["pathname"].s
      && r.value.mountNS == e.mountNS
  {
    var inode :- ArgUint64Val(e, "inode");
    var device :- ArgUint32Val(e, "dev");
    var ctime :- ArgUint64Val(e, "ctime");
    var path :- ArgStringVal(e, "pathname");
    Success(ObjInfo(ObjId(inode, device, ctime), path, e.mountNS))
  }

  /** Arguments other than the four it reads do not affect extraction. */
  lemma ExtractionIgnoresOtherArgs(e: Event, name: string, v: ArgValue)
    requires name !in ["inode", "dev", "ctime", "pathname"]
    ensures GetSharedObjectInfo(e.(args := e.args[name := v])) == GetSharedObjectInfo(e)
  {
    var e' := e.(args := e.args[name := v]);
    assert forall n :: n in ["inode", "dev", "ctime", "pathname"] ==>
      (n in e'.args <==> n in e.args) && (n in e.args ==> e'.args[n] == e.args[n]);
  }

  // ---------------------------------------------------------------------------
  // Derivation

  /** The three ways a derivation ends: `(nil, err)`, `(nil, nil)`, or
      `([path, syms], nil)`. */
  datatype Outcome = Failed(err: Error) | Suppressed | Derived(path: string, syms: seq<string>)

  /** The loop over the exported symbols: collects the watched ones, visiting
      the exported set in an order the model leaves open, as Go's map
      iteration does. */
  method MatchWatched(exported: set<string>, watched: set<string>) returns (syms: seq<string>)
    ensures Enumerates(syms, exported * watched)
  {
    syms := [];
    var rest := exported;
    while rest != {}
      invariant rest <= exported
      invariant NoDup(syms)
      invariant Elems(syms) == (exported - rest) * watched
      decreases rest
    {
      var sym :| sym in rest;
      if sym in watched {
        assert sym !in Elems(syms);
        assert Elems(syms + [sym]) == Elems(syms) + {sym};
        syms := syms + [sym];
      }
      rest := rest - {sym};
    }
  }

  /** Reference meaning of `deriveArgs`: the outcomes it may produce for `e`.
      Only the order of the matched symbols is left open. */
  ghost predicate Admissible(g: Generator, e: Event, o: Outcome)
    requires LibrariesClean(g.libraries)
  {
    match GetSharedObjectInfo(e)
    case Failure(err) => o == Failed(err)
    case Success(info) =>
      if Whitelisted(g, info.path) then o == Suppressed
      else
        match g.loader(info)
        case Failure(err) => o == Failed(err)
        case Success(exported) =>
          var hits := exported * g.watched;
          if hits == {} then o == Suppressed
          else o.Derived? && o.path == info.path && Enumerates(o.syms, hits)
  }

  /** `deriveArgs`: extract, check the whitelist, load the exported symbols,
      intersect them with the watched ones, then emit or suppress. */
  method DeriveArgs(g: Generator, e: Event) returns (o: Outcome)
    requires LibrariesClean(g.libraries)
    ensures Admissible(g, e, o)
  {
    var extracted := GetSharedObjectInfo(e);
    if extracted.Failure? {
      return Failed(extracted.error);
    }
    var info := extracted.value;
    var whitelisted := IsWhitelist(g, info.path);
    if whitelisted {
      return Suppressed;
    }
    var loaded := g.loader(info);
    if loaded.Failure? {
      return Failed(loaded.error);
    }
    var exportedWatchSymbols := MatchWatched(loaded.value, g.watched);
    if |exportedWatchSymbols| > 0 {
      assert exportedWatchSymbols[0] in Elems(exportedWatchSymbols);
      return Derived(info.path, exportedWatchSymbols);
    } else {
      return Suppressed;
    }
  }

  /** For the same event, generator and loader answer, a derivation has one
      outcome, except that the matched symbols may come in another order. */
  lemma OutcomeUniqueUpToOrder(g: Generator, e: Event, o1: Outcome, o2: Outcome)
    requires LibrariesClean(g.libraries)
    requires Admissible(g, e, o1) && Admissible(g, e, o2)
    ensures o1.Derived? <==> o2.Derived?
    ensures !o1.Derived? ==> o1 == o2
    ensures o1.Derived? ==> o1.path == o2.path && multiset(o1.syms) == multiset(o2.syms)
  {
    if o1.Derived? {
      var info := GetSharedObjectInfo(e).value;
      var hits := g.loader(info).value * g.watched;
      EnumerationsArePermutations(o1.syms, o2.syms, hits);
    }
  }

  /** A failed extraction is reported verbatim and nothing else happens. */
  lemma ExtractionErrorPropagates(g: Generator, e: Event, o: Outcome)
    requires LibrariesClean(g.libraries) && Admissible(g, e, o)
    requires GetSharedObjectInfo(e).Failure?
    ensures o == Failed(GetSharedObjectInfo(e).error)
  {
  }

  /** A whitelisted path is suppressed whatever the loader would answer,
      because the whitelist is consulted before the loader. */
  lemma WhitelistedIgnoresLoader(g: Generator, e: Event, other: Loader, o: Outcome)
    requires LibrariesClean(g.libraries)
    requires GetSharedObjectInfo(e).Success?
    requires Whitelisted(g, GetSharedObjectInfo(e).value.path)
    ensures Admissible(g.(loader := other), e, o) <==> o == Suppressed
  {
  }

  /** A loader error on a path that is not whitelisted is reported verbatim. */
  lemma LoaderErrorPropagates(g: Generator, e: Event, o: Outcome)
    requires LibrariesClean(g.libraries) && Admissible(g, e, o)
    requires GetSharedObjectInfo(e).Success?
    requires !Whitelisted(g, GetSharedObjectInfo(e).value.path)
    requires g.loader(GetSharedObjectInfo(e).value).Failure?
    ensures o == Failed(g.loader(GetSharedObjectInfo(e).value).error)
  {
  }

  /** With the loader succeeding on a path that is not whitelisted, the event
      is derived exactly when some exported symbol is watched, and then it
      carries the path and each such symbol once. */
  lemma DerivedIffWatchedExport(g: Generator, e: Event, o: Outcome)
    requires LibrariesClean(g.libraries) && Admissible(g, e, o)
    requires GetSharedObjectInfo(e).Success?
    requires !Whitelisted(g, GetSharedObjectInfo(e).value.path)
    requires g.loader(GetSharedObjectInfo(e).value).Success?
    ensures var info := GetSharedObjectInfo(e).value;
      var exported := g.loader(info).value;
      && (o.Derived? <==> exists s :: s in exported && s in g.watched)
      && (!o.Derived? ==> o == Suppressed)
      && (o.Derived? ==>
            && o.path == info.path
            && NoDup(o.syms)
            && |o.syms| > 0
            && forall s :: s in o.syms <==> s in exported && s in g.watched)
  {
    var info := GetSharedObjectInfo(e).value;
    var exported := g.loader(info).value;
    var hits := exported * g.watched;
    if hits == {} {
      assert forall s :: s in exported && s in g.watched ==> s in hits;
    } else {
      assert Elems(o.syms) == hits;
      forall s ensures s in o.syms <==> s in exported && s in g.watched {
        assert s in o.syms <==> s in Elems(o.syms);
      }
      var s :| s in hits;
      assert s in exported && s in g.watched;
    }
  }
}
