# Symbols-loaded deriver, modelled in Dafny

This project models tracee's "symbols loaded" event deriver. Each "shared
object loaded" kernel event goes through the same steps. The deriver reads
the object's inode, device, change time and path from the event's named
arguments. It drops the event if the path is whitelisted. Otherwise it asks a
symbol loader for the object's exported symbols and keeps those the operator
watches. A derivation ends in one of three ways:

- failed: the argument error or the loader error, passed on unchanged;
- suppressed: Go's `(nil, nil)`;
- derived: the pair `[path, matchedSymbols]`.

The whitelist has two kinds of rule, split apart when the generator is built:

- an entry starting with `/` is a path-prefix rule;
- any other entry is a bare library name. It is joined onto the first entry of
  a fixed, most-specific-first list of system library directories that
  prefixes the path.

Files:

- `Wrappers.dfy`: `Option` and `Result`.
- `Seqs.dfy`: the element set of a list, duplicate-freedom, and the fact that
  two duplicate-free lists with the same elements are permutations.
- `Paths.dfy`: `strings.HasPrefix`, clean path names, and the restricted
  `path.Join`.
- `SharedObjs.dfy`: object identity, the per-load object info, errors, and the
  loader's type.
- `Trace.dfy`: event arguments as a map from name to a tagged value, and the
  typed accessors. An accessor succeeds when the argument is present with the
  right tag. Otherwise it fails with `ArgNotFound` or `ArgWrongType` naming
  the argument.
- `SymbolsLoaded.dfy`: the deriver. It holds:
  - construction (`InitGenerator` against the reference `SplitWhitelist`);
  - the whitelist (the `IsWhitelist` method, with the loops of Go's `isWhitelist`,
    against the declarative `Whitelisted`);
  - extraction (`GetSharedObjectInfo`);
  - derivation (the `DeriveArgs` method against the declarative
    `Admissible`, which leaves only the order of matched symbols open).
- `SymbolsLoadedTest.dfy`: the test's mock loader, the event the test
  generates, and the seven table rows. Each row is a method whose
  postcondition is the row's expected result.

Go iterates the exported-symbol map in an unspecified order. `MatchWatched`
models this by picking elements with `:|`. Its contract says only that the
result lists every symbol of exported ∩ watched exactly once.

In `isWhitelist`, once the library rules have been tried under the first
matching directory, the code `break`s out of the directory loop and falls
through to `return false`. The model returns `false` at that point, which
gives the same result.

A bare-name rule is tried only under the first known directory that
prefixes the path, not under every known directory containing it;
`LibraryRuleNotTriedUnderBroaderDir` exhibits a path where the two readings
differ.

## Model

| member | source | states |
|---|---|---|
| SymbolsLoaded.KnownDirsMostSpecificFirst | pkg/events/derive/symbols_loaded.go:17-24 | no entry of the known library directories extends an earlier one, so more specific directories come first |
| SymbolsLoaded.FirstKnownDirFrom | pkg/events/derive/symbols_loaded.go:99-107 | the result is the least index from `k` whose directory prefixes the path, and `None` exactly when no such directory exists; this is the directory the scan stops at |
| SymbolsLoaded.FirstKnownDirIsDeepest | pkg/events/derive/symbols_loaded.go:17-24 | every known directory that prefixes the path is an ancestor of (a prefix of) the one the scan picks, so the scan picks the deepest |
| SymbolsLoaded.SplitWhitelist | pkg/events/derive/symbols_loaded.go:43-50 | every entry of the first list starts with `/` and no entry of the second does |
| SymbolsLoaded.SplitWhitelistIsPartition | pkg/events/derive/symbols_loaded.go:43-50 | the two lists together hold exactly the whitelist's entries, with multiplicity, so each entry lands in exactly one list |
| SymbolsLoaded.SplitWhitelistSnoc | pkg/events/derive/symbols_loaded.go:44-49 | appending an entry to the whitelist appends it to the prefix list if it starts with `/` and to the library list otherwise |
| SymbolsLoaded.SplitWhitelistKeepsOrder | pkg/events/derive/symbols_loaded.go:43-50 | splitting a concatenation gives the concatenation of the splits, so relative order is kept within each list |
| SymbolsLoaded.InitGenerator | pkg/events/derive/symbols_loaded.go:35-57 | keeps the loader; a symbol is watched iff it is in the watched list; the two rule lists are the reference split; every whitelist entry is in one of them and nothing else is |
| SymbolsLoaded.IsWhitelist | pkg/events/derive/symbols_loaded.go:89-111 | the result is `Whitelisted`: a path-prefix rule matches, or a library rule joined onto the first known directory prefixing the path is a prefix of it. A matching prefix rule gives true whatever the library rules are. With no library rules, the result is true iff a prefix rule matches |
| SymbolsLoaded.LibraryRuleNotTriedUnderBroaderDir | pkg/events/derive/symbols_loaded.go:97-108 | `/usr/lib/x86_64-linux-gnu/libc.so.6` is not whitelisted by the rule `x86_64-linux-gnu`, although `/usr/lib/` prefixes it and the rule joined onto `/usr/lib/` would match: only the first matching directory is tried |
| SymbolsLoaded.EmptyLibraryRuleWhitelistsKnownDirs | pkg/events/derive/symbols_loaded.go:98-105 | an empty library rule joins to the directory itself, so it whitelists every path under any known library directory |
| SymbolsLoaded.KnownDirsAreDirectories | pkg/events/derive/symbols_loaded.go:18-24 | each of the five known directories is a clean absolute directory written with its trailing `/`, so the restricted join applies to each and agrees with `path.Join` there |
| Paths.Join | pkg/events/derive/symbols_loaded.go:102 | `path.Join(dir, name)` for a clean directory and a clean name: the result is a clean absolute path, so the `Clean` step of `path.Join` would leave it unchanged; it starts with the directory minus its trailing `/`, a non-empty name follows after exactly one separator, and an empty name leaves just the directory without its trailing `/` |
| SymbolsLoaded.GetSharedObjectInfo | pkg/events/derive/symbols_loaded.go:114-141 | inode, dev, ctime and pathname are checked in that order, and the result is the error for the first one missing or mistyped. It succeeds iff all four are present with the right types. The object info then holds exactly those values and the event's mount namespace |
| SymbolsLoaded.ExtractionIgnoresOtherArgs | pkg/events/derive/symbols_loaded.go:114-131 | setting any argument other than the four read leaves the extraction result unchanged |
| SymbolsLoaded.MatchWatched | pkg/events/derive/symbols_loaded.go:74-79 | the collected list holds each symbol of exported ∩ watched exactly once, in any order |
| SymbolsLoaded.DeriveArgs | pkg/events/derive/symbols_loaded.go:59-86 | the outcome is `Admissible`. An extraction error fails with that error. A whitelisted path is suppressed. A loader error fails with that error. An empty exported ∩ watched is suppressed. Otherwise the outcome is derived with the object's path and an enumeration of the intersection |
| SymbolsLoaded.OutcomeUniqueUpToOrder | pkg/events/derive/symbols_loaded.go:74-85 | two admissible outcomes for the same event and generator are equal, except that derived symbol lists may differ in order (same multiset) |
| SymbolsLoaded.ExtractionErrorPropagates | pkg/events/derive/symbols_loaded.go:60-63 | an extraction error is returned unchanged |
| SymbolsLoaded.WhitelistedIgnoresLoader | pkg/events/derive/symbols_loaded.go:65-69 | for a whitelisted path the outcome is suppression with any loader at all, since the whitelist check comes before the loader call |
| SymbolsLoaded.LoaderErrorPropagates | pkg/events/derive/symbols_loaded.go:69-72 | on a path that is not whitelisted, a loader error is returned unchanged |
| SymbolsLoaded.DerivedIffWatchedExport | pkg/events/derive/symbols_loaded.go:74-85 | when the path is not whitelisted and the loader succeeds, an event is derived iff some exported symbol is watched, and otherwise the outcome is suppression. A derived event carries the path and a non-empty, duplicate-free list whose elements are exactly exported ∩ watched |
| SymbolsLoadedTest.AddSOSymbols | pkg/events/derive/symbols_loaded_test.go:37-43 | the object's entry holds exactly the listed symbols as a set, and every other entry is unchanged |
| SymbolsLoadedTest.MockFor | pkg/events/derive/symbols_loaded_test.go:20-43 | the loader each table row builds (a fresh mock plus `addSOSymbols` of the row's object, test lines 157-158): looking up that object succeeds with exactly the row's symbols, and every other object succeeds with no symbols (Go's nil map) |
| SymbolsLoadedTest.MockLookupAfterAdd | pkg/events/derive/symbols_loaded_test.go:29-43 | after recording an object, the mock's lookup for it succeeds with exactly the listed symbols, and lookups for other objects are unchanged |
| SymbolsLoadedTest.GenerateSOLoadedEvent | pkg/events/derive/symbols_loaded_test.go:45-59 | the event holds exactly the arguments pathname, flags, dev, inode and ctime; the four identity arguments carry the object's values with the types extraction expects, and the mount namespace is zero |
| SymbolsLoadedTest.GeneratedEventRoundTrip | pkg/events/derive/symbols_loaded_test.go:45-59 | extracting from the generated event gives back the object's info, with the mount namespace zero because the event does not set it |
| SymbolsLoadedTest.RunScenario | pkg/events/derive/symbols_loaded_test.go:154-175 | one table row: the outcome is admissible for the generator built from the row's watched list, its whitelist and a mock holding only the row's object |
| SymbolsLoadedTest.ScenarioNoExports | pkg/events/derive/symbols_loaded_test.go:69-78 | an object exporting nothing gives no event and no error |
| SymbolsLoadedTest.ScenarioOneWatchedExport | pkg/events/derive/symbols_loaded_test.go:79-88 | exports {open} give path `1.so` and the symbols {open} |
| SymbolsLoadedTest.ScenarioAllWatchedExports | pkg/events/derive/symbols_loaded_test.go:89-102 | exports {open, close, write} give path `1.so` and those three symbols in any order |
| SymbolsLoadedTest.ScenarioPartlyWatchedExports | pkg/events/derive/symbols_loaded_test.go:103-116 | exports {open, close, sync} give path `1.so` and exactly {open, close} in any order |
| SymbolsLoadedTest.ScenarioNoWatchedExports | pkg/events/derive/symbols_loaded_test.go:117-130 | exports {createdir, rmdir, walk} give no event and no error |
| SymbolsLoadedTest.ScenarioWhitelistedFullPath | pkg/events/derive/symbols_loaded_test.go:131-140 | the prefix rule `/tmp/test` suppresses `/tmp/test.so` although it exports `open` |
| SymbolsLoadedTest.LibraryNameRuleMatches | pkg/events/derive/symbols_loaded_test.go:141-150 | `test` is a clean name, and the bare-name rule `test` whitelists `/lib/test.so`: the first known directory prefixing it is `/lib/`, and `/lib/test` prefixes the path |
| SymbolsLoadedTest.ScenarioWhitelistedLibraryName | pkg/events/derive/symbols_loaded_test.go:141-150 | the bare-name rule `test` suppresses `/lib/test.so` although it exports `open` |

## Left out

- The real symbol loader of the `sharedobjs` package, with its ELF
  dynamic-symbol parsing and memoizing cache, is not part of this model. The
  loader is a function parameter held by the generator. The cache's
  at-most-one-resolution and no-negative-caching guarantees concern
  concurrency and I/O, so they are not modelled.
- The internals of `parse.ArgUint64Val`, `ArgUint32Val` and `ArgStringVal`
  are not part of this model. The model keeps only "present with the right
  type" against an error naming the argument. Event arguments are a map, so
  an event with two arguments of the same name cannot be expressed.
- `SymbolsLoaded`, `singleEventDeriveFunc` and the event registry
  (pkg/events/derive/symbols_loaded.go:12-15) are wrapper code over the event
  registry, which is not part of this model, so they are not modelled.
- Event fields other than the named arguments and `MountNS` are not
  modelled. This covers process IDs, event IDs and argument type metadata,
  and the `pid` parameter of the test's event generator.
- The mock's `GetDynamicSymbols` and `GetImportedSymbols` are not modelled,
  because the deriver never calls them.
- Full `path.Join`/`path.Clean` semantics are not modelled. `Paths.Join`
  covers a clean directory ending in `/` joined with a clean name.
  Its contract shows the result is clean, and `KnownDirsAreDirectories`
  shows the five known directories are such directories.
- Paths, whitelist rules and symbol names are sequences of Unicode
  characters, and `HasPrefix` compares characters. Go strings are byte
  strings and `strings.HasPrefix` compares bytes. The two agree for valid
  UTF-8 only; a path holding bytes that are not valid UTF-8 cannot be
  expressed.
- SymbolsLoaded.IsWhitelist: requires every library rule to be a clean name
  (no leading or trailing `/`, no `//`, no `.` or `..` element). The Go code
  accepts any string, and `path.Join` would clean such a rule first.
- SymbolsLoaded.DeriveArgs: carries the same clean-library-rule
  precondition, inherited from the whitelist check.
- The order in which Go iterates the exported-symbol map is not modelled.
  Only set equality and the absence of duplicates are stated.
- Integer widths appear only as the ranges of `uint32` and `uint64`. Nothing
  in the deriver does arithmetic, so no wrap-around arises.
