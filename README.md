# Composer NPM bridge — a Dafny model

This project models the core of the Composer NPM bridge (`eloquent/composer-npm-bridge`,
PHP). After Composer installs or updates a project, the bridge runs npm for the root project
and for every installed Composer package that opts in. A package opts in by requiring the
marker package `eloquent/composer-npm-bridge`.

The model covers four classes of the PHP source:

- `NpmBridge` (`bridge.dfy`, module `Bridge`; the opt-in test is in `packages.dfy`, module
  `Packages`). `isDependantPackage` is a scan of the package's require links. `install`,
  `update` and `installForVendors` are methods of the class `Bridge.NpmBridge`. Their effect
  is one ordered trace of events (`events`). Each event is a line written to the i/o
  interface or a call on the NPM client (`install()`, `install(path)`, `update()`,
  `shrinkwrap()`). One trace is used because the order between the two matters. Each method
  is proved equal to a trace function (`InstallEvents`, `UpdateEvents`, `VendorEvents`).
  Lemmas about those functions state what the lines and the client calls are.
- `NpmVendorFinder` (`vendor_finder.dfy`, module `VendorFinder`). `find` is a loop over the
  local repository's packages. It is proved equal to the filter `Dependants`. The filter is
  proved order-preserving (a subsequence), exact on membership, no longer than its input
  and idempotent.
- `NpmProcessFactory` (`process_factory.dfy`, module `ProcessFactory`). This is a class with
  the memoised `npmPath` field. A ghost `lookups` field records the executable finder's
  answers. `Valid()` says the cache is filled only by the first successful lookup, and
  that no lookup happens after that.
- `NpmCommandFailedException` and `NpmNotFoundException` (`exceptions.dfy`, module
  `Exceptions`). They are one `Exception` datatype. The failure message embeds PHP's
  `var_export` of the command. That export is modelled, and it is proved that the command
  can be read back from the message.

`wrappers.dfy` holds the `Option` and `Result` datatypes.

Abstractions:

- Composer's objects become the `Composer` datatype: the root package, the `vendor-dir`
  setting and the local repository's package list.
- Symfony's `ExecutableFinder` becomes a class holding a map from executable name to path.
  The map can change between two lookups.
- A process is its argument list.

Where later designs of the bridge differ from the code modelled here, the model follows the
code:

- `update` calls `update()` and then `shrinkwrap()`. It does not re-run `install`.
- `isDependantPackage` takes one argument and reads only `getRequires()`.
  `NpmVendorFinder::find` passes a second argument, `false`, which PHP ignores. A package
  that lists the bridge only among its dev requires is therefore never dependant. This is
  stated by `Packages.DevRequiresNotInspected` and `Bridge.DevOnlyRootIsNotInstalled`.
  `NpmBridgeTest::testWillInvokeBridgeWhenItDefinedAsDevDependency` expects the opposite.
  That test belongs to a revision whose interface has `$includeDevDependencies`, and it does
  not hold of this code.
- There is no per-package `optional`/`timeout` configuration and no dev-mode flag.

## Model

| member | source | states |
|---|---|---|
| `Packages.RequiresBridge` | src/NpmBridge.php:142-148 | the first-match scan over the require links answers true iff some link's target is exactly `eloquent/composer-npm-bridge` |
| `Packages.DevRequiresNotInspected` | src/NpmBridge.php:140-149 | whether a package is dependant does not depend on its dev requires |
| `VendorFinder.Dependants` | src/NpmVendorFinder.php:37-41 | the dependant packages are never more than the input, and a package is among them iff it is in the input and is dependant |
| `VendorFinder.Find` | src/NpmVendorFinder.php:30-44 | the loop that appends each dependant package returns exactly `Dependants` of the local repository's packages |
| `VendorFinder.DependantsAppend` | src/NpmVendorFinder.php:37-41 | filtering a concatenation is the concatenation of the filtered parts (what the loop invariant rests on) |
| `VendorFinder.DependantsIsSubsequence` | src/NpmVendorFinder.php:35-43 | the result keeps the input's relative order: it is a subsequence of the input |
| `VendorFinder.DependantsIdempotent` | src/NpmVendorFinder.php:37-41 | filtering the result again returns it unchanged |
| `VendorFinder.FindFixture` | test/suite/NpmVendorFinderTest.php:34-65 | for A (no bridge), B (bridge second), C (bridge only in dev requires) and D (bridge first), the result is exactly [B, D] |
| `Bridge.NpmBridge.Install` | src/NpmBridge.php:90-103 | appends exactly the root-install phase followed by the vendor phase run on the finder's result |
| `Bridge.NpmBridge.Update` | src/NpmBridge.php:117-131 | appends exactly the root-update phase followed by the same vendor phase |
| `Bridge.NpmBridge.InstallForVendors` | src/NpmBridge.php:160-185 | appends the vendor header, then a line and an install per dependant package in finder order (loop invariant over the processed prefix), or "Nothing to install" |
| `Bridge.InstallRootPhase` | src/NpmBridge.php:92-102 | `install` first writes the root header; the next event is `install()` iff the root is dependant and "Nothing to install" iff it is not; the vendor header comes next |
| `Bridge.UpdateRootPhase` | src/NpmBridge.php:119-130 | `update` first writes its header, then `update()` followed by `shrinkwrap()` when the root is dependant, or "Nothing to update"; then the vendor header |
| `Bridge.PackageEventsAt` | src/NpmBridge.php:170-181 | for the i-th found package, its progress line (with its pretty name) is immediately followed by `install(vendorDir/name)` |
| `Bridge.PackageEventsCalls` | src/NpmBridge.php:170-181 | the vendor loop's client calls are exactly one `install(vendorDir/name)` per found package, in order |
| `Bridge.PackageEventsMessages` | src/NpmBridge.php:171-176 | the vendor loop's lines are exactly one progress line per found package, in order |
| `Bridge.VendorEventsCalls` | src/NpmBridge.php:166-184 | the vendor phase makes as many client calls as there are found packages, each an install in that package's directory, and none when nothing is found |
| `Bridge.VendorEventsMessages` | src/NpmBridge.php:162-184 | the vendor phase writes its header, then the per-package lines, or exactly one "Nothing to install" when nothing is found |
| `Bridge.InstallClientCalls` | src/NpmBridge.php:90-103 | all client calls of `install`: `install()` exactly when the root is dependant, then the vendor installs in finder order |
| `Bridge.UpdateClientCalls` | src/NpmBridge.php:117-131 | all client calls of `update`: `update()` then `shrinkwrap()` exactly when the root is dependant, otherwise no root call; then the vendor installs |
| `Bridge.InstallMessages` | src/NpmBridge.php:90-103 | all lines `install` writes: root header, "Nothing to install" unless the root is dependant, vendor header, then the vendor lines |
| `Bridge.UpdateMessages` | src/NpmBridge.php:117-131 | all lines `update` writes: root header, "Nothing to update" unless the root is dependant, vendor header, then the vendor lines |
| `Bridge.InstallNothing` | test/suite/NpmBridgeTest.php:86-99 | with a non-dependant root and no dependant vendor, `install` writes "Nothing to install" exactly twice, around the vendor header, and makes no client call |
| `Bridge.UpdateNothing` | test/suite/NpmBridgeTest.php:120-132 | with a non-dependant root and no dependant vendor, `update` writes "Nothing to update", the vendor header and "Nothing to install", and makes no client call |
| `Bridge.DevOnlyRootIsNotInstalled` | src/NpmBridge.php:140-149 | a root whose runtime requires do not name the bridge never gets `install()`, whatever its other runtime requires and whatever its dev requires hold |
| `Bridge.InstallScenario` | test/suite/NpmBridgeTest.php:68-84 | the exact interleaving of lines and client calls of testInstall, including `path/to/vendor/vendora/packagea` |
| `Bridge.UpdateScenario` | test/suite/NpmBridgeTest.php:101-118 | the exact interleaving of testUpdate: header, `update()`, `shrinkwrap()`, then the vendor phase |
| `Bridge.InstallNothingScenario` | test/suite/NpmBridgeTest.php:86-99 | the exact four lines of testInstallNothing and no client call |
| `Bridge.UpdateNothingScenario` | test/suite/NpmBridgeTest.php:120-132 | the exact four lines of testUpdateNothing and no client call |
| `ProcessFactory.NpmProcessFactory.constructor` | src/NpmProcessFactory.php:28-35 | keeps the given executable finder; the cache starts empty with no lookup made |
| `ProcessFactory.NpmProcessFactory.NpmPath` | src/NpmProcessFactory.php:69-79 | a cached path is returned without a lookup; otherwise one lookup is made, and a found path is cached and returned while a missing one throws NpmNotFoundException and leaves the cache empty; `Valid()` is kept |
| `ProcessFactory.NpmProcessFactory.Create` | src/NpmProcessFactory.php:55-61 | succeeds iff a path is (now) cached, with the process arguments exactly `[npmPath] + arguments`; fails with NpmNotFoundException otherwise; the cache only changes from empty to the looked-up answer |
| `ProcessFactory.CreateTwiceScenario` | test/suite/NpmProcessFactoryTest.php:42-51 | two successive creates both start with `/path/to/npm` (looked up once), followed by their own arguments |
| `ProcessFactory.CreateFailureScenario` | test/suite/NpmProcessFactoryTest.php:53-59 | `create([])` with npm missing fails with NpmNotFoundException and yields no process |
| `ProcessFactory.RetryAfterFailureScenario` | src/NpmProcessFactory.php:71-75 | a failed lookup is not remembered: once npm appears, the next create finds and uses it |
| `ProcessFactory.CachedPathScenario` | src/NpmProcessFactory.php:71-72 | once found, the path is never replaced: after npm disappears the next create still uses the first path |
| `Exceptions.ImportExport` | src/Exception/NpmCommandFailedException.php:32 | the `var_export` escaping of a string can be read back: reading the escaped text returns the original string |
| `Exceptions.ExportPlain` | src/Exception/NpmCommandFailedException.php:32 | a string without quotes, backslashes or NULs is exported as itself between single quotes |
| `Exceptions.CommandFailedMessageRoundTrip` | src/Exception/NpmCommandFailedException.php:31-32 | the command can be read back out of the failure message exactly |
| `Exceptions.CommandFailedMessageInjective` | src/Exception/NpmCommandFailedException.php:31-32 | two failures with the same message are about the same command |
| `Exceptions.CommandFailedExample` | test/suite/Exception/NpmCommandFailedExceptionTest.php:19-28 | for the command `command` and a cause: `command()` is `command`, the message is `Execution of 'command' failed.`, the code 0 and the previous exception the cause |

## Left out

- The NPM client (`src/NpmClient.php`). The model is the bridge with a client that never
  throws: a client call is only recorded as an event. In this revision the concrete client's
  `install`, `update` and `shrinkwrap` have empty bodies, but the bridge accepts any
  `NpmClientInterface`, whose methods are documented to throw `NpmCommandFailedException`
  (src/NpmClientInterface.php:24, :33, :42), and `install`/`update` document both bridge
  exceptions (src/NpmBridge.php:87-88, :114-115). With a throwing client the trace would end
  at the failing call, and nothing after it would be emitted. That cut-off trace, and the
  propagated exception, are not modelled.
- Symfony's command-line quoting (`getCommandLine()`, e.g. `'/path/to/npm' 'argumentA'`).
  A process is modelled as its argument list only.
- The executable finder's path search. It is replaced by a map from executable name to path.
- The factory's `createProcessBuilder` step is folded into `Create`.
- Constructor defaults and the getters `io()`, `vendorFinder()`, `client()` and
  `executableFinder()`. The bridge always uses the real vendor finder. A finder that returns
  some other list (as the bridge tests' mocks do) is covered by the lemmas on
  `VendorEvents`, which hold for any list of found packages.
- Composer's lower-casing of package names. `name` and `prettyName` are independent given
  fields.
- The plugin's event subscription (`src/NpmBridgePlugin.php`), the bridge factory, the empty
  vendor locator, the legacy `NPMBridge` class, and the interface files. None of these has
  behaviour in this revision.
- The dev-dependency parameter the interface declares (`$includeDevDependencies`,
  `$isDevMode`). The implementation does not take or use it.
- `var_export` is modelled for strings only, following PHP's rule (backslash before `'`
  and `\`, NUL written as `' . "\0" . '`). The test pins only `command`.
