/** NpmBridge: installs or updates the NPM dependencies of the root project, then
    installs those of every vendor package that opts in to the bridge.

    The i/o interface and the NPM client are observed together as one ordered trace
    of events, since what matters is the interleaving of messages and client calls. */
module Bridge {
  import opened Wrappers
  import opened Packages
  import VendorFinder

  /** One observable step: a line written to the i/o interface, or a call on the client.
      `ClientInstall(None)` is `install()` on the root project, `ClientInstall(Some(p))`
      is `install(p)` in a vendor package's directory. */
  datatype Event =
    | IoWrite(message: string)
    | ClientInstall(path: Option<string>)
    | ClientUpdate
    | ClientShrinkwrap

  const RootInstallHeader := "<info>Installing NPM dependencies for root project</info>"
  const RootUpdateHeader := "<info>Updating NPM dependencies for root project</info>"
  const VendorHeader := "<info>Installing NPM dependencies for Composer dependencies</info>"
  const NothingToInstall := "Nothing to install"
  const NothingToUpdate := "Nothing to update"

  /** The progress line written before installing one vendor package. */
  function VendorMessage(prettyName: string): string
  {
    "<info>Installing NPM dependencies for " + prettyName + "</info>"
  }

  /** Where a vendor package's NPM dependencies are installed: the vendor directory, a
      slash, then the package's name. */
  function VendorPath(vendorDir: string, name: string): string
  {
    vendorDir + "/" + name
  }

  /** Root phase of `install`: the header, then `install()` or "Nothing to install". */
  function RootInstallEvents(root: Package): seq<Event>
  {
    [IoWrite(RootInstallHeader)]
      + if IsDependantPackage(root) then [ClientInstall(None)] else [IoWrite(NothingToInstall)]
  }

  /** Root phase of `update`: the header, then `update()` and `shrinkwrap()`, or
      "Nothing to update". */
  function RootUpdateEvents(root: Package): seq<Event>
  {
    [IoWrite(RootUpdateHeader)]
      + if IsDependantPackage(root) then [ClientUpdate, ClientShrinkwrap] else [IoWrite(NothingToUpdate)]
  }

  /** The body of the vendor loop for the packages `found`: for each one, in order, its
      progress line immediately followed by `install` in its vendor directory. */
  function PackageEvents(vendorDir: string, found: seq<Package>): (r: seq<Event>)
    ensures |r| == 2 * |found|
  {
    if found == [] then []
    else
      [IoWrite(VendorMessage(found[0].prettyName)),
       ClientInstall(Some(VendorPath(vendorDir, found[0].name)))]
      + PackageEvents(vendorDir, found[1..])
  }

  /** `installForVendors` given the finder's answer `found`. */
  function VendorEvents(vendorDir: string, found: seq<Package>): seq<Event>
  {
    [IoWrite(VendorHeader)]
      + if |found| > 0 then PackageEvents(vendorDir, found) else [IoWrite(NothingToInstall)]
  }

  /** Everything `install` does for a Composer project. */
  function InstallEvents(composer: Composer): seq<Event>
  {
    RootInstallEvents(composer.package)
      + VendorEvents(composer.vendorDir, VendorFinder.Dependants(composer.localPackages))
  }

  /** Everything `update` does for a Composer project. */
  function UpdateEvents(composer: Composer): seq<Event>
  {
    RootUpdateEvents(composer.package)
      + VendorEvents(composer.vendorDir, VendorFinder.Dependants(composer.localPackages))
  }

  /** The lines the i/o interface received, in order. */
  function Messages(events: seq<Event>): (lines: seq<string>)
    ensures |lines| <= |events|
  {
    if events == [] then []
    else (if events[0].IoWrite? then [events[0].message] else []) + Messages(events[1..])
  }

  /** The calls the NPM client received, in order. */
  function ClientCalls(events: seq<Event>): (calls: seq<Event>)
    ensures |calls| <= |events|
  {
    if events == [] then []
    else (if events[0].IoWrite? then [] else [events[0]]) + ClientCalls(events[1..])
  }

  class NpmBridge {
    /** What the i/o interface and the NPM client have been asked to do so far. */
    var events: seq<Event>

    constructor ()
      ensures events == []
    {
      events := [];
    }

    method Write(message: string)
      modifies this
      ensures events == old(events) + [IoWrite(message)]
    {
      events := events + [IoWrite(message)];
    }

    method Call(call: Event)
      requires !call.IoWrite?
      modifies this
      ensures events == old(events) + [call]
    {
      events := events + [call];
    }

    /** Install NPM dependencies for the root project and its dependencies. */
    method Install(composer: Composer)
      modifies this
      ensures events == old(events) + InstallEvents(composer)
    {
      Write(RootInstallHeader);
      if IsDependantPackage(composer.package) {
        Call(ClientInstall(None));
      } else {
        Write(NothingToInstall);
      }
      assert events == old(events) + RootInstallEvents(composer.package);
      InstallForVendors(composer);
    }

    /** Update (and shrinkwrap) the root project's NPM dependencies, then install
        those of its dependencies. */
    method Update(composer: Composer)
      modifies this
      ensures events == old(events) + UpdateEvents(composer)
    {
      Write(RootUpdateHeader);
      if IsDependantPackage(composer.package) {
        Call(ClientUpdate);
        Call(ClientShrinkwrap);
      } else {
        Write(NothingToUpdate);
      }
      assert events == old(events) + RootUpdateEvents(composer.package);
      InstallForVendors(composer);
    }

    /** Install NPM dependencies for every dependant package the finder reports. */
    method InstallForVendors(composer: Composer)
      modifies this
      ensures events == old(events)
        + VendorEvents(composer.vendorDir, VendorFinder.Dependants(composer.localPackages))
    {
      Write(VendorHeader);
      var packages := VendorFinder.Find(composer);
      if |packages| > 0 {
        var vendorDir := composer.vendorDir;
        for i := 0 to |packages|
          invariant events == old(events) + [IoWrite(VendorHeader)] + PackageEvents(vendorDir, packages[..i])
        {
          var package := packages[i];
          Write(VendorMessage(package.prettyName));
          Call(ClientInstall(Some(VendorPath(vendorDir, package.name))));
          PackageEventsAppend(vendorDir, packages[..i], [package]);
          assert packages[..i + 1] == packages[..i] + [package];
        }
        assert packages[..|packages|] == packages;
      } else {
        Write(NothingToInstall);
      }
    }
  }

  lemma {:induction false} PackageEventsAppend(vendorDir: string, xs: seq<Package>, ys: seq<Package>)
    ensures PackageEvents(vendorDir, xs + ys) == PackageEvents(vendorDir, xs) + PackageEvents(vendorDir, ys)
  {
    if xs == [] {
      assert xs + ys == ys;
    } else {
      assert (xs + ys)[0] == xs[0];
      assert (xs + ys)[1..] == xs[1..] + ys;
      PackageEventsAppend(vendorDir, xs[1..], ys);
    }
  }

  lemma {:induction false} MessagesAppend(xs: seq<Event>, ys: seq<Event>)
    ensures Messages(xs + ys) == Messages(xs) + Messages(ys)
  {
    if xs == [] {
      assert xs + ys == ys;
    } else {
      assert (xs + ys)[0] == xs[0];
      assert (xs + ys)[1..] == xs[1..] + ys;
      MessagesAppend(xs[1..], ys);
    }
  }

  lemma {:induction false} ClientCallsAppend(xs: seq<Event>, ys: seq<Event>)
    ensures ClientCalls(xs + ys) == ClientCalls(xs) + ClientCalls(ys)
  {
    if xs == [] {
      assert xs + ys == ys;
    } else {
      assert (xs + ys)[0] == xs[0];
      assert (xs + ys)[1..] == xs[1..] + ys;
      ClientCallsAppend(xs[1..], ys);
    }
  }

  /** In the vendor loop, the i-th package's line is immediately followed by its install. */
  lemma {:induction false} PackageEventsAt(vendorDir: string, found: seq<Package>, i: nat)
    requires i < |found|
    ensures PackageEvents(vendorDir, found)[2 * i] == IoWrite(VendorMessage(found[i].prettyName))
    ensures PackageEvents(vendorDir, found)[2 * i + 1] == ClientInstall(Some(VendorPath(vendorDir, found[i].name)))
  {
    if i > 0 {
      PackageEventsAt(vendorDir, found[1..], i - 1);
    }
  }

  /** One `install` in each found package's vendor directory, in the finder's order. */
  function VendorInstalls(vendorDir: string, found: seq<Package>): seq<Event>
  {
    seq(|found|, i requires 0 <= i < |found| => ClientInstall(Some(VendorPath(vendorDir, found[i].name))))
  }

  /** One progress line per found package, in the finder's order. */
  function VendorMessages(found: seq<Package>): seq<string>
  {
    seq(|found|, i requires 0 <= i < |found| => VendorMessage(found[i].prettyName))
  }

  /** The vendor loop's client calls are exactly the vendor installs, nothing else. */
  lemma {:induction false} PackageEventsCalls(vendorDir: string, found: seq<Package>)
    ensures ClientCalls(PackageEvents(vendorDir, found)) == VendorInstalls(vendorDir, found)
  {
    if found != [] {
      var install := ClientInstall(Some(VendorPath(vendorDir, found[0].name)));
      var head := [IoWrite(VendorMessage(found[0].prettyName)), install];
      ClientCallsAppend(head, PackageEvents(vendorDir, found[1..]));
      assert ClientCalls(head) == [install] by {
        assert head[1..] == [install];
        assert head[1..][1..] == [];
      }
      PackageEventsCalls(vendorDir, found[1..]);
      assert VendorInstalls(vendorDir, found) == [install] + VendorInstalls(vendorDir, found[1..]);
    }
  }

  /** The vendor loop's lines are exactly the per-package progress lines. */
  lemma {:induction false} PackageEventsMessages(vendorDir: string, found: seq<Package>)
    ensures Messages(PackageEvents(vendorDir, found)) == VendorMessages(found)
  {
    if found != [] {
      var line := VendorMessage(found[0].prettyName);
      var head := [IoWrite(line), ClientInstall(Some(VendorPath(vendorDir, found[0].name)))];
      MessagesAppend(head, PackageEvents(vendorDir, found[1..]));
      assert Messages(head) == [line] by {
        assert head[1..][1..] == [];
      }
      PackageEventsMessages(vendorDir, found[1..]);
      assert VendorMessages(found) == [line] + VendorMessages(found[1..]);
    }
  }

  /** `install` writes the root header first; then exactly one of `install()` (when the
      root requires the bridge) and "Nothing to install"; then the vendor header. */
  lemma InstallRootPhase(composer: Composer)
    ensures |InstallEvents(composer)| >= 3
    ensures InstallEvents(composer)[0] == IoWrite(RootInstallHeader)
    ensures InstallEvents(composer)[1] == ClientInstall(None) <==> IsDependantPackage(composer.package)
    ensures InstallEvents(composer)[1] == IoWrite(NothingToInstall) <==> !IsDependantPackage(composer.package)
    ensures InstallEvents(composer)[2] == IoWrite(VendorHeader)
  {
  }

  /** `update` writes its header; then `update()` followed by `shrinkwrap()` when the
      root requires the bridge, otherwise "Nothing to update"; then the vendor header. */
  lemma UpdateRootPhase(composer: Composer)
    ensures UpdateEvents(composer)[0] == IoWrite(RootUpdateHeader)
    ensures IsDependantPackage(composer.package) ==>
      UpdateEvents(composer)[1..4] == [ClientUpdate, ClientShrinkwrap, IoWrite(VendorHeader)]
    ensures !IsDependantPackage(composer.package) ==>
      UpdateEvents(composer)[1..3] == [IoWrite(NothingToUpdate), IoWrite(VendorHeader)]
  {
  }

  /** The vendor phase makes one `install(path)` call per found package, in order, and
      no other call; with nothing found it makes none. */
  lemma {:induction false} VendorEventsCalls(vendorDir: string, found: seq<Package>)
    ensures ClientCalls(VendorEvents(vendorDir, found)) == VendorInstalls(vendorDir, found)
  {
    var rest := if |found| > 0 then PackageEvents(vendorDir, found) else [IoWrite(NothingToInstall)];
    ClientCallsAppend([IoWrite(VendorHeader)], rest);
    if |found| > 0 {
      PackageEventsCalls(vendorDir, found);
    }
  }

  /** The vendor phase writes the vendor header, then one progress line per found
      package in order, or a single "Nothing to install" when nothing was found. */
  lemma {:induction false} VendorEventsMessages(vendorDir: string, found: seq<Package>)
    ensures Messages(VendorEvents(vendorDir, found))
      == [VendorHeader] + if found == [] then [NothingToInstall] else VendorMessages(found)
  {
    var rest := if |found| > 0 then PackageEvents(vendorDir, found) else [IoWrite(NothingToInstall)];
    MessagesAppend([IoWrite(VendorHeader)], rest);
    if |found| > 0 {
      PackageEventsMessages(vendorDir, found);
    }
  }

  /** All client calls of `install`: `install()` for the root exactly when it requires
      the bridge, then `install(vendorDir/name)` for each dependant package in order. */
  lemma {:induction false} InstallClientCalls(composer: Composer)
    ensures ClientCalls(InstallEvents(composer))
      == (if IsDependantPackage(composer.package) then [ClientInstall(None)] else [])
         + VendorInstalls(composer.vendorDir, VendorFinder.Dependants(composer.localPackages))
  {
    var found := VendorFinder.Dependants(composer.localPackages);
    var root := RootInstallEvents(composer.package);
    ClientCallsAppend(root, VendorEvents(composer.vendorDir, found));
    VendorEventsCalls(composer.vendorDir, found);
    assert root[1..][1..] == [];
  }

  /** All client calls of `update`: `update()` then `shrinkwrap()` for the root exactly
      when it requires the bridge, then `install(vendorDir/name)` per dependant package. */
  lemma {:induction false} UpdateClientCalls(composer: Composer)
    ensures ClientCalls(UpdateEvents(composer))
      == (if IsDependantPackage(composer.package) then [ClientUpdate, ClientShrinkwrap] else [])
         + VendorInstalls(composer.vendorDir, VendorFinder.Dependants(composer.localPackages))
  {
    var found := VendorFinder.Dependants(composer.localPackages);
    ClientCallsAppend(RootUpdateEvents(composer.package), VendorEvents(composer.vendorDir, found));
    VendorEventsCalls(composer.vendorDir, found);
    RootUpdateProjections(composer.package);
  }

  /** All lines `install` writes: the root header, "Nothing to install" unless the root
      requires the bridge, then the vendor phase's lines. */
  lemma {:induction false} InstallMessages(composer: Composer)
    ensures
      var found := VendorFinder.Dependants(composer.localPackages);
      Messages(InstallEvents(composer))
        == [RootInstallHeader]
           + (if IsDependantPackage(composer.package) then [] else [NothingToInstall])
           + [VendorHeader]
           + (if found == [] then [NothingToInstall] else VendorMessages(found))
  {
    var found := VendorFinder.Dependants(composer.localPackages);
    var root := RootInstallEvents(composer.package);
    MessagesAppend(root, VendorEvents(composer.vendorDir, found));
    VendorEventsMessages(composer.vendorDir, found);
    assert root[1..][1..] == [];
  }

  /** All lines `update` writes: the root header, "Nothing to update" unless the root
      requires the bridge, then the vendor phase's lines. */
  lemma {:induction false} UpdateMessages(composer: Composer)
    ensures
      var found := VendorFinder.Dependants(composer.localPackages);
      Messages(UpdateEvents(composer))
        == [RootUpdateHeader]
           + (if IsDependantPackage(composer.package) then [] else [NothingToUpdate])
           + [VendorHeader]
           + (if found == [] then [NothingToInstall] else VendorMessages(found))
  {
    var found := VendorFinder.Dependants(composer.localPackages);
    MessagesAppend(RootUpdateEvents(composer.package), VendorEvents(composer.vendorDir, found));
    VendorEventsMessages(composer.vendorDir, found);
    RootUpdateProjections(composer.package);
  }

  /** The root phase of `update`, split into its lines and its client calls. */
  lemma RootUpdateProjections(root: Package)
    ensures Messages(RootUpdateEvents(root))
      == [RootUpdateHeader] + if IsDependantPackage(root) then [] else [NothingToUpdate]
    ensures ClientCalls(RootUpdateEvents(root))
      == if IsDependantPackage(root) then [ClientUpdate, ClientShrinkwrap] else []
  {
    var events := RootUpdateEvents(root);
    if IsDependantPackage(root) {
      assert events[1..] == [ClientUpdate, ClientShrinkwrap];
      assert events[1..][1..] == [ClientShrinkwrap];
      assert events[1..][1..][1..] == [];
      assert Messages(events[1..]) == [];
      assert ClientCalls(events[1..][1..]) == [ClientShrinkwrap];
      assert ClientCalls(events[1..]) == [ClientUpdate, ClientShrinkwrap];
    } else {
      assert events[1..][1..] == [];
    }
  }

  /** With a root that does not require the bridge and no dependant vendor package,
      `install` writes "Nothing to install" twice, around the vendor header, and makes
      no client call. */
  lemma {:induction false} InstallNothing(composer: Composer)
    requires !IsDependantPackage(composer.package)
    requires VendorFinder.Dependants(composer.localPackages) == []
    ensures Messages(InstallEvents(composer))
      == [RootInstallHeader, NothingToInstall, VendorHeader, NothingToInstall]
    ensures ClientCalls(InstallEvents(composer)) == []
  {
    InstallMessages(composer);
    InstallClientCalls(composer);
  }

  /** The same for `update`: "Nothing to update", the vendor header, "Nothing to
      install", and no client call. */
  lemma {:induction false} UpdateNothing(composer: Composer)
    requires !IsDependantPackage(composer.package)
    requires VendorFinder.Dependants(composer.localPackages) == []
    ensures Messages(UpdateEvents(composer))
      == [RootUpdateHeader, NothingToUpdate, VendorHeader, NothingToInstall]
    ensures ClientCalls(UpdateEvents(composer)) == []
  {
    UpdateMessages(composer);
    UpdateClientCalls(composer);
  }

  /** As written, a root that lists the bridge only among its dev requires is not
      installed: `install()` without a path never happens. */
  lemma {:induction false} DevOnlyRootIsNotInstalled(composer: Composer)
    requires forall l :: l in composer.package.requireLinks ==> l.target != BridgePackageName
    ensures ClientInstall(None) !in ClientCalls(InstallEvents(composer))
  {
    assert !IsDependantPackage(composer.package);
    InstallClientCalls(composer);
    var calls := ClientCalls(InstallEvents(composer));
    forall i | 0 <= i < |calls|
      ensures calls[i] != ClientInstall(None)
    {
      assert calls[i] == VendorInstalls(composer.vendorDir, VendorFinder.Dependants(composer.localPackages))[i];
    }
  }

  // The fixtures of NpmBridgeTest: vendor-dir `path/to/vendor`, a root package that
  // requires vendorX/packageX, vendorY/packageY and possibly the bridge, and two vendor
  // packages that require the bridge. Composer reports the names in lower case.
  const TestRootLinks := [Link("vendor/package", "vendorX/packageX"), Link("vendor/package", "vendorY/packageY")]
  const TestRoot := Package("vendor/package", "vendor/package",
    TestRootLinks + [Link("vendor/package", BridgePackageName)], [])
  const TestRootWithoutBridge := Package("vendor/package", "vendor/package", TestRootLinks, [])
  const TestVendorA := Package("vendora/packagea", "vendorA/packageA", [Link("vendorA/packageA", BridgePackageName)], [])
  const TestVendorB := Package("vendorb/packageb", "vendorB/packageB", [Link("vendorB/packageB", BridgePackageName)], [])

  lemma TestFixtureFacts()
    ensures IsDependantPackage(TestRoot) && !IsDependantPackage(TestRootWithoutBridge)
    ensures VendorFinder.Dependants([TestVendorA, TestVendorB]) == [TestVendorA, TestVendorB]
  {
    assert TestRoot.requireLinks[2].target == BridgePackageName;
    assert TestRootWithoutBridge.requireLinks[0].target != BridgePackageName;
    assert TestRootWithoutBridge.requireLinks[1].target != BridgePackageName;
    assert TestVendorA.requireLinks[0].target == BridgePackageName;
    assert TestVendorB.requireLinks[0].target == BridgePackageName;
    assert [TestVendorA, TestVendorB][1..] == [TestVendorB];
    assert [TestVendorB][1..] == [];
  }

  /** testInstall: root header, `install()`, vendor header, then line and install per
      vendor package, interleaved in exactly this order. */
  method InstallScenario() returns (events: seq<Event>)
    ensures events == [
      IoWrite("<info>Installing NPM dependencies for root project</info>"),
      ClientInstall(None),
      IoWrite("<info>Installing NPM dependencies for Composer dependencies</info>"),
      IoWrite("<info>Installing NPM dependencies for vendorA/packageA</info>"),
      ClientInstall(Some("path/to/vendor/vendora/packagea")),
      IoWrite("<info>Installing NPM dependencies for vendorB/packageB</info>"),
      ClientInstall(Some("path/to/vendor/vendorb/packageb"))]
  {
    var composer := Composer(TestRoot, "path/to/vendor", [TestVendorA, TestVendorB]);
    TestFixtureFacts();
    var bridge := new NpmBridge();
    bridge.Install(composer);
    events := bridge.events;
    ScenarioVendorEvents();
  }

  /** testUpdate: root header, `update()`, `shrinkwrap()`, then the same vendor phase. */
  method UpdateScenario() returns (events: seq<Event>)
    ensures events == [
      IoWrite("<info>Updating NPM dependencies for root project</info>"),
      ClientUpdate,
      ClientShrinkwrap,
      IoWrite("<info>Installing NPM dependencies for Composer dependencies</info>"),
      IoWrite("<info>Installing NPM dependencies for vendorA/packageA</info>"),
      ClientInstall(Some("path/to/vendor/vendora/packagea")),
      IoWrite("<info>Installing NPM dependencies for vendorB/packageB</info>"),
      ClientInstall(Some("path/to/vendor/vendorb/packageb"))]
  {
    var composer := Composer(TestRoot, "path/to/vendor", [TestVendorA, TestVendorB]);
    TestFixtureFacts();
    var bridge := new NpmBridge();
    bridge.Update(composer);
    events := bridge.events;
    ScenarioVendorEvents();
  }

  /** The vendor loop over two packages, spelled out. */
  lemma PackageEventsOfTwo(vendorDir: string, a: Package, b: Package)
    ensures PackageEvents(vendorDir, [a, b]) == [
      IoWrite(VendorMessage(a.prettyName)), ClientInstall(Some(VendorPath(vendorDir, a.name))),
      IoWrite(VendorMessage(b.prettyName)), ClientInstall(Some(VendorPath(vendorDir, b.name)))]
  {
    assert [a, b][1..] == [b];
    assert [b][1..] == [];
  }

  lemma ScenarioVendorEvents()
    ensures PackageEvents("path/to/vendor", [TestVendorA, TestVendorB]) == [
      IoWrite("<info>Installing NPM dependencies for vendorA/packageA</info>"),
      ClientInstall(Some("path/to/vendor/vendora/packagea")),
      IoWrite("<info>Installing NPM dependencies for vendorB/packageB</info>"),
      ClientInstall(Some("path/to/vendor/vendorb/packageb"))]
  {
    PackageEventsOfTwo("path/to/vendor", TestVendorA, TestVendorB);
    TestPathA();
    TestPathB();
    TestMessageA();
    TestMessageB();
  }

  lemma TestPathA()
    ensures VendorPath("path/to/vendor", "vendora/packagea") == "path/to/vendor/vendora/packagea"
  {
  }

  lemma TestPathB()
    ensures VendorPath("path/to/vendor", "vendorb/packageb") == "path/to/vendor/vendorb/packageb"
  {
  }

  lemma TestMessageA()
    ensures VendorMessage("vendorA/packageA") == "<info>Installing NPM dependencies for vendorA/packageA</info>"
  {
  }

  lemma TestMessageB()
    ensures VendorMessage("vendorB/packageB") == "<info>Installing NPM dependencies for vendorB/packageB</info>"
  {
  }

  /** testInstallNothing: root header, "Nothing to install", vendor header, "Nothing to
      install" again, and no client call. */
  method InstallNothingScenario() returns (events: seq<Event>)
    ensures events == [
      IoWrite("<info>Installing NPM dependencies for root project</info>"),
      IoWrite("Nothing to install"),
      IoWrite("<info>Installing NPM dependencies for Composer dependencies</info>"),
      IoWrite("Nothing to install")]
  {
    var composer := Composer(TestRootWithoutBridge, "path/to/vendor", []);
    TestFixtureFacts();
    var bridge := new NpmBridge();
    bridge.Install(composer);
    events := bridge.events;
  }

  /** testUpdateNothing: root header, "Nothing to update", vendor header, "Nothing to
      install", and no client call. */
  method UpdateNothingScenario() returns (events: seq<Event>)
    ensures events == [
      IoWrite("<info>Updating NPM dependencies for root project</info>"),
      IoWrite("Nothing to update"),
      IoWrite("<info>Installing NPM dependencies for Composer dependencies</info>"),
      IoWrite("Nothing to install")]
  {
    var composer := Composer(TestRootWithoutBridge, "path/to/vendor", []);
    TestFixtureFacts();
    var bridge := new NpmBridge();
    bridge.Update(composer);
    events := bridge.events;
  }
}
