/** The part of Composer's package model the bridge looks at, and the test that decides
    whether a package opts in to the NPM bridge (NpmBridge::isDependantPackage). */
module Packages {

  /** A require link `source` -> `target`; the bridge inspects only the target. */
  datatype Link = Link(source: string, target: string)

  /** A Composer package. `name` and `prettyName` are given independently (Composer
      lower-cases `name`; that normalisation is not part of this model). */
  datatype Package = Package(
    name: string,
    prettyName: string,
    requireLinks: seq<Link>,
    devRequireLinks: seq<Link>)

  /** What the bridge reads from the main Composer object: the root package, the
      configured `vendor-dir`, and the packages of the local repository in order. */
  datatype Composer = Composer(
    package: Package,
    vendorDir: string,
    localPackages: seq<Package>)

  /** The marker dependency a package declares to opt in to the bridge. */
  const BridgePackageName := "eloquent/composer-npm-bridge"

  /** The `foreach` over the links with its early `return true`: scans the links in
      order and stops at the first whose target is exactly the bridge's name. */
  function RequiresBridge(links: seq<Link>): (found: bool)
    ensures found <==> exists i :: 0 <= i < |links| && links[i].target == BridgePackageName
  {
    if links == [] then false
    else if links[0].target == BridgePackageName then true
    else RequiresBridge(links[1..])
  }

  /** A package is dependant on the bridge when one of its runtime requires targets it. */
  predicate IsDependantPackage(p: Package)
  {
    RequiresBridge(p.requireLinks)
  }

  /** Dev requires are never inspected: replacing them does not change the answer. */
  lemma DevRequiresNotInspected(p: Package, devLinks: seq<Link>)
    ensures IsDependantPackage(p.(devRequireLinks := devLinks)) == IsDependantPackage(p)
  {
  }
}
