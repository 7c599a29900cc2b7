/** NpmVendorFinder: the packages of the local repository that opt in to the bridge,
    in repository order. */
module VendorFinder {
  import opened Packages

  /** The specification of `find`: keep exactly the dependant packages, in order. */
  function Dependants(packages: seq<Package>): (r: seq<Package>)
    ensures |r| <= |packages|
    ensures forall p :: p in r <==> p in packages && IsDependantPackage(p)
  {
    if packages == [] then []
    else (if IsDependantPackage(packages[0]) then [packages[0]] else []) + Dependants(packages[1..])
  }

  /** `xs` is `ys` with some elements left out, the rest kept in their order. */
  predicate IsSubsequence<T(==)>(xs: seq<T>, ys: seq<T>)
    decreases |ys|
  {
    if xs == [] then true
    else if ys == [] then false
    else if xs[0] == ys[0] then IsSubsequence(xs[1..], ys[1..])
    else IsSubsequence(xs, ys[1..])
  }

  /** `find` as written: a `foreach` over the local repository that appends each
      dependant package to the result. */
  method Find(composer: Composer) returns (dependantPackages: seq<Package>)
    ensures dependantPackages == Dependants(composer.localPackages)
  {
    var packages := composer.localPackages;
    dependantPackages := [];
    for i := 0 to |packages|
      invariant dependantPackages == Dependants(packages[..i])
    {
      var package := packages[i];
      if IsDependantPackage(package) {
        dependantPackages := dependantPackages + [package];
      }
      DependantsAppend(packages[..i], [package]);
      assert packages[..i + 1] == packages[..i] + [package];
    }
    assert packages[..|packages|] == packages;
  }

  /** Filtering distributes over concatenation. */
  lemma {:induction false} DependantsAppend(xs: seq<Package>, ys: seq<Package>)
    ensures Dependants(xs + ys) == Dependants(xs) + Dependants(ys)
  {
    if xs == [] {
      assert xs + ys == ys;
    } else {
      assert (xs + ys)[0] == xs[0];
      assert (xs + ys)[1..] == xs[1..] + ys;
      DependantsAppend(xs[1..], ys);
    }
  }

  /** The result keeps the input's relative order. */
  lemma {:induction false} DependantsIsSubsequence(packages: seq<Package>)
    ensures IsSubsequence(Dependants(packages), packages)
  {
    if packages != [] {
      DependantsIsSubsequence(packages[1..]);
      assert [packages[0]] + packages[1..] == packages;
      if !IsDependantPackage(packages[0]) {
        SubsequenceOfCons(Dependants(packages[1..]), packages[0], packages[1..]);
        assert Dependants(packages) == Dependants(packages[1..]);
      } else {
        assert ([packages[0]] + Dependants(packages[1..]))[1..] == Dependants(packages[1..]);
      }
    }
  }

  /** Putting one more element in front of `ys` keeps `xs` a subsequence of it. */
  lemma {:induction false} SubsequenceOfCons<T>(xs: seq<T>, y: T, ys: seq<T>)
    requires IsSubsequence(xs, ys)
    ensures IsSubsequence(xs, [y] + ys)
    decreases |ys|, 2
  {
    assert ([y] + ys)[1..] == ys;
    if xs != [] && xs[0] == y {
      SubsequenceDropFirst(xs, ys);
    }
  }

  /** Dropping the first element of `xs` keeps it a subsequence. */
  lemma {:induction false} SubsequenceDropFirst<T>(xs: seq<T>, ys: seq<T>)
    requires xs != [] && IsSubsequence(xs, ys)
    ensures IsSubsequence(xs[1..], ys)
    decreases |ys|, 1
  {
    assert ys != [];
    assert [ys[0]] + ys[1..] == ys;
    if xs[0] == ys[0] {
      SubsequenceOfCons(xs[1..], ys[0], ys[1..]);
    } else {
      SubsequenceDropFirst(xs, ys[1..]);
      SubsequenceOfCons(xs[1..], ys[0], ys[1..]);
    }
  }

  /** Filtering the result again changes nothing. */
  lemma {:induction false} DependantsIdempotent(packages: seq<Package>)
    ensures Dependants(Dependants(packages)) == Dependants(packages)
  {
    if packages != [] {
      DependantsIdempotent(packages[1..]);
      var head := if IsDependantPackage(packages[0]) then [packages[0]] else [];
      DependantsAppend(head, Dependants(packages[1..]));
      assert Dependants(head) == head by {
        if head != [] { assert head[1..] == []; }
      }
    }
  }

  /** The repository of NpmVendorFinderTest: A requires neither, B requires the bridge
      second, C requires it only as a dev require, D requires it first. */
  lemma FindFixture()
    ensures
      var a := Package("vendorA/packageA", "vendorA/packageA",
        [Link("vendorA/packageA", "vendorX/packageX"), Link("vendorA/packageA", "vendorY/packageY")], []);
      var b := Package("vendorB/packageB", "vendorB/packageB",
        [Link("vendorB/packageB", "vendorZ/packageZ"), Link("vendorB/packageB", BridgePackageName)], []);
      var c := Package("vendorC/packageC", "vendorC/packageC",
        [], [Link("vendorC/packageC", "vendorZ/packageZ"), Link("vendorC/packageC", BridgePackageName)]);
      var d := Package("vendorD/packageD", "vendorD/packageD",
        [Link("vendorD/packageD", BridgePackageName), Link("vendorD/packageD", "vendorZ/packageZ")], []);
      Dependants([a, b, c, d]) == [b, d]
  {
    var a := Package("vendorA/packageA", "vendorA/packageA",
      [Link("vendorA/packageA", "vendorX/packageX"), Link("vendorA/packageA", "vendorY/packageY")], []);
    var b := Package("vendorB/packageB", "vendorB/packageB",
      [Link("vendorB/packageB", "vendorZ/packageZ"), Link("vendorB/packageB", BridgePackageName)], []);
    var c := Package("vendorC/packageC", "vendorC/packageC",
      [], [Link("vendorC/packageC", "vendorZ/packageZ"), Link("vendorC/packageC", BridgePackageName)]);
    var d := Package("vendorD/packageD", "vendorD/packageD",
      [Link("vendorD/packageD", BridgePackageName), Link("vendorD/packageD", "vendorZ/packageZ")], []);
    assert !IsDependantPackage(a) by {
      assert a.requireLinks[0].target != BridgePackageName;
      assert a.requireLinks[1].target != BridgePackageName;
    }
    assert IsDependantPackage(b) by { assert b.requireLinks[1].target == BridgePackageName; }
    assert !IsDependantPackage(c);
    assert IsDependantPackage(d) by { assert d.requireLinks[0].target == BridgePackageName; }
    assert [a, b, c, d][1..] == [b, c, d];
    assert [b, c, d][1..] == [c, d];
    assert [c, d][1..] == [d];
    assert [d][1..] == [];
    assert Dependants([d]) == [d];
    assert Dependants([c, d]) == [d];
    assert Dependants([b, c, d]) == [b, d];
  }
}
