/** NpmProcessFactory: builds npm processes, locating the npm executable once and
    remembering where it is. */
module ProcessFactory {
  import opened Wrappers
  import opened Exceptions

  /** A process as ProcessBuilder creates it: the argument list, executable first. */
  datatype Process = Process(arguments: seq<string>)

  /** What the executable finder answers for `name` when the executable path holds
      `executables`. */
  function Lookup(executables: map<string, string>, name: string): Option<string>
  {
    if name in executables then Some(executables[name]) else None
  }

  /** Symfony's ExecutableFinder as the factory uses it: a search of the executable path,
      whose contents can change between two searches. */
  class ExecutableFinder {
    var executables: map<string, string>

    constructor (executables: map<string, string>)
      ensures this.executables == executables
    {
      this.executables := executables;
    }

    method Find(name: string) returns (path: Option<string>)
      ensures path == Lookup(executables, name)
    {
      path := Lookup(executables, name);
    }
  }

  class NpmProcessFactory {
    const executableFinder: ExecutableFinder
    /** The memoised path of npm; `None` until a lookup succeeds. */
    var npmPath: Option<string>
    /** The finder's answers to the lookups made so far, in order. */
    ghost var lookups: seq<Option<string>>

    /** The memo is only ever filled by a successful lookup and no lookup happens after
        that: every lookup but a successful last one answered null, and the cached path
        is the answer of that last lookup. */
    ghost predicate Valid()
      reads this
    {
      && (forall k :: 0 <= k < |lookups| && (npmPath.None? || k < |lookups| - 1) ==> lookups[k].None?)
      && (npmPath.Some? ==> |lookups| > 0 && lookups[|lookups| - 1] == npmPath)
    }

    constructor (executableFinder: ExecutableFinder)
      ensures Valid()
      ensures this.executableFinder == executableFinder
      ensures npmPath == None && lookups == []
    {
      this.executableFinder := executableFinder;
      npmPath := None;
      lookups := [];
    }

    /** The npm path: the cached one if there is one; otherwise the finder is asked, and
        a found path is cached while a missing one raises NpmNotFoundException and
        leaves the cache empty, so that the next call asks again. */
    method NpmPath() returns (r: Result<string, Exception>)
      requires Valid()
      modifies this
      ensures Valid()
      ensures old(npmPath).Some? ==>
        && npmPath == old(npmPath) && lookups == old(lookups)
        && r == Success(npmPath.value)
      ensures old(npmPath).None? ==>
        var found := Lookup(executableFinder.executables, "npm");
        && npmPath == found && lookups == old(lookups) + [found]
        && r == if found.Some? then Success(found.value) else Failure(NpmNotFoundException(None))
    {
      if npmPath.None? {
        npmPath := executableFinder.Find("npm");
        lookups := lookups + [npmPath];
        if npmPath.None? {
          return Failure(NpmNotFoundException(None));
        }
      }
      return Success(npmPath.value);
    }

    /** A process running npm with `arguments`: the npm path put in front of them. */
    method Create(arguments: seq<string>) returns (r: Result<Process, Exception>)
      requires Valid()
      modifies this
      ensures Valid()
      ensures r.Success? <==> npmPath.Some?
      ensures r.Success? ==> r.value == Process([npmPath.value] + arguments)
      ensures r.Failure? ==> r.error == NpmNotFoundException(None)
      ensures old(npmPath).Some? ==> npmPath == old(npmPath) && lookups == old(lookups)
      ensures old(npmPath).None? ==>
        var found := Lookup(executableFinder.executables, "npm");
        npmPath == found && lookups == old(lookups) + [found]
    {
      var path := NpmPath();
      if path.Failure? {
        return Failure(path.error);
      }
      r := Success(Process([path.value] + arguments));
    }
  }

  /** NpmProcessFactoryTest::testCreate: two processes, both starting with the npm path,
      which is looked up only once. */
  method CreateTwiceScenario() returns (a: Result<Process, Exception>, b: Result<Process, Exception>)
    ensures a == Success(Process(["/path/to/npm", "argumentA", "argumentB"]))
    ensures b == Success(Process(["/path/to/npm", "argumentC", "argumentD"]))
  {
    var finder := new ExecutableFinder(map["npm" := "/path/to/npm"]);
    var factory := new NpmProcessFactory(finder);
    assert factory.executableFinder.executables == map["npm" := "/path/to/npm"];
    a := factory.Create(["argumentA", "argumentB"]);
    assert factory.npmPath == Some("/path/to/npm");
    assert ["/path/to/npm"] + ["argumentA", "argumentB"] == ["/path/to/npm", "argumentA", "argumentB"];
    b := factory.Create(["argumentC", "argumentD"]);
    assert ["/path/to/npm"] + ["argumentC", "argumentD"] == ["/path/to/npm", "argumentC", "argumentD"];
    assert |factory.lookups| == 1;
  }

  /** NpmProcessFactoryTest::testCreateFailure: no npm, no process. */
  method CreateFailureScenario() returns (r: Result<Process, Exception>)
    ensures r == Failure(NpmNotFoundException(None))
  {
    var finder := new ExecutableFinder(map[]);
    var factory := new NpmProcessFactory(finder);
    r := factory.Create([]);
  }

  /** A failed lookup is not remembered: once npm appears on the path, the next call
      finds it. */
  method RetryAfterFailureScenario() returns (first: Result<Process, Exception>, second: Result<Process, Exception>)
    ensures first == Failure(NpmNotFoundException(None))
    ensures second == Success(Process(["/usr/bin/npm", "install"]))
  {
    var finder := new ExecutableFinder(map[]);
    var factory := new NpmProcessFactory(finder);
    first := factory.Create(["install"]);
    finder.executables := map["npm" := "/usr/bin/npm"];
    second := factory.Create(["install"]);
    assert ["/usr/bin/npm"] + ["install"] == ["/usr/bin/npm", "install"];
  }

  /** A found path is never replaced: when npm later moves or disappears, the factory
      keeps using the path it found first. */
  method CachedPathScenario() returns (first: Result<Process, Exception>, second: Result<Process, Exception>)
    ensures first == Success(Process(["/path/to/npm", "install"]))
    ensures second == Success(Process(["/path/to/npm", "update"]))
  {
    var finder := new ExecutableFinder(map["npm" := "/path/to/npm"]);
    var factory := new NpmProcessFactory(finder);
    first := factory.Create(["install"]);
    assert ["/path/to/npm"] + ["install"] == ["/path/to/npm", "install"];
    finder.executables := map[];
    second := factory.Create(["update"]);
    assert ["/path/to/npm"] + ["update"] == ["/path/to/npm", "update"];
  }
}
