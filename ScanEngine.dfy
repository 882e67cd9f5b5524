/**
  The scan of WebServerScanner.doScan as functions: what the accumulated name list
  holds, and which exception (if any) ends the scan, for a given class loader,
  JAR contents and directory listings. The class in Scanner.dfy runs the same
  scan imperatively and is proved equal to these functions.
 */
module ScanEngine {
  import opened Wrappers
  import opened PathCodec

  /** The exceptions that end a scan. */
  datatype ScanError =
      /** `cl.getResource` returned null, so `url.getFile()` throws. */
    | ResourceNotFound(splashPath: string)
      /** The URL's file string has a `!` below index 5, so `substring(5, pos)` throws. */
    | MalformedLocation(fileUrl: string)
      /** The JAR cannot be opened or read: the IOException of `readFromJarFile`. */
    | JarUnreadable(jarPath: string)
      /** `File.list` returned null, so the `for` loop over the listing throws. */
    | NoListing(dirPath: string)
      /** The descent went deeper than the fuel allows: stands for the JVM's stack limit. */
    | DepthExhausted(basePackage: string)

  /** The world the scanner reads. */
  datatype Env = Env(
    /** The class loader: resource path to the file string of its URL; None for a null URL. */
    lookup: string -> Option<string>,
    /** JAR path to its entry names, in stream order; a path not here cannot be read. */
    jars: map<string, seq<string>>,
    /** Directory path to the result of `File.list`; a path not here lists as null. */
    dirs: map<string, Option<seq<string>>>)

  /** The contents of the accumulator when the scan stops, and the exception it stops with. */
  datatype Scan = Scan(names: seq<string>, error: Option<ScanError>)

  /** Lines 55-58: the physical path of a package (its slash form looked up, then `getRootPath`). */
  function Locate(env: Env, basePackage: string): (r: Result<string, ScanError>)
    ensures env.lookup(DotToSplash(basePackage)).None? ==>
              r == Failure(ResourceNotFound(DotToSplash(basePackage)))
    ensures env.lookup(DotToSplash(basePackage)).Some? ==>
              var fileUrl := env.lookup(DotToSplash(basePackage)).value;
              if GetRootPath(fileUrl).Some? then r == Success(GetRootPath(fileUrl).value)
              else r == Failure(MalformedLocation(fileUrl))
  {
    var splashPath := DotToSplash(basePackage);
    match env.lookup(splashPath)
    case None => Failure(ResourceNotFound(splashPath))
    case Some(fileUrl) =>
      match GetRootPath(fileUrl)
      case None => Failure(MalformedLocation(fileUrl))
      case Some(filePath) => Success(filePath)
  }

  /** The entry filter of `readFromJarFile`: entries under the prefix that are class files, in order. */
  function JarFilter(entries: seq<string>, prefix: string): (r: seq<string>)
    ensures |r| <= |entries|
    ensures forall n :: n in r ==> n in entries && StartsWith(n, prefix) && IsClassFile(n)
  {
    if entries == [] then []
    else
      var last := entries[|entries| - 1];
      JarFilter(entries[..|entries| - 1], prefix) +
        (if StartsWith(last, prefix) && IsClassFile(last) then [last] else [])
  }

  /** What `readFromJarFile(jarPath, prefix)` returns or throws. */
  function JarListing(env: Env, jarPath: string, prefix: string): Result<seq<string>, ScanError> {
    if jarPath in env.jars then Success(JarFilter(env.jars[jarPath], prefix))
    else Failure(JarUnreadable(jarPath))
  }

  /** `readFromDirectory`: the directory's children, or None where `File.list` returns null. */
  function ReadFromDirectory(env: Env, path: string): Option<seq<string>> {
    if path in env.dirs then env.dirs[path] else None
  }

  /** Lines 60-71: the names the loop walks for a package located at `filePath`. */
  function ReadNames(env: Env, basePackage: string, filePath: string): Result<seq<string>, ScanError> {
    if IsJarFile(filePath) then JarListing(env, filePath, DotToSplash(basePackage))
    else
      match ReadFromDirectory(env, filePath)
      case None => Failure(NoListing(filePath))
      case Some(children) => Success(children)
  }

  /** Line 73: the name added for class file `name`, in the JAR branch or in the directory branch. */
  function AddedName(filePath: string, basePackage: string, name: string): string {
    if IsJarFile(filePath) then SplashToDot(name) else ToFullyQualifiedName(name, basePackage)
  }

  /**
    `doScan(basePackage, acc)`: the list after the scan, and the exception that ends it.
    `fuel` bounds the depth of the descent.
   */
  function ScanPackage(env: Env, fuel: nat, basePackage: string, acc: seq<string>): Scan
    decreases fuel, 0, 0
  {
    if fuel == 0 then Scan(acc, Some(DepthExhausted(basePackage)))
    else
      match Locate(env, basePackage)
      case Failure(e) => Scan(acc, Some(e))
      case Success(filePath) =>
        match ReadNames(env, basePackage, filePath)
        case Failure(e) => Scan(acc, Some(e))
        case Success(names) => ScanEntries(env, fuel - 1, basePackage, filePath, names, acc)
  }

  /** Lines 71-75: the loop over `names`, stopping at the first exception. */
  function ScanEntries(env: Env, fuel: nat, basePackage: string, filePath: string,
                       names: seq<string>, acc: seq<string>): Scan
    decreases fuel, 1, |names|
  {
    if names == [] then Scan(acc, None)
    else
      var before := ScanEntries(env, fuel, basePackage, filePath, names[..|names| - 1], acc);
      if before.error.Some? then before
      else Visit(env, fuel, basePackage, filePath, names[|names| - 1], before.names)
  }

  /** Lines 72-75: one iteration: add a class file, or descend into `basePackage.name`. */
  function Visit(env: Env, fuel: nat, basePackage: string, filePath: string,
                 name: string, acc: seq<string>): Scan
    decreases fuel, 1, 0
  {
    if IsClassFile(name) then Scan(acc + [AddedName(filePath, basePackage, name)], None)
    else ScanPackage(env, fuel, basePackage + "." + name, acc)
  }

  /** The loop over `init + [last]` is the loop over `init`, then one more iteration. */
  lemma EntriesSnoc(env: Env, fuel: nat, basePackage: string, filePath: string,
                    init: seq<string>, last: string, acc: seq<string>)
    ensures ScanEntries(env, fuel, basePackage, filePath, init + [last], acc)
         == var before := ScanEntries(env, fuel, basePackage, filePath, init, acc);
            if before.error.Some? then before
            else Visit(env, fuel, basePackage, filePath, last, before.names)
  {
    assert (init + [last])[..|init|] == init;
  }

  /** Once an iteration throws, the loop stops: later names change nothing. */
  lemma {:induction false} EntriesStopAtError(env: Env, fuel: nat, basePackage: string, filePath: string,
                                              names: seq<string>, more: seq<string>, acc: seq<string>)
    requires ScanEntries(env, fuel, basePackage, filePath, names, acc).error.Some?
    ensures ScanEntries(env, fuel, basePackage, filePath, names + more, acc)
         == ScanEntries(env, fuel, basePackage, filePath, names, acc)
    decreases |more|
  {
    if more != [] {
      var init, last := more[..|more| - 1], more[|more| - 1];
      assert names + more == (names + init) + [last];
      EntriesStopAtError(env, fuel, basePackage, filePath, names, init, acc);
      EntriesSnoc(env, fuel, basePackage, filePath, names + init, last, acc);
    } else {
      assert names + more == names;
    }
  }

  // ---------------------------------------------------------------------------
  // The entry filter

  /** The filter keeps exactly the entries that start with the prefix and are class files. */
  lemma {:induction false} JarFilterSelects(entries: seq<string>, prefix: string, n: string)
    ensures n in JarFilter(entries, prefix) <==> n in entries && StartsWith(n, prefix) && IsClassFile(n)
    decreases |entries|
  {
    if entries != [] {
      var init := entries[..|entries| - 1];
      JarFilterSelects(init, prefix, n);
      assert entries == init + [entries[|entries| - 1]];
    }
  }

  /** The filter distributes over concatenation, so it keeps the stream order. */
  lemma {:induction false} JarFilterAppend(a: seq<string>, b: seq<string>, prefix: string)
    ensures JarFilter(a + b, prefix) == JarFilter(a, prefix) + JarFilter(b, prefix)
    decreases |b|
  {
    if b != [] {
      var init := b[..|b| - 1];
      assert (a + b)[..|a + b| - 1] == a + init;
      JarFilterAppend(a, init, prefix);
    } else {
      assert a + b == a;
    }
  }

  /** The prefix test is not aligned on `/`: prefix `a` admits `ab/C.class`. */
  lemma JarFilterNotSegmentAligned()
    ensures JarFilter(["ab/C.class"], "a") == ["ab/C.class"]
  {
    assert StartsWith("ab/C.class", "a");
    assert "ab/C.class"[|"ab/C.class"| - 6..] == ".class";
  }

  // ---------------------------------------------------------------------------
  // Accumulation

  /** Prepend `acc` to the names of a scan. */
  function Shifted(acc: seq<string>, s: Scan): Scan {
    Scan(acc + s.names, s.error)
  }

  /**
    The scan only appends to the list it is given: scanning into `acc` gives `acc`
    followed by what scanning into an empty list gives, and the same exception.
   */
  lemma {:induction false} PackageAccumulates(env: Env, fuel: nat, basePackage: string, acc: seq<string>)
    ensures ScanPackage(env, fuel, basePackage, acc) == Shifted(acc, ScanPackage(env, fuel, basePackage, []))
    decreases fuel, 0, 0
  {
    if fuel > 0 {
      match Locate(env, basePackage)
      case Failure(e) =>
      case Success(filePath) =>
        match ReadNames(env, basePackage, filePath)
        case Failure(e) =>
        case Success(names) =>
          var rest := fuel - 1;
          PackageLocated(env, fuel, rest, basePackage, acc, filePath, names);
          PackageLocated(env, fuel, rest, basePackage, [], filePath, names);
          EntriesAccumulate(env, rest, basePackage, filePath, names, acc);
    }
  }

  /** The loop only appends to the list it is given. */
  lemma {:induction false} EntriesAccumulate(env: Env, fuel: nat, basePackage: string, filePath: string,
                                             names: seq<string>, acc: seq<string>)
    ensures ScanEntries(env, fuel, basePackage, filePath, names, acc)
         == Shifted(acc, ScanEntries(env, fuel, basePackage, filePath, names, []))
    decreases fuel, 1, |names|
  {
    if names != [] {
      var init, last := names[..|names| - 1], names[|names| - 1];
      assert names == init + [last];
      EntriesSnoc(env, fuel, basePackage, filePath, init, last, acc);
      EntriesSnoc(env, fuel, basePackage, filePath, init, last, []);
      EntriesAccumulate(env, fuel, basePackage, filePath, init, acc);
      var before := ScanEntries(env, fuel, basePackage, filePath, init, []);
      var beforeAcc := ScanEntries(env, fuel, basePackage, filePath, init, acc);
      assert beforeAcc == Shifted(acc, before);
      if before.error.None? {
        var v := Visit(env, fuel, basePackage, filePath, last, []);
        VisitAccumulates(env, fuel, basePackage, filePath, last, beforeAcc.names);
        VisitAccumulates(env, fuel, basePackage, filePath, last, before.names);
        assert Visit(env, fuel, basePackage, filePath, last, before.names) == Shifted(before.names, v);
        assert Visit(env, fuel, basePackage, filePath, last, beforeAcc.names) == Shifted(acc + before.names, v);
        assert acc + before.names + v.names == acc + (before.names + v.names);
      }
    }
  }

  /** One iteration only appends to the list it is given. */
  lemma {:induction false} VisitAccumulates(env: Env, fuel: nat, basePackage: string, filePath: string,
                                            name: string, acc: seq<string>)
    ensures Visit(env, fuel, basePackage, filePath, name, acc)
         == Shifted(acc, Visit(env, fuel, basePackage, filePath, name, []))
    decreases fuel, 1, 0
  {
    if !IsClassFile(name) {
      PackageAccumulates(env, fuel, basePackage + "." + name, acc);
    }
  }

  /** The incoming contents of the list are a prefix of its contents when the scan stops. */
  lemma ScanKeepsIncomingNames(env: Env, fuel: nat, basePackage: string, acc: seq<string>)
    ensures acc <= ScanPackage(env, fuel, basePackage, acc).names
  {
    PackageAccumulates(env, fuel, basePackage, acc);
  }

  // ---------------------------------------------------------------------------
  // Fuel only bounds the depth

  /** The scan was not cut off by the fuel: it completed, or it threw one of the source's exceptions. */
  predicate NotCutOff(s: Scan) {
    s.error.None? || !s.error.value.DepthExhausted?
  }

  /**
    A scan that is not cut off by the fuel gives the same result with one unit more,
    whether it completes or throws: the fuel decides nothing but where a too deep
    descent is cut off.
   */
  lemma {:induction false} PackageFuelMono(env: Env, fuel: nat, more: nat, basePackage: string, acc: seq<string>)
    requires more == fuel + 1
    requires NotCutOff(ScanPackage(env, fuel, basePackage, acc))
    ensures ScanPackage(env, more, basePackage, acc) == ScanPackage(env, fuel, basePackage, acc)
    decreases fuel, 0, 0
  {
    match Locate(env, basePackage)
    case Failure(e) =>
    case Success(filePath) =>
      match ReadNames(env, basePackage, filePath)
      case Failure(e) =>
      case Success(names) =>
        var rest := fuel - 1;
        PackageLocated(env, fuel, rest, basePackage, acc, filePath, names);
        PackageLocated(env, more, fuel, basePackage, acc, filePath, names);
        EntriesFuelMono(env, rest, fuel, basePackage, filePath, names, acc);
  }

  /** The same for the loop. */
  lemma {:induction false} EntriesFuelMono(env: Env, fuel: nat, more: nat, basePackage: string, filePath: string,
                                           names: seq<string>, acc: seq<string>)
    requires more == fuel + 1
    requires NotCutOff(ScanEntries(env, fuel, basePackage, filePath, names, acc))
    ensures ScanEntries(env, more, basePackage, filePath, names, acc)
         == ScanEntries(env, fuel, basePackage, filePath, names, acc)
    decreases fuel, 1, |names|
  {
    if names != [] {
      var init, last := names[..|names| - 1], names[|names| - 1];
      assert names == init + [last];
      EntriesSnoc(env, fuel, basePackage, filePath, init, last, acc);
      EntriesSnoc(env, more, basePackage, filePath, init, last, acc);
      var before := ScanEntries(env, fuel, basePackage, filePath, init, acc);
      EntriesFuelMono(env, fuel, more, basePackage, filePath, init, acc);
      if before.error.None? {
        VisitFuelMono(env, fuel, more, basePackage, filePath, last, before.names);
      }
    }
  }

  /** The same for one iteration. */
  lemma {:induction false} VisitFuelMono(env: Env, fuel: nat, more: nat, basePackage: string, filePath: string,
                                         name: string, acc: seq<string>)
    requires more == fuel + 1
    requires NotCutOff(Visit(env, fuel, basePackage, filePath, name, acc))
    ensures Visit(env, more, basePackage, filePath, name, acc) == Visit(env, fuel, basePackage, filePath, name, acc)
    decreases fuel, 1, 0
  {
    if !IsClassFile(name) {
      PackageFuelMono(env, fuel, more, basePackage + "." + name, acc);
    }
  }

  /** Any amount of extra fuel leaves a scan that was not cut off unchanged, also when it throws. */
  lemma {:induction false} PackageFuelSuffices(env: Env, fuel: nat, more: nat, basePackage: string, acc: seq<string>)
    requires fuel <= more
    requires NotCutOff(ScanPackage(env, fuel, basePackage, acc))
    ensures ScanPackage(env, more, basePackage, acc) == ScanPackage(env, fuel, basePackage, acc)
    decreases more - fuel
  {
    if fuel < more {
      var next := fuel + 1;
      PackageFuelMono(env, fuel, next, basePackage, acc);
      PackageFuelSuffices(env, next, more, basePackage, acc);
    }
  }

  // ---------------------------------------------------------------------------
  // The two backends

  /** A package that is located and whose names are read runs the loop over those names. */
  lemma PackageLocated(env: Env, fuel: nat, rest: nat, basePackage: string, acc: seq<string>,
                       filePath: string, names: seq<string>)
    requires fuel == rest + 1
    requires Locate(env, basePackage) == Success(filePath)
    requires ReadNames(env, basePackage, filePath) == Success(names)
    ensures ScanPackage(env, fuel, basePackage, acc) == ScanEntries(env, rest, basePackage, filePath, names, acc)
  {
  }

  /** The dotted names of a sequence of entries, in order. */
  function DottedNames(entries: seq<string>): (r: seq<string>)
    ensures |r| == |entries|
    ensures forall i :: 0 <= i < |entries| ==> r[i] == SplashToDot(entries[i])
  {
    if entries == [] then []
    else DottedNames(entries[..|entries| - 1]) + [SplashToDot(entries[|entries| - 1])]
  }

  /** `DottedNames` of `init + [last]`. */
  lemma DottedNamesSnoc(init: seq<string>, last: string)
    ensures DottedNames(init + [last]) == DottedNames(init) + [SplashToDot(last)]
  {
    assert (init + [last])[..|init|] == init;
  }

  /** In the JAR branch the loop sees only class files, so it appends and never descends. */
  lemma {:induction false} JarEntriesAppendDotted(env: Env, fuel: nat, basePackage: string, filePath: string,
                                                  names: seq<string>, acc: seq<string>)
    requires IsJarFile(filePath)
    requires forall n :: n in names ==> IsClassFile(n)
    ensures ScanEntries(env, fuel, basePackage, filePath, names, acc) == Scan(acc + DottedNames(names), None)
    decreases |names|
  {
    if names != [] {
      var init, last := names[..|names| - 1], names[|names| - 1];
      assert names == init + [last];
      assert last in names;
      EntriesSnoc(env, fuel, basePackage, filePath, init, last, acc);
      JarEntriesAppendDotted(env, fuel, basePackage, filePath, init, acc);
      DottedNamesSnoc(init, last);
      assert acc + DottedNames(init) + [SplashToDot(last)] == acc + DottedNames(names);
    }
  }

  /**
    A package located in a readable JAR: the scan appends the dotted names of the
    filtered entries, in stream order, and succeeds. It needs one unit of fuel only,
    because it never descends.
   */
  lemma {:induction false} JarPackageScan(env: Env, fuel: nat, basePackage: string, acc: seq<string>, jarPath: string)
    requires fuel > 0
    requires Locate(env, basePackage) == Success(jarPath)
    requires IsJarFile(jarPath) && jarPath in env.jars
    ensures ScanPackage(env, fuel, basePackage, acc)
         == Scan(acc + DottedNames(JarFilter(env.jars[jarPath], DotToSplash(basePackage))), None)
  {
    var names := JarFilter(env.jars[jarPath], DotToSplash(basePackage));
    assert ReadNames(env, basePackage, jarPath) == Success(names);
    var rest := fuel - 1;
    PackageLocated(env, fuel, rest, basePackage, acc, jarPath, names);
    JarEntriesAppendDotted(env, rest, basePackage, jarPath, names, acc);
  }

  /** A package located in a JAR that cannot be read: the scan throws and the list is unchanged. */
  lemma UnreadableJarFails(env: Env, fuel: nat, basePackage: string, acc: seq<string>, jarPath: string)
    requires fuel > 0
    requires Locate(env, basePackage) == Success(jarPath)
    requires IsJarFile(jarPath) && jarPath !in env.jars
    ensures ScanPackage(env, fuel, basePackage, acc) == Scan(acc, Some(JarUnreadable(jarPath)))
  {
  }

  /**
    A package whose directory lists as null: the scan throws, it does not return an
    empty result, and the list is unchanged.
   */
  lemma NullListingFails(env: Env, fuel: nat, basePackage: string, acc: seq<string>, dirPath: string)
    requires fuel > 0
    requires Locate(env, basePackage) == Success(dirPath)
    requires !IsJarFile(dirPath) && ReadFromDirectory(env, dirPath).None?
    ensures ScanPackage(env, fuel, basePackage, acc) == Scan(acc, Some(NoListing(dirPath)))
  {
  }

  /**
    A package whose URL file string has a `!` below index 5: `getRootPath` throws,
    and so does the scan, with the list unchanged.
   */
  lemma MalformedLocationFails(env: Env, fuel: nat, basePackage: string, acc: seq<string>, fileUrl: string)
    requires fuel > 0
    requires env.lookup(DotToSplash(basePackage)) == Some(fileUrl)
    requires GetRootPath(fileUrl).None?
    ensures ScanPackage(env, fuel, basePackage, acc) == Scan(acc, Some(MalformedLocation(fileUrl)))
  {
  }

  /** A package the class loader cannot find: the scan throws and the list is unchanged. */
  lemma UnresolvedPackageFails(env: Env, fuel: nat, basePackage: string, acc: seq<string>)
    requires fuel > 0
    requires env.lookup(DotToSplash(basePackage)).None?
    ensures ScanPackage(env, fuel, basePackage, acc)
         == Scan(acc, Some(ResourceNotFound(DotToSplash(basePackage))))
  {
  }

  /** A directory whose children are all class files: their qualified names, in listing order. */
  function QualifiedNames(children: seq<string>, basePackage: string): (r: seq<string>)
    ensures |r| == |children|
    ensures forall i :: 0 <= i < |children| ==> r[i] == ToFullyQualifiedName(children[i], basePackage)
  {
    if children == [] then []
    else QualifiedNames(children[..|children| - 1], basePackage)
           + [ToFullyQualifiedName(children[|children| - 1], basePackage)]
  }

  /** `QualifiedNames` of `init + [last]`. */
  lemma QualifiedNamesSnoc(init: seq<string>, last: string, basePackage: string)
    ensures QualifiedNames(init + [last], basePackage)
         == QualifiedNames(init, basePackage) + [ToFullyQualifiedName(last, basePackage)]
  {
    assert (init + [last])[..|init|] == init;
  }

  /** In the directory branch, a run of class-file children appends their qualified names. */
  lemma {:induction false} DirectoryClassFilesAppend(env: Env, fuel: nat, basePackage: string, filePath: string,
                                                     children: seq<string>, acc: seq<string>)
    requires !IsJarFile(filePath)
    requires forall c :: c in children ==> IsClassFile(c)
    ensures ScanEntries(env, fuel, basePackage, filePath, children, acc)
         == Scan(acc + QualifiedNames(children, basePackage), None)
    decreases |children|
  {
    if children != [] {
      var init, last := children[..|children| - 1], children[|children| - 1];
      assert children == init + [last];
      assert last in children;
      EntriesSnoc(env, fuel, basePackage, filePath, init, last, acc);
      DirectoryClassFilesAppend(env, fuel, basePackage, filePath, init, acc);
      QualifiedNamesSnoc(init, last, basePackage);
      assert acc + QualifiedNames(init, basePackage) + [ToFullyQualifiedName(last, basePackage)]
          == acc + QualifiedNames(children, basePackage);
    }
  }

  /**
    In the directory branch, a child that is not a class file is scanned as the
    sub-package `basePackage.child` with the same list, after the children before it.
   */
  lemma DirectoryDescends(env: Env, fuel: nat, basePackage: string, filePath: string,
                          children: seq<string>, child: string, acc: seq<string>)
    requires !IsClassFile(child)
    requires ScanEntries(env, fuel, basePackage, filePath, children, acc).error.None?
    ensures ScanEntries(env, fuel, basePackage, filePath, children + [child], acc)
         == ScanPackage(env, fuel, basePackage + "." + child,
                        ScanEntries(env, fuel, basePackage, filePath, children, acc).names)
  {
    EntriesSnoc(env, fuel, basePackage, filePath, children, child, acc);
  }

  // ---------------------------------------------------------------------------
  // Every name found lies under the package scanned

  /** `File.list` yields bare names: no listed child holds a `/`. */
  predicate ListingsAreBareNames(env: Env) {
    forall path :: path in env.dirs && env.dirs[path].Some? ==>
      forall c :: c in env.dirs[path].value ==> '/' !in c
  }

  /**
    Every name a scan of `basePackage` adds starts with `basePackage` (as a string:
    in the JAR branch the prefix test is not aligned on `/`).
   */
  lemma {:induction false} PackageStaysUnderRoot(env: Env, fuel: nat, basePackage: string)
    requires ListingsAreBareNames(env) && '/' !in basePackage
    ensures forall n :: n in ScanPackage(env, fuel, basePackage, []).names ==> StartsWith(n, basePackage)
    decreases fuel, 0, 0
  {
    if fuel > 0 {
      match Locate(env, basePackage)
      case Failure(e) =>
      case Success(filePath) =>
        match ReadNames(env, basePackage, filePath)
        case Failure(e) =>
        case Success(names) =>
          if IsJarFile(filePath) {
            forall n | n in names
              ensures StartsWith(n, DotToSplash(basePackage)) && IsClassFile(n)
            {
              JarFilterSelects(env.jars[filePath], DotToSplash(basePackage), n);
            }
          }
          var rest := fuel - 1;
          PackageLocated(env, fuel, rest, basePackage, [], filePath, names);
          EntriesStayUnderRoot(env, rest, basePackage, filePath, names);
    }
  }

  /** Every name the loop adds starts with `basePackage`. */
  lemma {:induction false} EntriesStayUnderRoot(env: Env, fuel: nat, basePackage: string, filePath: string,
                                                names: seq<string>)
    requires ListingsAreBareNames(env) && '/' !in basePackage
    requires forall n :: n in names && !IsClassFile(n) ==> '/' !in n
    requires IsJarFile(filePath) ==> forall n :: n in names ==> StartsWith(n, DotToSplash(basePackage))
    ensures forall n :: n in ScanEntries(env, fuel, basePackage, filePath, names, []).names ==>
              StartsWith(n, basePackage)
    decreases fuel, 1, |names|
  {
    if names != [] {
      var init, last := names[..|names| - 1], names[|names| - 1];
      assert names == init + [last];
      assert forall n :: n in init ==> n in names;
      EntriesSnoc(env, fuel, basePackage, filePath, init, last, []);
      EntriesStayUnderRoot(env, fuel, basePackage, filePath, init);
      var before := ScanEntries(env, fuel, basePackage, filePath, init, []);
      if before.error.None? {
        VisitAccumulates(env, fuel, basePackage, filePath, last, before.names);
        VisitStaysUnderRoot(env, fuel, basePackage, filePath, last);
      }
    }
  }

  /** Every name one iteration adds starts with `basePackage`. */
  lemma {:induction false} VisitStaysUnderRoot(env: Env, fuel: nat, basePackage: string, filePath: string,
                                               name: string)
    requires ListingsAreBareNames(env) && '/' !in basePackage
    requires !IsClassFile(name) ==> '/' !in name
    requires IsJarFile(filePath) ==> StartsWith(name, DotToSplash(basePackage))
    ensures forall n :: n in Visit(env, fuel, basePackage, filePath, name, []).names ==>
              StartsWith(n, basePackage)
    decreases fuel, 1, 0
  {
    if IsClassFile(name) {
      var added := AddedName(filePath, basePackage, name);
      if IsJarFile(filePath) {
        SplashToDotKeepsPackagePrefix(name, basePackage);
      } else {
        assert added[..|basePackage|] == basePackage;
      }
      assert Visit(env, fuel, basePackage, filePath, name, []).names == [added];
    } else {
      var sub := basePackage + "." + name;
      PackageStaysUnderRoot(env, fuel, sub);
      assert sub[..|basePackage|] == basePackage;
      forall n | n in ScanPackage(env, fuel, sub, []).names
        ensures StartsWith(n, basePackage)
      {
        StartsWithTransitive(n, sub, basePackage);
      }
    }
  }
}
