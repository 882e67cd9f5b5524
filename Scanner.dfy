/**
  The WebServerScanner class: `doScan` appends to the caller's list in place and
  hands the same list back; `readFromJarFile` collects matching entries in a loop.
  Each method is proved to compute what the functions of ScanEngine describe.
 */
module Scanner {
  import opened Wrappers
  import opened PathCodec
  import opened ScanEngine

  /** The `List<String>` that `doScan` threads through every call and appends to. */
  class NameList {
    var items: seq<string>

    /** `new ArrayList<String>()`. */
    constructor ()
      ensures items == []
    {
      items := [];
    }

    /** `add(name)`. */
    method Add(name: string)
      modifies this
      ensures items == old(items) + [name]
    {
      items := items + [name];
    }
  }

  class WebServerScanner {
    /** The package the scanner was created for. */
    const basePackage: string
    /** The class loader and the file system it reads. */
    const env: Env

    constructor (basePackage: string, env: Env)
      ensures this.basePackage == basePackage && this.env == env
    {
      this.basePackage := basePackage;
      this.env := env;
    }

    /**
      `getFullyQualifiedClassNameList`: scan `basePackage` into a new list. On success
      the list holds exactly the names of the specification; otherwise the scan's
      exception is returned.
     */
    method GetFullyQualifiedClassNameList(fuel: nat) returns (r: Result<NameList, ScanError>)
      ensures r.Success? <==> ScanPackage(env, fuel, basePackage, []).error.None?
      ensures r.Success? ==> fresh(r.value) && r.value.items == ScanPackage(env, fuel, basePackage, []).names
      ensures r.Failure? ==> ScanPackage(env, fuel, basePackage, []).error == Some(r.error)
    {
      var nameList := new NameList();
      r := DoScan(basePackage, nameList, fuel);
    }

    /**
      `doScan(basePackage, nameList)`: the list ends up as ScanPackage describes, also
      when the scan throws; on success the very list passed in is returned.
     */
    method DoScan(basePackage: string, nameList: NameList, fuel: nat) returns (r: Result<NameList, ScanError>)
      modifies nameList
      ensures nameList.items == ScanPackage(env, fuel, basePackage, old(nameList.items)).names
      ensures r.Success? <==> ScanPackage(env, fuel, basePackage, old(nameList.items)).error.None?
      ensures r.Success? ==> r.value == nameList
      ensures r.Failure? ==> ScanPackage(env, fuel, basePackage, old(nameList.items)).error == Some(r.error)
      decreases fuel, 0
    {
      if fuel == 0 {
        return Failure(DepthExhausted(basePackage));
      }
      var rest: nat := fuel - 1;
      var located := Locate(env, basePackage);
      if located.Failure? {
        return Failure(located.error);
      }
      var filePath := located.value;
      var names: seq<string>;
      if IsJarFile(filePath) {
        var read := ReadFromJarFile(filePath, DotToSplash(basePackage));
        if read.Failure? {
          return Failure(read.error);
        }
        names := read.value;
      } else {
        var listing := ReadFromDirectory(env, filePath);
        if listing.None? {
          return Failure(NoListing(filePath));
        }
        names := listing.value;
      }
      PackageLocated(env, fuel, rest, basePackage, nameList.items, filePath, names);
      r := ScanNames(basePackage, filePath, names, nameList, rest);
    }

    /**
      The `for` loop of `doScan` over the names read for `basePackage` at `filePath`:
      a class file is added, anything else is scanned as a sub-package into the same
      list. The list ends up as ScanEntries describes; the first exception stops the loop.
     */
    method ScanNames(basePackage: string, filePath: string, names: seq<string>, nameList: NameList, fuel: nat)
      returns (r: Result<NameList, ScanError>)
      modifies nameList
      ensures nameList.items == ScanEntries(env, fuel, basePackage, filePath, names, old(nameList.items)).names
      ensures r.Success? <==> ScanEntries(env, fuel, basePackage, filePath, names, old(nameList.items)).error.None?
      ensures r.Success? ==> r.value == nameList
      ensures r.Failure? ==> ScanEntries(env, fuel, basePackage, filePath, names, old(nameList.items)).error == Some(r.error)
      decreases fuel, 1
    {
      ghost var start := nameList.items;
      var i := 0;
      while i < |names|
        invariant 0 <= i <= |names|
        invariant ScanEntries(env, fuel, basePackage, filePath, names[..i], start) == Scan(nameList.items, None)
      {
        var name := names[i];
        ghost var before := nameList.items;
        assert names[..i + 1] == names[..i] + [name];
        EntriesSnoc(env, fuel, basePackage, filePath, names[..i], name, start);
        if IsClassFile(name) {
          nameList.Add(AddedName(filePath, basePackage, name));
        } else {
          var sub := DoScan(basePackage + "." + name, nameList, fuel);
          if sub.Failure? {
            assert names == names[..i + 1] + names[i + 1..];
            EntriesStopAtError(env, fuel, basePackage, filePath, names[..i + 1], names[i + 1..], start);
            return Failure(sub.error);
          }
        }
        assert Visit(env, fuel, basePackage, filePath, name, before) == Scan(nameList.items, None);
        i := i + 1;
      }
      assert names[..i] == names;
      return Success(nameList);
    }

    /**
      `readFromJarFile(jarPath, prefix)`: the entries of the JAR, in stream order, that
      start with `prefix` and end with `.class`; an unreadable JAR throws.
     */
    method ReadFromJarFile(jarPath: string, prefix: string) returns (r: Result<seq<string>, ScanError>)
      ensures r == JarListing(env, jarPath, prefix)
      ensures r.Success? ==> forall n :: n in r.value ==> StartsWith(n, prefix) && IsClassFile(n)
    {
      if jarPath !in env.jars {
        return Failure(JarUnreadable(jarPath));
      }
      var entries := env.jars[jarPath];
      var nameList: seq<string> := [];
      var i := 0;
      while i < |entries|
        invariant 0 <= i <= |entries|
        invariant nameList == JarFilter(entries[..i], prefix)
      {
        var name := entries[i];
        assert entries[..i + 1][..i] == entries[..i];
        if StartsWith(name, prefix) && IsClassFile(name) {
          nameList := nameList + [name];
        }
        i := i + 1;
      }
      assert entries[..i] == entries;
      return Success(nameList);
    }
  }
}
