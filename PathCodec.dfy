/**
  The static string helpers of WebServerScanner: conversion between the dotted
  package form (`com.acme`) and the slash resource form (`com/acme`), extension
  trimming, the suffix tests, and extraction of the physical path from a URL's
  file string. Java strings are modelled as `seq<char>`.
 */
module PathCodec {
  import opened Wrappers

  /** Java's `s.startsWith(prefix)`: a plain character prefix test. */
  predicate StartsWith(s: string, prefix: string) {
    |prefix| <= |s| && s[..|prefix|] == prefix
  }

  /** Java's `s.endsWith(suffix)`. */
  predicate EndsWith(s: string, suffix: string) {
    |suffix| <= |s| && s[|s| - |suffix|..] == suffix
  }

  /** Java's `s.indexOf(c)`: the first index holding `c`, or -1 when there is none. */
  function IndexOf(s: string, c: char): (r: int)
    ensures -1 <= r < |s|
    ensures r == -1 <==> c !in s
    ensures 0 <= r ==> s[r] == c && c !in s[..r]
  {
    if |s| == 0 then -1
    else if s[0] == c then 0
    else
      var k := IndexOf(s[1..], c);
      if k == -1 then -1
      else
        assert s[..k + 1] == [s[0]] + s[1..][..k];
        k + 1
  }

  /**
    `s.replaceAll(p, q)` for the two patterns the scanner uses: both match a single
    literal character, so the call substitutes `to` for every `from`.
   */
  function ReplaceAll(s: string, from: char, to: char): (r: string)
    ensures |r| == |s|
    ensures forall i :: 0 <= i < |s| ==> r[i] == (if s[i] == from then to else s[i])
  {
    if s == [] then []
    else [if s[0] == from then to else s[0]] + ReplaceAll(s[1..], from, to)
  }

  /** `trimExtension`: cut the name at its FIRST dot. */
  function TrimExtension(name: string): (r: string)
    ensures StartsWith(name, r)
    ensures '.' !in r
    ensures '.' !in name ==> r == name
    ensures '.' in name ==> |r| < |name| && name[|r|] == '.'
  {
    var pos := IndexOf(name, '.');
    if pos == -1 then name else name[..pos]
  }

  /** `dotToSplash`: the resource path of a package name. */
  function DotToSplash(name: string): (r: string)
    ensures |r| == |name|
    ensures '.' !in r
    ensures forall i :: 0 <= i < |name| ==> r[i] == (if name[i] == '.' then '/' else name[i])
  {
    ReplaceAll(name, '.', '/')
  }

  /** `splashToDot`: the dotted name of a resource path, its extension trimmed first. */
  function SplashToDot(name: string): (r: string)
    ensures |r| == |TrimExtension(name)| <= |name|
    ensures '/' !in r
    ensures forall i :: 0 <= i < |r| ==> r[i] == (if name[i] == '/' then '.' else name[i])
  {
    ReplaceAll(TrimExtension(name), '/', '.')
  }

  /** `isClassFile`: the name ends with `.class`. */
  predicate IsClassFile(name: string) {
    EndsWith(name, ".class")
  }

  /** `isJarFile`: the name ends with `.jar`. */
  predicate IsJarFile(name: string) {
    EndsWith(name, ".jar")
  }

  /** `toFullyQualifiedName`: the dotted name of a class file found in `basePackage`. */
  function ToFullyQualifiedName(shortName: string, basePackage: string): string {
    basePackage + "." + TrimExtension(shortName)
  }

  /**
    `getRootPath` applied to `url.getFile()`: the file string itself when it holds
    no `!`; otherwise the characters from index 5 (past `file:`) up to the first `!`.
    `None` is the StringIndexOutOfBoundsException that `substring(5, pos)` throws
    when that `!` sits below index 5.
   */
  function GetRootPath(fileUrl: string): (r: Option<string>)
    ensures '!' !in fileUrl ==> r == Some(fileUrl)
    ensures r.None? <==> exists k :: 0 <= k < |fileUrl| && k < 5 && fileUrl[k] == '!'
    ensures r.Some? && '!' in fileUrl ==>
      && 5 + |r.value| < |fileUrl|
      && r.value == fileUrl[5..5 + |r.value|]
      && fileUrl[5 + |r.value|] == '!'
      && '!' !in fileUrl[..5 + |r.value|]
  {
    var pos := IndexOf(fileUrl, '!');
    if pos == -1 then Some(fileUrl)
    else if pos < 5 then None
    else Some(fileUrl[5..pos])
  }

  /**
    A fully qualified name is the package, a dot, and a last segment that is a
    dot-free prefix of the short name: the whole short name when it has no dot.
   */
  lemma {:induction false} QualifiedNameShape(shortName: string, basePackage: string)
    ensures var q := ToFullyQualifiedName(shortName, basePackage);
      && StartsWith(q, basePackage + ".")
      && StartsWith(shortName, q[|basePackage| + 1..]) && '.' !in q[|basePackage| + 1..]
      && ('.' !in shortName ==> q[|basePackage| + 1..] == shortName)
  {
    var q := ToFullyQualifiedName(shortName, basePackage);
    assert q[|basePackage| + 1..] == TrimExtension(shortName);
  }

  /** `trimExtension` cuts at `k` when `k` is the first dot, or the end of a dot-free name. */
  lemma TrimExtensionAt(name: string, k: nat)
    requires k <= |name|
    requires forall i :: 0 <= i < k ==> name[i] != '.'
    requires k == |name| || name[k] == '.'
    ensures TrimExtension(name) == name[..k]
  {
    var r := TrimExtension(name);
    assert forall i :: 0 <= i < |r| ==> name[i] == r[i] != '.';
  }

  /** `trimExtension` is idempotent. */
  lemma TrimExtensionIdempotent(name: string)
    ensures TrimExtension(TrimExtension(name)) == TrimExtension(name)
  {
  }

  /** A simple class name with its `.class` extension trims back to the simple name. */
  lemma {:induction false} TrimClassExtension(simpleName: string)
    requires '.' !in simpleName
    ensures IsClassFile(simpleName + ".class")
    ensures TrimExtension(simpleName + ".class") == simpleName
  {
    var name := simpleName + ".class";
    assert name[|name| - 6..] == ".class";
    assert name[..|simpleName|] == simpleName;
    TrimExtensionAt(name, |simpleName|);
  }

  /** Round trip: for a name holding no `/`, `splashToDot` undoes `dotToSplash`. */
  lemma {:induction false} SplashToDotInvertsDotToSplash(p: string)
    requires '/' !in p
    ensures SplashToDot(DotToSplash(p)) == p
  {
    var s := DotToSplash(p);
    assert TrimExtension(s) == s;
    var r := SplashToDot(s);
    assert |r| == |p|;
    forall i | 0 <= i < |p|
      ensures r[i] == p[i]
    {
      assert p[i] != '/';
    }
  }

  /** The other direction: `dotToSplash` after `splashToDot` gives back the trimmed path. */
  lemma {:induction false} DotToSplashInvertsSplashToDot(path: string)
    ensures DotToSplash(SplashToDot(path)) == TrimExtension(path)
  {
    var t := TrimExtension(path);
    var r := DotToSplash(SplashToDot(path));
    assert |r| == |t|;
    forall i | 0 <= i < |t|
      ensures r[i] == t[i]
    {
      assert t[i] == path[i];
      assert t[i] != '.';
    }
  }

  /**
    The path form of a fully qualified name is the child's resource path without
    its extension: the name `toFullyQualifiedName` builds is the class found there.
   */
  lemma {:induction false} QualifiedNamePathForm(shortName: string, basePackage: string)
    ensures DotToSplash(ToFullyQualifiedName(shortName, basePackage))
         == DotToSplash(basePackage) + "/" + TrimExtension(shortName)
  {
    var q := ToFullyQualifiedName(shortName, basePackage);
    var lhs := DotToSplash(q);
    var rhs := DotToSplash(basePackage) + "/" + TrimExtension(shortName);
    assert |lhs| == |rhs|;
    forall i | 0 <= i < |lhs|
      ensures lhs[i] == rhs[i]
    {
      if i < |basePackage| {
        assert q[i] == basePackage[i];
      } else if i == |basePackage| {
        assert q[i] == '.';
      } else {
        assert q[i] == TrimExtension(shortName)[i - |basePackage| - 1];
      }
    }
  }

  /**
    The JAR branch and the directory branch name a class alike: `splashToDot` of
    the entry `com/acme/Foo.class` is `toFullyQualifiedName("Foo.class", "com.acme")`,
    provided neither the package nor the child name holds a `/`.
   */
  lemma {:induction false} JarAndDirectoryNamesAgree(basePackage: string, child: string)
    requires '/' !in basePackage && '/' !in child
    ensures SplashToDot(DotToSplash(basePackage) + "/" + child)
         == ToFullyQualifiedName(child, basePackage)
  {
    var entry := DotToSplash(basePackage) + "/" + child;
    var n := |basePackage| + 1;
    var tc := TrimExtension(child);
    // the entry's first dot is the child's first dot
    forall i | 0 <= i < n + |tc|
      ensures entry[i] != '.'
    {
      if i >= n {
        assert entry[i] == tc[i - n];
      }
    }
    if '.' in child {
      assert entry[n + |tc|] == child[|tc|];
    }
    TrimExtensionAt(entry, n + |tc|);
    var r := SplashToDot(entry);
    var q := ToFullyQualifiedName(child, basePackage);
    assert |r| == |q|;
    forall i | 0 <= i < |r|
      ensures r[i] == q[i]
    {
      if i < |basePackage| {
        assert entry[i] == DotToSplash(basePackage)[i];
        assert basePackage[i] != '/';
      } else if i == |basePackage| {
        assert entry[i] == '/';
      } else {
        assert entry[i] == child[i - n] == tc[i - n];
        assert child[i - n] != '/';
      }
    }
  }

  /**
    `splashToDot` keeps a package's prefix: an entry that starts with the resource
    path of `basePackage` becomes a dotted name that starts with `basePackage`.
   */
  lemma {:induction false} SplashToDotKeepsPackagePrefix(entry: string, basePackage: string)
    requires '/' !in basePackage
    requires StartsWith(entry, DotToSplash(basePackage))
    ensures StartsWith(SplashToDot(entry), basePackage)
  {
    var n := |basePackage|;
    forall i | 0 <= i < n
      ensures entry[i] != '.'
    {
      assert entry[i] == DotToSplash(basePackage)[i];
    }
    var r := SplashToDot(entry);
    forall i | 0 <= i < n
      ensures r[i] == basePackage[i]
    {
      assert entry[i] == DotToSplash(basePackage)[i];
      assert basePackage[i] != '/';
    }
  }

  /**
    The file string of a URL into a JAR, `file:<jar>!<entry>`: `getRootPath` gives the
    JAR's path, provided the path holds no `!`.
   */
  lemma {:induction false} GetRootPathOfJarUrl(jarPath: string, entry: string)
    requires '!' !in jarPath
    ensures GetRootPath("file:" + jarPath + "!" + entry) == Some(jarPath)
  {
    var url := "file:" + jarPath + "!" + entry;
    var n := 5 + |jarPath|;
    assert url[n] == '!';
    assert forall i :: 5 <= i < n ==> url[i] == jarPath[i - 5];
    assert url[..5] == "file:";
    assert '!' !in url[..n];
    assert IndexOf(url, '!') == n;
    assert url[5..n] == jarPath;
  }

  /** A name without dots is its own resource path. */
  lemma DotToSplashUndotted(name: string)
    requires '.' !in name
    ensures DotToSplash(name) == name
  {
  }

  /** `startsWith` is transitive. */
  lemma StartsWithTransitive(s: string, t: string, u: string)
    requires StartsWith(s, t) && StartsWith(t, u)
    ensures StartsWith(s, u)
  {
    assert s[..|u|] == s[..|t|][..|u|];
  }
}
