/**
  The package `com.acme` worked through the codec and the JAR filter: its
  resource paths, the names of its class files, the root path of a JAR holding
  it, and which of that JAR's entries the filter keeps. Facts about the literal
  strings are proved one at a time.
 */
module Scenarios {
  import opened Wrappers
  import opened PathCodec
  import opened ScanEngine

  // ---------------------------------------------------------------------------
  // How the literal names are put together
  // ---------------------------------------------------------------------------

  lemma Segments()
    ensures '.' !in "com" && '.' !in "acme" && '.' !in "util"
    ensures "com.acme" == "com" + "." + "acme" && "com/acme" == "com" + "/" + "acme"
    ensures "com.acme.util" == "com.acme" + "." + "util" && "com/acme/util" == "com/acme" + "/" + "util"
  {
  }

  lemma ClassFileNames()
    ensures '.' !in "Foo" && '.' !in "Helper"
    ensures "Foo.class" == "Foo" + ".class" && "Helper.class" == "Helper" + ".class"
    ensures "com.acme" + "." + "Foo" == "com.acme.Foo"
    ensures "com.acme.util" + "." + "Helper" == "com.acme.util.Helper"
  {
  }

  lemma EntryNames()
    ensures '/' !in "com.acme" && '/' !in "com.acme.util" && '/' !in "Foo.class" && '/' !in "Helper.class"
    ensures "com/acme/Foo.class" == "com/acme" + "/" + "Foo.class"
    ensures "com/acme/util/Helper.class" == "com/acme/util" + "/" + "Helper.class"
  {
  }

  // ---------------------------------------------------------------------------
  // What the codec makes of them
  // ---------------------------------------------------------------------------

  /** The resource path of `com.acme` is `com/acme`. */
  lemma AcmePath()
    ensures DotToSplash("com.acme") == "com/acme"
  {
    Segments();
    DotToSplashUndotted("com");
    QualifiedNamePathForm("acme", "com");
  }

  /** The resource path of `com.acme.util` is `com/acme/util`. */
  lemma UtilPath()
    ensures DotToSplash("com.acme.util") == "com/acme/util"
  {
    Segments();
    AcmePath();
    QualifiedNamePathForm("util", "com.acme");
  }

  lemma ClassFiles()
    ensures IsClassFile("Foo.class") && IsClassFile("Helper.class")
    ensures TrimExtension("Foo.class") == "Foo" && TrimExtension("Helper.class") == "Helper"
  {
    ClassFileNames();
    TrimClassExtension("Foo");
    TrimClassExtension("Helper");
  }

  /** In the directory branch, Foo.class in `com.acme` and Helper.class in `com.acme.util` are named. */
  lemma DirectoryClassNames()
    ensures ToFullyQualifiedName("Foo.class", "com.acme") == "com.acme.Foo"
    ensures ToFullyQualifiedName("Helper.class", "com.acme.util") == "com.acme.util.Helper"
  {
    ClassFiles();
    ClassFileNames();
  }

  /** In the JAR branch the entries of the same two classes get the same names. */
  lemma JarClassNames()
    ensures SplashToDot("com/acme/Foo.class") == "com.acme.Foo"
    ensures SplashToDot("com/acme/util/Helper.class") == "com.acme.util.Helper"
  {
    EntryNames();
    AcmePath();
    UtilPath();
    DirectoryClassNames();
    JarAndDirectoryNamesAgree("com.acme", "Foo.class");
    JarAndDirectoryNamesAgree("com.acme.util", "Helper.class");
  }

  // ---------------------------------------------------------------------------
  // A JAR holding the package
  // ---------------------------------------------------------------------------

  lemma JarUrl()
    ensures "file:/lib/app.jar!/com/acme" == "file:" + "/lib/app.jar" + "!" + "/com/acme"
    ensures '!' !in "/lib/app.jar"
  {
  }

  /** The class loader reports `file:/lib/app.jar!/com/acme`; the root path is the JAR's. */
  lemma JarRoot()
    ensures GetRootPath("file:/lib/app.jar!/com/acme") == Some("/lib/app.jar")
  {
    JarUrl();
    GetRootPathOfJarUrl("/lib/app.jar", "/com/acme");
  }

  /** A location whose `!` comes before index 5 makes `getRootPath` throw. */
  lemma ShortJarRoot()
    ensures GetRootPath("a!/com/acme") == None
  {
    assert "a!/com/acme"[1] == '!';
  }

  lemma EntryShapes()
    ensures StartsWith("com/acme/Foo.class", "com/acme") && IsClassFile("com/acme/Foo.class")
    ensures StartsWith("com/acme/util/Helper.class", "com/acme") && IsClassFile("com/acme/util/Helper.class")
    ensures !IsClassFile("com/acme/README.txt")
  {
    assert "com/acme/Foo.class"[..8] == "com/acme" && "com/acme/Foo.class"[12..] == ".class";
    assert "com/acme/util/Helper.class"[..8] == "com/acme" && "com/acme/util/Helper.class"[20..] == ".class";
    assert "com/acme/README.txt"[18] == 't';
  }

  /** Of the JAR's three entries under `com/acme`, the filter keeps the two class files, in order. */
  lemma JarScenario()
    ensures JarFilter(["com/acme/Foo.class", "com/acme/util/Helper.class", "com/acme/README.txt"], "com/acme")
         == ["com/acme/Foo.class", "com/acme/util/Helper.class"]
  {
    var a, b, c := "com/acme/Foo.class", "com/acme/util/Helper.class", "com/acme/README.txt";
    EntryShapes();
    assert [a, b, c] == [a, b] + [c];
    assert [a, b] == [a] + [b];
    assert [a] == [] + [a];
    JarFilterAppend([a, b], [c], "com/acme");
    JarFilterAppend([a], [b], "com/acme");
    JarFilterAppend([], [a], "com/acme");
  }
}
