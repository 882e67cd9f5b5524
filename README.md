# WebServerScanner, modelled in Dafny

`WebServerScanner` is the package scanner of the netty web server. It takes a dotted
package name (`com.acme`) and collects the fully qualified names of every compiled
class under that package, whether the package is a directory tree on the class path or
lives inside a JAR. This project models that scanner and proves what it computes.

It has five files:

- `Wrappers.dfy`: `Option` for Java's nullable results and `Result` for its exceptions.
- `PathCodec.dfy`: the static string helpers. These are `trimExtension`, `dotToSplash`,
  `splashToDot`, `getRootPath`, `toFullyQualifiedName`, `isClassFile` and `isJarFile`,
  built on models of `String.indexOf`, `startsWith`, `endsWith` and the two
  single-character `replaceAll` calls.
- `ScanEngine.dfy`: the scan as functions over an environment `Env`. `Env` holds the
  class loader's lookup from resource path to URL file string, the JAR contents, and the
  results of `File.list`.
  - `ScanPackage`, `ScanEntries` and `Visit` follow `doScan`, its `for` loop, and one
    iteration of that loop.
  - They thread the accumulated list exactly as the Java code does.
  - Each returns the list's contents when the scan stops and the exception it stops with,
    if any.
  - `JarFilter` is the entry filter of `readFromJarFile`.
  - The lemmas state what a scan appends, in which order, and when it throws.
- `Scanner.dfy`: the class itself.
  - `NameList` is the `ArrayList` that `doScan` appends to in place.
  - `WebServerScanner.DoScan` is the recursive method; `WebServerScanner.ScanNames` is its `for` loop.
  - `WebServerScanner.ReadFromJarFile` is the filtering `while` loop.
  - Each method is proved to leave exactly the state, and return exactly the result,
    that the functions of `ScanEngine` describe.
- `Scenarios.dfy`: the package `com.acme` worked through the codec and the JAR filter,
  with literal names.

Exceptions are values: a method or function that would throw returns `Failure(e)` with
a `ScanError`. A scan that throws leaves behind the names appended before the throw;
`Scan.names` records them. The descent is bounded by a `fuel` argument. When the fuel runs
out the scan fails with `DepthExhausted`; a scan the fuel does not cut off ends the same way, with the same names, under any larger fuel.

## Model

| member | source | states |
|---|---|---|
| PathCodec.StartsWith | src/main/java/netty/server/core/WebServerScanner.java:103 | definition only: Java's `startsWith`, a raw character prefix test; used by the lemmas below |
| PathCodec.EndsWith | src/main/java/netty/server/core/WebServerScanner.java:122 | definition only: Java's `endsWith`; used by `IsClassFile` and `IsJarFile` |
| PathCodec.IsClassFile | src/main/java/netty/server/core/WebServerScanner.java:121-123 | definition only: the name ends with `.class`; its uses are stated by `TrimClassExtension` and the scan lemmas |
| PathCodec.IsJarFile | src/main/java/netty/server/core/WebServerScanner.java:125-127 | definition only: the name ends with `.jar`; it picks the branch in `ReadNames` and `AddedName` |
| PathCodec.ToFullyQualifiedName | src/main/java/netty/server/core/WebServerScanner.java:83-89 | definition only; its properties are `QualifiedNameShape`, `QualifiedNamePathForm` and `JarAndDirectoryNamesAgree` |
| PathCodec.IndexOf | src/main/java/netty/server/core/WebServerScanner.java:131 | `indexOf`: -1 exactly when the character is absent; otherwise an index holding it, with no earlier occurrence |
| PathCodec.ReplaceAll | src/main/java/netty/server/core/WebServerScanner.java:137 | replacing one literal character: same length, every `from` becomes `to`, every other character is kept |
| PathCodec.TrimExtension | src/main/java/netty/server/core/WebServerScanner.java:144-147 | the result is a prefix of the name and holds no `.`; it is the whole name when there is no `.`, and otherwise ends just before the first `.` |
| PathCodec.TrimExtensionIdempotent | src/main/java/netty/server/core/WebServerScanner.java:144-147 | trimming twice is trimming once |
| PathCodec.TrimClassExtension | src/main/java/netty/server/core/WebServerScanner.java:121-123 | a dot-free simple name followed by `.class` is a class file and trims back to the simple name |
| PathCodec.DotToSplash | src/main/java/netty/server/core/WebServerScanner.java:136-138 | keeps the length, leaves no `.`, and turns each `.` into `/` with every other character unchanged |
| PathCodec.SplashToDot | src/main/java/netty/server/core/WebServerScanner.java:140-142 | the result has the trimmed name's length and holds no `/`; each character is the name's, with `/` turned into `.` |
| PathCodec.SplashToDotInvertsDotToSplash | src/main/java/netty/server/core/WebServerScanner.java:136-147 | round trip: for a name without `/`, `splashToDot(dotToSplash(p)) == p` |
| PathCodec.DotToSplashInvertsSplashToDot | src/main/java/netty/server/core/WebServerScanner.java:136-147 | the other direction: `dotToSplash(splashToDot(path))` is the path with its extension trimmed |
| PathCodec.DotToSplashUndotted | src/main/java/netty/server/core/WebServerScanner.java:136-138 | a name without `.` is its own resource path |
| PathCodec.QualifiedNameShape | src/main/java/netty/server/core/WebServerScanner.java:83-89 | a qualified name is the package, a `.`, and a dot-free prefix of the short name; that prefix is the whole short name when the short name has no `.` |
| PathCodec.QualifiedNamePathForm | src/main/java/netty/server/core/WebServerScanner.java:83-89 | the resource path of `toFullyQualifiedName(s, p)` is `dotToSplash(p) + "/" + trimExtension(s)` |
| PathCodec.JarAndDirectoryNamesAgree | src/main/java/netty/server/core/WebServerScanner.java:73 | both arms of the conditional name a class alike: `splashToDot(dotToSplash(p) + "/" + c) == toFullyQualifiedName(c, p)` when neither holds a `/` |
| PathCodec.SplashToDotKeepsPackagePrefix | src/main/java/netty/server/core/WebServerScanner.java:140-147 | an entry starting with `dotToSplash(p)` becomes a dotted name starting with `p` (for `p` without `/`) |
| PathCodec.GetRootPath | src/main/java/netty/server/core/WebServerScanner.java:129-134 | a file string without `!` is returned whole. The call throws exactly when a `!` lies below index 5. Otherwise the result is the text from index 5 to the first `!` |
| PathCodec.GetRootPathOfJarUrl | src/main/java/netty/server/core/WebServerScanner.java:129-134 | for a file string `file:<jar>!<entry>` whose JAR path holds no `!`, the root path is the JAR path |
| ScanEngine.Locate | src/main/java/netty/server/core/WebServerScanner.java:55-58 | a package the class loader does not know fails with the missing resource path. A known package succeeds exactly when `getRootPath` of its URL's file string does, with that root path. Otherwise it fails with `MalformedLocation` of that file string |
| ScanEngine.JarListing | src/main/java/netty/server/core/WebServerScanner.java:91-112 | definition only: `readFromJarFile`'s result, the filtered entries of a readable JAR or `JarUnreadable`; `ReadFromJarFile` is proved equal to it |
| ScanEngine.ReadFromDirectory | src/main/java/netty/server/core/WebServerScanner.java:114-119 | definition only: the directory's listing, or `None` where `File.list` returns null |
| ScanEngine.ReadNames | src/main/java/netty/server/core/WebServerScanner.java:60-69 | definition only: the names the loop walks, from the JAR or the directory; its failures are stated by `UnreadableJarFails` and `NullListingFails` |
| ScanEngine.AddedName | src/main/java/netty/server/core/WebServerScanner.java:73 | definition only: the dotted entry in the JAR branch, the qualified child name in the directory branch; `JarAndDirectoryNamesAgree` relates the two |
| ScanEngine.ScanPackage | src/main/java/netty/server/core/WebServerScanner.java:54-81 | definition only: the list after `doScan` and the exception that ends it; its properties are the lemmas below, and `DoScan` is proved equal to it |
| ScanEngine.ScanEntries | src/main/java/netty/server/core/WebServerScanner.java:71-75 | definition only: the `for` loop over the names, stopping at the first exception |
| ScanEngine.Visit | src/main/java/netty/server/core/WebServerScanner.java:72-75 | definition only: one iteration, adding a class file or descending into `basePackage.name` |
| ScanEngine.JarFilter | src/main/java/netty/server/core/WebServerScanner.java:101-105 | the kept entries are entries of the JAR, start with the prefix and are class files; there are no more of them than entries |
| ScanEngine.JarFilterSelects | src/main/java/netty/server/core/WebServerScanner.java:101-105 | an entry is kept if and only if it is in the JAR, starts with the prefix and is a class file |
| ScanEngine.JarFilterAppend | src/main/java/netty/server/core/WebServerScanner.java:101-105 | the filter distributes over concatenation, so stream order is kept and nothing is reordered |
| ScanEngine.JarFilterNotSegmentAligned | src/main/java/netty/server/core/WebServerScanner.java:103 | the prefix test is raw `startsWith`: prefix `a` keeps `ab/C.class` |
| ScanEngine.EntriesSnoc | src/main/java/netty/server/core/WebServerScanner.java:71-75 | the loop over `init + [last]` is the loop over `init` followed by one more iteration, unless `init` threw |
| ScanEngine.EntriesStopAtError | src/main/java/netty/server/core/WebServerScanner.java:71-75 | once an iteration throws, the names after it change nothing |
| ScanEngine.PackageLocated | src/main/java/netty/server/core/WebServerScanner.java:55-71 | a located package whose names are read runs the loop over those names, with one unit less of fuel |
| ScanEngine.PackageAccumulates | src/main/java/netty/server/core/WebServerScanner.java:54-81 | scanning into a list `acc` gives `acc` followed by what scanning into an empty list gives, with the same exception |
| ScanEngine.EntriesAccumulate | src/main/java/netty/server/core/WebServerScanner.java:71-75 | the same for the loop: it only appends to the list it is given |
| ScanEngine.VisitAccumulates | src/main/java/netty/server/core/WebServerScanner.java:72-75 | the same for one iteration |
| ScanEngine.ScanKeepsIncomingNames | src/main/java/netty/server/core/WebServerScanner.java:54-81 | the caller's incoming names stay a prefix of the list, whether the scan succeeds or throws |
| ScanEngine.DottedNames | src/main/java/netty/server/core/WebServerScanner.java:73 | one dotted name per entry, in order: the i-th is `splashToDot` of the i-th entry |
| ScanEngine.JarEntriesAppendDotted | src/main/java/netty/server/core/WebServerScanner.java:71-73 | in the JAR branch every name is a class file, so the loop appends their dotted names in order and never descends |
| ScanEngine.JarPackageScan | src/main/java/netty/server/core/WebServerScanner.java:61-64 | a package in a readable JAR appends `splashToDot` of each filtered entry, in stream order, and succeeds; it needs one unit of fuel |
| ScanEngine.UnreadableJarFails | src/main/java/netty/server/core/WebServerScanner.java:98 | a package in a JAR that cannot be read throws and leaves the list unchanged |
| ScanEngine.NullListingFails | src/main/java/netty/server/core/WebServerScanner.java:114-119 | a directory listed as null makes the scan throw at the loop, with the list unchanged; it is not an empty result |
| ScanEngine.MalformedLocationFails | src/main/java/netty/server/core/WebServerScanner.java:129-134 | a package whose URL file string has a `!` below index 5 throws from `getRootPath`, with the list unchanged |
| ScanEngine.UnresolvedPackageFails | src/main/java/netty/server/core/WebServerScanner.java:57-58 | a package the class loader cannot find throws with the list unchanged |
| ScanEngine.PackageFuelMono | src/main/java/netty/server/core/WebServerScanner.java:54-81 | a scan that the fuel does not cut off gives the same names and the same outcome with one more unit, whether it completes or throws `ResourceNotFound`, `MalformedLocation`, `JarUnreadable` or `NoListing` |
| ScanEngine.EntriesFuelMono | src/main/java/netty/server/core/WebServerScanner.java:71-75 | the same for the loop, also when an iteration throws |
| ScanEngine.VisitFuelMono | src/main/java/netty/server/core/WebServerScanner.java:72-75 | the same for one iteration, also when it throws |
| ScanEngine.PackageFuelSuffices | src/main/java/netty/server/core/WebServerScanner.java:54-81 | a scan that the fuel does not cut off gives the same names and the same outcome, success or exception, with any larger fuel |
| ScanEngine.QualifiedNames | src/main/java/netty/server/core/WebServerScanner.java:73 | one qualified name per child, in order: the i-th is `toFullyQualifiedName` of the i-th child |
| ScanEngine.DirectoryClassFilesAppend | src/main/java/netty/server/core/WebServerScanner.java:65-73 | in the directory branch a run of class files appends their qualified names in listing order |
| ScanEngine.DirectoryDescends | src/main/java/netty/server/core/WebServerScanner.java:74-75 | in the directory branch any other child scans `basePackage + "." + child` into the same list, after the children before it. This includes a plain file such as `README.txt`: its sub-package is not found, and `UnresolvedPackageFails` then makes the whole scan throw, as `url.getFile()` does at line 130 |
| ScanEngine.PackageStaysUnderRoot | src/main/java/netty/server/core/WebServerScanner.java:54-75 | every name a scan of `p` adds starts with `p`, when `p` and the listed children hold no `/` |
| ScanEngine.EntriesStayUnderRoot | src/main/java/netty/server/core/WebServerScanner.java:71-75 | the same for the loop |
| ScanEngine.VisitStaysUnderRoot | src/main/java/netty/server/core/WebServerScanner.java:72-75 | the same for one iteration |
| Scanner.NameList.constructor | src/main/java/netty/server/core/WebServerScanner.java:29 | a new list is empty |
| Scanner.NameList.Add | src/main/java/netty/server/core/WebServerScanner.java:73 | `add` appends exactly one name at the end |
| Scanner.WebServerScanner.constructor | src/main/java/netty/server/core/WebServerScanner.java:21-24 | the scanner keeps the package and the class loader it is given |
| Scanner.WebServerScanner.GetFullyQualifiedClassNameList | src/main/java/netty/server/core/WebServerScanner.java:26-30 | scans the scanner's package into a fresh list. It succeeds exactly when the scan does, and the list then holds exactly the scan's names. Otherwise it returns the scan's exception |
| Scanner.WebServerScanner.DoScan | src/main/java/netty/server/core/WebServerScanner.java:54-81 | the list ends up as `ScanPackage` of its old contents says, also when the scan throws. On success the very list passed in is returned. On failure the exception is the scan's |
| Scanner.WebServerScanner.ScanNames | src/main/java/netty/server/core/WebServerScanner.java:71-75 | the `for` loop: the list ends as `ScanEntries` of its old contents says, also when an iteration throws; on success the same list is returned, on failure the exception is the loop's |
| Scanner.WebServerScanner.ReadFromJarFile | src/main/java/netty/server/core/WebServerScanner.java:91-112 | returns `JarFilter` of the JAR's entries, or throws when the JAR cannot be read; every returned name starts with the prefix and is a class file |
| Scenarios.AcmePath | src/main/java/netty/server/core/WebServerScanner.java:136-138 | `dotToSplash("com.acme") == "com/acme"` |
| Scenarios.UtilPath | src/main/java/netty/server/core/WebServerScanner.java:136-138 | `dotToSplash("com.acme.util") == "com/acme/util"` |
| Scenarios.DirectoryClassNames | src/main/java/netty/server/core/WebServerScanner.java:83-89 | `Foo.class` in `com.acme` is `com.acme.Foo`; `Helper.class` in `com.acme.util` is `com.acme.util.Helper` |
| Scenarios.JarClassNames | src/main/java/netty/server/core/WebServerScanner.java:140-142 | the JAR entries of the same classes give the same names |
| Scenarios.JarRoot | src/main/java/netty/server/core/WebServerScanner.java:129-134 | `file:/lib/app.jar!/com/acme` has root path `/lib/app.jar` |
| Scenarios.ShortJarRoot | src/main/java/netty/server/core/WebServerScanner.java:133 | a file string with `!` at index 1 makes `getRootPath` throw |
| Scenarios.JarScenario | src/main/java/netty/server/core/WebServerScanner.java:101-105 | of `com/acme/Foo.class`, `com/acme/util/Helper.class` and `com/acme/README.txt`, the filter for `com/acme` keeps the first two, in order |

## Left out

- `forClassName` (lines 32-52) is not modelled. It loads classes through `URLClassLoader` and `Class.forName`, which are runtime calls with no behaviour to state here.
- The one-argument constructor (lines 16-19) is not modelled: it only picks the JVM's default class loader.
- Console output (lines 27, 62, 66, 77-78, 92) is left out; it does not affect any result.
- `ClassLoader.getResource` and `URL.getFile` are replaced by `Env.lookup`, which maps a resource path to the URL's file string, or to `None` for a null URL. `Env.lookup` yields the file string exactly as `getFile` returns it, still percent-encoded; the source decodes nothing either.
- Opening, reading and closing the JAR stream (lines 96-109) are replaced by `Env.jars`. This map gives each readable JAR's entry names in stream order. Any I/O failure is one `JarUnreadable` error, raised before any entry is read; a stream that fails part-way is not modelled.
- `File.list` (lines 115-116) is replaced by `Env.dirs`. A missing path, or `None`, is a null listing.
- The two `replaceAll` calls (lines 137, 141) are modelled as character-for-character substitution. That is all their patterns match; general regular expressions are not modelled.
- Java strings are sequences of UTF-16 code units; here they are sequences of Dafny `char`.
- Scanner.WebServerScanner.DoScan: takes a `fuel` argument the Java method does not have. Running out of fuel fails with `DepthExhausted`, which stands for a descent too deep for any bound, where the Java method would run into a `StackOverflowError` (for example a directory cycle through a link). `PackageFuelSuffices` shows that once a scan is not cut off by the fuel, any larger fuel gives the same names and the same outcome, including the same exception; so `DoScan`'s result, success or exception, is the fuel-free method's whenever the fuel suffices.
- Scanner.WebServerScanner.GetFullyQualifiedClassNameList: takes the same `fuel` argument, passed to `DoScan`.
- Scanner.WebServerScanner.ReadFromJarFile: returns the `IOException` as `Failure(JarUnreadable(path))` instead of throwing it. `DoScan` and `GetFullyQualifiedClassNameList` likewise return the exception that ends the scan.
- Freedom from duplicates is not proved. It depends on the class loader: two packages may map to the same directory.
- The full `ScanPackage` of the `com.acme` example is not evaluated on literal strings; the scenarios stop at the codec and the JAR filter. The general lemmas `JarPackageScan`, `DirectoryClassFilesAppend` and `DirectoryDescends` cover those scans.
- A non-class file in a directory (`com/acme/README.txt`) is not skipped. `doScan` descends into `com.acme.README.txt`, the class loader finds no `com/acme/README/txt`, and the whole scan throws. The model does the same; see `DirectoryDescends` and `UnresolvedPackageFails`.
- A directory whose listing is null makes `doScan` throw at the `for` loop (lines 68 and 71). It does not yield an empty list. The model follows the code here.
- `getRootPath` drops the first five characters whenever the file string holds a `!`, whether or not they are `file:`. The model does the same.
