/**
  * The bounded retention manifest (code_auditor/retention.py): which manifests are accepted, and
  * that an accepted one names regular files of the artifact directory, each once.
  */
module RetainManifest {
  import opened Wrappers
  import opened FileSystem

  const MANIFEST_NAME := "retain-manifest.json"
  const MAX_RETAIN_FILES := 256

  /** The allowed roles, and any other text. */
  datatype Role = Entrypoint | Script | Support | Report | Evidence | Input | Disclosure | OtherRole(text: string)

  datatype Platform = Linux | Windows | OtherPlatform(text: string)

  datatype Interpreter = Sh | Bash | Powershell | OtherInterpreter(text: string)

  datatype ListedFile = ListedFile(path: string, role: Role, size: int, digest: string)

  datatype Manifest =
    Manifest(version: int, entrypoint: string, platform: Platform, interpreter: Interpreter, argv: seq<string>,
             files: seq<ListedFile>)

  datatype Limits = Limits(maxFileBytes: int, maxTotalBytes: int)

  // ----- relative paths --------------------------------------------------------

  function Split(s: string): (parts: seq<string>)
    ensures |parts| > 0
  {
    if s == "" then [""] else
      var rest := Split(s[1..]);
      if s[0] == '/' then [""] + rest else [[s[0]] + rest[0]] + rest[1..]
  }

  function Join(parts: seq<string>): string
    requires |parts| > 0
  {
    if |parts| == 1 then parts[0] else parts[0] + "/" + Join(parts[1..])
  }

  lemma {:induction false} JoinSplit(s: string)
    ensures Join(Split(s)) == s
  {
    if s != "" {
      JoinSplit(s[1..]);
      var rest := Split(s[1..]);
      var parts := Split(s);
      if s[0] == '/' {
        assert parts[1..] == rest;
      } else {
        assert parts[1..] == rest[1..];
      }
    }
  }

  function Names(parts: seq<string>): (p: Path)
    ensures |p| == |parts| && forall i :: 0 <= i < |p| ==> p[i] == Name(parts[i])
  {
    if parts == [] then [] else [Name(parts[0])] + Names(parts[1..])
  }

  /** A normalized relative path, or None for one that could leave the artifact directory. */
  function SafeRelativePath(s: string): (r: Option<Path>)
    ensures r.Some? ==> r.value != [] && forall i :: 0 <= i < |r.value| ==>
                          r.value[i] !in {Name(""), Name("."), Name("..")}
  {
    if '\\' in s || '\0' in s then None
    else if exists i :: 0 <= i < |Split(s)| && Split(s)[i] in {"", ".", ".."} then None
    else Some(Names(Split(s)))
  }

  lemma {:induction false} SafePathsAreDistinct(a: string, b: string)
    requires SafeRelativePath(a).Some? && SafeRelativePath(a) == SafeRelativePath(b)
    ensures a == b
  {
    var x, y := Split(a), Split(b);
    assert |x| == |y| && forall i :: 0 <= i < |x| ==> Names(x)[i] == Names(y)[i];
    assert x == y;
    JoinSplit(a);
    JoinSplit(b);
  }

  /** One plain file name: no separator of either platform, no null character, and no directory reference. */
  predicate IsPlainName(name: string) {
    name !in {"", ".", ".."} && '/' !in name && '\\' !in name && '\0' !in name
  }

  lemma {:induction false} PartsHaveNoSlash(s: string, i: nat)
    requires i < |Split(s)|
    ensures '/' !in Split(s)[i] && forall c :: c in Split(s)[i] ==> c in s
  {
    if s != "" {
      var rest := Split(s[1..]);
      PartsHaveNoSlash(s[1..], if s[0] != '/' || i == 0 then i else i - 1);
      PartsHaveNoSlash(s[1..], 0);
      if s[0] == '/' {
        assert i > 0 ==> Split(s)[i] == rest[i - 1];
      } else {
        assert i > 0 ==> Split(s)[i] == rest[i];
      }
    }
  }

  lemma {:induction false} SplitFirst(part: string, rest: string)
    requires '/' !in part
    ensures Split(part + "/" + rest) == [part] + Split(rest)
    ensures Split(part) == [part]
  {
    if part == "" {
      assert ("/" + rest)[1..] == rest && "" + "/" + rest == "/" + rest;
    } else {
      SplitFirst(part[1..], rest);
      assert (part + "/" + rest)[1..] == part[1..] + "/" + rest;
      assert [part[0]] + part[1..] == part;
    }
  }

  lemma {:induction false} SplitJoin(parts: seq<string>)
    requires parts != [] && forall i :: 0 <= i < |parts| ==> '/' !in parts[i]
    ensures Split(Join(parts)) == parts
  {
    if |parts| == 1 {
      SplitFirst(parts[0], "");
    } else {
      SplitFirst(parts[0], Join(parts[1..]));
      SplitJoin(parts[1..]);
    }
  }

  lemma {:induction false} JoinHolds(parts: seq<string>, c: char)
    requires parts != [] && c != '/' && forall i :: 0 <= i < |parts| ==> c !in parts[i]
    ensures c !in Join(parts)
  {
    if |parts| > 1 {
      JoinHolds(parts[1..], c);
    }
  }

  /** The accepted path texts are exactly those of one or more plain names, joined by slashes. */
  lemma {:induction false} SafePathsArePlain(s: string)
    ensures SafeRelativePath(s).Some? ==> forall i :: 0 <= i < |Split(s)| ==> IsPlainName(Split(s)[i])
    ensures SafeRelativePath(s).Some? ==> s == Join(Split(s)) && SafeRelativePath(s).value == Names(Split(s))
  {
    JoinSplit(s);
    forall i | 0 <= i < |Split(s)|
      ensures '/' !in Split(s)[i] && forall c :: c in Split(s)[i] ==> c in s
    {
      PartsHaveNoSlash(s, i);
    }
  }

  lemma {:induction false} PlainPathsAreSafe(parts: seq<string>)
    requires parts != [] && forall i :: 0 <= i < |parts| ==> IsPlainName(parts[i])
    ensures SafeRelativePath(Join(parts)) == Some(Names(parts))
  {
    SplitJoin(parts);
    JoinHolds(parts, '\\');
    JoinHolds(parts, '\0');
  }

  // ----- acceptance --------------------------------------------------------------

  /** The regular file that a relative path names below root, if there is one. */
  function RegularFile(t: Tree, root: Path, path: string): Option<string> {
    if SafeRelativePath(path).Some? && root + SafeRelativePath(path).value in t
       && t[root + SafeRelativePath(path).value].File?
    then Some(t[root + SafeRelativePath(path).value].content) else None
  }

  /** How the validation looks at the disk. */
  function StatOf(t: Tree, root: Path): string -> Option<string> {
    path => RegularFile(t, root, path)
  }

  predicate IsListable(stat: string -> Option<string>, version: int, f: ListedFile, digest: string -> string,
      limits: Limits) {
    && !f.role.OtherRole?
    && f.path != MANIFEST_NAME
    && stat(f.path).Some?
    && var content := stat(f.path).value;
       && |content| <= limits.maxFileBytes
       && (version == 2 ==> f.size == |content| && f.digest == digest(content))
  }

  function TotalBytes(stat: string -> Option<string>, files: seq<ListedFile>): (total: nat) {
    if files == [] then 0 else
      var last := stat(files[|files| - 1].path);
      TotalBytes(stat, files[..|files| - 1]) + if last.Some? then |last.value| else 0
  }

  /** Version 1 is always a shell script on Linux; version 2 says what runs the entry point. */
  predicate IsWindows(m: Manifest) {
    m.version == 2 && m.platform == Windows
  }

  predicate IsRunnable(m: Manifest) {
    && m.version in {1, 2}
    && (m.version == 2 ==>
          && (m.platform, m.interpreter) in {(Linux, Sh), (Linux, Bash), (Windows, Powershell)}
          && |m.argv| <= 32 && forall a :: a in m.argv ==> '\0' !in a && |a| <= 1024)
    && m.entrypoint == if IsWindows(m) then "reproduce.ps1" else "reproduce.sh"
  }

  /** The first n listed files are retainable, none is listed twice, and together they are not too large. */
  ghost predicate AreListable(stat: string -> Option<string>, m: Manifest, n: nat, digest: string -> string,
      limits: Limits)
    requires n <= |m.files|
  {
    && (forall i :: ListableAt(stat, m, n, digest, limits, i))
    && (forall i, j :: DistinctAt(m, n, i, j))
    && (n == 0 || TotalBytes(stat, m.files[..n]) <= limits.maxTotalBytes)
  }

  predicate ListableAt(stat: string -> Option<string>, m: Manifest, n: nat, digest: string -> string, limits: Limits,
      i: int)
    requires n <= |m.files|
  {
    0 <= i < n ==> IsListable(stat, m.version, m.files[i], digest, limits)
  }

  predicate DistinctAt(m: Manifest, n: nat, i: int, j: int)
    requires n <= |m.files|
  {
    0 <= i < j < n ==> m.files[i].path != m.files[j].path
  }

  /** One more file is acceptable exactly when it is retainable, new, and still fits. */
  lemma {:induction false} OneMoreListable(stat: string -> Option<string>, m: Manifest, n: nat,
      digest: string -> string, limits: Limits)
    requires n < |m.files| && AreListable(stat, m, n, digest, limits)
    ensures AreListable(stat, m, n + 1, digest, limits) <==>
            && IsListable(stat, m.version, m.files[n], digest, limits)
            && !ListsBefore(m, n, m.files[n].path)
            && TotalBytes(stat, m.files[..n + 1]) <= limits.maxTotalBytes
  {
    var next := n + 1;
    if AreListable(stat, m, n + 1, digest, limits) {
      assert ListableAt(stat, m, n + 1, digest, limits, n);
      forall k | 0 <= k < n
        ensures m.files[k].path != m.files[n].path
      {
        assert DistinctAt(m, n + 1, k, n);
      }
    }
    if IsListable(stat, m.version, m.files[n], digest, limits) {
      forall i
        ensures ListableAt(stat, m, next, digest, limits, i)
      {
        assert ListableAt(stat, m, n, digest, limits, i);
      }
    }
    if !ListsBefore(m, n, m.files[n].path) {
      forall i, j
        ensures DistinctAt(m, next, i, j)
      {
        assert DistinctAt(m, n, i, j);
      }
    }
  }

  /** Once a file has been rejected the whole manifest is. */
  lemma {:induction false} PrefixListable(stat: string -> Option<string>, m: Manifest, n: nat,
      digest: string -> string, limits: Limits)
    requires n <= |m.files|
    ensures AreListable(stat, m, |m.files|, digest, limits) ==> AreListable(stat, m, n, digest, limits)
  {
    var all := |m.files|;
    if AreListable(stat, m, all, digest, limits) {
      assert m.files[..all] == m.files;
      TotalGrows(stat, m.files, n);
      forall i
        ensures ListableAt(stat, m, n, digest, limits, i)
      {
        assert ListableAt(stat, m, all, digest, limits, i);
      }
      forall i, j
        ensures DistinctAt(m, n, i, j)
      {
        assert DistinctAt(m, all, i, j);
      }
    }
  }

  ghost predicate IsSeen(m: Manifest, n: nat, seen: set<string>)
    requires n <= |m.files|
  {
    forall p :: p in seen <==> ListsBefore(m, n, p)
  }

  lemma {:induction false} SeenOneMore(m: Manifest, n: nat, seen: set<string>)
    requires n < |m.files| && IsSeen(m, n, seen)
    ensures IsSeen(m, n + 1, seen + {m.files[n].path})
    ensures m.files[n].path in seen <==> ListsBefore(m, n, m.files[n].path)
  {
  }

  predicate ListsBefore(m: Manifest, n: nat, path: string)
    requires n <= |m.files|
  {
    exists i :: 0 <= i < n && m.files[i].path == path
  }

  ghost predicate ListsEntrypoint(m: Manifest) {
    exists i :: 0 <= i < |m.files| && m.files[i].path == m.entrypoint && m.files[i].role == Entrypoint
  }

  function PathOf(f: ListedFile): Path {
    if SafeRelativePath(f.path).Some? then SafeRelativePath(f.path).value else []
  }

  function PathsOf(files: seq<ListedFile>): (ps: seq<Path>)
    ensures |ps| == |files| && forall i :: 0 <= i < |files| ==> ps[i] == PathOf(files[i])
  {
    if files == [] then [] else PathsOf(files[..|files| - 1]) + [PathOf(files[|files| - 1])]
  }

  /** The manifests that the source accepts. */
  ghost predicate IsAcceptable(stat: string -> Option<string>, m: Manifest, required: set<string>,
      digest: string -> string,
                               limits: Limits)
  {
    && IsRunnable(m)
    && 0 < |m.files| <= MAX_RETAIN_FILES
    && AreListable(stat, m, |m.files|, digest, limits)
    && ListsEntrypoint(m)
    && stat(m.entrypoint).Some?
    && (!IsWindows(m) ==> "#!" <= stat(m.entrypoint).value)
    && (forall r :: r in required ==> ListsBefore(m, |m.files|, r))
  }

  lemma {:induction false} TotalGrows(stat: string -> Option<string>, files: seq<ListedFile>, i: nat)
    requires i <= |files|
    ensures TotalBytes(stat, files[..i]) <= TotalBytes(stat, files)
    decreases |files|
  {
    if i == |files| {
      assert files[..i] == files;
    } else {
      var most := files[..|files| - 1];
      assert files[..i] == most[..i];
      TotalGrows(stat, most, i);
    }
  }

  /** What the loop over the listed files finds: their paths, all names, and the entry point's role. */
  datatype Scan = Rejected | Scanned(retained: seq<Path>, seen: set<string>, entrypointRole: Option<Role>)

  /** What the loop knows after the first n files. */
  ghost predicate HasScanned(stat: string -> Option<string>, m: Manifest, n: nat, digest: string -> string,
      limits: Limits, retained: seq<Path>, seen: set<string>, total: nat, role: Option<Role>)
    requires n <= |m.files|
  {
    && AreListable(stat, m, n, digest, limits) && IsSeen(m, n, seen)
    && total == TotalBytes(stat, m.files[..n]) && retained == PathsOf(m.files[..n])
    && IsRoleBefore(m, n, role)
  }

  predicate IsRoleBefore(m: Manifest, n: nat, role: Option<Role>)
    requires n <= |m.files|
  {
    forall k :: 0 <= k < n && m.files[k].path == m.entrypoint ==> Some(m.files[k].role) == role
  }

  lemma {:induction false} RoleOneMore(m: Manifest, n: nat, role: Option<Role>)
    requires n < |m.files| && IsRoleBefore(m, n, role) && !ListsBefore(m, n, m.files[n].path)
    ensures IsRoleBefore(m, n + 1, if m.files[n].path == m.entrypoint then Some(m.files[n].role) else role)
  {
  }

  /** One more file: the manifest is rejected, or the loop goes on with what it knows. */
  lemma {:induction false} ScanOneMore(stat: string -> Option<string>, m: Manifest, n: nat, digest: string -> string,
      limits: Limits, retained: seq<Path>, seen: set<string>, total: nat, role: Option<Role>)
    requires n < |m.files| && HasScanned(stat, m, n, digest, limits, retained, seen, total, role)
    ensures var f := m.files[n];
            var passes := IsListable(stat, m.version, f, digest, limits) && f.path !in seen;
            && (!passes ==> !AreListable(stat, m, |m.files|, digest, limits))
            && (passes && total + |stat(f.path).value| > limits.maxTotalBytes ==>
                  !AreListable(stat, m, |m.files|, digest, limits))
            && (passes && total + |stat(f.path).value| <= limits.maxTotalBytes ==>
                  HasScanned(stat, m, n + 1, digest, limits, retained + [PathOf(f)], seen + {f.path},
                             total + |stat(f.path).value|, if f.path == m.entrypoint then Some(f.role) else role))
  {
    OneMoreListable(stat, m, n, digest, limits);
    PrefixListable(stat, m, n + 1, digest, limits);
    SeenOneMore(m, n, seen);
    assert m.files[..n + 1][..n] == m.files[..n];
    if !ListsBefore(m, n, m.files[n].path) {
      RoleOneMore(m, n, role);
    }
  }

  method ScanFiles(stat: string -> Option<string>, m: Manifest, digest: string -> string,
      limits: Limits) returns (r: Scan)
    requires m.files != []
    ensures r.Scanned? <==> AreListable(stat, m, |m.files|, digest, limits)
    ensures r.Scanned? ==> r.retained == PathsOf(m.files)
    ensures r.Scanned? ==> IsSeen(m, |m.files|, r.seen)
    ensures r.Scanned? ==> IsRoleBefore(m, |m.files|, r.entrypointRole)
  {
    var retained: seq<Path> := [];
    var seen: set<string> := {};
    var totalBytes: nat := 0;
    var entrypointRole: Option<Role> := None;
    for i := 0 to |m.files|
      invariant HasScanned(stat, m, i, digest, limits, retained, seen, totalBytes, entrypointRole)
    {
      var f := m.files[i];
      ScanOneMore(stat, m, i, digest, limits, retained, seen, totalBytes, entrypointRole);
      if !IsListable(stat, m.version, f, digest, limits) || f.path in seen {
        return Rejected;
      }
      seen := seen + {f.path};
      entrypointRole := if f.path == m.entrypoint then Some(f.role) else entrypointRole;
      totalBytes := totalBytes + |stat(f.path).value|;
      if totalBytes > limits.maxTotalBytes {
        return Rejected;
      }
      retained := retained + [PathOf(f)];
    }
    assert m.files[..|m.files|] == m.files;
    return Scanned(retained, seen, entrypointRole);
  }

  /** Validation: the accepted manifests are exactly the acceptable ones, and give their files in order. */
  method Validate(t: Tree, root: Path, m: Manifest, required: set<string>, digest: string -> string, limits: Limits)
    returns (r: Option<seq<Path>>)
    ensures r.Some? <==> IsAcceptable(StatOf(t, root), m, required, digest, limits)
    ensures r.Some? ==> r.value == PathsOf(m.files)
  {
    if !IsRunnable(m) || m.files == [] || |m.files| > MAX_RETAIN_FILES {
      return None;
    }
    var stat := StatOf(t, root);
    var scan := ScanFiles(stat, m, digest, limits);
    if scan.Rejected? || m.entrypoint !in scan.seen || scan.entrypointRole != Some(Entrypoint) {
      return None;
    }
    var script := stat(m.entrypoint);
    if script.None? || (!IsWindows(m) && !("#!" <= script.value)) {
      return None;
    }
    if !(required <= scan.seen) {
      return None;
    }
    return Some(scan.retained);
  }
}
