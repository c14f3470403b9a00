/** Stored paths of moved runtime assets: packages/agents/src/assets.ts, `namesCheckoutFile`,
    `currentAssetPath` and `currentEngineCommand`, with POSIX paths. */
module AssetPath {
  import opened Optional
  import opened Text

  // ---------- node:path, for absolute POSIX paths ----------

  predicate Clean(part: string) {
    part != "" && part != "." && part != ".." && '/' !in part
  }

  predicate AllClean(parts: seq<string>) {
    forall part :: part in parts ==> Clean(part)
  }

  /** One step of normalization: `..` goes up, and stays at the root when it is there. */
  function Step(at: seq<string>, part: string): seq<string> {
    if part == "" || part == "." then at
    else if part == ".." then (if at == [] then [] else at[..|at| - 1])
    else at + [part]
  }

  function Walk(at: seq<string>, parts: seq<string>): seq<string> {
    if parts == [] then at else Step(Walk(at, parts[..|parts| - 1]), parts[|parts| - 1])
  }

  function Segments(path: string): seq<string> {
    Walk([], Split(path, '/'))
  }

  function Rendered(segments: seq<string>): string {
    "/" + Join(segments, '/')
  }

  predicate IsAbsolute(path: string) {
    path != "" && path[0] == '/'
  }

  /** `path.resolve(first, ...rest)` and `path.join(first, ...rest)`, `first` absolute. */
  function Joined(first: string, rest: seq<string>): string {
    Rendered(Segments(first + "/" + Join(rest, '/')))
  }

  function Resolved(path: string): string {
    Rendered(Segments(path))
  }

  // ---------- namesCheckoutFile ----------

  function Ups(n: nat): seq<string> { seq(n, _ => "..") }

  predicate NamesCheckoutFile(argument: string, relative: string, packageDirectory: string) {
    IsAbsolute(argument) &&
    var file, parts := Resolved(argument), Split(relative, '/');
    var checkout := Joined(file, Ups(|parts|));
    Joined(checkout, parts) == file && Joined(checkout, ["packages", "agents"]) == packageDirectory
  }

  lemma {:induction false} SplitAppend(a: string, b: string, mark: char)
    ensures Split(a + [mark] + b, mark) == Split(a, mark) + Split(b, mark)
    decreases |a|
  {
    hide Split;
    var at := IndexOf(a, mark);
    if at == |a| {
      SplitNone(a, mark);
      SplitFirst(a, mark, b);
    } else {
      var front, rest := a[..at], a[at + 1..];
      assert a == front + [mark] + rest && a + [mark] + b == front + [mark] + (rest + [mark] + b);
      SplitAppend(rest, b, mark);
      SplitFirst(front, mark, rest + [mark] + b);
      SplitFirst(front, mark, rest);
    }
  }

  lemma {:induction false} WalkJoins(at: seq<string>, a: seq<string>, b: seq<string>)
    ensures Walk(at, a + b) == Walk(Walk(at, a), b)
  {
    var ab := a + b;
    if b == [] {
      assert ab == a;
    } else {
      assert ab[..|ab| - 1] == a + b[..|b| - 1] && ab[|ab| - 1] == b[|b| - 1];
      WalkJoins(at, a, b[..|b| - 1]);
    }
  }

  lemma {:induction false} WalkClean(at: seq<string>, parts: seq<string>)
    requires AllClean(parts)
    ensures Walk(at, parts) == at + parts
  {
    if parts != [] {
      assert parts[|parts| - 1] in parts && forall part :: part in parts[..|parts| - 1] ==> part in parts;
      WalkClean(at, parts[..|parts| - 1]);
    }
  }

  lemma {:induction false} WalkUps(at: seq<string>, n: nat)
    ensures Walk(at, Ups(n)) == at[..if n <= |at| then |at| - n else 0]
  {
    if n > 0 {
      assert Ups(n)[..n - 1] == Ups(n - 1);
      WalkUps(at, n - 1);
    }
  }

  lemma {:induction false} WalkIsClean(at: seq<string>, parts: seq<string>)
    requires AllClean(at) && forall part :: part in parts ==> '/' !in part
    ensures AllClean(Walk(at, parts))
  {
    if parts != [] {
      assert parts[|parts| - 1] in parts && forall part :: part in parts[..|parts| - 1] ==> part in parts;
      WalkIsClean(at, parts[..|parts| - 1]);
    }
  }

  lemma SegmentsAreClean(path: string)
    ensures AllClean(Segments(path))
  {
    JoinSplit(path, '/');
    WalkIsClean([], Split(path, '/'));
  }

  lemma WalkEmpty(at: seq<string>)
    ensures Walk(at, [""]) == at
  {
    assert [""][..0] == [];
  }

  /** Rendering clean segments and reading them again gives them back. */
  lemma RenderedReads(segments: seq<string>)
    requires AllClean(segments)
    ensures Segments(Rendered(segments)) == segments
  {
    hide Split, Walk;
    assert Rendered(segments) == "" + ['/'] + Join(segments, '/');
    SplitAppend("", Join(segments, '/'), '/');
    SplitNone("", '/');
    WalkJoins([], [""], Split(Join(segments, '/'), '/'));
    WalkEmpty([]);
    if segments == [] {
      SplitNone("", '/');
    } else {
      SplitJoin(segments, '/');
      WalkClean([], segments);
    }
  }

  lemma RenderedDecides(a: seq<string>, b: seq<string>)
    requires AllClean(a) && AllClean(b)
    ensures Rendered(a) == Rendered(b) <==> a == b
  {
    RenderedReads(a);
    RenderedReads(b);
  }

  /** Joining walks on from where the first path is. */
  lemma JoinedIs(at: seq<string>, rest: seq<string>)
    requires AllClean(at) && rest != [] && forall part :: part in rest ==> '/' !in part
    ensures Joined(Rendered(at), rest) == Rendered(Walk(at, rest))
  {
    hide Walk, Split;
    SplitAppend(Rendered(at), Join(rest, '/'), '/');
    SplitJoin(rest, '/');
    WalkJoins([], Split(Rendered(at), '/'), rest);
    RenderedReads(at);
  }

  /** The files of the checkout whose `packages/agents` is the package's directory. */
  ghost predicate IsCheckoutFile(argument: string, parts: seq<string>, packageAt: seq<string>) {
    exists root :: packageAt == root + ["packages", "agents"] && Segments(argument) == root + parts
  }

  lemma PackagesAgentsAreClean()
    ensures AllClean(["packages", "agents"])
  {
  }

  lemma UpsHaveNoSlash(n: nat)
    ensures forall part :: part in Ups(n) ==> '/' !in part
  {
  }

  lemma CleanJoins(a: seq<string>, b: seq<string>)
    requires AllClean(a) && AllClean(b)
    ensures AllClean(a + b)
  {
  }

  lemma JoinedAsIs(at: seq<string>, parts: seq<string>)
    requires AllClean(at) && AllClean(parts) && parts != []
    ensures Joined(Rendered(at), parts) == Rendered(at + parts)
  {
    hide Walk, Joined;
    JoinedIs(at, parts);
    WalkClean(at, parts);
  }

  /** Exactly the absolute paths that resolve to the checkout's root followed by the parts, even
      where `..` stops at the filesystem's root. */
  lemma NamesExactlyTheCheckoutFile(argument: string, parts: seq<string>, packageAt: seq<string>)
    requires parts != [] && AllClean(parts) && AllClean(packageAt)
    ensures NamesCheckoutFile(argument, Join(parts, '/'), Rendered(packageAt)) <==>
              IsAbsolute(argument) && IsCheckoutFile(argument, parts, packageAt)
  {
    var at, n := Segments(argument), |parts|;
    SegmentsAreClean(argument);
    SplitJoin(parts, '/');
    WalkUps(at, n);
    var root := at[..if n <= |at| then |at| - n else 0];
    assert AllClean(root);
    UpsHaveNoSlash(n);
    PackagesAgentsAreClean();
    hide Split, Walk, Joined, Segments, Clean, Join;
    JoinedIs(at, Ups(n));
    JoinedAsIs(root, parts);
    JoinedAsIs(root, ["packages", "agents"]);
    hide Rendered;
    CleanJoins(root, parts);
    CleanJoins(root, ["packages", "agents"]);
    RenderedDecides(root + parts, at);
    RenderedDecides(root + ["packages", "agents"], packageAt);
    assert forall r :: at == r + parts ==> r == root;
  }

  // ---------- The runtime assets ----------

  /** The assets' paths below `assets/`, in parts. */
  const ASSETS: seq<seq<string>> :=
    [["launch-engine.mjs"], ["spawn-engine.mjs"], ["launch-dsh-acp.mjs"], ["launch-openclaw-acp.mjs"],
     ["launch-opencode-acp.mjs"], ["launch-pi-acp.mjs"], ["native-mcp", "pi-extension.mjs"]]

  function AssetPathOf(parts: seq<string>, packageAt: seq<string>): string {
    Rendered(packageAt + ["assets"] + parts)
  }

  /** `ASSET_NAMES.find`, over the assets from `k` on. */
  function Find(argument: string, packageAt: seq<string>, k: nat): Option<nat>
    requires k <= |ASSETS|
    decreases |ASSETS| - k
  {
    if k == |ASSETS| then None
    else if NamesCheckoutFile(argument, Join(["scripts"] + ASSETS[k], '/'), Rendered(packageAt)) then Some(k)
    else Find(argument, packageAt, k + 1)
  }

  function CurrentAssetPath(argument: string, packageAt: seq<string>): string {
    var k := Find(argument, packageAt, 0);
    if k.Some? && k.value < |ASSETS| then AssetPathOf(ASSETS[k.value], packageAt) else argument
  }

  function CurrentEngineCommand(command: seq<string>, packageAt: seq<string>): seq<string> {
    seq(|command|, k requires 0 <= k < |command| => CurrentAssetPath(command[k], packageAt))
  }

  /** The places in `ASSETS` that a stored argument names. */
  ghost predicate Matches(argument: string, packageAt: seq<string>, k: nat) {
    k < |ASSETS| && IsAbsolute(argument) && IsCheckoutFile(argument, ["scripts"] + ASSETS[k], packageAt)
  }

  lemma FirstAssetsAreClean(k: nat)
    requires k < 3
    ensures AllClean(ASSETS[k])
  {
  }

  lemma LastAssetsAreClean(k: nat)
    requires 3 <= k < |ASSETS|
    ensures AllClean(ASSETS[k])
  {
  }

  lemma AssetsAreClean(k: nat)
    requires k < |ASSETS|
    ensures AllClean(ASSETS[k]) && AllClean(["scripts"] + ASSETS[k])
  {
    assert Clean("scripts");
    if k < 3 {
      FirstAssetsAreClean(k);
    } else {
      LastAssetsAreClean(k);
    }
  }

  lemma AssetsAreDistinct(j: nat, k: nat)
    requires j < |ASSETS| && k < |ASSETS| && ASSETS[j] == ASSETS[k]
    ensures j == k
  {
    assert |ASSETS[j][0]| == |ASSETS[k][0]| && ASSETS[j][0][0] == ASSETS[k][0][0] && ASSETS[j][0][7] == ASSETS[k][0][7];
  }

  lemma AtMostOneMatches(argument: string, packageAt: seq<string>, j: nat, k: nat)
    requires Matches(argument, packageAt, j) && Matches(argument, packageAt, k)
    ensures j == k
  {
    hide ASSETS, Segments;
    var a, b := ["scripts"] + ASSETS[j], ["scripts"] + ASSETS[k];
    var q :| packageAt == q + ["packages", "agents"] && Segments(argument) == q + a;
    var r :| packageAt == r + ["packages", "agents"] && Segments(argument) == r + b;
    assert q == packageAt[..|packageAt| - 2] == r;
    assert a == Segments(argument)[|q|..] == b;
    assert ASSETS[j] == a[1..] == b[1..] == ASSETS[k];
    AssetsAreDistinct(j, k);
  }

  lemma {:induction false} FindIs(argument: string, packageAt: seq<string>, k: nat)
    requires AllClean(packageAt) && k <= |ASSETS|
    ensures var found := Find(argument, packageAt, k);
            && (found.Some? ==> k <= found.value && Matches(argument, packageAt, found.value))
            && (found.None? ==> forall j :: k <= j < |ASSETS| ==> !Matches(argument, packageAt, j))
    decreases |ASSETS| - k
  {
    hide ASSETS, NamesCheckoutFile, Join, Rendered, IsCheckoutFile, IsAbsolute;
    if k < |ASSETS| {
      AssetsAreClean(k);
      NamesExactlyTheCheckoutFile(argument, ["scripts"] + ASSETS[k], packageAt);
      FindIs(argument, packageAt, k + 1);
    }
  }

  lemma MatchesAnAsset(argument: string, packageAt: seq<string>, k: nat)
    requires Matches(argument, packageAt, k)
    ensures k < |ASSETS|
  {
  }

  /** An argument that names an asset where it was becomes the asset's path; any other stays. */
  lemma CurrentAssetPathIs(argument: string, packageAt: seq<string>)
    requires AllClean(packageAt)
    ensures forall k: nat :: Matches(argument, packageAt, k) ==>
              CurrentAssetPath(argument, packageAt) == AssetPathOf(ASSETS[k], packageAt)
    ensures (forall k: nat :: !Matches(argument, packageAt, k)) ==> CurrentAssetPath(argument, packageAt) == argument
  {
    hide ASSETS, Find, Matches, AssetPathOf;
    FindIs(argument, packageAt, 0);
    forall k: nat | Matches(argument, packageAt, k)
      ensures k < |ASSETS| && CurrentAssetPath(argument, packageAt) == AssetPathOf(ASSETS[k], packageAt)
    {
      MatchesAnAsset(argument, packageAt, k);
      var found := Find(argument, packageAt, 0);
      AtMostOneMatches(argument, packageAt, found.value, k);
    }
  }

  /** The path it becomes: absolute, with nothing to resolve, and the asset's below the package's `assets`. */
  lemma CurrentPathIs(argument: string, packageAt: seq<string>, k: nat)
    requires AllClean(packageAt) && Matches(argument, packageAt, k)
    ensures k < |ASSETS|
    ensures var current := CurrentAssetPath(argument, packageAt);
            && IsAbsolute(current) && Resolved(current) == current
            && Segments(current) == packageAt + ["assets"] + ASSETS[k]
  {
    assert Clean("assets");
    hide ASSETS, Matches, CurrentAssetPath, Segments, Join, Clean;
    CurrentAssetPathIs(argument, packageAt);
    MatchesAnAsset(argument, packageAt, k);
    AssetsAreClean(k);
    RenderedReads(packageAt + ["assets"] + ASSETS[k]);
  }

  /** A current asset path names no moved asset. */
  lemma AssetPathStays(parts: seq<string>, packageAt: seq<string>, k: nat)
    requires AllClean(parts) && AllClean(packageAt)
    ensures !Matches(AssetPathOf(parts, packageAt), packageAt, k)
  {
    hide ASSETS, Segments;
    var at := packageAt + ["assets"] + parts;
    assert Clean("assets");
    RenderedReads(at);
    forall root | packageAt == root + ["packages", "agents"] && k < |ASSETS|
      ensures at != root + (["scripts"] + ASSETS[k])
    {
      assert at[|root|] == "packages" && (root + (["scripts"] + ASSETS[k]))[|root|] == "scripts";
      assert "packages"[0] != "scripts"[0];
    }
  }

  lemma CurrentIsCurrent(argument: string, packageAt: seq<string>)
    requires AllClean(packageAt)
    ensures CurrentAssetPath(CurrentAssetPath(argument, packageAt), packageAt) == CurrentAssetPath(argument, packageAt)
  {
    var current := CurrentAssetPath(argument, packageAt);
    CurrentAssetPathIs(argument, packageAt);
    CurrentAssetPathIs(current, packageAt);
    hide *;
    if k: nat :| Matches(argument, packageAt, k) {
      MatchesAnAsset(argument, packageAt, k);
      AssetsAreClean(k);
      forall j: nat ensures !Matches(current, packageAt, j) { AssetPathStays(ASSETS[k], packageAt, j); }
    }
  }

  /** Reading a stored command again changes nothing, and no argument is lost. */
  lemma CommandIsIdempotent(command: seq<string>, packageAt: seq<string>)
    requires AllClean(packageAt)
    ensures |CurrentEngineCommand(command, packageAt)| == |command|
    ensures forall k :: 0 <= k < |command| ==>
              CurrentEngineCommand(command, packageAt)[k] == CurrentAssetPath(command[k], packageAt)
    ensures CurrentEngineCommand(CurrentEngineCommand(command, packageAt), packageAt) ==
        CurrentEngineCommand(command, packageAt)
  {
    hide CurrentAssetPath;
    forall k | 0 <= k < |command|
      ensures CurrentAssetPath(CurrentEngineCommand(command, packageAt)[k], packageAt) ==
          CurrentEngineCommand(command, packageAt)[k]
    {
      CurrentIsCurrent(command[k], packageAt);
    }
  }
}
