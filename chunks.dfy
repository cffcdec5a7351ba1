/**
 * The build's `manualChunks` hook: a module id under `node_modules` is put in
 * a chunk named after the text that follows the first `node_modules/`, up to
 * the next `/`.
 */
module Chunks {
  import opened Wrappers
  import opened Text

  const NodeModules: string := "node_modules"
  const NodeModulesDir: string := "node_modules/"

  /** The exception JavaScript raises when `.split` is called on `undefined`. */
  datatype Failure = TypeError

  /**
   * `manualChunks(id)`: `None` for `undefined` (no manual chunk), a chunk
   * name, or the `TypeError` raised when `split('node_modules/')` has no
   * second piece.
   */
  function ManualChunk(id: string): (r: Result<Option<string>, Failure>)
    ensures r == Ok(None) <==> !Contains(id, NodeModules)
    ensures r.Err? <==> Contains(id, NodeModules) && !Contains(id, NodeModulesDir)
  {
    if !Contains(id, NodeModules) then Ok(None)
    else
      var parts := Split(id, NodeModulesDir);
      if |parts| < 2 then Err(TypeError)
      else Ok(Some(Split(parts[1], "/")[0]))
  }

  /** A chunk name never contains `/`, and it is a prefix of the text after the first `node_modules/`. */
  lemma ChunkNameHasNoSlash(id: string)
    requires ManualChunk(id).Ok? && ManualChunk(id).value.Some?
    ensures '/' !in ManualChunk(id).value.value
    ensures StartsWith(Split(id, NodeModulesDir)[1], ManualChunk(id).value.value)
  {
    var piece := Split(id, NodeModulesDir)[1];
    FirstPieceLacksSeparator(piece, '/');
    FirstPieceIsPrefix(piece, "/");
  }

  /** No `/` of `node_modules/` falls before its last character. */
  lemma SlashOnlyLast()
    ensures forall m :: 0 <= m < 12 ==> NodeModulesDir[m] != '/'
    ensures NodeModulesDir[12] == '/' && NodeModulesDir[..12] == NodeModules
  {
  }

  /**
   * A package name without `/` that does not end in `node_modules`, followed
   * by `/` or by nothing, holds no occurrence of `node_modules/` starting
   * inside it.
   */
  lemma NoOccurrenceInPackage(pkg: string, rest: string)
    requires '/' !in pkg && !EndsWith(pkg, NodeModules)
    requires rest == "" || rest[0] == '/'
    ensures forall j: nat :: j < |pkg| ==> !OccursAt(pkg + rest, NodeModulesDir, j)
  {
    var s := pkg + rest;
    SlashOnlyLast();
    forall j: nat | j < |pkg| && j + 13 <= |s|
      ensures !OccursAt(s, NodeModulesDir, j)
    {
      if j + 12 < |pkg| {
        assert s[j + 12] == pkg[j + 12] != NodeModulesDir[12];
        assert s[j..j + 13][12] == s[j + 12];
      } else if j + 12 == |pkg| {
        assert s[j..j + 12] == pkg[j..] != NodeModules;
        assert s[j..j + 13][..12] == s[j..j + 12];
      } else {
        var m := |pkg| - j;
        assert s[|pkg|] == rest[0] == '/' != NodeModulesDir[m];
        assert s[j..j + 13][m] == s[|pkg|];
      }
    }
  }

  /** Splitting on `/` a string that is `pkg` itself, or `pkg` then `/`, gives `pkg` first. */
  lemma PackageBeforeSlash(piece: string, pkg: string)
    requires '/' !in pkg
    requires piece == pkg || (|pkg| < |piece| && piece[..|pkg|] == pkg && piece[|pkg|] == '/')
    ensures Split(piece, "/")[0] == pkg
  {
    forall j: nat | j < |pkg| ensures !OccursAt(piece, "/", j) {
      assert piece[j] == pkg[j];
      assert piece[j..j + 1] == [piece[j]];
    }
    if piece == pkg {
      assert forall j: nat :: !OccursAt(piece, "/", j);
      assert IndexOf(piece, "/") == None;
    } else {
      assert piece[|pkg|..|pkg| + 1] == "/";
      IndexOfIs(piece, "/", |pkg|);
    }
  }

  /**
   * The chunk of a module under `node_modules/pkg`: the package directory
   * name, when `pkg` is free of `/` and does not itself end in `node_modules`.
   */
  lemma ChunkIsPackage(pre: string, pkg: string, rest: string)
    requires forall j: nat :: j < |pre| ==> !OccursAt(pre + NodeModulesDir + pkg + rest, NodeModulesDir, j)
    requires '/' !in pkg && !EndsWith(pkg, NodeModules)
    requires rest == "" || rest[0] == '/'
    ensures ManualChunk(pre + NodeModulesDir + pkg + rest) == Ok(Some(pkg))
  {
    var id := pre + NodeModulesDir + pkg + rest;
    var at := |pre|;
    assert id[at..at + 13] == NodeModulesDir;
    assert id[at..at + 12] == NodeModules;
    assert OccursAt(id, NodeModules, at);
    IndexOfIs(id, NodeModulesDir, at);
    var tail := id[at + 13..];
    assert tail == pkg + rest;
    assert Split(id, NodeModulesDir) == [id[..at]] + Split(tail, NodeModulesDir);
    NoOccurrenceInPackage(pkg, rest);
    var piece := Split(tail, NodeModulesDir)[0];
    match IndexOf(tail, NodeModulesDir)
    case None =>
      assert piece == tail;
      PackageBeforeSlash(piece, pkg);
    case Some(k) =>
      assert k >= |pkg|;
      assert piece == tail[..k];
      PackageBeforeSlash(piece, pkg);
  }

  /** A scoped package `node_modules/@scope/name/...` goes into the chunk `@scope`. */
  lemma ScopedPackageChunk(pre: string, scope: string, rest: string)
    requires forall j: nat :: j < |pre| ==> !OccursAt(pre + NodeModulesDir + "@" + scope + "/" + rest, NodeModulesDir, j)
    requires '/' !in scope && !EndsWith(scope, NodeModules)
    ensures ManualChunk(pre + NodeModulesDir + "@" + scope + "/" + rest) == Ok(Some("@" + scope))
  {
    var pkg := "@" + scope;
    if |pkg| >= 12 {
      if |scope| >= 12 {
        assert pkg[|pkg| - 12..] == scope[|scope| - 12..];
      } else {
        assert pkg[|pkg| - 12..][0] == '@' != NodeModules[0];
      }
    }
    assert pre + NodeModulesDir + "@" + scope + "/" + rest == pre + NodeModulesDir + pkg + ("/" + rest);
    ChunkIsPackage(pre, pkg, "/" + rest);
  }

  /**
   * The name is cut at the next `node_modules/` as well as at the next `/`:
   * for a directory ending in `node_modules`, the chunk is the part before it
   * rather than the text up to the next `/`.
   */
  lemma NestedDirectoryChunk()
    ensures ManualChunk("node_modules/xnode_modules/y") == Ok(Some("x"))
  {
    var id := "node_modules/xnode_modules/y";
    assert id[0..13] == NodeModulesDir;
    assert id[0..12] == NodeModules;
    assert OccursAt(id, NodeModules, 0);
    IndexOfIs(id, NodeModulesDir, 0);
    var tail := id[13..];
    assert tail == "xnode_modules/y";
    assert tail[1..14] == NodeModulesDir;
    assert !OccursAt(tail, NodeModulesDir, 0) by {
      assert tail[0] != NodeModulesDir[0];
      assert tail[0..13][0] == tail[0];
    }
    IndexOfIs(tail, NodeModulesDir, 1);
    assert Split(tail, NodeModulesDir)[0] == "x";
    assert !OccursAt("x", "/", 0) by {
      assert "x"[0..1] == "x";
    }
    assert IndexOf("x", "/") == None;
  }
}
