/**
 * Locating a node's security directory (rcl/src/rcl/security_directory.c):
 * either the directory named by the node-directory environment variable, or
 * the longest directory name under `<root>/<namespace>` that is a prefix of
 * the node's name. The environment and the filesystem are values: a map of
 * variables and a map from directory paths to their listings.
 */
module SecurityDirectory {
  import opened RclTypes

  /** `_TINYDIR_FILENAME_MAX`: the size of a listed name's buffer, terminator included. */
  const FilenameMax: nat := 256

  /** One step of reading a directory with tinydir: either the current entry
      (its name, whether it is a directory, and whether advancing past it
      fails) or a read failure. */
  datatype DirSlot = File(name: string, isDir: bool, nextFails: bool) | Unreadable

  /** What the filesystem answers: the listing of each directory that can be
      opened, and the paths `rcutils_is_directory` accepts. */
  datatype FileSystem = FileSystem(listings: map<string, seq<DirSlot>>, directories: set<string>)

  predicate IsPrefix(p: string, s: string)
  {
    |p| <= |s| && s[..|p|] == p
  }

  /** The part of a listed name that `strnlen` measures and `strncpy` copies. */
  function Capped(name: string): (r: string)
    ensures |r| <= FilenameMax - 1
    ensures IsPrefix(r, name)
    ensures |name| < FilenameMax ==> r == name
    ensures |name| >= FilenameMax ==> r == name[..FilenameMax - 1]
  {
    if |name| < FilenameMax then name else name[..FilenameMax - 1]
  }

  /** An entry the scan may pick: a directory whose (capped) name is a prefix
      of the node name, which is what comparing its first `strnlen` characters
      with the node name establishes. */
  predicate Candidate(slot: DirSlot, nodeName: string)
  {
    slot.File? && slot.isDir && IsPrefix(Capped(slot.name), nodeName)
  }

  /** The number of entries the scan examines: it stops before an unreadable
      entry and right after an entry it cannot advance past. */
  function ScanEnd(listing: seq<DirSlot>): (n: nat)
    ensures n <= |listing|
    ensures forall i :: 0 <= i < n ==> listing[i].File?
    ensures forall i :: 0 <= i < n - 1 ==> !listing[i].nextFails
    ensures n < |listing| ==> listing[n].Unreadable? || (n > 0 && listing[n - 1].nextFails)
  {
    if listing == [] || listing[0].Unreadable? then 0
    else if listing[0].nextFails then 1
    else 1 + ScanEnd(listing[1..])
  }

  /** The best match among `entries`: the longest candidate name, the earliest
      one among equally long names, and "" when there is no candidate. */
  function Best(entries: seq<DirSlot>, nodeName: string): (b: string)
    ensures IsPrefix(b, nodeName)
    ensures |b| <= FilenameMax - 1
    ensures b == "" || exists i :: 0 <= i < |entries| && Candidate(entries[i], nodeName) && Capped(entries[i].name) == b
    ensures forall i :: 0 <= i < |entries| && Candidate(entries[i], nodeName) ==> |Capped(entries[i].name)| <= |b|
    decreases |entries|
  {
    if entries == [] then ""
    else
      var prev := Best(entries[..|entries| - 1], nodeName);
      var last := entries[|entries| - 1];
      if Candidate(last, nodeName) && |Capped(last.name)| > |prev| then Capped(last.name) else prev
  }

  /** The entries the scan examines, and the match it reports. */
  function BestUnder(listing: seq<DirSlot>, nodeName: string): string
  {
    Best(listing[..ScanEnd(listing)], nodeName)
  }

  /** A match is found exactly when some examined candidate has a non-empty name. */
  lemma {:induction false} FoundIffNonEmptyCandidate(entries: seq<DirSlot>, nodeName: string)
    ensures |Best(entries, nodeName)| > 0 <==>
      exists i :: 0 <= i < |entries| && Candidate(entries[i], nodeName) && |Capped(entries[i].name)| > 0
  {
    var b := Best(entries, nodeName);
    if |b| > 0 {
      var i :| 0 <= i < |entries| && Candidate(entries[i], nodeName) && Capped(entries[i].name) == b;
      assert |Capped(entries[i].name)| > 0;
    }
  }

  /** Since every candidate is a prefix of the same node name, two candidates
      of equal length have the same name: the tie rule never changes the answer. */
  lemma CandidatesOfEqualLengthAgree(a: DirSlot, b: DirSlot, nodeName: string)
    requires Candidate(a, nodeName) && Candidate(b, nodeName)
    requires |Capped(a.name)| == |Capped(b.name)|
    ensures Capped(a.name) == Capped(b.name)
  {
  }

  /** Extending the examined entries by one updates the best match as the scan does. */
  lemma BestStep(listing: seq<DirSlot>, i: nat, nodeName: string)
    requires i < |listing|
    ensures var prev := Best(listing[..i], nodeName);
      Best(listing[..i + 1], nodeName)
        == if Candidate(listing[i], nodeName) && |Capped(listing[i].name)| > |prev| then Capped(listing[i].name) else prev
  {
    assert listing[..i + 1][..i] == listing[..i];
  }

  /** How many entries remain to be examined from position `i`. */
  lemma ScanEndStep(listing: seq<DirSlot>, i: nat)
    requires i < |listing|
    ensures listing[i].Unreadable? ==> ScanEnd(listing[i..]) == 0
    ensures listing[i].File? && listing[i].nextFails ==> ScanEnd(listing[i..]) == 1
    ensures listing[i].File? && !listing[i].nextFails ==> ScanEnd(listing[i..]) == 1 + ScanEnd(listing[i + 1..])
  {
    assert listing[i..][0] == listing[i] && listing[i..][1..] == listing[i + 1..];
  }

  /** `get_best_matching_directory`, advancing past every entry. A null
      argument or a directory that cannot be opened gives no match; otherwise
      the match is the best candidate among the entries examined before the
      scan stops, and one is found exactly when that name is non-empty. */
  method GetBestMatchingDirectory(
    baseDir: Option<string>, nodeName: Option<string>, matchedNonNull: bool, fs: FileSystem)
    returns (found: bool, matched: string)
    ensures matched == (if baseDir.Some? && nodeName.Some? && matchedNonNull && baseDir.value in fs.listings
                        then BestUnder(fs.listings[baseDir.value], nodeName.value)
                        else "")
    ensures found <==> |matched| > 0
  {
    matched := "";
    if baseDir.None? || nodeName.None? || !matchedNonNull {
      return false, matched;
    }
    if baseDir.value !in fs.listings {
      return false, matched;
    }
    var listing := fs.listings[baseDir.value];
    var node := nodeName.value;
    var i := 0;
    while i < |listing|
      invariant 0 <= i <= ScanEnd(listing)
      invariant ScanEnd(listing) == i + ScanEnd(listing[i..])
      invariant matched == Best(listing[..i], node)
      decreases |listing| - i
    {
      var slot := listing[i];
      if slot.Unreadable? {
        ScanEndStep(listing, i);
        break;
      }
      if slot.isDir {
        var name := Capped(slot.name);
        if IsPrefix(name, node) && |name| > |matched| {
          matched := name;
        }
      }
      BestStep(listing, i, node);
      ScanEndStep(listing, i);
      i := i + 1;
      if slot.nextFails {
        break;
      }
    }
    assert listing[..ScanEnd(listing)] == listing[..i];
    found := |matched| > 0;
  }

  /** The loop state of the scan as written: the current entry, the best name
      so far, and whether the loop is still running. */
  datatype ScanState = ScanState(position: nat, matched: string, running: bool)

  /** One iteration of the scan loop as written: a non-directory entry is
      skipped with `continue` before the call that advances to the next entry. */
  function ScanStepAsWritten(listing: seq<DirSlot>, nodeName: string, s: ScanState): (t: ScanState)
    requires s.position < |listing|
    ensures t.position >= s.position
  {
    match listing[s.position]
    case Unreadable => s.(running := false)
    case File(name, isDir, nextFails) =>
      if !isDir then s
      else
        var m := if IsPrefix(Capped(name), nodeName) && |Capped(name)| > |s.matched| then Capped(name) else s.matched;
        if nextFails then ScanState(s.position, m, false)
        else ScanState(s.position + 1, m, s.position + 1 < |listing|)
  }

  /** At most `steps` iterations of the as-written loop. */
  function RunAsWritten(listing: seq<DirSlot>, nodeName: string, s: ScanState, steps: nat): ScanState
    decreases steps
  {
    if steps == 0 || !s.running || s.position >= |listing| then s
    else RunAsWritten(listing, nodeName, ScanStepAsWritten(listing, nodeName, s), steps - 1)
  }

  /** Evidence for the skipped advance: once the as-written loop reaches a
      regular file it stays at that entry, still running, however many
      iterations follow, so the scan never ends. */
  lemma {:induction false} NonDirectoryEntryStallsScan(
    listing: seq<DirSlot>, nodeName: string, s: ScanState, steps: nat)
    requires s.running && s.position < |listing|
    requires listing[s.position].File? && !listing[s.position].isDir
    ensures RunAsWritten(listing, nodeName, s, steps) == s
    decreases steps
  {
    if steps > 0 {
      assert ScanStepAsWritten(listing, nodeName, s) == s;
      NonDirectoryEntryStallsScan(listing, nodeName, s, steps - 1);
    }
  }

  // ---------------------------------------------------------------------------
  // rcl_get_secure_root

  /** Result of `rcutils_get_env`: a failure, or the value (never null in
      practice, but the code checks for it). */
  datatype EnvLookup = EnvOk(value: Option<string>) | EnvError

  /** The process environment; an unset variable reads as the empty string. */
  type Env = map<string, EnvLookup>

  const NodeDirectoryVar: string := "ROS_SECURITY_NODE_DIRECTORY"
  const RootDirectoryVar: string := "ROS_SECURITY_ROOT_DIRECTORY"

  function GetEnv(env: Env, name: string): EnvLookup
  {
    if name in env then env[name] else EnvOk(Some(""))
  }

  /** `rcutils_join_path` with the POSIX separator. */
  function Join(left: string, right: string): (r: string)
    ensures |r| == |left| + 1 + |right|
    ensures r[..|left|] == left && r[|left|] == '/' && r[|left| + 1..] == right
  {
    left + "/" + right
  }

  /** The directory prefix matching looks in: the root itself for the root
      namespace "/", otherwise the root joined with the namespace minus its
      leading separator. */
  function LookupBase(root: string, nodeNamespace: string): string
    requires |nodeNamespace| >= 1
  {
    if |nodeNamespace| == 1 then root else Join(root, nodeNamespace[1..])
  }

  /** The path `rcl_get_secure_root` settles on before its directory check:
      the node-directory variable verbatim when it is set and non-empty;
      otherwise, with a non-empty root variable, the lookup base joined with
      the best match under it. */
  function PathBeforeCheck(nodeName: string, nodeNamespace: string, env: Env, fs: FileSystem): Option<string>
    requires |nodeNamespace| >= 1
  {
    match GetEnv(env, NodeDirectoryVar)
    case EnvError => None
    case EnvOk(nodeDir) =>
      if nodeDir.None? then None
      else if |nodeDir.value| > 0 then Some(nodeDir.value)
      else
        match GetEnv(env, RootDirectoryVar)
        case EnvError => None
        case EnvOk(root) =>
          if root.None? || |root.value| == 0 then None
          else
            var base := LookupBase(root.value, nodeNamespace);
            if base !in fs.listings then None
            else
              var m := BestUnder(fs.listings[base], nodeName);
              if |m| > 0 then Some(Join(base, m)) else None
  }

  /** `rcl_get_secure_root`: no node name gives nothing; whatever path is
      chosen is returned only if it is a directory. */
  function SecureRoot(nodeName: Option<string>, nodeNamespace: string, env: Env, fs: FileSystem): (r: Option<string>)
    requires |nodeNamespace| >= 1
    ensures r.Some? ==> r.value in fs.directories
    ensures nodeName.None? ==> r == None
    ensures nodeName.Some? && GetEnv(env, NodeDirectoryVar).EnvOk? && GetEnv(env, NodeDirectoryVar).value.Some?
            && |GetEnv(env, NodeDirectoryVar).value.value| > 0 ==>
      var nodeDir := GetEnv(env, NodeDirectoryVar).value.value;
      r == (if nodeDir in fs.directories then Some(nodeDir) else None)
    ensures GetEnv(env, NodeDirectoryVar) == EnvOk(Some("")) && GetEnv(env, RootDirectoryVar) == EnvOk(Some("")) ==>
      r == None
    ensures GetEnv(env, NodeDirectoryVar).EnvError? || GetEnv(env, NodeDirectoryVar) == EnvOk(None) ==> r == None
    ensures GetEnv(env, NodeDirectoryVar) == EnvOk(Some(""))
            && (GetEnv(env, RootDirectoryVar).EnvError? || GetEnv(env, RootDirectoryVar) == EnvOk(None)) ==>
      r == None
  {
    if nodeName.None? then None
    else
      var p := PathBeforeCheck(nodeName.value, nodeNamespace, env, fs);
      if p.Some? && p.value in fs.directories then p else None
  }

  /** Without an override, the secure root is the lookup base joined with the
      best match under it, which `Best` characterises as the longest examined
      directory name that is a prefix of the node name, provided the base can
      be listed, the match is non-empty and the joined path is a directory;
      otherwise there is no secure root. */
  lemma {:induction false} FallbackIsBestMatchUnderBase(
    nodeName: string, nodeNamespace: string, env: Env, fs: FileSystem, root: string)
    requires |nodeNamespace| >= 1
    requires GetEnv(env, NodeDirectoryVar) == EnvOk(Some(""))
    requires GetEnv(env, RootDirectoryVar) == EnvOk(Some(root)) && |root| > 0
    ensures var r := SecureRoot(Some(nodeName), nodeNamespace, env, fs);
            var base := LookupBase(root, nodeNamespace);
      r == if base in fs.listings
              && 0 < |BestUnder(fs.listings[base], nodeName)|
              && Join(base, BestUnder(fs.listings[base], nodeName)) in fs.directories
           then Some(Join(base, BestUnder(fs.listings[base], nodeName)))
           else None
  {
    var base := LookupBase(root, nodeNamespace);
    var p := PathBeforeCheck(nodeName, nodeNamespace, env, fs);
    if base in fs.listings {
      var m := BestUnder(fs.listings[base], nodeName);
      assert p == if |m| > 0 then Some(Join(base, m)) else None;
    } else {
      assert p == None;
    }
  }

  /** `rcl_get_secure_root` step by step; the namespace must be absolute. */
  method GetSecureRoot(nodeName: Option<string>, nodeNamespace: string, env: Env, fs: FileSystem)
    returns (secureRoot: Option<string>)
    requires |nodeNamespace| >= 1 && nodeNamespace[0] == '/'
    ensures secureRoot == SecureRoot(nodeName, nodeNamespace, env, fs)
  {
    if nodeName.None? {
      return None;
    }
    var lookup := GetEnv(env, NodeDirectoryVar);
    if lookup.EnvError? || lookup.value.None? {
      return None;
    }
    var value := lookup.value.value;
    var nodeOverride := true;
    if |value| == 0 {
      lookup := GetEnv(env, RootDirectoryVar);
      if lookup.EnvError? || lookup.value.None? {
        return None;
      }
      value := lookup.value.value;
      if |value| == 0 {
        return None;
      }
      nodeOverride := false;
    }
    var path: Option<string> := None;
    if nodeOverride {
      path := Some(value);
    } else {
      var base := if |nodeNamespace| == 1 then value else Join(value, nodeNamespace[1..]);
      assert base == LookupBase(value, nodeNamespace);
      var found, matched := GetBestMatchingDirectory(Some(base), nodeName, true, fs);
      if found {
        path := Some(Join(base, matched));
      }
    }
    assert path == PathBeforeCheck(nodeName.value, nodeNamespace, env, fs);
    if path.None? {
      return None;
    } else if path.value !in fs.directories {
      return None;
    }
    secureRoot := path;
  }
}
