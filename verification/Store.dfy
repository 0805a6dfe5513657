/** The artifact store: content-addressed tables, and one manifest for every stage of a plan. */
module Store {
  import opened Prelude
  import opened Dag
  import opened Sql
  import opened CacheContext

  // ----- file names -----

  /** `.replace("..", "_")` */
  function ReplaceDots(s: string): string {
    if |s| < 2 then s
    else if s[0] == '.' && s[1] == '.' then "_" + ReplaceDots(s[2..])
    else [s[0]] + ReplaceDots(s[1..])
  }

  function ReplaceSlashes(s: string): string {
    if s == "" then ""
    else [if s[0] == '/' || s[0] == '\\' then '_' else s[0]] + ReplaceSlashes(s[1..])
  }

  /** `_safe_segment` */
  function SafeSegment(s: string): string { ReplaceSlashes(ReplaceDots(s)) }

  datatype Path = Path(workspace: string, plan: string, stage: string)

  function ManifestPath(workspace: string, plan: string, stage: StageId): Path {
    Path(SafeSegment(workspace), SafeSegment(plan), SafeSegment(stage))
  }

  predicate PlainChar(c: char) { c != '/' && c != '\\' }

  predicate NoDoubleDot(s: string) { forall i | 0 <= i < |s| - 1 :: !(s[i] == '.' && s[i + 1] == '.') }

  lemma {:induction false} DotsReplaced(s: string)
    ensures |ReplaceDots(s)| <= |s|
    ensures NoDoubleDot(s) ==> ReplaceDots(s) == s
    ensures !NoDoubleDot(s) ==> |ReplaceDots(s)| < |s|
  {
    if |s| >= 2 {
      if s[0] == '.' && s[1] == '.' {
        DotsReplaced(s[2..]);
      } else {
        DotsReplaced(s[1..]);
        assert NoDoubleDot(s) <==> NoDoubleDot(s[1..]) by {
          if NoDoubleDot(s[1..]) {
            forall i | 0 <= i < |s| - 1 ensures !(s[i] == '.' && s[i + 1] == '.') {
              if i > 0 { assert !(s[1..][i - 1] == '.' && s[1..][i] == '.'); }
            }
          }
          if NoDoubleDot(s) {
            forall i | 0 <= i < |s[1..]| - 1 ensures !(s[1..][i] == '.' && s[1..][i + 1] == '.') {
              assert !(s[i + 1] == '.' && s[i + 1 + 1] == '.');
            }
          }
        }
      }
    }
  }

  lemma {:induction false} SlashesReplaced(s: string)
    ensures |ReplaceSlashes(s)| == |s|
    ensures forall i | 0 <= i < |s| :: ReplaceSlashes(s)[i] == if PlainChar(s[i]) then s[i] else '_'
  {
    if s != "" { SlashesReplaced(s[1..]); }
  }

  predicate PlainName(s: string) { NoDoubleDot(s) && forall i | 0 <= i < |s| :: PlainChar(s[i]) }

  /** A name is its own file name exactly when it has no slash, no backslash and no two dots in a row. */
  lemma {:induction false} PlainNamesAreKept(s: string)
    ensures SafeSegment(s) == s <==> PlainName(s)
  {
    DotsReplaced(s);
    SlashesReplaced(ReplaceDots(s));
    if PlainName(s) {
      assert ReplaceSlashes(s) == s;
    }
  }

  lemma {:induction false} NoDotsLeft(s: string)
    ensures NoDoubleDot(ReplaceDots(s))
    ensures ReplaceDots(s) != "" && ReplaceDots(s)[0] == '.' ==> s != "" && s[0] == '.'
  {
    if |s| >= 2 {
      var n := if s[0] == '.' && s[1] == '.' then 2 else 1;
      NoDotsLeft(s[n..]);
      var head, rest := ReplaceDots(s)[0], ReplaceDots(s[n..]);
      assert ReplaceDots(s) == [head] + rest;
      forall i | 0 <= i < |rest| ensures !(([head] + rest)[i] == '.' && ([head] + rest)[i + 1] == '.') {
        if i > 0 { assert !(rest[i - 1] == '.' && rest[i] == '.'); }
      }
    }
  }

  /** Every file name is plain. */
  lemma {:induction false} FileNamesArePlain(s: string)
    ensures PlainName(SafeSegment(s))
  {
    var t := ReplaceDots(s);
    NoDotsLeft(s);
    SlashesReplaced(t);
    forall i | 0 <= i < |t| - 1 ensures !(ReplaceSlashes(t)[i] == '.' && ReplaceSlashes(t)[i + 1] == '.') {
      assert !(t[i] == '.' && t[i + 1] == '.');
    }
  }

  /** A slash is written like an underscore. */
  lemma {:induction false} SlashIsUnderscore(t: string, i: nat)
    requires PlainName(t) && i < |t| && t[i] == '_'
    ensures t[i := '/'] != t && SafeSegment(t[i := '/']) == t
  {
    var other := t[i := '/'];
    assert other[i] != t[i];
    DotsReplaced(other);
    SlashesReplaced(other);
    forall k | 0 <= k < |other| - 1 ensures !(other[k] == '.' && other[k + 1] == '.') {
      assert !(t[k] == '.' && t[k + 1] == '.');
    }
    assert ReplaceSlashes(other) == t;
  }

  lemma {:induction false} NoUnderscoreMeansKept(s: string)
    requires '_' !in SafeSegment(s)
    ensures SafeSegment(s) == s
  {
    var t := ReplaceDots(s);
    SlashesReplaced(t);
    forall i | 0 <= i < |t| ensures PlainChar(t[i]) && t[i] != '_' {
      assert ReplaceSlashes(t)[i] in SafeSegment(s);
    }
    NoUnderscoreMeansNoDots(s);
    DotsReplaced(s);
    assert ReplaceSlashes(t) == t;
  }

  lemma {:induction false} NoUnderscoreMeansNoDots(s: string)
    requires '_' !in ReplaceDots(s)
    ensures ReplaceDots(s) == s
  {
    if |s| >= 2 {
      var n := if s[0] == '.' && s[1] == '.' then 2 else 1;
      assert ReplaceDots(s)[1..] == ReplaceDots(s[n..]);
      assert ReplaceDots(s)[0] in ReplaceDots(s);
      assert forall c | c in ReplaceDots(s)[1..] :: c in ReplaceDots(s);
      NoUnderscoreMeansNoDots(s[n..]);
      assert s == [s[0]] + s[1..];
    }
  }

  /** Another name has the same file name exactly when the file name contains an underscore. */
  lemma {:induction false} NamesCollideIff(s: string)
    ensures (exists other :: other != s && SafeSegment(other) == SafeSegment(s)) <==> '_' in SafeSegment(s)
  {
    var t := SafeSegment(s);
    if '_' in t {
      var i :| 0 <= i < |t| && t[i] == '_';
      FileNamesArePlain(s);
      SlashIsUnderscore(t, i);
      PlainNamesAreKept(t);
      assert t != s || t[i := '/'] != s;
    } else {
      forall other | SafeSegment(other) == t ensures other == s {
        NoUnderscoreMeansKept(other);
        NoUnderscoreMeansKept(s);
      }
    }
  }

  /** Two stage ids of a plan can share a manifest exactly when the file name of the id contains an underscore. */
  lemma {:induction false} StageIdsCollideIff(workspace: string, plan: string, stage: StageId)
    ensures
      (exists other :: other != stage &&
        ManifestPath(workspace, plan, other) == ManifestPath(workspace, plan, stage)) <==>
            '_' in SafeSegment(stage)
  {
    NamesCollideIff(stage);
    if other :| other != stage && SafeSegment(other) == SafeSegment(stage) {
      assert ManifestPath(workspace, plan, other) == ManifestPath(workspace, plan, stage);
    }
  }

  // ----- contents -----

  type ContentHash = Table -> string

  ghost predicate Injective(h: ContentHash) { forall x, y | h(x) == h(y) :: x == y }

  datatype Artifact = Artifact(stageId: StageId, workspace: string, contentHash: string, rows: nat)

  datatype Manifest = Manifest(artifact: Artifact, cache: Option<Descriptor>)

  type Key = (string, string)

  // What is on disk: manifests by path, artifacts by workspace and content hash.
  datatype Contents = Contents(manifests: map<Path, Manifest>, artifacts: map<Key, Table>)

  function KeyOf(a: Artifact): Key { (a.workspace, a.contentHash) }

  /** `get_stage_output_manifest`: a manifest whose artifact is gone does not count. */
  function GetManifest(c: Contents, p: Path): Option<Manifest> {
    if p in c.manifests && KeyOf(c.manifests[p].artifact) in c.artifacts then Some(c.manifests[p]) else None
  }

  predicate HasKey(d: Descriptor) { d.cacheable && d.cacheKey.Some? && !Blank(d.cacheKey.value) }

  /** `get_cached_stage_output` */
  function GetCached(c: Contents, p: Path, expected: Option<Descriptor>): Option<Artifact> {
    var m := GetManifest(c, p);
    if m.None? then None
    else if expected.None? then Some(m.value.artifact)
    else if !HasKey(expected.value) then None
    else if m.value.cache.None? || !HasKey(m.value.cache.value) then None
    else if m.value.cache.value.cacheKey != expected.value.cacheKey then None
    else Some(m.value.artifact)
  }

  /** `read_stage_output` */
  function ReadOutput(c: Contents, p: Path): Option<Table> {
    var m := GetManifest(c, p);
    if m.None? then None else Some(c.artifacts[KeyOf(m.value.artifact)])
  }

  function NewArtifact(h: ContentHash, workspace: string, stage: StageId, t: Table): Artifact {
    Artifact(stage, workspace, h(t), |t|)
  }

  /** `write_stage_output`: an artifact already there is not written again; the manifest always is. */
  function Write(
    h: ContentHash, c: Contents, workspace: string, plan: string, stage: StageId, t: Table,
    cache: Option<Descriptor>): Contents
  {
    var a := NewArtifact(h, workspace, stage, t);
    Contents(
      c.manifests[ManifestPath(workspace, plan, stage) := Manifest(a, cache)],
      if KeyOf(a) in c.artifacts then c.artifacts else c.artifacts[KeyOf(a) := t])
  }

  /** Every stored table is filed under its own hash. */
  ghost predicate ContentAddressed(h: ContentHash, c: Contents) {
    forall k | k in c.artifacts :: h(c.artifacts[k]) == k.1
  }

  /** Writing keeps the store content-addressed, and what was written is what is read back. */
  lemma {:induction false} WriteThenRead(
    h: ContentHash, c: Contents, workspace: string, plan: string, stage: StageId, t: Table, cache: Option<Descriptor>)
    requires Injective(h) && ContentAddressed(h, c)
    ensures var c' := Write(h, c, workspace, plan, stage, t, cache);
      && ContentAddressed(h, c')
      && ReadOutput(c', ManifestPath(workspace, plan, stage)) == Some(t)
      && GetManifest(c', ManifestPath(workspace, plan, stage)) ==
        Some(Manifest(Artifact(stage, workspace, h(t), |t|), cache))
  {
  }

  /** Writing one stage changes no other stage's manifest, and no table already stored. */
  lemma {:induction false} WriteFrame(
    h: ContentHash, c: Contents, workspace: string, plan: string, stage: StageId, t: Table, cache: Option<Descriptor>)
    ensures var c' := Write(h, c, workspace, plan, stage, t, cache);
      && (
        forall p | p in c.manifests && p != ManifestPath(workspace, plan, stage) ::
          p in c'.manifests && c'.manifests[p] == c.manifests[p])
      && (forall k | k in c.artifacts :: k in c'.artifacts && c'.artifacts[k] == c.artifacts[k])
  {
  }

  class ArtifactStore {
    var manifests: map<Path, Manifest>
    var artifacts: map<Key, Table>
    const contentHash: ContentHash

    function View(): Contents
      reads this
    {
      Contents(manifests, artifacts)
    }

    constructor (h: ContentHash)
      ensures View() == Contents(map[], map[]) && contentHash == h
    {
      manifests, artifacts, contentHash := map[], map[], h;
    }

    method GetStageOutputManifest(workspace: string, plan: string, stage: StageId) returns (m: Option<Manifest>)
      ensures m == GetManifest(View(), ManifestPath(workspace, plan, stage))
    {
      var p := ManifestPath(workspace, plan, stage);
      if p !in manifests { return None; }
      var found := manifests[p];
      if KeyOf(found.artifact) !in artifacts { return None; }
      m := Some(found);
    }

    method GetCachedStageOutput(workspace: string, plan: string, stage: StageId, expected: Option<Descriptor>)
      returns (a: Option<Artifact>)
      ensures a == GetCached(View(), ManifestPath(workspace, plan, stage), expected)
    {
      var m := GetStageOutputManifest(workspace, plan, stage);
      if m.None? { return None; }
      if expected.None? { return Some(m.value.artifact); }
      if !HasKey(expected.value) { return None; }
      if m.value.cache.None? { return None; }
      if !HasKey(m.value.cache.value) { return None; }
      if m.value.cache.value.cacheKey != expected.value.cacheKey { return None; }
      a := Some(m.value.artifact);
    }

    method ReadStageOutput(workspace: string, plan: string, stage: StageId) returns (t: Option<Table>)
      ensures t == ReadOutput(View(), ManifestPath(workspace, plan, stage))
    {
      var m := GetStageOutputManifest(workspace, plan, stage);
      if m.None? { return None; }
      t := Some(artifacts[KeyOf(m.value.artifact)]);
    }

    method WriteStageOutput(workspace: string, plan: string, stage: StageId, t: Table, cache: Option<Descriptor>)
      returns (a: Artifact)
      modifies this
      ensures View() == Write(contentHash, old(View()), workspace, plan, stage, t, cache)
      ensures a == NewArtifact(contentHash, workspace, stage, t)
    {
      a := NewArtifact(contentHash, workspace, stage, t);
      if KeyOf(a) !in artifacts {
        artifacts := artifacts[KeyOf(a) := t];
      }
      manifests := manifests[ManifestPath(workspace, plan, stage) := Manifest(a, cache)];
    }
  }
}
