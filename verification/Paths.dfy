/** Which repository paths a role may write, and which paths carry meaning that an operation may have read. */
module Paths {

  predicate IsIdChar(c: char) {
    'a' <= c <= 'z' || 'A' <= c <= 'Z' || '0' <= c <= '9' || c == '_' || c == '.' || c == '-'
  }

  /** `prefix`, a nonempty id, `suffix`. */
  predicate IsIdBetween(prefix: string, path: string, suffix: string) {
    && |prefix| + |suffix| < |path|
    && path[..|prefix|] == prefix && path[|path| - |suffix|..] == suffix
    && forall i :: |prefix| <= i < |path| - |suffix| ==> IsIdChar(path[i])
  }

  function Lower(c: char): char {
    if 'A' <= c <= 'Z' then c - 'A' + 'a' else c
  }

  predicate SameIgnoringCase(a: string, b: string) {
    |a| == |b| && forall i :: 0 <= i < |a| ==> Lower(a[i]) == Lower(b[i])
  }

  predicate IsMemoryDetail(path: string) {
    IsIdBetween("MEMORY_", path, ".md")
  }

  predicate IsPursuitDetail(path: string) {
    IsIdBetween("PURSUIT_", path, ".md") && !SameIgnoringCase(path[8..|path| - 3], "rules")
  }

  predicate IsInsightLog(path: string) {
    IsIdBetween("insight_logs/", path, ".md")
  }

  const VIEW_FILES := ["/view.md", "/retriever.md", "/recipe.toml", "/question.toml", "/.gitignore"]

  predicate IsSharedViewDefinition(path: string) {
    exists file :: file in VIEW_FILES && IsIdBetween("shared_views/", path, file)
  }

  predicate IsHexDigit(c: char) {
    '0' <= c <= '9' || 'a' <= c <= 'f'
  }

  /** `update_records/update-batch-` and 64 hexadecimal digits. */
  predicate IsUpdateRecord(path: string) {
    && |path| == 28 + 64 + 5 && path[..28] == "update_records/update-batch-" && path[92..] == ".json"
    && forall i :: 28 <= i < 92 ==> IsHexDigit(path[i])
  }

  const CORRECTION_COLLECTIONS := {"MEMORY_agent-corrections-design.md", "MEMORY_agent-corrections-writing.md"}
  const CORRECTIONS := "corrections.md"
  const REGISTRIES := {"shared_views.toml", "shares.toml"}

  predicate IsGraphPath(path: string) {
    path !in CORRECTION_COLLECTIONS &&
    (path == "MEMORY.md" || IsMemoryDetail(path) || path == "PURSUITS.md" || IsPursuitDetail(path))
  }

  predicate IsSemanticPath(path: string) {
    || IsGraphPath(path) || path in CORRECTION_COLLECTIONS || path == CORRECTIONS || path in REGISTRIES
    || IsSharedViewDefinition(path) || IsInsightLog(path)
  }

  datatype Role = Insight | PursuitMap | SyncReconciler | Update | Pruner | OtherRole

  predicate IsRoleWritePath(role: Role, path: string) {
    if role == Insight then IsInsightLog(path)
    else if role == PursuitMap then IsGraphPath(path)
    else if path in CORRECTION_COLLECTIONS then role == Update || role == SyncReconciler
    else if role == SyncReconciler then
      IsGraphPath(path) || path == CORRECTIONS || path in REGISTRIES || IsSharedViewDefinition(path) || IsInsightLog(path)
    else (role == Pruner || role == Update) && (path == "MEMORY.md" || IsMemoryDetail(path))
  }

  /** No role may write a path that a concurrent reader would not notice. */
  lemma RoleWritesAreSemantic(role: Role, path: string)
    requires IsRoleWritePath(role, path)
    ensures IsSemanticPath(path)
  {}

  lemma StartsLikePrefix(prefix: string, path: string, suffix: string)
    requires prefix != []
    ensures IsIdBetween(prefix, path, suffix) ==> path[0] == prefix[0]
  {
    if IsIdBetween(prefix, path, suffix) {
      assert path[..|prefix|][0] == path[0];
    }
  }

  /** The runtime's own update records are not semantic: they never make another operation conflict. */
  lemma UpdateRecordsAreNotSemantic(path: string)
    requires IsUpdateRecord(path)
    ensures !IsSemanticPath(path)
  {
    assert path[..28][0] == path[0];
    StartsLikePrefix("MEMORY_", path, ".md");
    StartsLikePrefix("PURSUIT_", path, ".md");
    StartsLikePrefix("insight_logs/", path, ".md");
    forall file | file in VIEW_FILES ensures !IsIdBetween("shared_views/", path, file) {
      StartsLikePrefix("shared_views/", path, file);
    }
  }

  // ---------- the paths by name ----------

  predicate IsName(id: string) {
    id != [] && forall i :: 0 <= i < |id| ==> IsIdChar(id[i])
  }

  ghost predicate IsNamed(prefix: string, path: string, suffix: string) {
    exists id :: IsName(id) && path == prefix + id + suffix
  }

  lemma NamedMeans(prefix: string, path: string, suffix: string)
    ensures IsIdBetween(prefix, path, suffix) <==> IsNamed(prefix, path, suffix)
  {
    if IsIdBetween(prefix, path, suffix) {
      var id := path[|prefix|..|path| - |suffix|];
      assert path == prefix + id + suffix && IsName(id);
    }
    if IsNamed(prefix, path, suffix) {
      var id :| IsName(id) && path == prefix + id + suffix;
      IsBetween(prefix, id, suffix, path);
    }
  }

  lemma IsBetween(prefix: string, id: string, suffix: string, path: string)
    requires IsName(id) && path == prefix + id + suffix
    ensures IsIdBetween(prefix, path, suffix) && path[|prefix|..|path| - |suffix|] == id
  {
    assert path[|prefix|..|path| - |suffix|] == id && path[|path| - |suffix|..] == suffix && path[..|prefix|] == prefix;
    forall i | |prefix| <= i < |path| - |suffix| ensures IsIdChar(path[i]) {
      assert path[i] == id[i - |prefix|];
    }
  }

  /** A pursuit detail file; the id `rules` stays reserved. */
  ghost predicate IsPursuitNamed(path: string) {
    exists id :: IsName(id) && path == "PURSUIT_" + id + ".md" && !SameIgnoringCase(id, "rules")
  }

  lemma PursuitNamedMeans(path: string)
    ensures IsPursuitDetail(path) <==> IsPursuitNamed(path)
  {
    NamedMeans("PURSUIT_", path, ".md");
    if IsPursuitDetail(path) {
      var id :| IsName(id) && path == "PURSUIT_" + id + ".md";
      IsBetween("PURSUIT_", id, ".md", path);
    }
    if IsPursuitNamed(path) {
      var id :| IsName(id) && path == "PURSUIT_" + id + ".md" && !SameIgnoringCase(id, "rules");
      IsBetween("PURSUIT_", id, ".md", path);
    }
  }

  ghost predicate IsViewFile(path: string) {
    || IsNamed("shared_views/", path, "/view.md") || IsNamed("shared_views/", path, "/retriever.md") || IsNamed("shared_views/", path, "/recipe.toml")
    || IsNamed("shared_views/", path, "/question.toml") || IsNamed("shared_views/", path, "/.gitignore")
  }

  lemma ViewFileMeans(path: string)
    ensures IsSharedViewDefinition(path) <==> IsViewFile(path)
  {
    forall file | file in VIEW_FILES ensures IsIdBetween("shared_views/", path, file) <==> IsNamed("shared_views/", path, file) {
      NamedMeans("shared_views/", path, file);
    }
    assert VIEW_FILES[0] == "/view.md" && VIEW_FILES[1] == "/retriever.md" && VIEW_FILES[2] == "/recipe.toml"
        && VIEW_FILES[3] == "/question.toml" && VIEW_FILES[4] == "/.gitignore";
  }

  ghost predicate IsMemoryFile(path: string) {
    path == "MEMORY.md" || IsNamed("MEMORY_", path, ".md")
  }

  predicate IsCorrectionFile(path: string) {
    path == "MEMORY_agent-corrections-design.md" || path == "MEMORY_agent-corrections-writing.md"
  }

  /** Which files each role may write. */
  lemma RoleWritesMean(role: Role, path: string)
    ensures IsRoleWritePath(role, path) <==>
      match role
      case Insight => IsNamed("insight_logs/", path, ".md")
      case PursuitMap => !IsCorrectionFile(path) && (IsMemoryFile(path) || path == "PURSUITS.md" || IsPursuitNamed(path))
      case SyncReconciler =>
        || IsMemoryFile(path) || path == "PURSUITS.md" || IsPursuitNamed(path) || path == "corrections.md" || path == "shared_views.toml" || path == "shares.toml"
        || IsViewFile(path) || IsNamed("insight_logs/", path, ".md")
      case Update => IsMemoryFile(path)
      case Pruner => IsMemoryFile(path) && !IsCorrectionFile(path)
      case OtherRole => false
  {
    NamedMeans("insight_logs/", path, ".md");
    NamedMeans("MEMORY_", path, ".md");
    PursuitNamedMeans(path);
    ViewFileMeans(path);
    if IsCorrectionFile(path) {
      CorrectionsAreMemory(path);
    }
  }

  lemma NamesOfCorrections()
    ensures IsName("agent-corrections-design") && IsName("agent-corrections-writing")
  {}

  lemma DesignIsNamed()
    ensures "MEMORY_agent-corrections-design.md" == "MEMORY_" + "agent-corrections-design" + ".md"
  {}

  lemma WritingIsNamed()
    ensures "MEMORY_agent-corrections-writing.md" == "MEMORY_" + "agent-corrections-writing" + ".md"
  {}

  lemma CorrectionsAreMemory(path: string)
    requires IsCorrectionFile(path)
    ensures IsNamed("MEMORY_", path, ".md")
  {
    NamesOfCorrections();
    DesignIsNamed();
    WritingIsNamed();
  }

  /** Which paths carry meaning that an operation may have read. */
  lemma SemanticMeans(path: string)
    ensures IsSemanticPath(path) <==>
      || IsMemoryFile(path) || path == "PURSUITS.md" || IsPursuitNamed(path) || path == "corrections.md" || path == "shared_views.toml" || path == "shares.toml"
      || IsViewFile(path) || IsNamed("insight_logs/", path, ".md")
  {
    RoleWritesMean(SyncReconciler, path);
  }
}
