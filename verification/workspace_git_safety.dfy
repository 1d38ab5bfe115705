/** The safety check that a private workspace never becomes tracked by git. */
module WorkspaceGitSafety {
  import opened Strings
  import opened Paths

  predicate IsPrivatePart(part: string) {
    part in {"private-workspace", ".local-workspace", "sandbox-workspace", "pilot-workspace"}
  }

  const PRIVATE_SUFFIXES: set<string> := {
    ".private.json", ".private.md", ".private.env", ".workspace-report.json", ".workspace-report.md",
    ".workspace-manifest.json"
  }

  /** `item.startswith("examples/private-workspace/")` */
  predicate IsUnderFakeWorkspace(item: Parts) {
    StartsWith(Posix(item), "examples/private-workspace/")
  }

  predicate HasPrivatePart(item: Parts) {
    exists part :: part in item && IsPrivatePart(part)
  }

  /** `a and not b or c`: the exemption binds to the parts alone. */
  predicate IsUnsafe(item: Parts) {
    || (HasPrivatePart(item) && !IsUnderFakeWorkspace(item))
    || EndsWithAny(Name(item), PRIVATE_SUFFIXES)
  }
}
