/** The three path checks each exempt the fake example workspace in their own way: by string prefix,
    by leading parts, by substring of the resolved path. How these relate, and what the root of the
    run does to them. */
module Exemptions {
  import opened Strings
  import opened Paths
  import opened CascadeTables
  import opened PathCascade
  import opened UsabilityAudit
  import opened WorkspaceGitSafety

  lemma RelativePosix(relative: Parts)
    requires IsRelative(relative)
    ensures Posix(relative) == Join(relative, '/')
    ensures |relative| > 1 ==> Posix(relative) == relative[0] + "/" + Posix(relative[1..])
    ensures |relative| > 1 ==> IsRelative(relative[1..])
  {
    assert '/' !in relative[0];
    assert relative[0] != "/";
    if |relative| > 1 {
      assert relative[1..][0] == relative[1];
      assert '/' !in relative[1];
      assert relative[1] != "/";
    }
  }

  /** A first part is delimited by the first separator. */
  lemma FirstPart(part: string, rest: string, other: string, more: string)
    requires '/' !in part && '/' !in other
    requires part + "/" + rest == other + "/" + more
    ensures part == other && rest == more
  {
    var s := part + "/" + rest;
    assert s[|part|] == '/' && s[|other|] == '/';
    assert forall k :: 0 <= k < |part| ==> s[k] == part[k];
    assert forall k :: 0 <= k < |other| ==> s[k] == other[k];
    assert s[..|part|] == part && s[..|other|] == other;
    assert s[|part| + 1..] == rest && s[|other| + 1..] == more;
  }

  lemma PrefixMeansPart(first: string, rest: string, part: string, more: string)
    requires '/' !in first && '/' !in part
    ensures !(part + "/" + more <= first)
    ensures part + "/" + more <= first + "/" + rest <==> first == part && more <= rest
  {
    var s, prefix := first + "/" + rest, part + "/" + more;
    assert prefix[|part|] == '/';
    if prefix <= s {
      assert s == part + "/" + (more + s[|prefix|..]);
      FirstPart(first, rest, part, more + s[|prefix|..]);
    }
    if first == part && more <= rest {
      assert s == prefix + rest[|more|..];
    }
  }

  lemma StartsWithPart(relative: Parts, part: string, more: string)
    requires IsRelative(relative) && '/' !in part
    ensures StartsWith(Posix(relative), part + "/" + more) <==>
      |relative| > 1 && relative[0] == part && StartsWith(Posix(relative[1..]), more)
  {
    RelativePosix(relative);
    StartsWithMeans(Posix(relative), part + "/" + more);
    if |relative| > 1 {
      StartsWithMeans(Posix(relative[1..]), more);
      PrefixMeansPart(relative[0], Posix(relative[1..]), part, more);
    } else {
      PrefixMeansPart(relative[0], "", part, more);
    }
  }

  /** The git check's prefix is the usability auditor's leading parts, less the directory itself. */
  lemma PrefixIsLeadingParts(item: Parts)
    requires IsRelative(item)
    ensures IsUnderFakeWorkspace(item) <==> IsFakeExample(item) && |item| > 2
  {
    hide Posix, StartsWith, IsRelative;
    ExamplesPrefix(item);
    if |item| > 1 {
      WorkspacePrefix(item[1..]);
      assert item[..2] == [item[0], item[1]];
    }
  }

  lemma ExamplesPrefix(item: Parts)
    requires IsRelative(item)
    ensures |item| > 1 ==> IsRelative(item[1..])
    ensures IsUnderFakeWorkspace(item) <==>
            |item| > 1 && item[0] == "examples" && StartsWith(Posix(item[1..]), "private-workspace/")
  {
    hide Posix, StartsWith;
    RelativePosix(item);
    StartsWithPart(item, "examples", "private-workspace/");
    assert "examples" + "/" + "private-workspace/" == "examples/private-workspace/";
  }

  lemma WorkspacePrefix(rest: Parts)
    requires IsRelative(rest)
    ensures StartsWith(Posix(rest), "private-workspace/") <==> |rest| > 1 && rest[0] == "private-workspace"
  {
    hide Posix;
    StartsWithPart(rest, "private-workspace", "");
    assert "private-workspace" + "/" + "" == "private-workspace/";
  }

  /** What the git check refuses: a name with a private suffix, wherever the file lies, and a private
      part in a path that does not lead below the fake workspace. */
  lemma UnsafeMeans(item: Parts)
    requires IsRelative(item)
    ensures IsUnsafe(item) <==>
      || (exists k :: 0 <= k <= |Name(item)| && Name(item)[k..] in {
            ".private.json", ".private.md", ".private.env", ".workspace-report.json", ".workspace-report.md",
            ".workspace-manifest.json"})
      || (!(|item| > 2 && item[0] == "examples" && item[1] == "private-workspace")
          && exists i :: 0 <= i < |item| && item[i] in {
               "private-workspace", ".local-workspace", "sandbox-workspace", "pilot-workspace"})
  {
    hide IsUnderFakeWorkspace, EndsWithAny, HasPrivatePart;
    PrefixIsLeadingParts(item);
    EndsWithAnyMeans(Name(item), PRIVATE_SUFFIXES);
    PrivatePartMeans(item);
    assert |item| >= 2 ==> item[..2] == [item[0], item[1]];
  }

  lemma EndsWithAnyMeans(name: string, endings: set<string>)
    ensures EndsWithAny(name, endings) <==> exists k :: 0 <= k <= |name| && name[k..] in endings
  {
    if ending :| ending in endings && EndsWith(name, ending) {
      assert name[|name| - |ending|..] == ending;
    }
    if k :| 0 <= k <= |name| && name[k..] in endings {
      assert EndsWith(name, name[k..]);
    }
  }

  lemma PrivatePartMeans(item: Parts)
    ensures HasPrivatePart(item) <==> exists i :: 0 <= i < |item| && item[i] in {
      "private-workspace", ".local-workspace", "sandbox-workspace", "pilot-workspace"}
  {
    if part :| part in item && IsPrivatePart(part) {
      var i :| 0 <= i < |item| && item[i] == part;
      assert item[i] in {"private-workspace", ".local-workspace", "sandbox-workspace", "pilot-workspace"};
    }
    if i :| 0 <= i < |item| && item[i] in {
        "private-workspace", ".local-workspace", "sandbox-workspace", "pilot-workspace"} {
      assert IsPrivatePart(item[i]);
    }
  }

  /** The fake workspace does not excuse a private suffix. */
  lemma PrivateSuffixIsUnsafe(item: Parts, stem: string)
    requires IsRelative(item) && Name(item) == stem + ".private.md"
    ensures IsUnsafe(item)
  {
    UnsafeMeans(item);
    assert Name(item)[|stem|..] == ".private.md";
  }

  lemma PosixEndsWithRelative(root: Parts, relative: Parts) returns (front: string)
    requires IsRelative(relative)
    ensures Posix(root + relative) == front + Posix(relative)
  {
    RelativePosix(relative);
    if root == [] {
      front := "";
      assert root + relative == relative;
    } else if root[0] == "/" {
      assert (root + relative)[1..] == root[1..] + relative;
      if |root| > 1 {
        JoinAppend(root[1..], relative, '/');
        front := "/" + Join(root[1..], '/') + "/";
      } else {
        assert root[1..] + relative == relative;
        front := "/";
      }
    } else {
      JoinAppend(root, relative, '/');
      front := Join(root, '/') + "/";
    }
  }

  lemma ContainedInTail(front: string, s: string, sub: string)
    requires Contains(s, sub)
    ensures Contains(front + s, sub)
  {
    var i :| 0 <= i <= |s| && OccursAt(sub, s, i);
    assert (front + s)[|front| + i..|front| + i + |sub|] == s[i..i + |sub|];
    assert OccursAt(sub, front + s, |front| + i);
  }

  /** Below any root: an "examples" part followed by a part that begins as the workspace's name. */
  lemma BeginsAsFakeWorkspace(root: Parts, relative: Parts)
    requires IsRelative(relative) && |relative| > 1 && relative[0] == "examples"
    requires StartsWith(Posix(relative[1..]), "private-workspace")
    ensures Exempt(root + relative)
  {
    StartsWithPart(relative, "examples", "private-workspace");
    assert "examples" + "/" + "private-workspace" == FAKE_WORKSPACE;
    var front := PosixEndsWithRelative(root, relative);
    ContainedInTail(front, Posix(relative), FAKE_WORKSPACE);
  }

  /** Leading parts imply the safety auditor's substring, below any root. */
  lemma LeadingPartsAreExempt(root: Parts, relative: Parts)
    requires IsRelative(relative) && IsFakeExample(relative)
    ensures Exempt(root + relative)
  {
    assert relative[0] == relative[..2][0] && relative[1] == relative[..2][1];
    RelativePosix(relative);
    RelativePosix(relative[1..]);
    assert StartsWith(Posix(relative[1..]), "private-workspace") by {
      assert Posix(relative[1..])[..|relative[1]|] == relative[1];
    }
    BeginsAsFakeWorkspace(root, relative);
  }

  /** The substring reaches further than the leading parts: into look-alike names. */
  lemma LookAlikeIsExempt(root: Parts, below: Parts)
    requires below == [] || IsRelative(below)
    ensures Exempt(root + (["examples", "private-workspaces"] + below))
    ensures !IsFakeExample(["examples", "private-workspaces"] + below)
  {
    var path := ["examples", "private-workspaces"] + below;
    assert path[1..] == ["private-workspaces"] + below;
    RelativePosix(path);
    RelativePosix(path[1..]);
    assert "private-workspaces"[..17] == "private-workspace";
    assert Posix(path[1..])[..18] == "private-workspaces";
    assert Posix(path[1..])[..17] == "private-workspaces"[..17];
    BeginsAsFakeWorkspace(root, path);
    assert path[..2][1] == "private-workspaces" && |"private-workspaces"| != |"private-workspace"|;
  }

  /** It also reaches across the root: below any root that ends in "examples" it exempts what the git
      check refuses. */
  lemma SubstringCrossesTheRoot(front: Parts, name: string)
    requires name != "" && '/' !in name
    ensures Exempt((front + ["examples"]) + ["private-workspace", name])
    ensures IsUnsafe(["private-workspace", name])
  {
    var item := ["private-workspace", name];
    LeadingPartsAreExempt(front, ["examples"] + item);
    assert front + (["examples"] + item) == (front + ["examples"]) + item;
    PrefixIsLeadingParts(item);
    assert item[0] in item && IsPrivatePart(item[0]);
  }

  /** A workflow file is settled by its own rule exactly when the run names it relative to the root,
      or when the root itself leads through a workflows directory: below an absolute root, as in the
      default run, that rule never applies. */
  lemma WorkflowRuleNeedsRelativePaths(root: Parts, relative: Parts, f: File, env: Environment)
    requires f.path == root + relative && |relative| >= 2 && relative[..2] == [".github", "workflows"]
    ensures Applies(GithubWorkflow, f, env)
       <==> root == [] || (|root| >= 2 && root[..2] == [".github", "workflows"])
    ensures root != [] && root[0] == "/" ==> !Applies(GithubWorkflow, f, env)
  {
    if root == [] {
      assert f.path == relative;
    } else if |root| == 1 {
      assert f.path[..2][1] == relative[..2][0] && |".github"| != |"workflows"|;
    } else {
      assert f.path[..2] == root[..2];
    }
    if root != [] && root[0] == "/" {
      assert f.path[..2][0] == "/" && |"/"| != |".github"|;
    }
  }
}
