/** What the cascade's rules mean, said of the parts, the name and the text of a path, and what that
    makes of a file: the reference for the path loop. */
module PathRules {
  import opened Strings
  import opened Paths
  import opened Sequences
  import opened CascadeTables
  import opened PathCascade
  import opened TableShapes
  import opened CoverageGaps

  predicate HasMarker(path: Parts, before: string, after: string) {
    Posix(path) == before + "examples/private-workspace" + after
  }

  /** The path names a listed part, ends in a listed ending, or is a listed name or suffix. */
  ghost predicate Fits(rule: Rule, path: Parts, tables: Tables) {
    || (exists k :: 0 <= k < |path| && tables.isPart(rule)(path[k]))
    || (exists stem: string, ending: string :: Name(path) == stem + ending && tables.isEnding(rule)(ending))
    || tables.isName(rule)(Name(path))
    || tables.isSuffix(rule)(LowerSuffix(path))
  }

  /** When the rule wants the file: the two first parts, the text of `mkdocs.yml`, or a listed string;
      the fake example workspace is out of reach of the two rules for private paths. */
  ghost predicate Wants(rule: Rule, f: File, env: Environment) {
    if rule == GithubWorkflow then |f.path| > 1 && f.path[0] == ".github" && f.path[1] == "workflows"
    else if rule == DocsConfigTracking then
      Name(f.path) == "mkdocs.yml"
      && match f.content case Text(text) => env.hostingConfig(text) case Undecodable => env.hostingConfig("")
    else
      && Fits(rule, f.path, env.tables)
      && (rule == PrivateWorkspaceOutput || rule == PrivateOutputPath ==>
           !exists before: string, after: string :: HasMarker(f.path, before, after))
  }

  lemma ExemptMeans(path: Parts)
    ensures Exempt(path) <==> exists before: string, after: string :: HasMarker(path, before, after)
  {
    if Exempt(path) {
      var before, after := ContainsMeans(Posix(path), "examples/private-workspace");
      assert HasMarker(path, before, after);
    } else {
      forall before: string, after: string
        ensures !HasMarker(path, before, after)
      {
        SplitContains(before, "examples/private-workspace", after);
      }
    }
  }

  lemma ListedEndingMeans(rule: Rule, path: Parts, tables: Tables)
    ensures HasListedEnding(rule, path, tables) <==>
            exists stem: string, ending: string :: Name(path) == stem + ending && tables.isEnding(rule)(ending)
  {
    hide Name;
    var name := Name(path);
    if HasListedEnding(rule, path, tables) {
      var k :| 0 <= k <= |name| && tables.isEnding(rule)(name[k..]);
      var stem, ending := name[..k], name[k..];
      assert name == stem + ending;
    } else {
      forall stem: string, ending: string | name == stem + ending
        ensures !tables.isEnding(rule)(ending)
      {
        assert name[|stem|..] == ending;
      }
    }
  }

  lemma ListedPartMeans(rule: Rule, path: Parts, tables: Tables)
    ensures HasListedPart(rule, path, tables) <==> exists k :: 0 <= k < |path| && tables.isPart(rule)(path[k])
  {
    if part :| part in path && tables.isPart(rule)(part) {
      var k :| 0 <= k < |path| && path[k] == part;
    }
  }

  lemma LooksLikeMeans(rule: Rule, path: Parts, tables: Tables)
    ensures LooksLike(rule, path, tables) <==> Fits(rule, path, tables)
  {
    hide Name, LowerSuffix, HasListedPart, HasListedEnding;
    ListedPartMeans(rule, path, tables);
    ListedEndingMeans(rule, path, tables);
  }

  lemma AppliesMeans(rule: Rule, f: File, env: Environment)
    ensures Applies(rule, f, env) <==> Wants(rule, f, env)
  {
    hide LooksLike, Fits, Exempt, HasMarker, Name;
    if rule == GithubWorkflow {
      WorkflowMeans(f.path);
    } else if rule != DocsConfigTracking {
      LooksLikeMeans(rule, f.path, env.tables);
      ExemptMeans(f.path);
    }
  }

  lemma WorkflowMeans(path: Parts)
    ensures (|path| >= 2 && path[..2] == [".github", "workflows"])
       <==> (|path| > 1 && path[0] == ".github" && path[1] == "workflows")
  {
    if |path| >= 2 {
      assert path[..2] == [path[0], path[1]];
    }
  }

  /** The path loop, file by file: its own file name and what is no file gives nothing; the earliest
      rule in the order of the source that wants the file gives one issue; without one, text that can
      be read goes to the text auditor, and the rest gives nothing. */
  lemma FileIssuesMean(f: File, env: Environment)
    ensures Name(f.path) == "audit_public_safety.py" || !f.isFile ==> FileIssues(f, env) == []
    ensures Name(f.path) != "audit_public_safety.py" && f.isFile ==>
              && (forall k :: 0 <= k < |CASCADE| && Wants(CASCADE[k], f, env)
                   && (forall j :: 0 <= j < k ==> !Wants(CASCADE[j], f, env))
                   ==> FileIssues(f, env) == [SafetyIssue(f.path, TrackedPath(CASCADE[k]))])
              && ((forall rule :: !Wants(rule, f, env)) ==>
                   FileIssues(f, env)
                   == match f.content
                      case Text(text) =>
                        if env.tables.isTextSuffix(LowerSuffix(f.path)) then env.auditText(f.path, text) else []
                      case Undecodable => [])
  {
    hide Wants, Applies, Name, LowerSuffix;
    forall rule
      ensures RuleTest(f, env)(rule) <==> Wants(rule, f, env)
    {
      AppliesMeans(rule, f, env);
    }
    FirstOfCascade(CASCADE, f, env);
  }

  lemma FirstOfCascade(rules: seq<Rule>, f: File, env: Environment)
    requires forall rule :: RuleTest(f, env)(rule) <==> Wants(rule, f, env)
    ensures (forall rule :: !Wants(rule, f, env)) ==> FirstWhere(rules, RuleTest(f, env)) == []
    ensures forall k :: 0 <= k < |rules| && Wants(rules[k], f, env)
              && (forall j :: 0 <= j < k ==> !Wants(rules[j], f, env))
              ==> FirstWhere(rules, RuleTest(f, env)) == [rules[k]]
  {
    hide Wants, RuleTest;
    FirstWhereIsFirst(rules, RuleTest(f, env));
  }

  // ----- The documentation configuration

  lemma DocsConfigName(root: Parts)
    ensures Name(root + ["mkdocs.yml"]) == "mkdocs.yml" && LowerSuffix(root + ["mkdocs.yml"]) == ".yml"
  {
    hide LowerSuffix, Name;
    NameMeans(root, "mkdocs.yml");
    LowerSuffixMeans(root + ["mkdocs.yml"], "mkdocs", "yml");
    assert Lower(".yml") == ".yml";
  }

  lemma NoEndingFitsDocsConfig(rule: Rule, stem: string, ending: string)
    requires "mkdocs.yml" == stem + ending
    ensures !IsEnding(rule)(ending)
  {
    hide IsEnding;
    assert ending != "" ==> ending[0] == "mkdocs.yml"[|stem|];
    if IsEnding(rule)(ending) {
      EndingsAreLong(rule, ending);
    }
  }

  lemma NothingListedFitsDocsConfig(root: Parts, rule: Rule, tables: Tables)
    requires IsQuietRoot(root) && tables == TABLES
    ensures !Fits(rule, root + ["mkdocs.yml"], tables)
  {
    hide IsName, IsSuffix, IsPart, IsEnding, Name, LowerSuffix;
    DocsConfigName(root);
    DocsConfigNameIsUnlisted(rule);
    DocsConfigPartIsUnlisted(rule);
    var path := root + ["mkdocs.yml"];
    forall k | 0 <= k < |path|
      ensures !IsPart(rule)(path[k])
    {
      assert k < |root| ==> path[k] in root;
    }
    forall stem: string, ending: string | "mkdocs.yml" == stem + ending
      ensures !IsEnding(rule)(ending)
    {
      NoEndingFitsDocsConfig(rule, stem, ending);
    }
  }

  lemma OnlyItsOwnRuleWantsDocsConfig(root: Parts, rule: Rule, f: File, env: Environment)
    requires IsQuietRoot(root) && f.path == root + ["mkdocs.yml"] && env.tables == TABLES
    requires Wants(rule, f, env)
    ensures rule == DocsConfigTracking
  {
    hide Fits, HasMarker, IsUnlisted, Name;
    NothingListedFitsDocsConfig(root, rule, env.tables);
    assert |"/"| != |".github"| && |"mkdocs.yml"| != |".github"|;
  }

  /** A file that no rule but the one at place `k` can want. */
  lemma OneRuleDecides(f: File, env: Environment, k: nat)
    requires k < |CASCADE| && Name(f.path) != "audit_public_safety.py" && f.isFile
    requires forall rule :: Wants(rule, f, env) ==> rule == CASCADE[k]
    requires forall j :: 0 <= j < k ==> CASCADE[j] != CASCADE[k]
    ensures Wants(CASCADE[k], f, env) ==> FileIssues(f, env) == [SafetyIssue(f.path, TrackedPath(CASCADE[k]))]
    ensures !Wants(CASCADE[k], f, env) ==>
              FileIssues(f, env)
              == match f.content
                 case Text(text) =>
                   if env.tables.isTextSuffix(LowerSuffix(f.path)) then env.auditText(f.path, text) else []
                 case Undecodable => []
  {
    hide Wants, FileIssues, Name, LowerSuffix;
    FileIssuesMean(f, env);
  }

  /** `mkdocs.yml` below a root of unlisted parts is judged by its text: hosting or tracking keys in
      it, or in nothing where it cannot be read, give the one issue; else it goes to the text scan. */
  lemma DocsConfigIsJudgedByItsText(root: Parts, f: File, env: Environment)
    requires IsQuietRoot(root) && f.path == root + ["mkdocs.yml"] && env.tables == TABLES && f.isFile
    ensures FileIssues(f, env)
         == match f.content
            case Text(text) =>
              if env.hostingConfig(text) then [SafetyIssue(f.path, TrackedPath(DocsConfigTracking))]
              else env.auditText(f.path, text)
            case Undecodable =>
              if env.hostingConfig("") then [SafetyIssue(f.path, TrackedPath(DocsConfigTracking))] else []
  {
    hide Fits, IsQuietRoot, FileIssues, Name, LowerSuffix, IsSuffix, IsName, IsPart, IsEnding, HasMarker;
    DocsConfigName(root);
    DocsConfigNameIsUnlisted(DocsConfigTracking);
    assert |"mkdocs.yml"| != |"audit_public_safety.py"|;
    forall rule | Wants(rule, f, env)
      ensures rule == DocsConfigTracking
    {
      OnlyItsOwnRuleWantsDocsConfig(root, rule, f, env);
    }
    DocsConfigPlace();
    OneRuleDecides(f, env, 36);
    hide IsTextSuffix;
  }

  lemma DocsConfigPlace()
    ensures |CASCADE| > 36 && CASCADE[36] == DocsConfigTracking
    ensures forall j :: 0 <= j < 36 ==> CASCADE[j] != DocsConfigTracking
  {
    forall j | 0 <= j < |CASCADE| && CASCADE[j] == DocsConfigTracking
      ensures j == 36
    {
    }
  }
}
