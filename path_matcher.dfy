/**
 * PathMatcher: decides whether a request path is covered by a security rule,
 * from included paths (plain prefixes) and excluded exact paths, branches and
 * anchored regular expressions.
 */
module PathMatching {
  import opened Wrappers
  import opened JavaStrings

  /**
   * Whether a regular expression matches a whole path
   * (`Pattern.compile(regex).matcher(path).matches()`). Java's regex engine is
   * not modelled: every property below holds for any such relation.
   */
  type FullMatch = (string, string) -> bool

  /** The four rule collections of a matcher; they are sets, so adding a rule twice changes nothing. */
  datatype PathRules = PathRules(
    includedPaths: set<string>,
    excludedPaths: set<string>,
    excludedBranches: set<string>,
    excludedPatterns: set<string>)

  const NoRules := PathRules({}, {}, {}, {})

  /** A branch covers its own path and everything below it, on a `/` boundary. */
  predicate InBranch(path: string, branch: string) {
    path == branch || StartsWith(path, branch + "/")
  }

  /** An included path admits every path that starts with it, with no `/` boundary. */
  predicate IsIncluded(rules: PathRules, path: string) {
    exists p :: p in rules.includedPaths && StartsWith(path, p)
  }

  predicate IsExcluded(rules: PathRules, path: string, fullMatch: FullMatch) {
    || path in rules.excludedPaths
    || (exists b :: b in rules.excludedBranches && InBranch(path, b))
    || (exists r :: r in rules.excludedPatterns && fullMatch(r, path))
  }

  /**
   * `matches`: with included paths configured the path must start with one of
   * them; then no exclusion may apply to it.
   */
  predicate Decide(rules: PathRules, path: string, fullMatch: FullMatch) {
    (rules.includedPaths == {} || IsIncluded(rules, path)) && !IsExcluded(rules, path, fullMatch)
  }

  /** The registration check on a regular expression: it must start with `^` and end with `$`. */
  predicate IsAnchored(regex: string) {
    StartsWith(regex, "^") && EndsWith(regex, "$")
  }

  function AnchorMessage(regex: string): string {
    "Your regular expression: '" + regex + "' must start with a ^ and end with a $ to define a full path matching"
  }

  // ---------------------------------------------------------------------------
  // Properties of the decision
  // ---------------------------------------------------------------------------

  /** Without rules every path matches. */
  lemma NoRulesMatchEverything(path: string, fullMatch: FullMatch)
    ensures Decide(NoRules, path, fullMatch)
  {
  }

  /** An excluded path rejects exactly that path. */
  lemma ExcludedPathIsExact(excluded: string, path: string, fullMatch: FullMatch)
    ensures Decide(NoRules.(excludedPaths := {excluded}), path, fullMatch) <==> path != excluded
  {
  }

  /** An excluded branch rejects the branch itself and every path under `branch + "/"`. */
  lemma ExcludedBranchCoversSubpaths(branch: string, rest: string, fullMatch: FullMatch)
    ensures !Decide(NoRules.(excludedBranches := {branch}), branch, fullMatch)
    ensures !Decide(NoRules.(excludedBranches := {branch}), branch + "/" + rest, fullMatch)
  {
    var path := branch + "/" + rest;
    assert path[..|branch + "/"|] == branch + "/";
    assert InBranch(path, branch);
  }

  /** A branch stops at a `/` boundary: `/foo` does not exclude `/foobar`. */
  lemma ExcludedBranchIsSlashBounded(branch: string, rest: string, fullMatch: FullMatch)
    requires rest != [] && rest[0] != '/'
    ensures Decide(NoRules.(excludedBranches := {branch}), branch + rest, fullMatch)
  {
    var path := branch + rest;
    assert path[|branch|] == rest[0];
  }

  /** An included path is a plain prefix: `/protect` admits `/protect` followed by anything. */
  lemma IncludedPathIsPlainPrefix(included: string, rest: string, fullMatch: FullMatch)
    ensures Decide(NoRules.(includedPaths := {included}), included + rest, fullMatch)
  {
    var path := included + rest;
    assert path[..|included|] == included;
  }

  /** With included paths, a path matches (absent exclusions) iff it starts with one of them. */
  lemma IncludedPathsGate(included: set<string>, path: string, fullMatch: FullMatch)
    requires included != {}
    ensures Decide(NoRules.(includedPaths := included), path, fullMatch) <==>
            exists p :: p in included && StartsWith(path, p)
  {
  }

  /** Two included paths: a path matches iff it starts with either. */
  lemma IncludedPairGate(a: string, b: string, path: string, fullMatch: FullMatch)
    ensures Decide(NoRules.(includedPaths := {a, b}), path, fullMatch) <==> StartsWith(path, a) || StartsWith(path, b)
  {
    IncludedPathsGate({a, b}, path, fullMatch);
  }

  /** Exclusions win over inclusions. */
  lemma ExclusionWins(rules: PathRules, path: string, fullMatch: FullMatch)
    requires IsExcluded(rules, path, fullMatch)
    ensures !Decide(rules, path, fullMatch)
  {
  }

  /** A path fully matched by an excluded regular expression is rejected. */
  lemma ExcludedPatternRejects(rules: PathRules, regex: string, path: string, fullMatch: FullMatch)
    requires regex in rules.excludedPatterns && fullMatch(regex, path)
    ensures !Decide(rules, path, fullMatch)
  {
    assert IsExcluded(rules, path, fullMatch);
  }

  /** Adding an exclusion of any kind never admits a path that was rejected. */
  lemma MoreExclusionsNarrow(rules: PathRules, path: string, exact: string, branch: string, regex: string,
                             fullMatch: FullMatch)
    ensures Decide(rules.(excludedPaths := rules.excludedPaths + {exact},
                          excludedBranches := rules.excludedBranches + {branch},
                          excludedPatterns := rules.excludedPatterns + {regex}), path, fullMatch)
            ==> Decide(rules, path, fullMatch)
  {
    var wider := rules.(excludedPaths := rules.excludedPaths + {exact},
                        excludedBranches := rules.excludedBranches + {branch},
                        excludedPatterns := rules.excludedPatterns + {regex});
    if IsExcluded(rules, path, fullMatch) {
      if exists b :: b in rules.excludedBranches && InBranch(path, b) {
        var b :| b in rules.excludedBranches && InBranch(path, b);
        assert b in wider.excludedBranches;
      }
      if exists r :: r in rules.excludedPatterns && fullMatch(r, path) {
        var r :| r in rules.excludedPatterns && fullMatch(r, path);
        assert r in wider.excludedPatterns;
      }
    }
  }

  /** Once included paths are configured, adding another one never rejects a path that matched. */
  lemma MoreIncludedPathsWiden(rules: PathRules, path: string, extra: string, fullMatch: FullMatch)
    requires rules.includedPaths != {}
    ensures Decide(rules, path, fullMatch) ==>
            Decide(rules.(includedPaths := rules.includedPaths + {extra}), path, fullMatch)
  {
    if Decide(rules, path, fullMatch) {
      var p :| p in rules.includedPaths && StartsWith(path, p);
      assert p in rules.includedPaths + {extra};
    }
  }

  // ---------------------------------------------------------------------------
  // The matcher object and its builder methods
  // ---------------------------------------------------------------------------

  class PathMatcher {
    var includedPaths: set<string>
    var excludedPaths: set<string>
    var excludedBranches: set<string>
    var excludedPatterns: set<string>

    function Rules(): PathRules
      reads this
    {
      PathRules(includedPaths, excludedPaths, excludedBranches, excludedPatterns)
    }

    constructor ()
      ensures Rules() == NoRules
    {
      includedPaths, excludedPaths, excludedBranches, excludedPatterns := {}, {}, {}, {};
    }

    /** `matches` on the request path. */
    predicate Matches(path: string, fullMatch: FullMatch)
      reads this
    {
      Decide(Rules(), path, fullMatch)
    }

    /** `excludePath`: an exact path to exclude. */
    method ExcludePath(path: string)
      modifies this
      ensures Rules() == old(Rules()).(excludedPaths := old(excludedPaths) + {path})
    {
      excludedPaths := excludedPaths + {path};
    }

    /** `excludeBranch`: a path excluded together with everything below it. */
    method ExcludeBranch(path: string)
      modifies this
      ensures Rules() == old(Rules()).(excludedBranches := old(excludedBranches) + {path})
    {
      excludedBranches := excludedBranches + {path};
    }

    /** `excludeRegex`: refused, with nothing changed, unless anchored by `^` and `$`. */
    method ExcludeRegex(regex: string) returns (outcome: Outcome)
      modifies this
      ensures IsAnchored(regex) ==>
        outcome == Pass && Rules() == old(Rules()).(excludedPatterns := old(excludedPatterns) + {regex})
      ensures !IsAnchored(regex) ==>
        outcome == Fail(TechnicalError(AnchorMessage(regex))) && Rules() == old(Rules())
    {
      if !IsAnchored(regex) {
        return Fail(TechnicalError(AnchorMessage(regex)));
      }
      excludedPatterns := excludedPatterns + {regex};
      return Pass;
    }

    /** `includePath`: a prefix a path must start with. */
    method IncludePath(path: string)
      modifies this
      ensures Rules() == old(Rules()).(includedPaths := old(includedPaths) + {path})
    {
      includedPaths := includedPaths + {path};
    }

    /** `includePaths`: `includePath` for each argument in turn. */
    method IncludePaths(paths: seq<string>)
      modifies this
      ensures Rules() == old(Rules()).(includedPaths := old(includedPaths) + set p | p in paths)
    {
      var i := 0;
      while i < |paths|
        invariant 0 <= i <= |paths|
        invariant Rules() == old(Rules()).(includedPaths := old(includedPaths) + set p | p in paths[..i])
      {
        IncludePath(paths[i]);
        assert paths[..i + 1] == paths[..i] + [paths[i]];
        i := i + 1;
      }
      assert paths[..|paths|] == paths;
    }

    /** `setExcludedPaths`: the excluded exact paths are replaced. */
    method SetExcludedPaths(paths: set<string>)
      modifies this
      ensures Rules() == old(Rules()).(excludedPaths := paths)
    {
      excludedPaths := paths;
    }

    /**
     * `setExcludedPatterns`: the excluded patterns are cleared and each given one
     * registered in turn; the first unanchored one stops the registration, which
     * leaves the patterns registered before it.
     */
    method SetExcludedPatterns(patterns: set<string>) returns (outcome: Outcome)
      modifies this
      ensures includedPaths == old(includedPaths) && excludedPaths == old(excludedPaths)
      ensures excludedBranches == old(excludedBranches)
      ensures outcome == Pass <==> forall r :: r in patterns ==> IsAnchored(r)
      ensures outcome == Pass ==> excludedPatterns == patterns
      ensures outcome.Fail? ==>
        exists r :: r in patterns && !IsAnchored(r) && outcome == Fail(TechnicalError(AnchorMessage(r)))
      ensures excludedPatterns <= patterns
      ensures forall r :: r in excludedPatterns ==> IsAnchored(r)
    {
      excludedPatterns := {};
      var rest := patterns;
      while rest != {}
        invariant rest <= patterns
        invariant excludedPatterns == patterns - rest
        invariant forall r :: r in excludedPatterns ==> IsAnchored(r)
        invariant includedPaths == old(includedPaths) && excludedPaths == old(excludedPaths)
        invariant excludedBranches == old(excludedBranches)
        decreases |rest|
      {
        var regex :| regex in rest;
        outcome := ExcludeRegex(regex);
        if outcome.Fail? {
          return;
        }
        rest := rest - {regex};
      }
      outcome := Pass;
    }
  }
}
