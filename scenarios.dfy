/**
 * The linter's tested cases, as properties of the model: option merging,
 * the status code of `error`, and one branch per check under the defaults.
 */
module Scenarios {
  import opened JsString
  import opened Lint

  /** Options that set only the skip list. */
  function SkipOnly(skip: seq<string>): UserOptions
  {
    NO_OPTIONS.(skip := Some(skip))
  }

  lemma DefaultPrefixesComeFirst()
    ensures MergeOptions(DEFAULT_OPTIONS, NO_OPTIONS).prefixes[0] == "feature"
  {
  }

  lemma CustomPrefixesReplaceDefaults()
    ensures MergeOptions(DEFAULT_OPTIONS, NO_OPTIONS.(prefixes := Some(["test1", "test2"]))).prefixes
         == ["test1", "test2"]
  {
  }

  /** A `separator` key (spelled with an `a`) leaves the `seperator` option at its default. */
  lemma SeparatorSpellingIgnored()
    ensures MergeOptions(DEFAULT_OPTIONS, NO_OPTIONS.(extra := map["separator" := Str(":")])).seperator == "/"
  {
  }

  /** `error` returns 1 whatever it is given. */
  method ErrorReturnsOne() returns (code: int)
    ensures code == 1
  {
    var lint := new BranchNameLint(NO_OPTIONS, "feature/valid-name");
    code := lint.Error("Branch \"%s\" must contain a separator \"%s\".", ["test1", "test2"]);
  }

  /** A branch with exactly one one-character separator splits into the text on either side. */
  lemma SplitOnce(pre: string, c: char, post: string)
    requires c !in pre && c !in post
    ensures Split(pre + [c] + post, [c]) == [pre, post]
  {
    var s := pre + [c] + post;
    IndexOfChar(pre, c, post);
    IndexOfMissingChar(post, c);
    assert s[..|pre|] == pre && s[|pre| + 1..] == post;
  }

  /** A branch with exactly two one-character separators splits into three pieces. */
  lemma SplitTwice(a: string, c: char, b: string, d: string)
    requires c !in a && c !in b && c !in d
    ensures Split(a + [c] + b + [c] + d, [c]) == [a, b, d]
  {
    var s := a + [c] + b + [c] + d;
    assert s == a + [c] + (b + [c] + d);
    IndexOfChar(a, c, b + [c] + d);
    SplitOnce(b, c, d);
    assert s[..|a|] == a && s[|a| + 1..] == b + [c] + d;
  }

  /** A branch without the separator character is a single piece. */
  lemma SplitNone(s: string, c: char)
    requires c !in s
    ensures Split(s, [c]) == [s]
  {
    IndexOfMissingChar(s, c);
  }

  /** A branch with one `/` that is not skipped, banned or disallowed reaches the prefix check. */
  lemma OneSlash(pre: string, post: string, opts: Options)
    requires '/' !in pre && '/' !in post
    requires opts.seperator == "/" && opts.skip == []
    requires pre + "/" + post !in opts.banned && pre + "/" + post !in opts.disallowed
    ensures Validate(pre + "/" + post, opts)
         == PrefixCheck(Lower(pre), if post == "" then None else Some(Lower(post)), opts)
  {
    assert pre + "/" + post == pre + ['/'] + post;
    SplitOnce(pre, '/', post);
    IndexOfChar(pre, '/', post);
  }

  /** Under the defaults, a branch with one `/` reaches the prefix check. */
  lemma DefaultsReachPrefix(pre: string, post: string)
    requires '/' !in pre && '/' !in post
    ensures Validate(pre + "/" + post, DEFAULT_OPTIONS)
         == PrefixCheck(Lower(pre), if post == "" then None else Some(Lower(post)), DEFAULT_OPTIONS)
  {
    var b := pre + "/" + post;
    assert b[|pre|] == '/';
    assert forall x :: x in DEFAULT_OPTIONS.banned + DEFAULT_OPTIONS.disallowed ==> '/' !in x;
    OneSlash(pre, post, DEFAULT_OPTIONS);
  }

  /** Every branch "feature/<name>" passes under the defaults. */
  lemma FeatureBranchesPass(name: string)
    requires '/' !in name
    ensures Validate("feature/" + name, DEFAULT_OPTIONS) == Outcome(Return(SUCCESS_CODE), [])
  {
    assert "feature/" + name == "feature" + "/" + name;
    DefaultsReachPrefix("feature", name);
    DefaultSuggestionsAreAllowed();
  }

  /** Under the defaults, the branch a suggestion names passes: "<suggested>/<name>" is accepted. */
  lemma FollowingSuggestionPasses(p: string, name: string)
    requires p in DEFAULT_OPTIONS.suggestions && '/' !in name
    ensures Validate(DEFAULT_OPTIONS.suggestions[p] + "/" + name, DEFAULT_OPTIONS) == Outcome(Return(SUCCESS_CODE), [])
  {
    var suggested := DEFAULT_OPTIONS.suggestions[p];
    DefaultSuggestionsAreAllowed();
    assert suggested in DEFAULT_OPTIONS.prefixes;
    DefaultsReachPrefix(suggested, name);
  }

  /** Every branch "blah/<name>" fails on its prefix, with no suggestion. */
  lemma UnknownPrefixFails(name: string)
    requires '/' !in name
    ensures Validate("blah/" + name, DEFAULT_OPTIONS)
         == Outcome(Return(ERROR_CODE), [Diagnostic("Branch prefix \"%s\" is not allowed.", ["blah"])])
  {
    var b := "blah/" + name;
    assert b == "blah" + "/" + name;
    assert b[0] == 'b' && b[1] == 'l';
    assert Lower("blah") == "blah";
    assert "blah" !in DEFAULT_OPTIONS.prefixes;
    assert "blah" !in DEFAULT_OPTIONS.suggestions by {
      assert "blah"[0] != "feat"[0];
    }
    PrefixWithoutSuggestion("blah", name, DEFAULT_OPTIONS);
  }

  /**
   * A branch "<pre>/<post>" that reaches the prefix check with a prefix that is
   * neither allowed nor has a suggestion gets the not-allowed diagnostic alone.
   */
  lemma PrefixWithoutSuggestion(pre: string, post: string, opts: Options)
    requires '/' !in pre && '/' !in post
    requires opts.seperator == "/" && opts.skip == []
    requires pre + "/" + post !in opts.banned && pre + "/" + post !in opts.disallowed
    requires Lower(pre) !in opts.prefixes && Suggestion(opts.suggestions, Lower(pre)).None?
    ensures Validate(pre + "/" + post, opts)
         == Outcome(Return(ERROR_CODE), [Diagnostic(opts.msgPrefixNotAllowed, [Lower(pre)])])
  {
    OneSlash(pre, post, opts);
  }

  lemma MissingSeparatorFails()
    ensures Validate("feature-valid-name", DEFAULT_OPTIONS)
         == Outcome(Return(ERROR_CODE),
                    [Diagnostic("Branch \"%s\" must contain a seperator \"%s\".", ["feature-valid-name", "/"])])
  {
    SplitNone("feature-valid-name", '/');
    IndexOfMissingChar("feature-valid-name", '/');
  }

  lemma DisallowedFails()
    ensures Validate("master", DEFAULT_OPTIONS)
         == Outcome(Return(ERROR_CODE), [Diagnostic("Pushing to \"%s\" is not allowed, use git-flow.", ["master"])])
  {
    SplitNone("master", '/');
  }

  lemma BannedFails()
    ensures Validate("wip", DEFAULT_OPTIONS)
         == Outcome(Return(ERROR_CODE), [Diagnostic("Branches with the name \"%s\" are not allowed.", ["wip"])])
  {
    SplitNone("wip", '/');
  }

  /** A skipped name passes even though it is also disallowed. */
  lemma SkippedDevelopPasses()
    ensures Validate("develop", MergeOptions(DEFAULT_OPTIONS, SkipOnly(["develop"])))
         == Outcome(Return(SUCCESS_CODE), [])
  {
    SplitNone("develop", '/');
    assert OccursAt("develop", Join(["develop"], ","), 0);
  }

  /**
   * With two names in the skip list, a branch equal to one of them is not
   * skipped: the branch must contain "develop,master" itself.
   */
  lemma SkipListIsNotMembership()
    ensures "develop" in MergeOptions(DEFAULT_OPTIONS, SkipOnly(["develop", "master"])).skip
    ensures Validate("develop", MergeOptions(DEFAULT_OPTIONS, SkipOnly(["develop", "master"])))
         == Outcome(Return(ERROR_CODE), [Diagnostic("Pushing to \"%s\" is not allowed, use git-flow.", ["develop"])])
  {
    var opts := MergeOptions(DEFAULT_OPTIONS, SkipOnly(["develop", "master"]));
    assert opts.skip == ["develop", "master"];
    SkipIsNotMembership("develop", opts);
    DisallowedSecond("develop", opts);
  }

  /**
   * A known misspelt prefix gets the not-allowed diagnostic and then a
   * suggestion that keeps the lower-cased name: "feat/<name>" is told to try
   * "feature/<name>".
   */
  lemma FeatSuggestsFeature(name: string)
    requires '/' !in name && name != ""
    ensures Validate("feat/" + name, DEFAULT_OPTIONS)
         == Outcome(Return(ERROR_CODE), [
              Diagnostic("Branch prefix \"%s\" is not allowed.", ["feat"]),
              Diagnostic("Instead of \"%s\" try \"%s\".", ["feat/" + Lower(name), "feature/" + Lower(name)])])
  {
    var b := "feat/" + name;
    assert b == "feat" + "/" + name;
    assert b[0] == 'f';
    FeatIsSuggested();
    SuggestionAfterPrefix("feat", name, DEFAULT_OPTIONS, "feature");
    assert "feat" + "/" + Lower(name) == "feat/" + Lower(name);
    assert "feature" + "/" + Lower(name) == "feature/" + Lower(name);
  }

  /** Under the defaults, `feat` is not an allowed prefix and is told to become `feature`. */
  lemma FeatIsSuggested()
    ensures Lower("feat") == "feat" && Lower("Feat") == "feat"
    ensures "feat" !in DEFAULT_OPTIONS.prefixes
    ensures Suggestion(DEFAULT_OPTIONS.suggestions, "feat") == Some("feature")
  {
    assert Lower("Feat")[0] == 'f';
  }

  /**
   * A branch "<pre>/<post>" that reaches the prefix check with a prefix that is
   * not allowed but has a suggestion gets both diagnostics.
   */
  lemma SuggestionAfterPrefix(pre: string, post: string, opts: Options, suggested: string)
    requires '/' !in pre && '/' !in post
    requires opts.seperator == "/" && opts.skip == []
    requires pre + "/" + post !in opts.banned && pre + "/" + post !in opts.disallowed
    requires Lower(pre) !in opts.prefixes && Suggestion(opts.suggestions, Lower(pre)) == Some(suggested)
    ensures Validate(pre + "/" + post, opts)
         == Outcome(Return(ERROR_CODE), [
              Diagnostic(opts.msgPrefixNotAllowed, [Lower(pre)]),
              Diagnostic(opts.msgPrefixSuggestion, [Lower(pre) + "/" + Lower(post), suggested + "/" + Lower(post)])])
  {
    OneSlash(pre, post, opts);
  }

  /** A branch with two `/` that is not skipped, banned or disallowed reaches the prefix check. */
  lemma TwoSlashes(a: string, b: string, d: string, opts: Options)
    requires '/' !in a && '/' !in b && '/' !in d
    requires opts.seperator == "/" && opts.skip == []
    requires a + "/" + b + "/" + d !in opts.banned && a + "/" + b + "/" + d !in opts.disallowed
    ensures Validate(a + "/" + b + "/" + d, opts)
         == PrefixCheck(Lower(a), if b == "" then None else Some(Lower(b)), opts)
  {
    var s := a + "/" + b + "/" + d;
    assert s == a + ['/'] + (b + ['/'] + d);
    assert s == a + ['/'] + b + ['/'] + d;
    SplitTwice(a, '/', b, d);
    IndexOfChar(a, '/', b + ['/'] + d);
    assert PrefixOf(s, "/") == Lower(a);
  }

  /**
   * The suggestion keeps only the second segment, lower-cased: whatever
   * follows a second separator is dropped.
   */
  lemma SuggestionKeepsSecondSegmentOnly(name: string, rest: string)
    requires '/' !in name && '/' !in rest && name != ""
    ensures Validate("Feat/" + name + "/" + rest, DEFAULT_OPTIONS).diagnostics
         == [Diagnostic("Branch prefix \"%s\" is not allowed.", ["feat"]),
             Diagnostic("Instead of \"%s\" try \"%s\".", ["feat/" + Lower(name), "feature/" + Lower(name)])]
  {
    var b := "Feat/" + name + "/" + rest;
    assert b == "Feat" + "/" + name + "/" + rest;
    assert b[0] == 'F';
    FeatIsSuggested();
    TwoSlashSuggestion("Feat", name, rest, DEFAULT_OPTIONS, "feature");
    assert "feat" + "/" + Lower(name) == "feat/" + Lower(name);
    assert "feature" + "/" + Lower(name) == "feature/" + Lower(name);
  }

  /**
   * A branch "<a>/<b>/<d>" whose prefix is not allowed but has a suggestion is
   * told to try "<suggested>/<b>": the third piece never enters the diagnostics.
   */
  lemma TwoSlashSuggestion(a: string, b: string, d: string, opts: Options, suggested: string)
    requires '/' !in a && '/' !in b && '/' !in d
    requires opts.seperator == "/" && opts.skip == []
    requires a + "/" + b + "/" + d !in opts.banned && a + "/" + b + "/" + d !in opts.disallowed
    requires Lower(a) !in opts.prefixes && Suggestion(opts.suggestions, Lower(a)) == Some(suggested)
    ensures Validate(a + "/" + b + "/" + d, opts).diagnostics
         == [Diagnostic(opts.msgPrefixNotAllowed, [Lower(a)]),
             Diagnostic(opts.msgPrefixSuggestion, [Lower(a) + "/" + Lower(b), suggested + "/" + Lower(b)])]
  {
    TwoSlashes(a, b, d, opts);
  }

  /**
   * An empty second segment is `null`, which `join` renders as nothing: a
   * branch "<prefix>/" with a suggestion is told to try "<suggestion>/".
   */
  lemma TrailingSeparatorSuggestion(pre: string, opts: Options, suggested: string)
    requires '/' !in pre
    requires opts.seperator == "/" && opts.skip == []
    requires pre + "/" !in opts.banned && pre + "/" !in opts.disallowed
    requires Lower(pre) !in opts.prefixes && Suggestion(opts.suggestions, Lower(pre)) == Some(suggested)
    ensures Validate(pre + "/", opts).diagnostics
         == [Diagnostic(opts.msgPrefixNotAllowed, [Lower(pre)]),
             Diagnostic(opts.msgPrefixSuggestion, [Lower(pre) + "/", suggested + "/"])]
  {
    assert pre + "/" == pre + "/" + "";
    SuggestionAfterPrefix(pre, "", opts, suggested);
    assert Lower("") == "";
    assert Lower(pre) + "/" + "" == Lower(pre) + "/";
    assert suggested + "/" + "" == suggested + "/";
  }

  /** Configuring `separator: ":"` does not change the separator the linter requires. */
  lemma SeparatorSpellingStillRequiresSlash()
    ensures Validate("feature:x", MergeOptions(DEFAULT_OPTIONS, NO_OPTIONS.(extra := map["separator" := Str(":")])))
         == Outcome(Return(ERROR_CODE),
                    [Diagnostic("Branch \"%s\" must contain a seperator \"%s\".", ["feature:x", "/"])])
  {
    SplitNone("feature:x", '/');
    IndexOfMissingChar("feature:x", '/');
  }
}
