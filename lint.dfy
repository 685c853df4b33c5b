/**
 * The `BranchNameLint` rule engine: the overlay of caller options on the
 * built-in defaults, the validation cascade (skip, banned, disallowed,
 * separator present, prefix allowed) and the diagnostics it writes.
 */
module Lint {
  import opened JsString

  /** The status codes the linter returns. */
  const ERROR_CODE: int := 1
  const SUCCESS_CODE: int := 0

  datatype Option<T> = None | Some(value: T) {
    function GetOr(default: T): T
    {
      if Some? then value else default
    }
  }

  /** A value held under an option key that the linter never reads. */
  datatype Value = Str(text: string) | Strs(items: seq<string>) | Flag(on: bool)

  /**
   * The merged configuration record. The separator key is spelled `seperator`,
   * as the linter spells it; `extra` holds every other key a caller supplied.
   */
  datatype Options = Options(
    prefixes: seq<string>,
    suggestions: map<string, string>,
    banned: seq<string>,
    skip: seq<string>,
    disallowed: seq<string>,
    seperator: string,
    msgBranchBanned: string,
    msgBranchDisallowed: string,
    msgPrefixNotAllowed: string,
    msgPrefixSuggestion: string,
    msgSeperatorRequired: string,
    extra: map<string, Value>)

  /** The options a caller passes to the constructor; `None` is a key left out. */
  datatype UserOptions = UserOptions(
    prefixes: Option<seq<string>>,
    suggestions: Option<map<string, string>>,
    banned: Option<seq<string>>,
    skip: Option<seq<string>>,
    disallowed: Option<seq<string>>,
    seperator: Option<string>,
    msgBranchBanned: Option<string>,
    msgBranchDisallowed: Option<string>,
    msgPrefixNotAllowed: Option<string>,
    msgPrefixSuggestion: Option<string>,
    msgSeperatorRequired: Option<string>,
    extra: map<string, Value>)

  /** The option keys the linter reads, as it spells them. */
  const KNOWN_KEYS: set<string> := {
    "prefixes", "suggestions", "banned", "skip", "disallowed", "seperator",
    "msgBranchBanned", "msgBranchDisallowed", "msgPrefixNotAllowed",
    "msgPrefixSuggestion", "msgSeperatorRequired"}

  /**
   * A caller's options as one JavaScript object: a known key lives in its own
   * field, never in `extra`.
   */
  predicate WellFormed(user: UserOptions)
  {
    user.extra.Keys !! KNOWN_KEYS
  }

  /** `new BranchNameLint()`: no options at all. */
  const NO_OPTIONS: UserOptions :=
    UserOptions(None, None, None, None, None, None, None, None, None, None, None, map[])

  const DEFAULT_OPTIONS: Options := Options(
    ["feature", "hotfix", "release"],
    map["features" := "feature", "feat" := "feature", "fix" := "hotfix", "releases" := "release"],
    ["wip"],
    [],
    ["master", "develop", "staging"],
    "/",
    "Branches with the name \"%s\" are not allowed.",
    "Pushing to \"%s\" is not allowed, use git-flow.",
    "Branch prefix \"%s\" is not allowed.",
    "Instead of \"%s\" try \"%s\".",
    "Branch \"%s\" must contain a seperator \"%s\".",
    map[])

  /**
   * `Object.assign(defaults, user)`: a shallow overlay. Every key the caller
   * supplies replaces the default value whole; every other key keeps its default.
   */
  function MergeOptions(defaults: Options, user: UserOptions): (r: Options)
    requires WellFormed(user)
    ensures user.prefixes.Some? ==> r.prefixes == user.prefixes.value
    ensures user.prefixes.None? ==> r.prefixes == defaults.prefixes
    ensures user.suggestions.Some? ==> r.suggestions == user.suggestions.value
    ensures user.suggestions.None? ==> r.suggestions == defaults.suggestions
    ensures user.banned.Some? ==> r.banned == user.banned.value
    ensures user.banned.None? ==> r.banned == defaults.banned
    ensures user.skip.Some? ==> r.skip == user.skip.value
    ensures user.skip.None? ==> r.skip == defaults.skip
    ensures user.disallowed.Some? ==> r.disallowed == user.disallowed.value
    ensures user.disallowed.None? ==> r.disallowed == defaults.disallowed
    ensures user.seperator.Some? ==> r.seperator == user.seperator.value
    ensures user.seperator.None? ==> r.seperator == defaults.seperator
    ensures user.msgBranchBanned.Some? ==> r.msgBranchBanned == user.msgBranchBanned.value
    ensures user.msgBranchBanned.None? ==> r.msgBranchBanned == defaults.msgBranchBanned
    ensures user.msgBranchDisallowed.Some? ==> r.msgBranchDisallowed == user.msgBranchDisallowed.value
    ensures user.msgBranchDisallowed.None? ==> r.msgBranchDisallowed == defaults.msgBranchDisallowed
    ensures user.msgPrefixNotAllowed.Some? ==> r.msgPrefixNotAllowed == user.msgPrefixNotAllowed.value
    ensures user.msgPrefixNotAllowed.None? ==> r.msgPrefixNotAllowed == defaults.msgPrefixNotAllowed
    ensures user.msgPrefixSuggestion.Some? ==> r.msgPrefixSuggestion == user.msgPrefixSuggestion.value
    ensures user.msgPrefixSuggestion.None? ==> r.msgPrefixSuggestion == defaults.msgPrefixSuggestion
    ensures user.msgSeperatorRequired.Some? ==> r.msgSeperatorRequired == user.msgSeperatorRequired.value
    ensures user.msgSeperatorRequired.None? ==> r.msgSeperatorRequired == defaults.msgSeperatorRequired
    ensures r.extra.Keys == defaults.extra.Keys + user.extra.Keys
    ensures forall k :: k in user.extra ==> r.extra[k] == user.extra[k]
    ensures forall k :: k in defaults.extra && k !in user.extra ==> r.extra[k] == defaults.extra[k]
  {
    Options(
      user.prefixes.GetOr(defaults.prefixes),
      user.suggestions.GetOr(defaults.suggestions),
      user.banned.GetOr(defaults.banned),
      user.skip.GetOr(defaults.skip),
      user.disallowed.GetOr(defaults.disallowed),
      user.seperator.GetOr(defaults.seperator),
      user.msgBranchBanned.GetOr(defaults.msgBranchBanned),
      user.msgBranchDisallowed.GetOr(defaults.msgBranchDisallowed),
      user.msgPrefixNotAllowed.GetOr(defaults.msgPrefixNotAllowed),
      user.msgPrefixSuggestion.GetOr(defaults.msgPrefixSuggestion),
      user.msgSeperatorRequired.GetOr(defaults.msgSeperatorRequired),
      defaults.extra + user.extra)
  }

  /** Without options the merged record is the defaults. */
  lemma MergeNothing(defaults: Options)
    ensures MergeOptions(defaults, NO_OPTIONS) == defaults
  {
  }

  /** Applying the same options a second time changes nothing. */
  lemma MergeIdempotent(defaults: Options, user: UserOptions)
    requires WellFormed(user)
    ensures MergeOptions(MergeOptions(defaults, user), user) == MergeOptions(defaults, user)
  {
  }

  /**
   * The built-in suggestions all point from a prefix that is not allowed to
   * one that is, and the allowed prefixes are already lower case.
   */
  lemma DefaultSuggestionsAreAllowed()
    ensures forall p :: p in DEFAULT_OPTIONS.suggestions ==>
      && p !in DEFAULT_OPTIONS.prefixes
      && Suggestion(DEFAULT_OPTIONS.suggestions, p).Some?
      && Suggestion(DEFAULT_OPTIONS.suggestions, p).value in DEFAULT_OPTIONS.prefixes
    ensures forall p :: p in DEFAULT_OPTIONS.prefixes ==> Lower(p) == p
  {
    forall p | p in DEFAULT_OPTIONS.prefixes
      ensures Lower(p) == p
    {
      LowerOfLowercase(p);
    }
  }

  /** A call to `error(template, args...)`: one line on the error stream. */
  datatype Diagnostic = Diagnostic(template: string, args: seq<string>)

  /** How `doValidation` ends: it returns a status code or throws a `TypeError`. */
  datatype Completion = Return(code: int) | Throw

  /** How a validation ends and what it wrote to the error stream, in order. */
  datatype Outcome = Outcome(completion: Completion, diagnostics: seq<Diagnostic>)

  /** `parts[0].toLowerCase()` where `parts = branch.split(sep)`. */
  function PrefixOf(branch: string, sep: string): (r: string)
    requires !(branch == "" && sep == "")
    ensures |r| <= |branch| && r == Lower(branch[..|r|])
    ensures sep == "" ==> |r| == 1
    ensures sep != "" ==> IsFirstSegment(branch, sep, branch[..|r|])
  {
    var head := Split(branch, sep)[0];
    assert head == branch[..|head|] && (sep != "" ==> IsFirstSegment(branch, sep, head)) by {
      if sep != "" {
        SplitHead(branch, sep);
      }
    }
    Lower(head)
  }

  /** `parts[1].toLowerCase()` when `parts[1]` is truthy (present and non-empty), else `null`. */
  function NameOf(branch: string, sep: string): (r: Option<string>)
    ensures r.Some? ==> r.value != "" && Contains(branch, sep)
    ensures sep != "" && !Contains(branch, sep) ==> r.None?
    ensures sep == "" ==> r == if |branch| >= 2 then Some(Lower(branch[1..2])) else None
  {
    var parts := Split(branch, sep);
    assert sep == "" && |branch| >= 2 ==> parts[1] == branch[1..2];
    if |parts| > 1 && parts[1] != "" then
      ContainsEmpty(branch);
      Some(Lower(parts[1]))
    else None
  }

  /**
   * The name is the lower-cased text between the first and the second
   * separator (or the end of the branch), and `null` when that text is empty.
   */
  lemma NameIsSecondSegment(branch: string, sep: string, head: string, second: string)
    requires sep != ""
    requires IsFirstSegment(branch, sep, head) && OccursAt(branch, sep, |head|)
    requires IsFirstSegment(branch[|head| + |sep|..], sep, second)
    ensures NameOf(branch, sep) == if second == "" then None else Some(Lower(second))
  {
    SecondSegment(branch, sep, head, second);
  }

  /** `[head, name].join(sep)`: `join` renders `null` as the empty string. */
  function JoinName(head: string, name: Option<string>, sep: string): (r: string)
    ensures name.Some? ==> r == head + sep + name.value
    ensures name.None? ==> r == head + sep
  {
    JoinPair(head, name.GetOr(""), sep);
    Join([head, name.GetOr("")], sep)
  }

  /** `suggestions[prefix]` when it is truthy: a key of the record with a non-empty value. */
  function Suggestion(suggestions: map<string, string>, prefix: string): (r: Option<string>)
    ensures r.Some? ==> prefix in suggestions && r.value == suggestions[prefix] && r.value != ""
    ensures r.None? ==> prefix !in suggestions || suggestions[prefix] == ""
  {
    if prefix in suggestions && suggestions[prefix] != "" then Some(suggestions[prefix]) else None
  }

  /**
   * The skip test: `branch.indexOf(skip)` converts the skip array to its
   * comma-joined string, so a branch is skipped when it contains that string.
   */
  ghost predicate Skipped(branch: string, opts: Options)
    ensures Skipped(branch, opts) ==> |opts.skip| > 0 && |Join(opts.skip, ",")| <= |branch|
  {
    |opts.skip| > 0 && Contains(branch, Join(opts.skip, ","))
  }

  /**
   * Skipping is not a membership test: with two or more names in the skip
   * list, a branch equal to one of them is too short to contain the joined list.
   */
  lemma SkipIsNotMembership(branch: string, opts: Options)
    requires |opts.skip| >= 2 && branch in opts.skip
    ensures !Skipped(branch, opts)
  {
    var k :| 0 <= k < |opts.skip| && opts.skip[k] == branch;
    JoinLength(opts.skip, ",", k);
  }

  /** The branch and separator for which `split` returns no parts and `parts[0].toLowerCase()` throws. */
  predicate Throws(branch: string, opts: Options)
  {
    branch == "" && opts.seperator == ""
  }

  /**
   * `doValidation`: the checks in their fixed order, each failing check
   * ending the run. Only the prefix check may write two diagnostics.
   */
  function Validate(branch: string, opts: Options): (r: Outcome)
    ensures r.completion == Throw <==> Throws(branch, opts)
    ensures r.completion.Return? ==> r.completion.code == SUCCESS_CODE || r.completion.code == ERROR_CODE
    ensures r.completion == Return(SUCCESS_CODE) <==> !Throws(branch, opts) && r.diagnostics == []
    ensures r.completion == Return(ERROR_CODE) ==> 1 <= |r.diagnostics| <= 2
  {
    var parts := Split(branch, opts.seperator);
    if |parts| == 0 then Outcome(Throw, [])
    else
      var prefix := PrefixOf(branch, opts.seperator);
      var name := NameOf(branch, opts.seperator);
      if |opts.skip| > 0 && IndexOf(branch, Join(opts.skip, ",")) > -1 then
        Outcome(Return(SUCCESS_CODE), [])
      else if branch in opts.banned then
        Outcome(Return(ERROR_CODE), [Diagnostic(opts.msgBranchBanned, [branch])])
      else if branch in opts.disallowed then
        Outcome(Return(ERROR_CODE), [Diagnostic(opts.msgBranchDisallowed, [branch])])
      else if IndexOf(branch, opts.seperator) < 0 then
        Outcome(Return(ERROR_CODE), [Diagnostic(opts.msgSeperatorRequired, [branch, opts.seperator])])
      else
        PrefixCheck(prefix, name, opts)
  }

  /**
   * The last check: a prefix outside the allowed list fails with the
   * not-allowed diagnostic, followed by a suggestion when there is one.
   */
  function PrefixCheck(prefix: string, name: Option<string>, opts: Options): (r: Outcome)
    ensures r.completion == Return(SUCCESS_CODE) <==> prefix in opts.prefixes
    ensures prefix in opts.prefixes ==> r.diagnostics == []
    ensures prefix !in opts.prefixes ==>
      && r.completion == Return(ERROR_CODE)
      && 1 <= |r.diagnostics| <= 2
      && r.diagnostics[0] == Diagnostic(opts.msgPrefixNotAllowed, [prefix])
      && (|r.diagnostics| == 2 <==> Suggestion(opts.suggestions, prefix).Some?)
      && (|r.diagnostics| == 2 ==>
            r.diagnostics[1] == Diagnostic(opts.msgPrefixSuggestion, [
              prefix + opts.seperator + name.GetOr(""),
              Suggestion(opts.suggestions, prefix).value + opts.seperator + name.GetOr("")]))
  {
    if prefix !in opts.prefixes then
      var notAllowed := Diagnostic(opts.msgPrefixNotAllowed, [prefix]);
      match Suggestion(opts.suggestions, prefix)
      case None => Outcome(Return(ERROR_CODE), [notAllowed])
      case Some(suggested) =>
        var instead := Diagnostic(opts.msgPrefixSuggestion,
          [JoinName(prefix, name, opts.seperator), JoinName(suggested, name, opts.seperator)]);
        Outcome(Return(ERROR_CODE), [notAllowed, instead])
    else
      Outcome(Return(SUCCESS_CODE), [])
  }

  /** Skip dominates: a skipped branch passes with no diagnostic, whatever else is wrong with it. */
  lemma SkipDominates(branch: string, opts: Options)
    requires Skipped(branch, opts) && !Throws(branch, opts)
    ensures Validate(branch, opts) == Outcome(Return(SUCCESS_CODE), [])
  {
  }

  /** Banned is checked first after skip. */
  lemma BannedFirst(branch: string, opts: Options)
    requires !Skipped(branch, opts) && !Throws(branch, opts)
    requires branch in opts.banned
    ensures Validate(branch, opts) == Outcome(Return(ERROR_CODE), [Diagnostic(opts.msgBranchBanned, [branch])])
  {
  }

  /** Disallowed is checked after banned. */
  lemma DisallowedSecond(branch: string, opts: Options)
    requires !Skipped(branch, opts) && !Throws(branch, opts)
    requires branch !in opts.banned && branch in opts.disallowed
    ensures Validate(branch, opts) == Outcome(Return(ERROR_CODE), [Diagnostic(opts.msgBranchDisallowed, [branch])])
  {
  }

  /** A branch that passes skip, banned and disallowed but lacks the separator fails on the separator. */
  lemma SeparatorThird(branch: string, opts: Options)
    requires !Skipped(branch, opts)
    requires branch !in opts.banned && branch !in opts.disallowed
    requires !Contains(branch, opts.seperator)
    ensures Validate(branch, opts)
      == Outcome(Return(ERROR_CODE), [Diagnostic(opts.msgSeperatorRequired, [branch, opts.seperator])])
  {
    if opts.seperator == "" {
      ContainsEmpty(branch);
    }
  }

  /**
   * A branch that passes the earlier checks and whose lower-cased `head` is
   * not an allowed prefix fails with the
   * not-allowed diagnostic first, followed by a suggestion exactly when the
   * suggestions record has a truthy entry for that prefix. The head is the
   * text before the first separator, or the first character when the
   * separator is empty.
   */
  lemma PrefixLast(branch: string, opts: Options, head: string)
    requires !Skipped(branch, opts)
    requires branch !in opts.banned && branch !in opts.disallowed
    requires Contains(branch, opts.seperator)
    requires if opts.seperator == "" then branch != "" && head == branch[..1]
             else IsFirstSegment(branch, opts.seperator, head)
    requires Lower(head) !in opts.prefixes
    ensures var r := Validate(branch, opts);
      && r.completion == Return(ERROR_CODE)
      && r.diagnostics[0] == Diagnostic(opts.msgPrefixNotAllowed, [Lower(head)])
      && (|r.diagnostics| == 2 <==> Suggestion(opts.suggestions, Lower(head)).Some?)
      && (|r.diagnostics| == 2 ==>
            r.diagnostics[1] == Diagnostic(opts.msgPrefixSuggestion, [
              JoinName(Lower(head), NameOf(branch, opts.seperator), opts.seperator),
              JoinName(Suggestion(opts.suggestions, Lower(head)).value, NameOf(branch, opts.seperator), opts.seperator)]))
  {
    if opts.seperator == "" {
      EmptySeparator(branch, opts);
    } else {
      PrefixIsFirstSegment(branch, opts.seperator, head);
    }
  }

  /** The prefix is the lower-cased text before the first (non-empty) separator. */
  lemma PrefixIsFirstSegment(branch: string, sep: string, head: string)
    requires sep != ""
    requires IsFirstSegment(branch, sep, head)
    ensures PrefixOf(branch, sep) == Lower(head)
  {
    SplitHead(branch, sep);
    FirstSegmentUnique(branch, sep, Split(branch, sep)[0], head);
  }

  /**
   * With an empty separator the separator check always passes (every string
   * contains the empty string) and the prefix is the first character, lower-cased.
   */
  lemma EmptySeparator(branch: string, opts: Options)
    requires opts.seperator == "" && branch != ""
    ensures Contains(branch, opts.seperator)
    ensures PrefixOf(branch, opts.seperator) == Lower(branch[..1])
  {
    ContainsEmpty(branch);
  }

  /**
   * A validation succeeds exactly when the branch is skipped, or when it is
   * neither banned nor disallowed, contains the separator and has an allowed prefix.
   */
  lemma SuccessExactly(branch: string, opts: Options)
    requires !Throws(branch, opts)
    ensures Validate(branch, opts).completion == Return(SUCCESS_CODE)
      <==> Skipped(branch, opts)
           || (branch !in opts.banned && branch !in opts.disallowed
               && Contains(branch, opts.seperator) && PrefixOf(branch, opts.seperator) in opts.prefixes)
  {
  }

  /** Keys the linter does not know (such as `separator` spelled with an `a`) never change a validation. */
  lemma UnknownKeysInert(branch: string, defaults: Options, user: UserOptions, extra: map<string, Value>)
    requires WellFormed(user) && WellFormed(user.(extra := extra))
    ensures Validate(branch, MergeOptions(defaults, user))
         == Validate(branch, MergeOptions(defaults, user.(extra := extra)))
  {
  }

  /**
   * The linter object: its merged options, the branch under test and the
   * diagnostics it has written to the error stream so far.
   */
  class BranchNameLint {
    var options: Options
    var branch: string
    var stderr: seq<Diagnostic>

    /** `currentBranch` is what `getCurrentBranch` read from git. */
    constructor (user: UserOptions, currentBranch: string)
      requires WellFormed(user)
      ensures options == MergeOptions(DEFAULT_OPTIONS, user)
      ensures branch == currentBranch
      ensures stderr == []
    {
      options := MergeOptions(DEFAULT_OPTIONS, user);
      branch := currentBranch;
      stderr := [];
    }

    /** `error(template, ...args)`: writes one diagnostic and returns `ERROR_CODE`, whatever its arguments. */
    method Error(template: string, args: seq<string>) returns (code: int)
      modifies this`stderr
      ensures code == ERROR_CODE
      ensures stderr == old(stderr) + [Diagnostic(template, args)]
    {
      stderr := stderr + [Diagnostic(template, args)];
      code := ERROR_CODE;
    }

    /**
     * `doValidation`: runs the cascade on the stored branch and options,
     * writing its diagnostics through `Error`. It changes neither the options nor the branch.
     */
    method DoValidation() returns (c: Completion)
      modifies this`stderr
      ensures c == Validate(branch, options).completion
      ensures stderr == old(stderr) + Validate(branch, options).diagnostics
    {
      var sep := options.seperator;
      var parts := Split(branch, sep);
      if |parts| == 0 {
        return Throw;
      }
      var prefix := Lower(parts[0]);
      var name: Option<string> := None;
      if |parts| > 1 && parts[1] != "" {
        name := Some(Lower(parts[1]));
      }
      assert prefix == PrefixOf(branch, sep) && name == NameOf(branch, sep);

      if |options.skip| > 0 && IndexOf(branch, Join(options.skip, ",")) > -1 {
        return Return(SUCCESS_CODE);
      }
      if branch in options.banned {
        var code := Error(options.msgBranchBanned, [branch]);
        return Return(code);
      }
      if branch in options.disallowed {
        var code := Error(options.msgBranchDisallowed, [branch]);
        return Return(code);
      }
      if IndexOf(branch, sep) < 0 {
        var code := Error(options.msgSeperatorRequired, [branch, sep]);
        return Return(code);
      }
      if prefix !in options.prefixes {
        var _ := Error(options.msgPrefixNotAllowed, [prefix]);
        var suggested := Suggestion(options.suggestions, prefix);
        if suggested.Some? {
          var _ := Error(options.msgPrefixSuggestion,
            [JoinName(prefix, name, sep), JoinName(suggested.value, name, sep)]);
        }
        return Return(ERROR_CODE);
      }
      return Return(SUCCESS_CODE);
    }
  }

  /**
   * Validating the same object twice gives the same result and writes the
   * same diagnostics again: `doValidation` keeps no state between runs.
   */
  method ValidateTwice(lint: BranchNameLint) returns (first: Completion, second: Completion)
    modifies lint`stderr
    ensures first == second
    ensures lint.stderr == old(lint.stderr) + Validate(lint.branch, lint.options).diagnostics
                                            + Validate(lint.branch, lint.options).diagnostics
  {
    first := lint.DoValidation();
    second := lint.DoValidation();
  }
}
