# branch-name-lint: a Dafny model of the rule engine

This project models `BranchNameLint`, the class at the heart of branch-name-lint. Given a git branch
name and a configuration record, it decides whether the name follows the team's branching policy.
It returns status code 0 (success) or 1 (failure) and writes one or two diagnostics for a failure.

The model has three modules:

- `JsString` (`js_string.dfy`): the JavaScript built-ins the linter relies on.
  These are `indexOf`, `split` with a string separator, `Array.prototype.join` and `toLowerCase`.
  Each has the lemmas that pin down its meaning. `split` followed by `join` gives back the string.
  For a non-empty separator, no piece of a split contains the separator, and the first piece is exactly the text before the first separator.
- `Lint` (`lint.dfy`):
  - the options record and `MergeOptions`, the shallow `Object.assign` overlay of caller options on the defaults;
  - `Validate`, the `doValidation` cascade as a pure function from a branch and options to an `Outcome`.
    An `Outcome` is how the run ends (a returned status code, or a thrown `TypeError`) plus the diagnostics written, in order;
  - the class `BranchNameLint`. Its constructor merges the options. `Error` appends a diagnostic to the
    modelled error stream and returns `ERROR_CODE`. `DoValidation` runs the cascade step by step through `Error`
    and is proved to agree with `Validate`.
- `Scenarios` (`scenarios.dfy`): the cases from the package's tests, stated for every name where that is possible.

A diagnostic is kept as its template and argument list, the arguments of one `error(...)` call.
The branch under test is a constructor argument. It stands for what `getCurrentBranch` reads from git.

The model follows the code of `index.js`, including its quirks:

- The separator option is spelled `seperator`. A caller key spelled `separator` is just another key and changes nothing.
- The skip test is a substring test. `branch.indexOf(skip)` turns the skip array into its comma-joined string.
  A branch is skipped when it contains that string. It is not a membership test.
- The prefix and name taken from the branch are lower-cased. The configured prefixes and suggestion keys are compared as given,
  so a configured `Feature` never matches. Banned and disallowed compare the raw branch, case-sensitively.
- The branch is split on every occurrence of the separator. Only the first two pieces are used.
  An empty or missing second piece is `null`, and `join` renders it as nothing.
- A failed prefix check writes the not-allowed diagnostic first. A suggestion follows when the suggestions record has a truthy entry for the prefix.
- `split` returns no pieces for an empty branch and an empty separator.
  `parts[0].toLowerCase()` then throws a `TypeError` before any check runs. The model records this as `Throw`.

Lemmas pin the consequences of these quirks:

- A skip list is not a membership test. With two or more names, a branch equal to one of them is never skipped
  (`Lint.SkipIsNotMembership`). With `skip: ["develop", "master"]`, the branch `develop` fails as disallowed
  (`Scenarios.SkipListIsNotMembership`).
- Only the second piece enters a suggestion, so a suggestion for `feat/a/b` names `feature/a`
  (`Scenarios.SuggestionKeepsSecondSegmentOnly`).
- Both prefix diagnostics are written when a suggestion exists (`Lint.PrefixLast`).

A caller's options are one JavaScript object, so a key the linter reads cannot also sit among the other keys.
The model states this as `Lint.WellFormed`: the keys in `extra` are none of the eleven option keys.

## Model

Rows about a run assume the split does not throw, that is, the branch and the separator are not both empty.

| member | source | states |
|---|---|---|
| `Lint.MergeOptions` | index.js:8-22 | for well-formed caller options, every option key the caller supplies replaces the default whole (a supplied list is not merged element by element); every key the caller leaves out keeps its default; unknown keys are added beside the known ones |
| `Lint.MergeNothing` | index.js:22 | with no options at all, the merged record is exactly the defaults |
| `Lint.MergeIdempotent` | index.js:22 | overlaying the same caller options a second time changes nothing |
| `Lint.UnknownKeysInert` | index.js:22-65 | keys the linter does not read (none of the eleven option keys), such as `separator` spelled with an `a`, never change the outcome of a validation |
| `Lint.DefaultSuggestionsAreAllowed` | index.js:9-10 | every built-in suggestion maps a prefix that is not allowed to a truthy suggestion that is an allowed prefix; the allowed prefixes are already lower case |
| `Lint.PrefixOf` | index.js:29-30 | the prefix is the lower-cased start of the branch: the text before the first separator for a non-empty separator, the first character for an empty one |
| `Lint.NameOf` | index.js:29-34 | a name, when there is one, is non-empty and the branch contains the separator; with a non-empty separator that does not occur there is no name; with an empty separator the name is the branch's second character, lower-cased, or `null` for a one-character branch |
| `Lint.NameIsSecondSegment` | index.js:29-34 | for a non-empty separator that occurs, the name is the lower-cased text between the first and the second separator (or the end), and `null` when that text is empty |
| `Lint.Skipped` | index.js:36 | a skipped branch has a non-empty skip list and is at least as long as the comma-joined list |
| `Lint.SkipIsNotMembership` | index.js:36 | with two or more names in the skip list, a branch equal to one of them is never skipped |
| `Lint.Suggestion` | index.js:55 | a suggestion exists exactly when the prefix is a key of the suggestions record with a non-empty (truthy) value, and it is that value |
| `Lint.JoinName` | index.js:58-59 | `[head, name].join(sep)` is the head, the separator and the name, with a `null` name rendered as nothing |
| `Lint.PrefixCheck` | index.js:52-64 | an allowed prefix passes with no diagnostic; any other fails with the not-allowed diagnostic first and, exactly when there is a suggestion, a second diagnostic naming prefix+separator+name and suggestion+separator+name |
| `Lint.Validate` | index.js:28-65 | a run throws exactly when the branch and separator are both empty; otherwise it returns 0 or 1; it returns 0 exactly when it writes no diagnostic, and a failure writes one or two diagnostics |
| `Lint.SkipDominates` | index.js:36-38 | when the split does not throw, a branch that contains the comma-joined, non-empty skip list passes with no diagnostic, whatever else is wrong with it |
| `Lint.BannedFirst` | index.js:40-42 | when the split does not throw, a branch that is not skipped and is in the banned list fails with exactly one diagnostic: the banned template with the branch |
| `Lint.DisallowedSecond` | index.js:44-46 | when the split does not throw, a branch that is not skipped or banned but is disallowed fails with exactly the disallowed diagnostic |
| `Lint.SeparatorThird` | index.js:48-50 | a branch that passes skip, banned and disallowed but does not contain the separator fails with exactly the separator-required diagnostic, with the branch and separator as arguments |
| `Lint.PrefixLast` | index.js:29-62 | a branch that reaches the prefix check with a lower-cased first segment (the first character when the separator is empty) that is not allowed fails; the not-allowed diagnostic comes first; a second, suggestion diagnostic follows exactly when the suggestions record has a truthy entry for the prefix, with arguments prefix+separator+name and suggestion+separator+name |
| `Lint.PrefixIsFirstSegment` | index.js:29-30 | with a non-empty separator, the prefix checked is the lower-cased text before the first separator |
| `Lint.EmptySeparator` | index.js:29-30 | with an empty separator the separator check always passes, and the prefix is the branch's first character, lower-cased |
| `Lint.SuccessExactly` | index.js:36-64 | a run returns 0 exactly when the branch is skipped, or when it is neither banned nor disallowed, contains the separator and has an allowed prefix |
| `Lint.BranchNameLint.constructor` | index.js:7-26 | for well-formed caller options, the options are the defaults overlaid with the caller's options, the branch is the one read from git, and nothing has been written yet |
| `Lint.BranchNameLint.Error` | index.js:72-75 | writes its template and arguments as one diagnostic and returns `ERROR_CODE` (1), whatever its arguments |
| `Lint.BranchNameLint.DoValidation` | index.js:28-65 | returns or throws as `Validate` does and writes exactly `Validate`'s diagnostics, in order; it changes neither the options nor the branch |
| `Lint.ValidateTwice` | index.js:28-65 | validating the same object twice gives the same result and writes the same diagnostics again |
| `JsString.IndexOf` | index.js:48 | `indexOf` is non-negative exactly when the pattern occurs; it is then the first occurrence |
| `JsString.IndexOfFrom` | index.js:36 | the search from a start position finds the first occurrence at or after it, or -1 when there is none after it |
| `JsString.ContainsEmpty` | index.js:48 | every string contains the empty separator |
| `JsString.Split` | index.js:29 | `split` gives no pieces only for an empty string on an empty separator; on a non-empty separator it gives at least two pieces exactly when the separator occurs |
| `JsString.Chars` | index.js:29 | an empty separator splits the branch into its single characters |
| `JsString.SplitJoin` | index.js:29 | joining the pieces of a split with the same separator gives back the branch |
| `JsString.SplitPartsFree` | index.js:29 | no piece of a split on a non-empty separator contains the separator |
| `JsString.SplitHead` | index.js:29-30 | for a non-empty separator, the first piece of a split is the text before the first occurrence of the separator, or the whole string when it does not occur |
| `JsString.FirstSegmentUnique` | index.js:29-30 | for a non-empty separator, there is only one text before the first separator |
| `JsString.JoinLength` | index.js:36 | joining two or more pieces gives a string at least one separator longer than any piece |
| `JsString.SecondSegment` | index.js:29-33 | for a non-empty separator that occurs, `parts[1]` is the text between the first and the second separator (or the end) |
| `JsString.SecondPiece` | index.js:29-33 | for a non-empty separator that occurs, a split has at least two pieces and `parts[1]` is the first piece of the text after the first separator |
| `JsString.LowerHasNoCapitals` | index.js:30-33 | lower-casing keeps the length and leaves no upper-case ASCII letter |
| `JsString.LowerIdempotent` | index.js:30-33 | lower-casing twice is lower-casing once |
| `JsString.Join` | index.js:36 | `join` of one piece is that piece; of two or more, it starts with the first piece and the separator (the skip array becomes its comma-joined string this way) |
| `JsString.LowerChar` | index.js:30 | lower-casing a character leaves no upper-case ASCII letter, maps A to Z to a to z and keeps every other character |
| `JsString.Lower` | index.js:30-33 | lower-casing keeps the length, maps each upper-case ASCII letter to its lower-case letter and keeps every other character |
| `JsString.JoinPair` | index.js:58-59 | joining two pieces puts exactly one separator between them |
| `Scenarios.DefaultPrefixesComeFirst` | test.js:6-10 | without options the first allowed prefix is `feature` |
| `Scenarios.CustomPrefixesReplaceDefaults` | test.js:12-18 | a caller's prefix list replaces the default list whole |
| `Scenarios.SeparatorSpellingIgnored` | index.js:14 | a caller key `separator` leaves the `seperator` option at `/` |
| `Scenarios.SeparatorSpellingStillRequiresSlash` | index.js:48-49 | with a caller key `separator: ":"`, the branch `feature:x` still fails for lacking `/` |
| `Scenarios.ErrorReturnsOne` | test.js:20-26 | `error` with a template and two arguments returns 1 |
| `Scenarios.FeatureBranchesPass` | test.js:65-72 | every branch `feature/<name>`, for any name without `/`, passes under the defaults |
| `Scenarios.FollowingSuggestionPasses` | index.js:9-10 | under the defaults, every branch `<suggested>/<name>` that a built-in suggestion names passes, for any name without `/` |
| `Scenarios.UnknownPrefixFails` | test.js:74-81 | every branch `blah/<name>`, for any name without `/`, fails with the not-allowed diagnostic alone |
| `Scenarios.PrefixWithoutSuggestion` | index.js:52-62 | a branch `<pre>/<post>` that reaches the prefix check (separator `/`, empty skip list, neither banned nor disallowed) with a lower-cased prefix that is neither allowed nor has a suggestion fails with the not-allowed diagnostic alone |
| `Scenarios.MissingSeparatorFails` | test.js:83-90 | `feature-valid-name` fails with the separator-required diagnostic |
| `Scenarios.DisallowedFails` | test.js:92-99 | `master` fails with the disallowed diagnostic |
| `Scenarios.BannedFails` | test.js:101-108 | `wip` fails with the banned diagnostic |
| `Scenarios.SkippedDevelopPasses` | test.js:125-135 | with `skip: ["develop"]` the disallowed branch `develop` passes |
| `Scenarios.SkipListIsNotMembership` | index.js:36-38 | with `skip: ["develop", "master"]` the branch `develop` is in the skip list yet fails as disallowed |
| `Scenarios.FeatSuggestsFeature` | index.js:52-61 | every branch `feat/<name>`, for a non-empty name without `/`, gets the not-allowed diagnostic followed by the suggestion `feature/<name>`, with the name lower-cased |
| `Scenarios.SuggestionAfterPrefix` | index.js:52-61 | a branch `<pre>/<post>` that reaches the prefix check (separator `/`, empty skip list, neither banned nor disallowed) and whose lower-cased prefix is not allowed but has a suggestion fails with the not-allowed diagnostic followed by the suggestion `<pre>/<post>` to `<suggested>/<post>`, both lower-cased |
| `Scenarios.TwoSlashSuggestion` | index.js:29-61 | a branch `<a>/<b>/<d>` that reaches the prefix check (separator `/`, empty skip list, neither banned nor disallowed) and whose lower-cased prefix is not allowed but has a suggestion is told to try `<suggested>/<b>`; `<d>` never enters the diagnostics |
| `Scenarios.SuggestionKeepsSecondSegmentOnly` | index.js:29-59 | for `Feat/<name>/<rest>` the suggestion names `feat/<name>` and `feature/<name>`, lower-cased, dropping `<rest>` |
| `Scenarios.TrailingSeparatorSuggestion` | index.js:31-59 | a branch `<prefix>/` that reaches the prefix check (separator `/`, empty skip list, neither banned nor disallowed) with a prefix that is not allowed but has a suggestion is told to try `<suggestion>/`: the `null` name renders as nothing |

## Left out

- `getCurrentBranch` (index.js:67-70) runs `git rev-parse --abbrev-ref HEAD` in a subprocess. The branch is a constructor argument instead. The source does not trim git's trailing newline; the model takes whatever string it is given.
- The rendering of a diagnostic through `util.format`, the banner "Branch name lint fail!" and the write to `console.error` (index.js:73) are not modelled. A diagnostic is its template and argument list, and the error stream is a sequence field of the object.
- `Lint.Suggestion`: `suggestions[prefix]` in JavaScript also finds properties inherited from `Object.prototype` (for example `constructor`). The model looks up only the keys of the record.
- `JsString.LowerChar`: `toLowerCase` is modelled for the ASCII letters A to Z only. Other characters with a lower-case form are kept unchanged.
- `JsString.Split`: JavaScript splits on an empty separator into UTF-16 code units; the model splits into characters.
- `Lint.MergeOptions`: a caller key that is present but `undefined` replaces the default with `undefined` in JavaScript. The model treats it as an absent key. Option values of the wrong type (for example `prefixes: false`) are not modelled.
- `Lint.MergeOptions`: `Object.assign` copies arrays by reference, so a caller who later changes its own array changes the linter's options. The model copies values and does not capture this aliasing.
- `ERROR_CODE` and `SUCCESS_CODE` are fields of the object in the source, never reassigned there. The model makes them module constants.
- `validateWithRegex`, the `regex`, `regexOptions` and `msgDoesNotMatchRegex` options and the regex-mismatch diagnostic are exercised by test.js:28-54 and test.js:110-123, and `tests/test.js` exercises further options. None of them is in this revision of index.js, so they are not modelled.
- `Lint.MergeOptions`: a caller key among the eleven option keys is represented only by its own field; `extra` never holds one (`Lint.WellFormed`), as one JavaScript object cannot hold a key twice.
- cli.js only forks a child process and prints a deprecation warning. The end-to-end tests run git, npm and node on the filesystem. The sample configuration file is static data. None of these is part of this model.
