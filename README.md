# lapis-lazuli browser core, modelled in Dafny

This project models the browser wrapper of lapis-lazuli, a Cucumber/Watir test
helper (`lib/lapis_lazuli/browser.rb`). It covers:

- **Selector normalisation** (`parseFindSettings`). A string names an element, a
  symbol is a `:like` query, and an array is a list of alternatives.
- **Element lookup.** `findAll` builds a `:like` XPath, passes a `:tag_name`
  selector through, or uses the first settings key whose plural names a finder
  of the context (`text_fields`, `buttons`, ...). `findAllPresent` keeps the
  elements whose `present?` holds.
- **`find`.** Alternatives are tried in order, with misses silenced on all but
  the last. A `:pick` policy (`:first`, `:last`, `:random`, an index) chooses
  the element. The `:error` flag decides whether a miss raises.
- **`findRandomized`.** It shuffles the found elements.
- **The wait engine** (`wait_multiple` and `wait`). Each list item is compiled
  into a matcher (selector, capability such as `present?`, text or regular
  expression). The matchers are combined with `:one_of`/`:all_of` and polled
  `:until`/`:while`. Afterwards every matcher is evaluated once more, and the
  wait raises only when it timed out and nothing matched.
- **Page-error detection** (`get_html_errors`, `has_error?`).
- **The "old" screenshot naming scheme.**
- **Argument caching in `init`**, which lets `restart` recreate the same browser.

The browser is an input, not a program. A `Finder.Host` holds the queries that
`findAll` sends to a context (`elements`, `respond_to?`, the finder methods,
`present?`). A `WaitEngine.Page` is one observed page state (`element`, the
capability check, `text`). Randomness is a caller-supplied sequence of rolls, and
`Finder.Shuffle` is proved to return a permutation whatever the rolls are. Time
is replaced by the sequence of page states the Watir wait observed before its
timeout, plus one final state for the re-evaluation.

A Ruby exception is the `Raise` case of `RubyValues.Outcome`. Its `Failure` names
the error group the library reports (`find by like`, `find by tag name`, ...).
Ruby hashes are ordered sequences of pairs, because `findAll` walks the settings
in insertion order.

Modules: `RubyValues` (values, hashes, truthiness, outcomes), `Selectors`,
`Finder`, `WaitEngine`, `PageErrors`, `ScreenshotName`, `Session`.

## Model

| member | source | states |
|---|---|---|
| RubyValues.Store | lib/lapis_lazuli/browser.rb:565-569 | Hash#[]= as used for `config[:error] = false`: afterwards the key reads the stored value and every other key reads as before |
| RubyValues.Delete | lib/lapis_lazuli/browser.rb:249-255 | Hash#delete: afterwards the key is absent, every other key reads as before, and the hash does not grow |
| Selectors.ParseFindSettings | lib/lapis_lazuli/browser.rb:757-769 | the result has no bare string or symbol at any level of alternatives; a value already in that form is returned unchanged; arrays stay arrays of the same length |
| Selectors.ParseString | lib/lapis_lazuli/browser.rb:758-759 | a string `s` becomes `{:element => s}` |
| Selectors.ParseSymbol | lib/lapis_lazuli/browser.rb:760-761 | a symbol `y` becomes `{:like => y}` |
| Selectors.ParseList | lib/lapis_lazuli/browser.rb:762-765 | an array is normalised element by element, in order |
| Selectors.ParseIdempotent | lib/lapis_lazuli/browser.rb:757-769 | normalising twice equals normalising once, as `find` does when it re-parses each alternative |
| Selectors.AttributeStep | lib/lapis_lazuli/browser.rb:455-460 | the attribute step exists exactly for a string or symbol attribute (anything else has no `to_sym`); it is `text()` for `text` and `@name` otherwise |
| Selectors.LikeQuery | lib/lapis_lazuli/browser.rb:446-476 | every like query that is built starts with `//`; building one fails only with the `find by like` error or a missing method |
| Selectors.LikeShorthandAsHash | lib/lapis_lazuli/browser.rb:433-438 | `[e, a, i]` gives the same query as `{:element => e, :attribute => a, :include => i}` |
| Selectors.LikeSymbol | lib/lapis_lazuli/browser.rb:439-449 | a bare symbol `tag` gives `//tag`, or `.//tag` inside a context |
| Selectors.LikeHashXPath | lib/lapis_lazuli/browser.rb:446-464 | a hash with `:element` gives `//element` (or `.//element` in a context) when `:attribute` and `:include` are not both given, and `//element[xp_contains(attribute, include)]` when they are |
| Selectors.LikeRejected | lib/lapis_lazuli/browser.rb:446-476 | in both directions: the `find by like` error comes exactly when the expanded value is not a hash with `:element`; the missing-method error comes exactly when attribute and include are given but the attribute is not a string or symbol |
| Selectors.LikeContextPrefix | lib/lapis_lazuli/browser.rb:449 | a context changes nothing but the leading `.`: the query is built with a context exactly when it is built without one, and `//…` becomes `.//…` |
| Finder.ByFinderFirstResponder | lib/lapis_lazuli/browser.rb:491-508 | the first settings key whose plural the context responds to decides the result; earlier non-responding keys are skipped |
| Finder.ByFinder | lib/lapis_lazuli/browser.rb:491-519 | in both directions: the "no finder" error comes exactly when no settings key names a finder the context responds to; the only other failure is a failing finder query |
| Finder.FindAll | lib/lapis_lazuli/browser.rb:415-520 | a setting that is not a hash after normalisation raises a missing-method error; findAll never reports a miss: its only failures are a missing method, a malformed like query, a rejected tag-name selector, a failing finder query or no finder at all |
| Finder.FindAllOtherBranches | lib/lapis_lazuli/browser.rb:478-519 | without `:like`: a `:tag_name` setting on a searchable scope returns what `elements` returns and raises the `find by tag name` error exactly when that call fails; on a context that is not an element it raises a missing-method error; without `:tag_name`, findAll is the finder loop |
| Finder.FindAllLike | lib/lapis_lazuli/browser.rb:425-471 | with `:like`, findAll succeeds exactly when the like query can be built and the context is absent or an element, and then returns the elements of that XPath in that context; a built query on a non-element context raises a missing-method error |
| Finder.PresentOnly | lib/lapis_lazuli/browser.rb:525-531 | an element is kept exactly when it is in the input and its `present?` returns true (a raising check counts as false); the result is no longer than the input |
| Finder.PresentOnlyAppend | lib/lapis_lazuli/browser.rb:525-531 | the filter distributes over concatenation, so the relative order of elements is kept |
| Finder.FindAllPresent | lib/lapis_lazuli/browser.rb:524-532 | succeeds exactly when findAll does; its elements are exactly findAll's elements that are present |
| Finder.Shuffle | lib/lapis_lazuli/browser.rb:549 | Array#shuffle returns a permutation of its input (same multiset, same length), whatever the random draws are |
| Finder.ShuffleCanStartAnywhere | lib/lapis_lazuli/browser.rb:603-604 | any element can come first after the shuffle, so `:pick => :random` can return any element |
| Finder.At | lib/lapis_lazuli/browser.rb:605-607 | Array#[] with an integer: defined exactly for `-n <= i < n`; a negative index counts from the end |
| Finder.PickElement | lib/lapis_lazuli/browser.rb:593-609 | the picked element is a member of the result; nothing is picked exactly when the result is empty or a numeric pick is out of range; the default is the first element, `:last` is the last, and a numeric pick is Array#[] at that index |
| Finder.PickPolicy | lib/lapis_lazuli/browser.rb:599-608 | in both directions: `:last` and `:random` are recognised only as those symbols, a numeric pick exactly when `:pick` is an integer (and carries it); anything else keeps the first element |
| Finder.FindCandidates | lib/lapis_lazuli/browser.rb:586-591 | in both directions: the collection find draws from succeeds exactly when findAll does, and holds exactly findAll's elements when `:present` is given and falsy, and exactly findAll's present elements otherwise |
| Finder.FindSingle | lib/lapis_lazuli/browser.rb:579-625 | a setting that is not a hash raises a missing-method error; a returned element is one of the candidates; "not found" is raised only on a hash with the error flag on |
| Finder.FindSingleNotFound | lib/lapis_lazuli/browser.rb:579-625 | in both directions: find raises "not found" exactly when the error flag is on, the lookup succeeded and nothing was picked; in every other successful lookup the pick (possibly nil) is returned |
| Finder.ErrorFlagDefault | lib/lapis_lazuli/browser.rb:579-581 | errors are on by default; only a falsy `:error` (false or nil) turns them off |
| Finder.ErrorOffNeverNotFound | lib/lapis_lazuli/browser.rb:565-581 | an alternative run with `:error => false` never raises "not found" |
| Finder.FirstAlternativeWins | lib/lapis_lazuli/browser.rb:563-576 | the first alternative that finds an element ends the search; later alternatives are not consulted |
| Finder.FindAlternatives | lib/lapis_lazuli/browser.rb:560-577 | a nil result means every alternative but the last came back nil when run with `:error => false`, and the last one, run with its own settings, came back nil too |
| Finder.SkipMiss | lib/lapis_lazuli/browser.rb:563-576 | an alternative that comes back nil with `:error => false` hands the search to the next alternative |
| Finder.AllButLastMiss | lib/lapis_lazuli/browser.rb:560-577 | when every alternative but the last comes back nil with `:error => false`, find returns the last alternative's own outcome (element, nil or error) |
| Finder.OnlyLastAlternativeRaisesNotFound | lib/lapis_lazuli/browser.rb:563-573 | if a list of alternatives raises "not found", then every earlier alternative returned nil and the last one raised itself |
| Finder.Find | lib/lapis_lazuli/browser.rb:555-626 | find, with its while loop over alternatives, equals the specification function on normalised settings |
| Finder.FindParsed | lib/lapis_lazuli/browser.rb:560-577 | the alternatives loop (stopping at the first non-nil result, with the last alternative run with errors on) equals the recursive specification |
| Finder.FindRandomized | lib/lapis_lazuli/browser.rb:544-550 | a setting that is not a hash raises a missing-method error; without `:present`, or with a truthy one, it succeeds exactly when findAll does and returns a permutation of findAll's elements; as written, with `:present` given and falsy, the result is a permutation of findAllPresent |
| Finder.RandomizedDropsHiddenElements | lib/lapis_lazuli/browser.rb:544-550 | with `:present => false`, an element findAll returns that is not present is among find's candidates but never in findRandomized's result |
| Finder.FindRandomizedCorrected | lib/lapis_lazuli/browser.rb:544-550 | on a settings hash, the result is a permutation of the collection `find` draws from (findAll for a falsy `:present`, findAllPresent otherwise) |
| WaitEngine.Compile | lib/lapis_lazuli/browser.rb:247-255 | an item compiles exactly when it is a hash whose `:wait_for` (default `present?`) has `to_sym`, and the capability is that symbol's name; `:text` wins over `:html`, which is used otherwise; the only failure is a missing method |
| WaitEngine.CompileSelector | lib/lapis_lazuli/browser.rb:249-255 | the selector lacks `:wait_for`, `:text` and `:html` and keeps every other key with its value |
| WaitEngine.Eval | lib/lapis_lazuli/browser.rb:258-294 | a matcher raises only a browser error or a missing-method error; a truthy result is the whole document exactly when the item has no selector |
| WaitEngine.EmptyItemIsDocument | lib/lapis_lazuli/browser.rb:260-269 | an empty item without text matches the whole document, with no capability check |
| WaitEngine.FailedCheckIsFalse | lib/lapis_lazuli/browser.rb:269-275 | a falsy capability check makes the matcher false, whatever its text |
| WaitEngine.TextMatching | lib/lapis_lazuli/browser.rb:277-293 | a string matches by containment; a regular expression matches by `=~`, and one that does not match falls through to `include?`, which raises |
| WaitEngine.AnyHolds | lib/lapis_lazuli/browser.rb:315-325 | the `:one_of` block raises only what a matcher raises |
| WaitEngine.AnyHoldsFirstTruthy | lib/lapis_lazuli/browser.rb:315-325 | in both directions: `:one_of` is true exactly when some matcher is truthy and all before it returned false (later ones are not called); it is false exactly when every matcher returned false |
| WaitEngine.AllHold | lib/lapis_lazuli/browser.rb:304-314 | the `:all_of` block raises only what a matcher raises |
| WaitEngine.AllHoldFirstFalse | lib/lapis_lazuli/browser.rb:304-314 | in both directions: `:all_of` is false exactly when some matcher returned false and all before it were truthy; it is true exactly when every matcher is truthy |
| WaitEngine.Combined | lib/lapis_lazuli/browser.rb:303-325 | the combined block raises only what a matcher raises |
| WaitEngine.Poll | lib/lapis_lazuli/browser.rb:331-347 | the Watir wait raises only what a matcher raises |
| WaitEngine.PollTimesOut | lib/lapis_lazuli/browser.rb:333-347 | in both directions: the wait times out exactly when every observed state gave the value the condition keeps waiting on (false for `:until`, true for `:while`) |
| WaitEngine.Collect | lib/lapis_lazuli/browser.rb:353-359 | the results succeed exactly when every matcher evaluates; there are at most as many results as matchers; each result is the truthy value of some matcher |
| WaitEngine.CollectAppend | lib/lapis_lazuli/browser.rb:353-359 | results over a concatenation are the results of each part in turn, so list order is kept |
| WaitEngine.CollectOne | lib/lapis_lazuli/browser.rb:354-358 | one matcher contributes its truthy value and nothing otherwise |
| WaitEngine.OneOfAgreesWithResults | lib/lapis_lazuli/browser.rb:315-359 | on one state, `:one_of` is false exactly when the result list is empty |
| WaitEngine.AllOfAgreesWithResults | lib/lapis_lazuli/browser.rb:304-359 | in both directions: on one state, `:all_of` holds exactly when every matcher contributes a result |
| WaitEngine.DefaultsLookup | lib/lapis_lazuli/browser.rb:214-221 | the defaults are timeout 10, `:until`, `:one_of` and the argument list itself as `:list` |
| WaitEngine.MergeDefaultsLookup | lib/lapis_lazuli/browser.rb:227-231 | after the merge, a key the caller gave keeps the caller's value, and a missing key takes its default |
| WaitEngine.ListCheckNeverFires | lib/lapis_lazuli/browser.rb:225-236 | as written: a single option hash without `:list` passes the check and is itself waited for as the only item |
| WaitEngine.WaitRequestDefaults | lib/lapis_lazuli/browser.rb:212-236 | corrected: a single option hash is rejected exactly when it lacks `:list`; otherwise the caller's options win over timeout 10, `:until` and `:one_of`; other arguments are the list |
| WaitEngine.RequestAsWritten | lib/lapis_lazuli/browser.rb:212-236 | as written: merging the defaults into the options never fails |
| WaitEngine.WaitRequest | lib/lapis_lazuli/browser.rb:212-236 | corrected: it fails exactly on a single option hash without `:list`, then with the missing-list error, and otherwise agrees with the code as written |
| WaitEngine.CompileAll | lib/lapis_lazuli/browser.rb:247-297 | when every item compiles, there is one matcher per item; the only failure is a missing method |
| WaitEngine.CompileAllElementwise | lib/lapis_lazuli/browser.rb:247-297 | in both directions: the list compiles exactly when every item does, and then the matcher at each position is that item's |
| WaitEngine.OperatorOf | lib/lapis_lazuli/browser.rb:303-329 | in both directions: `:one_of` and `:all_of` are the only operators |
| WaitEngine.ConditionOf | lib/lapis_lazuli/browser.rb:335-343 | in both directions: `:until` and `:while` are the only conditions |
| WaitEngine.Setup | lib/lapis_lazuli/browser.rb:212-343 | setting up fails only with the missing list, a missing method, an invalid operator or an invalid condition; the missing-list error comes only from the options; a plan holds one matcher per list item |
| WaitEngine.SetupRejects | lib/lapis_lazuli/browser.rb:303-343 | once options and items are accepted: an operator other than `:one_of`/`:all_of` raises the invalid-operator error, then a condition other than `:until`/`:while` the invalid-condition error; otherwise the plan holds that operator, condition and the compiled items |
| WaitEngine.FinishRule | lib/lapis_lazuli/browser.rb:351-369 | in both directions: the wait raises the timeout exactly when the poll timed out and nothing matched on re-evaluation; otherwise it returns the re-evaluated results, and always does so when the poll did not time out |
| WaitEngine.Finish | lib/lapis_lazuli/browser.rb:331-369 | after setup, the wait fails only with a matcher's error or the timeout, and returns at most one result per matcher |
| WaitEngine.PartialResultsOnTimeout | lib/lapis_lazuli/browser.rb:363-369 | a matcher that holds at the end prevents the timeout error, even when the poll timed out |
| WaitEngine.WaitMultiple | lib/lapis_lazuli/browser.rb:212-370 | the step-by-step wait_multiple equals its specification (options with the corrected `:list` check, compile, poll, re-evaluate, error rule) |
| WaitEngine.CompileItems | lib/lapis_lazuli/browser.rb:246-297 | the loop that builds `all` compiles every item in list order, stopping at the first failure |
| WaitEngine.PollStates | lib/lapis_lazuli/browser.rb:331-347 | the polling loop stops at the first state that meets the condition and reports a timeout when none does |
| WaitEngine.Reevaluate | lib/lapis_lazuli/browser.rb:353-359 | the loop after the wait appends every truthy matcher value, in list order |
| WaitEngine.WaitRequestOfWait | lib/lapis_lazuli/browser.rb:379-398 | the options `wait` builds always carry `:list` (one item) and use the default operator `:one_of`; its timeout and condition default to 10 and `:until` |
| WaitEngine.WaitPassesListCheck | lib/lapis_lazuli/browser.rb:379-398 | the options `wait` builds never meet the missing-list error |
| WaitEngine.Wait | lib/lapis_lazuli/browser.rb:379-404 | a setting that is not a hash raises a missing-method error; wait never raises the missing-list error |
| WaitEngine.WaitSetup | lib/lapis_lazuli/browser.rb:379-398 | wait polls exactly one matcher, compiled from its settings without the option keys |
| WaitEngine.WaitFirstResult | lib/lapis_lazuli/browser.rb:379-404 | for `:until` and `:while` alike: a result of wait is the item's own match on the final state; nil means the poll ended in time and the item no longer holds; the timeout error comes exactly when the poll timed out and the item does not hold at the end |
| PageErrors.ErrorsIn | lib/lapis_lazuli/browser.rb:659-664 | a configured error string is reported exactly when the page contains it; no more reports than configured strings |
| PageErrors.ErrorsInAppend | lib/lapis_lazuli/browser.rb:659-664 | reports follow the configured order |
| PageErrors.HtmlErrors | lib/lapis_lazuli/browser.rb:651-672 | with no configured strings or unreadable HTML there are no errors; otherwise the loop reports exactly the configured strings the page contains, in order |
| PageErrors.HasError | lib/lapis_lazuli/browser.rb:631-649 | in both directions: the page has an error exactly when a configured error string occurs in its HTML, any JavaScript error is reported, or the HTTP status is above 299 |
| ScreenshotName.StripFrom | lib/lapis_lazuli/browser.rb:706 | the stripped name has no `/` or `\` left and is no longer than the original |
| ScreenshotName.StripDirectories | lib/lapis_lazuli/browser.rb:706 | removing directories leaves no separator |
| ScreenshotName.StripKeepsPlainNames | lib/lapis_lazuli/browser.rb:706 | a name without separators is kept as it is |
| ScreenshotName.StripLastLine | lib/lapis_lazuli/browser.rb:706 | `dir/file` on one line becomes `file` |
| ScreenshotName.Sanitize | lib/lapis_lazuli/browser.rb:706 | the length is kept, allowed characters (`[A-Za-z0-9_.-]`) stay in place, and every other character becomes `_` |
| ScreenshotName.SanitizeKeepsAllowed | lib/lapis_lazuli/browser.rb:706 | a name made of allowed characters is unchanged |
| ScreenshotName.Squeeze | lib/lapis_lazuli/browser.rb:706 | the result has no `__` and the input widens it (only runs of `_` are lengthened), is no longer than the input, ends with the input's last character, and uses only the input's characters |
| ScreenshotName.SqueezeUnique | lib/lapis_lazuli/browser.rb:706 | in both directions: the squeezed name is the only name without `__` that the input widens |
| ScreenshotName.SqueezeKeepsAllowed | lib/lapis_lazuli/browser.rb:706 | squeezing a name of allowed characters leaves allowed characters |
| ScreenshotName.SqueezeKeepsSqueezed | lib/lapis_lazuli/browser.rb:706 | a name without `__` is unchanged |
| ScreenshotName.CleanName | lib/lapis_lazuli/browser.rb:706 | a cleaned scenario name uses only `[A-Za-z0-9_.-]`, has no separator and no `__` |
| ScreenshotName.CleanNameIdempotent | lib/lapis_lazuli/browser.rb:706 | cleaning a cleaned name changes nothing |
| ScreenshotName.ScreenshotPath | lib/lapis_lazuli/browser.rb:706-713 | the location starts with `dir/` and ends with `.png` |
| ScreenshotName.ScreenshotInDirectory | lib/lapis_lazuli/browser.rb:706-713 | in both directions: the part after `dir/` has no separator exactly when the timestamp has none, whatever the scenario name |
| Session.OptionalData | lib/lapis_lazuli/browser.rb:38-47 | given non-nil data is used and cached; nil or omitted data leaves the cache alone and uses the cache (when omitted and the cache is truthy) or `{}` |
| Session.BrowserWanted | lib/lapis_lazuli/browser.rb:49-54 | the browser used is also what is cached; a given name wins; an omitted one takes the truthy cache, or nil |
| Session.BrowserSession.constructor | lib/lapis_lazuli/browser.rb:24-31 | a new session has nothing cached |
| Session.BrowserSession.Init | lib/lapis_lazuli/browser.rb:35-56 | `init` passes on the settled arguments and leaves the caches as the settling rules say |
| Session.RestartRepeatsChoice | lib/lapis_lazuli/browser.rb:35-56 | after explicit truthy arguments, omitted arguments settle to the same values |
| Session.FreshSessionDefaults | lib/lapis_lazuli/browser.rb:38-54 | with nothing cached, omitted arguments mean no browser preference and `{}` |
| Session.NilArguments | lib/lapis_lazuli/browser.rb:42-54 | nil data becomes `{}` and keeps the data cache; a nil browser name clears its cache |
| Session.StartThenRestart | lib/lapis_lazuli/browser.rb:104-109 | a session created with truthy arguments and restarted without any creates the same browser twice |

## Left out

- Real time: the Watir wait's clock, the `:timeout` value and its `to_i` conversion are not modelled. A poll is the finite sequence of observed page states.
- `create`, `close`, `quit`, `close_after_scenario`, `method_missing` and `take_screenshot` talk to Watir, the file system and Cucumber. `init` hands its arguments to `create`, which is not part of this model.
- The "new" screenshot scheme reads a clock and `Random.rand`. The `suffix` parameter of `screenshot_name` is ignored by the source and is not modelled.
- `get_js_errors` and `get_http_status` run JavaScript in the browser; their results are inputs of `PageErrors.HasError`. Debug logging in `has_error?` is not modelled.
- `xp_contains` (lapis_lazuli/xpath) is not part of this model. It is an uninterpreted function of `Selectors.Render`, as is `to_s` of values other than strings, symbols, nil, booleans and integers.
- Regular-expression matching (`=~`) is a parameter. `String#include?` is modelled exactly as substring containment.
- The error reporter `@ll.error`: each call is modelled as raising a `Failure` that names its group. Screenshots on error are not modelled.
- Finder.Find: the `:message`, `:groups` and `:exception` keys written into the caller's settings hash before an error are not modelled, because the model does not mutate the caller's hash.
- WaitEngine.WaitMultiple: the same applies to the in-place `delete` calls and default merging on the caller's option hash. Copies are modelled as values.
- Finder.PickElement: an element collection indexed by `:pick` is treated as an array. A float index is not modelled (integers only).
- Finder.Find: the branch for a result that is not a collection (source lines 610-615) is not modelled, because `Finder.Host` finders always return a sequence of elements.
- Finder.FindAlternatives: every alternative draws its random pick from the same rolls. The model does not track how far the random generator has advanced between alternatives.
- Finder.PresentOnly: which exception `present?` raises is not modelled; any exception counts as "not present".
- WaitEngine.WaitMultiple: applies the corrected `:list` check (`WaitEngine.WaitRequest`). On a single option hash without `:list` it raises the missing-list error where the code as written waits for the hash itself. On every other argument list the two agree (`WaitEngine.WaitRequest`, `WaitEngine.ListCheckNeverFires`).
- Finder.FindAll: `respond_to?` on a context that is not an element is a query of `Finder.Host`; only the `:like` and `:tag_name` branches, which call `elements` directly, raise a missing-method error on such a context.
- WaitEngine.Eval: the kind of exception (TypeError, Watir errors) is folded into `Raised` and `NoMethod`.

## Findings

| source | as written | input that shows it | evidently intended | confidence | as-written member | corrected member |
|---|---|---|---|---|---|---|
| lib/lapis_lazuli/browser.rb:225-236 | the defaults, including `:list => args`, are merged into a single option hash before the assertion that it has `:list`, so the assertion can never fail | `wait_multiple({:timeout => 3})`: instead of the "Need to provide a list of element selectors." error, the option hash itself becomes the one item waited for; since the defaults were merged into that same hash, the item also carries `:timeout`, `:condition`, `:operator`, `:list` and the other defaults as selector keys (the model, which treats copies as values, waits for the hash as the caller gave it) | a single option hash without `:list` is rejected | not executed | WaitEngine.ListCheckNeverFires | WaitEngine.WaitRequestDefaults |
| lib/lapis_lazuli/browser.rb:544-550 | `findRandomized` switches to findAllPresent when `:present` is given and falsy | `findRandomized(:button => {...}, :present => false)` on a page whose only matching button is hidden: `find` with the same settings returns it, `findRandomized` never does | the same rule as `find` (browser.rb:586-591): findAll for a falsy `:present`, findAllPresent otherwise | not executed | Finder.RandomizedDropsHiddenElements | Finder.FindRandomizedCorrected |
