# WPScan pre-scan gate, modelled in Dafny

This project models the `Core` controller of WPScan (`WPScan::Controller::Core`,
`app/controllers/core.rb`). Before any scanning starts, this controller:

1. decides whether the local vulnerability database must be updated
   (`update_db_required?`). It may ask the operator, and it raises
   `MissingDatabaseFile` when the files are missing and `--no-update` was given;
2. runs the update (`update_db`). When no `--url` was given, the process then
   ends with status 0;
3. selects the web-server module (`load_server_module`). An explicit `--server`
   beats the detected server, which beats the default `Apache`. The module is
   bound to the target and to the `WpItem` class;
4. validates the target (`check_wordpress_state`). A hosted blog raises
   `WordPressHostedError`. A homepage still on the install page exits with
   `ExitCode::VULNERABLE`. A target that is not WordPress raises
   `NotWordPressError` unless `--force` was given;
5. puts these steps in order (`before_scan`).

Files:

- `regex.dfy`, module `RubyRegex`: the two Ruby regular expressions the gate
  uses, `/^y/i` on the prompt answer and `%r{/wp-admin/install.php$}i` on the
  homepage path. The model follows Ruby's rules: `^` and `$` are line anchors,
  an unescaped `.` matches any character but a newline, and `/i` ignores case.
  Each pattern has two definitions. A ghost predicate says what a match is. A
  recursive scan is what the gate evaluates. The scan's contract proves that
  the two agree.
- `gate.dfy`, module `Gate`: the decisions as functions of their inputs.
  These are `UpdateDbRequired`, `CheckWordPressState` and `ServerModule`.
  `BeforeScan` gives the whole sequence: the steps taken, how the run ends and
  which server module is bound. The module also holds the lemmas that state
  the gate's properties.
- `controller.dfy`, module `Controller`: classes `Core`, `Target`, `WpItem` and
  `Updater`. Their methods mirror the Ruby methods and update state in place:
  the memoised `@local_db`, the `@last_update` snapshot, the update count, the
  updater's own `last_update` and the server module bound to the target and to
  `WpItem`. The decision methods (`UpdateDbRequired`, `UpdateDb`,
  `UpdateIfRequired`, `LoadServerModule`, `CheckWordPressState`) and
  `BeforeScan` are proved against the `Gate` functions; `LocalDb` is proved to
  memoise. `CheckWordPressState` keeps the method's own chain of early
  returns, and is proved equal to the `Gate` function that specifies it.
  `UpdateOnlyThenHosted` is a usage example with no contract of its
  own: it runs two scans through `BeforeScan` and asserts their outcomes.

Raising an exception or calling `exit` becomes a value (`Halt`: `Raise(error)`
or `Exit(code)`). The method that hits it returns that value, and no later step
runs.

Three details of the code that the model keeps:

- the prompt answer is not trimmed: the raw line is tested with `/^y/i`, so
  `" y"` means no;
- the install test is looser than a suffix test: `$` also matches just before
  a newline, and the unescaped `.` matches any character except a newline
  (`RubyRegex.UnescapedDot`, `RubyRegex.LineAnchor`);
- whether the operator can be asked is `user_interaction?`, an input here
  (`Console.userInteraction`).

## Model

| member | source | states |
|---|---|---|
| RubyRegex.Fold | app/controllers/core.rb:67 | `/i` folding: an upper-case ASCII letter maps to the same letter in lower case; every other character maps to itself |
| RubyRegex.YesFrom | app/controllers/core.rb:40 | the scan finds a match of `/^y/i` at or after a position exactly when some line of the answer starts there with `y` or `Y` |
| RubyRegex.MatchesYes | app/controllers/core.rb:40 | `answer =~ /^y/i` holds exactly when some line of the answer starts with `y` or `Y` |
| RubyRegex.YesOnOneLine | app/controllers/core.rb:40 | on one line of input, the answer means yes exactly when its first character is `y` or `Y`; nothing is trimmed |
| RubyRegex.InstallFrom | app/controllers/core.rb:67 | the scan finds a match at or after a position exactly when the 21-character pattern matches there and a line ends right after it |
| RubyRegex.MatchesInstall | app/controllers/core.rb:67 | `path =~ %r{/wp-admin/install.php$}i` holds exactly when the pattern matches somewhere and a line ends right after the match |
| RubyRegex.InstallOnOneLine | app/controllers/core.rb:67 | on a path without a newline, the match is a suffix test on the last 21 characters |
| RubyRegex.SuffixMatches | app/controllers/core.rb:67 | any path ending in `/wp-admin/install.php`, with its letters in any case, matches |
| RubyRegex.UnescapedDot | app/controllers/core.rb:67 | `/wp-admin/install_php` matches, because the `.` is not escaped |
| RubyRegex.CaseInsensitive | app/controllers/core.rb:67 | `/WP-Admin/Install.PHP` matches |
| RubyRegex.LineAnchor | app/controllers/core.rb:67 | a match followed by a newline satisfies `$` |
| RubyRegex.TrailingSlash | app/controllers/core.rb:67 | `/wp-admin/install.php/` does not match |
| Gate.MissingFilesDecision | app/controllers/core.rb:27-31 | with files missing, `--no-update` raises MissingDatabaseFile and anything else gives true; no prompt is shown; the result does not depend on outdatedness, interactivity or the answer |
| Gate.ExplicitUpdateWins | app/controllers/core.rb:33 | with files present, an explicit `--[no-]update` is returned verbatim and no prompt is shown |
| Gate.NoPromptNoUpdate | app/controllers/core.rb:35 | with files present and no `--[no-]update`, no interaction or a fresh database gives false without a prompt |
| Gate.AnswerReadOnlyWhenPrompted | app/controllers/core.rb:35-40 | when no prompt is shown, the typed answer does not affect the decision |
| Gate.UpdateDecisionFailsIff | app/controllers/core.rb:26-31 | the decision fails exactly when files are missing and `--no-update` was given, and then with MissingDatabaseFile |
| Gate.PromptAnswer | app/controllers/core.rb:37-40 | at the prompt the decision is true exactly when the line read starts with `y` or `Y`; end of input gives false |
| Gate.PromptAnswerExamples | app/controllers/core.rb:40 | `Y` and `yes` mean yes; the empty line, `n`, `maybe`, ` y` and end of input mean no |
| Gate.HostedAlwaysRefused | app/controllers/core.rb:65 | a hosted target raises WordPressHostedError whether `--force` is given or not |
| Gate.InstallPageExitsVulnerable | app/controllers/core.rb:67-72 | a non-hosted target on the install page exits with VULNERABLE and never raises NotWordPressError |
| Gate.NotWordPressIff | app/controllers/core.rb:74 | after the first two checks, NotWordPressError is raised exactly when the target is not WordPress and there is no `--force`; otherwise the check passes |
| Gate.ForceBypassesOnlyWordPressCheck | app/controllers/core.rb:64-75 | `--force` acts as if the target were WordPress: it never lets NotWordPressError through and changes no other outcome |
| Gate.StateOutcomes | app/controllers/core.rb:64-75 | each of the four outcomes of the state check holds exactly when its cause holds, in the order hosted, install page, not WordPress |
| Gate.ExplicitServerWins | app/controllers/core.rb:86-93 | an explicit `--server` choice (apache, iis or nginx) selects its module whatever was detected, and the module selected is the one that choice names |
| Gate.DetectedServerOtherwise | app/controllers/core.rb:83 | without a `--server` choice the detected server is used, and Apache when detection gives nothing |
| Gate.SequenceInOrder | app/controllers/core.rb:50-60 | whatever each step decides, the steps come in the order of `before_scan`, each at most once, starting with the `@last_update` snapshot |
| Gate.BeforeScanInOrder | app/controllers/core.rb:50-60 | every run of `before_scan` takes its steps in that order |
| Gate.FirstHaltEndsRun | app/controllers/core.rb:50-60 | the lines of `before_scan` run one after another until one raises or exits: in each of the five cases (banner halts; the update decision raises; `update_db` exits; the availability check halts; the state check is reached) the steps taken are exactly those up to that point, the run ends with that halt, and a module is bound only when the state check is reached |
| Gate.UpdateOnlyExits | app/controllers/core.rb:43-48 | an update without `--url` ends with status 0 after the update; no server module is bound and no state check runs |
| Gate.UpdateRunsIff | app/controllers/core.rb:55 | the database is updated exactly when the banner step passes and the decision is true; the prompt appears exactly when the banner step passes and the prompt conditions hold |
| Gate.ProceedsIff | app/controllers/core.rb:50-60 | the scan proceeds exactly when no step halts: banner, update decision, the exit of `update_db`, availability and the state check |
| Gate.ServerBoundBeforeStateCheck | app/controllers/core.rb:58-59 | the state check runs exactly when a server module was bound; the selected module is bound in the step just before the check |
| Gate.StateCheckDecidesEnd | app/controllers/core.rb:59 | once the state check runs, its outcome is the outcome of the run |
| Controller.Updater.Update | app/controllers/core.rb:45 | each update adds one to the updater's count of updates and sets its `last_update` to the time of the update |
| Controller.Core.LocalDb | app/controllers/core.rb:21-23 | `@local_db` is created on first use, then the same updater is returned every time |
| Controller.Core.UpdateDbRequired | app/controllers/core.rb:26-41 | returns the decision of `Gate.UpdateDbRequired` and records a prompt step exactly when the prompt is shown |
| Controller.Core.UpdateDb | app/controllers/core.rb:43-48 | runs one update, which sets the database's `last_update` to the time of the update, then stops with status 0 exactly when no `--url` was given |
| Controller.Core.UpdateIfRequired | app/controllers/core.rb:55 | `update_db if update_db_required?`: records the prompt and update steps, returns the halt, and runs one update (which changes `last_update`) exactly when the decision is true; otherwise `last_update` is unchanged |
| Controller.Core.LoadServerModule | app/controllers/core.rb:82-101 | returns the selected module and binds that same module to the target and to WpItem |
| Controller.Core.CheckWordPressState | app/controllers/core.rb:64-75 | returns the outcome of the three checks of `Gate.CheckWordPressState`; NotWordPressError is never returned under `--force` |
| Controller.Core.BeforeScan | app/controllers/core.rb:50-60 | runs the gate. The steps taken, the outcome and the module bound are those of `Gate.BeforeScan`. `@last_update` is the database's `last_update` as it was before any update of this run, and the database is updated once, changing its `last_update` to the time of the update, exactly when the decision is true |

## Left out

- Console I/O is not modelled: the `output(...)` notices, the `print` of the question and the status messages of `update_db`. The line `Readline.readline` returns is an input (`Console.answer`, None at end of input). `user_interaction?` is an input too.
- DB::Updater is not part of this model. `missing_files?`, `outdated?` and `last_update` are inputs (`Database`). The database directory `DB_DIR` is left out.
- Controller.Updater.Update: records that an update ran and its new `last_update`, but does not model the download. The time is a parameter (`now`) in place of a clock reading.
- `Addressable::URI.parse` is not part of this model. The path of the homepage URL is an input string, and only the regular expression applied to it is modelled.
- RubyRegex.Fold: folds ASCII letters only. Ruby's Unicode case folding (for example U+017F LATIN SMALL LETTER LONG S matching `s`) is not modelled.
- CMSScanner's `maybe_output_banner_help_and_version`, `setup_cache` and `check_target_availability` are not part of this model. They are steps that fix the order. The halt the banner step or the availability check may cause is an input, and `setup_cache` never halts.
- `const_get`, `target.extend` and `WpItem.include` are not modelled as Ruby mixins. The binding is a field set to a `Server` value on `Target` and on `WpItem`, and detection yields only the three known servers.
- `cli_options` and its option parsing are not modelled (`required_unless`, `normalize`, the other CMSScanner options). Options arrive already parsed. `--server` is a downcased string; a value outside the choices falls through the `case` to detection, as in the code. `--verbose` only affects output and is left out.
- Exits and exceptions are values. The mapping of an uncaught exception to the process exit status is not modelled. The numeric value of `ExitCode::VULNERABLE` is defined in CMSScanner, which is not part of this model, so it is the constant `Vulnerable`.
