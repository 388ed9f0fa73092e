/**
 * The decisions of WPScan's pre-scan gate (the `Core` controller,
 * app/controllers/core.rb) as functions of their inputs, and the whole
 * `before_scan` sequence as one function that gives the steps taken and
 * how the run ends.
 *
 * What the Ruby code raises or exits with becomes a `Halt` value; the
 * collaborators it queries (the local database, the target, the console)
 * are plain values here.
 */
module Gate {
  import RubyRegex

  datatype Option<T> = None | Some(value: T)

  datatype Result<T> = Ok(value: T) | Err(error: Error)

  /** The server modules of CMSScanner::Target::Server that the gate can load. */
  datatype Server = Apache | IIS | Nginx

  /** The exceptions the gate raises, and one for those its collaborators raise. */
  datatype Error =
    | MissingDatabaseFile
    | WordPressHostedError
    | NotWordPressError
    | CollaboratorError   // raised by a CMSScanner step (target down, …)

  /** The exit statuses the gate terminates with. */
  datatype ExitCode =
    | Success      // `exit(0)`
    | Vulnerable   // `exit(WPScan::ExitCode::VULNERABLE)`

  /** How a step stops the process. */
  datatype Halt = Exit(code: ExitCode) | Raise(error: Error)

  /** How `before_scan` ends: the scan goes on, or the process stops. */
  datatype End = Proceed | Halted(halt: Halt)

  /**
   * The parsed command-line options the gate reads. `update` is the
   * tri-state `--[no-]update` (nil when not given); `server` is the
   * `--server` value after `normalize: [downcase, to_sym]`.
   */
  datatype Options = Options(
    url: Option<string>,
    update: Option<bool>,
    server: Option<string>,
    force: bool)

  /** What DB::Updater answers about the local database. */
  datatype Database = Database(missingFiles: bool, outdated: bool, lastUpdate: Option<int>)

  /** What the target answers: `wordpress?`, `wordpress_hosted?`, the path of `homepage_url`, `server`. */
  datatype Site = Site(wordpress: bool, hosted: bool, homepagePath: string, server: Option<Server>)

  /** Whether the operator may be prompted, and the line read at the prompt (None on end of input). */
  datatype Console = Console(userInteraction: bool, answer: Option<string>)

  /**
   * Everything the gate consults. `banner` and `availability` stand for
   * the CMSScanner steps `maybe_output_banner_help_and_version` and
   * `check_target_availability`: the halt they cause, if any.
   */
  datatype Env = Env(
    db: Database,
    site: Site,
    console: Console,
    banner: Option<Halt>,
    availability: Option<Halt>)

  // -----------------------------------------------------------------------
  // update_db_required?

  /** The prompt is shown: files present, no `--[no-]update`, interactive and outdated. */
  predicate PromptsForUpdate(o: Options, db: Database, console: Console)
  {
    !db.missingFiles && o.update.None? && console.userInteraction && db.outdated
  }

  /** `Readline.readline =~ /^y/i ? true : false`; nil (end of input) never matches. */
  function AnswerIsYes(answer: Option<string>): bool
  {
    answer.Some? && RubyRegex.MatchesYes(answer.value)
  }

  /** `update_db_required?`: whether to update the database, or MissingDatabaseFile. */
  function UpdateDbRequired(o: Options, db: Database, console: Console): Result<bool>
  {
    if db.missingFiles then
      if o.update == Some(false) then Err(MissingDatabaseFile) else Ok(true)
    else if o.update.Some? then Ok(o.update.value)
    else if !(console.userInteraction && db.outdated) then Ok(false)
    else Ok(AnswerIsYes(console.answer))
  }

  /** Missing files force an update, unless `--no-update` was given, which is fatal. */
  lemma MissingFilesDecision(o: Options, db: Database, console: Console)
    requires db.missingFiles
    ensures o.update == Some(false) ==> UpdateDbRequired(o, db, console) == Err(MissingDatabaseFile)
    ensures o.update != Some(false) ==> UpdateDbRequired(o, db, console) == Ok(true)
    ensures !PromptsForUpdate(o, db, console)
    ensures forall outdated: bool, c: Console ::
              UpdateDbRequired(o, db.(outdated := outdated), c) == UpdateDbRequired(o, db, console)
  {
  }

  /** With the files present, an explicit `--[no-]update` is the answer, whatever else holds. */
  lemma ExplicitUpdateWins(o: Options, db: Database, console: Console)
    requires !db.missingFiles && o.update.Some?
    ensures UpdateDbRequired(o, db, console) == Ok(o.update.value)
    ensures !PromptsForUpdate(o, db, console)
  {
  }

  /** No prompt, no explicit option, files present: no update. */
  lemma NoPromptNoUpdate(o: Options, db: Database, console: Console)
    requires !db.missingFiles && o.update.None?
    requires !console.userInteraction || !db.outdated
    ensures UpdateDbRequired(o, db, console) == Ok(false)
    ensures !PromptsForUpdate(o, db, console)
  {
  }

  /** The typed answer is read only when the prompt is shown. */
  lemma AnswerReadOnlyWhenPrompted(o: Options, db: Database, console: Console, other: Option<string>)
    requires !PromptsForUpdate(o, db, console)
    ensures UpdateDbRequired(o, db, console.(answer := other)) == UpdateDbRequired(o, db, console)
  {
  }

  /** The only failure of the decision is missing files under `--no-update`. */
  lemma UpdateDecisionFailsIff(o: Options, db: Database, console: Console)
    ensures UpdateDbRequired(o, db, console).Err? <==> db.missingFiles && o.update == Some(false)
    ensures UpdateDbRequired(o, db, console).Err? ==> UpdateDbRequired(o, db, console).error == MissingDatabaseFile
  {
  }

  /**
   * At the prompt the answer decides: a line read from the console says
   * yes exactly when its first character is `y` or `Y` (no trimming).
   */
  lemma {:induction false} PromptAnswer(o: Options, db: Database, console: Console)
    requires PromptsForUpdate(o, db, console)
    requires console.answer.Some? ==> '\n' !in console.answer.value
    ensures UpdateDbRequired(o, db, console) ==
              Ok(match console.answer
                 case None => false
                 case Some(line) => |line| > 0 && (line[0] == 'y' || line[0] == 'Y'))
  {
    if console.answer.Some? {
      RubyRegex.YesOnOneLine(console.answer.value);
    }
  }

  /** Sample answers at the prompt. */
  lemma PromptAnswerExamples()
    ensures AnswerIsYes(Some("Y")) && AnswerIsYes(Some("yes"))
    ensures !AnswerIsYes(Some("")) && !AnswerIsYes(Some("n")) && !AnswerIsYes(Some("maybe"))
    ensures !AnswerIsYes(Some(" y")) && !AnswerIsYes(None)
  {
    RubyRegex.YesOnOneLine("Y");
    RubyRegex.YesOnOneLine("yes");
    RubyRegex.YesOnOneLine("");
    RubyRegex.YesOnOneLine("n");
    RubyRegex.YesOnOneLine("maybe");
    RubyRegex.YesOnOneLine(" y");
  }

  // -----------------------------------------------------------------------
  // check_wordpress_state

  /** `check_wordpress_state`: the halt it causes, or None when the target passes. */
  function CheckWordPressState(site: Site, force: bool): Option<Halt>
  {
    if site.hosted then Some(Raise(WordPressHostedError))
    else if RubyRegex.MatchesInstall(site.homepagePath) then Some(Exit(Vulnerable))
    else if !(site.wordpress || force) then Some(Raise(NotWordPressError))
    else None
  }

  /** A hosted target is refused first, `--force` or not. */
  lemma HostedAlwaysRefused(site: Site, force: bool)
    requires site.hosted
    ensures CheckWordPressState(site, force) == Some(Raise(WordPressHostedError))
  {
  }

  /**
   * A homepage still on the install page stops with VULNERABLE and is
   * never reported as not WordPress.
   */
  lemma InstallPageExitsVulnerable(site: Site, force: bool)
    requires !site.hosted && RubyRegex.InstallMatches(site.homepagePath)
    ensures CheckWordPressState(site, force) == Some(Exit(Vulnerable))
  {
  }

  /** Past the first two checks, NotWordPressError is raised exactly when neither WordPress nor `--force`. */
  lemma NotWordPressIff(site: Site, force: bool)
    requires !site.hosted && !RubyRegex.InstallMatches(site.homepagePath)
    ensures CheckWordPressState(site, force) == Some(Raise(NotWordPressError)) <==> !site.wordpress && !force
    ensures CheckWordPressState(site, force) == None <==> site.wordpress || force
  {
  }

  /** `--force` bypasses only the last check: it acts as if the target were WordPress. */
  lemma ForceBypassesOnlyWordPressCheck(site: Site)
    ensures CheckWordPressState(site, true) == CheckWordPressState(site.(wordpress := true), false)
    ensures CheckWordPressState(site, true) != Some(Raise(NotWordPressError))
    ensures CheckWordPressState(site, false) != CheckWordPressState(site, true) ==>
              CheckWordPressState(site, false) == Some(Raise(NotWordPressError))
  {
  }

  /** The three checks give one of four outcomes, each named by its cause. */
  lemma StateOutcomes(site: Site, force: bool)
    ensures CheckWordPressState(site, force) == Some(Raise(WordPressHostedError)) <==> site.hosted
    ensures CheckWordPressState(site, force) == Some(Exit(Vulnerable)) <==>
              !site.hosted && RubyRegex.InstallMatches(site.homepagePath)
    ensures CheckWordPressState(site, force) == Some(Raise(NotWordPressError)) <==>
              !site.hosted && !RubyRegex.InstallMatches(site.homepagePath) && !site.wordpress && !force
    ensures CheckWordPressState(site, force) == None <==>
              !site.hosted && !RubyRegex.InstallMatches(site.homepagePath) && (site.wordpress || force)
  {
  }

  // -----------------------------------------------------------------------
  // load_server_module

  /** The `--server` choices of `cli_options`, already downcased. */
  const SERVER_CHOICES: set<string> := {"apache", "iis", "nginx"}

  /** Which module each choice forces. */
  const CHOSEN_MODULE: map<string, Server> := map["apache" := Apache, "iis" := IIS, "nginx" := Nginx]

  /** The module `load_server_module` loads: the `case` over `--server`, else detection, else Apache. */
  function ServerModule(choice: Option<string>, detected: Option<Server>): Server
  {
    var server := if detected.Some? then detected.value else Apache;
    if choice == Some("apache") then Apache
    else if choice == Some("iis") then IIS
    else if choice == Some("nginx") then Nginx
    else server
  }

  /** The `--server` value that forces each module. */
  function ChoiceFor(server: Server): string
  {
    match server
    case Apache => "apache"
    case IIS => "iis"
    case Nginx => "nginx"
  }

  /**
   * An explicit `--server` overrides detection, and the module it loads is
   * the one that choice names: choices and modules correspond one to one.
   */
  lemma ExplicitServerWins(choice: string, detected: Option<Server>)
    requires choice in SERVER_CHOICES
    ensures ServerModule(Some(choice), detected) == CHOSEN_MODULE[choice]
    ensures ChoiceFor(ServerModule(Some(choice), detected)) == choice
  {
  }

  /** Without `--server` (or with a value outside the choices) the detected server is used, Apache if none. */
  lemma DetectedServerOtherwise(choice: Option<string>, detected: Option<Server>)
    requires choice.None? || choice.value !in SERVER_CHOICES
    ensures detected.Some? ==> ServerModule(choice, detected) == detected.value
    ensures detected.None? ==> ServerModule(choice, detected) == Apache
  {
  }

  // -----------------------------------------------------------------------
  // before_scan and update_db

  /** The observable steps of `before_scan`, in the order they may occur. */
  datatype Step =
    | SnapshotLastUpdate          // @last_update = local_db.last_update
    | BannerHelpVersion           // maybe_output_banner_help_and_version
    | UpdatePrompt                // the notice and the question of update_db_required?
    | DatabaseUpdate              // local_db.update, from update_db
    | SetupCache                  // setup_cache
    | CheckTargetAvailability     // check_target_availability
    | BindServerModule(server: Server)   // load_server_module: target.extend and WpItem.include
    | CheckState                  // check_wordpress_state

  /** Position of a step in the fixed order of `before_scan`. */
  function Rank(s: Step): nat
  {
    match s
    case SnapshotLastUpdate => 0
    case BannerHelpVersion => 1
    case UpdatePrompt => 2
    case DatabaseUpdate => 3
    case SetupCache => 4
    case CheckTargetAvailability => 5
    case BindServerModule(_) => 6
    case CheckState => 7
  }

  /** A run of the gate: the steps taken, how it ends, and the server module bound, if any. */
  datatype Run = Run(steps: seq<Step>, end: End, bound: Option<Server>)

  /** `update_db`: after the update, stop with status 0 unless a `--url` was given. */
  function UpdateDbExit(o: Options): Option<Halt>
  {
    if o.url.None? then Some(Exit(Success)) else None
  }

  /** What each step of `before_scan` decides, taken one step at a time. */
  datatype Outcomes = Outcomes(
    banner: Option<Halt>,         // maybe_output_banner_help_and_version
    prompted: bool,               // update_db_required? showed its prompt
    required: Result<bool>,       // update_db_required?
    updateExit: Option<Halt>,     // the exit of update_db
    availability: Option<Halt>,   // check_target_availability
    server: Server,               // load_server_module
    state: Option<Halt>)          // check_wordpress_state

  /** The outcome of every step for the given options and environment. */
  function StepOutcomes(o: Options, env: Env): Outcomes
  {
    Outcomes(
      env.banner,
      PromptsForUpdate(o, env.db, env.console),
      UpdateDbRequired(o, env.db, env.console),
      UpdateDbExit(o),
      env.availability,
      ServerModule(o.server, env.site.server),
      CheckWordPressState(env.site, o.force))
  }

  /** The tail of `before_scan` from `setup_cache` on. */
  function AfterUpdate(x: Outcomes): Run
  {
    var head := [SetupCache, CheckTargetAvailability];
    if x.availability.Some? then Run(head, Halted(x.availability.value), None)
    else
      var end := match x.state
                 case None => Proceed
                 case Some(h) => Halted(h);
      Run(head + [BindServerModule(x.server), CheckState], end, Some(x.server))
  }

  /** The steps a phase of `before_scan` takes, and the halt it causes, if any. */
  datatype Phase = Phase(steps: seq<Step>, halt: Option<Halt>)

  /** `update_db if update_db_required?`. */
  function UpdatePhase(x: Outcomes): Phase
  {
    var prompt := if x.prompted then [UpdatePrompt] else [];
    match x.required
    case Err(e) => Phase(prompt, Some(Raise(e)))
    case Ok(required) =>
      if required then Phase(prompt + [DatabaseUpdate], x.updateExit) else Phase(prompt, None)
  }

  /** The update phase and what follows it. */
  function AfterBanner(x: Outcomes): Run
  {
    var update := UpdatePhase(x);
    if update.halt.Some? then Run(update.steps, Halted(update.halt.value), None)
    else
      var rest := AfterUpdate(x);
      rest.(steps := update.steps + rest.steps)
  }

  /** The order of `before_scan`, stopping at the first step that halts. */
  function Sequence(x: Outcomes): Run
  {
    var head := [SnapshotLastUpdate, BannerHelpVersion];
    if x.banner.Some? then Run(head, Halted(x.banner.value), None)
    else
      var rest := AfterBanner(x);
      rest.(steps := head + rest.steps)
  }

  /** `before_scan`, as the steps it takes, how it ends and what it binds. */
  function BeforeScan(o: Options, env: Env): Run
  {
    Sequence(StepOutcomes(o, env))
  }

  // Properties of the whole gate

  /** Steps strictly follow the order of `before_scan`; none is repeated. */
  ghost predicate InOrder(steps: seq<Step>)
  {
    forall i, j :: 0 <= i < j < |steps| ==> Rank(steps[i]) < Rank(steps[j])
  }

  /** All ranks of `steps` lie in the range [lo, hi). */
  ghost predicate RanksWithin(steps: seq<Step>, lo: nat, hi: nat)
  {
    forall i :: 0 <= i < |steps| ==> lo <= Rank(steps[i]) < hi
  }

  /** Two ordered runs of steps, the second ranked above the first, make an ordered run. */
  lemma {:induction false} InOrderConcat(a: seq<Step>, b: seq<Step>, lo: nat, mid: nat, hi: nat)
    requires lo <= mid <= hi
    requires InOrder(a) && RanksWithin(a, lo, mid)
    requires InOrder(b) && RanksWithin(b, mid, hi)
    ensures InOrder(a + b) && RanksWithin(a + b, lo, hi)
  {
    var s := a + b;
    forall i | 0 <= i < |s| ensures lo <= Rank(s[i]) < hi {
      if i < |a| {
        assert s[i] == a[i];
      } else {
        assert s[i] == b[i - |a|];
      }
    }
    forall i, j | 0 <= i < j < |s| ensures Rank(s[i]) < Rank(s[j]) {
      if j < |a| {
        assert s[i] == a[i] && s[j] == a[j];
      } else if i >= |a| {
        assert s[i] == b[i - |a|] && s[j] == b[j - |a|];
      } else {
        assert s[i] == a[i] && s[j] == b[j - |a|];
      }
    }
  }

  lemma {:induction false} AfterUpdateInOrder(x: Outcomes)
    ensures InOrder(AfterUpdate(x).steps)
    ensures RanksWithin(AfterUpdate(x).steps, 4, 8)
  {
  }

  lemma {:induction false} AfterBannerInOrder(x: Outcomes)
    ensures InOrder(AfterBanner(x).steps)
    ensures RanksWithin(AfterBanner(x).steps, 2, 8)
  {
    var prompt := if x.prompted then [UpdatePrompt] else [];
    assert InOrder(prompt) && RanksWithin(prompt, 2, 3);
    InOrderConcat(prompt, [DatabaseUpdate], 2, 3, 4);
    var update := UpdatePhase(x).steps;
    assert InOrder(update) && RanksWithin(update, 2, 4);
    if UpdatePhase(x).halt.None? {
      AfterUpdateInOrder(x);
      InOrderConcat(update, AfterUpdate(x).steps, 2, 4, 8);
    }
  }

  /** Whatever each step decides, the steps follow the source's order, each at most once. */
  lemma {:induction false} SequenceInOrder(x: Outcomes)
    ensures InOrder(Sequence(x).steps)
    ensures Sequence(x).steps[0] == SnapshotLastUpdate
  {
    AfterBannerInOrder(x);
    InOrderConcat([SnapshotLastUpdate, BannerHelpVersion], AfterBanner(x).steps, 0, 2, 8);
  }

  /** Every run of `before_scan` takes its steps in the source's order, each at most once. */
  lemma {:induction false} BeforeScanInOrder(o: Options, env: Env)
    ensures InOrder(BeforeScan(o, env).steps)
    ensures BeforeScan(o, env).steps[0] == SnapshotLastUpdate
  {
    SequenceInOrder(StepOutcomes(o, env));
  }

  /** The steps `update_db if update_db_required?` adds when reached: the prompt, then the update. */
  function UpdateSteps(o: Options, env: Env): seq<Step>
  {
    (if PromptsForUpdate(o, env.db, env.console) then [UpdatePrompt] else []) +
    (if UpdateDbRequired(o, env.db, env.console) == Ok(true) then [DatabaseUpdate] else [])
  }

  /** `update_db if update_db_required?` returns normally, so `setup_cache` is reached. */
  predicate UpdatePasses(o: Options, env: Env)
  {
    var required := UpdateDbRequired(o, env.db, env.console);
    required.Ok? && !(required.value && o.url.None?)
  }

  /**
   * `before_scan` runs its lines one after the other until one raises or
   * exits: the steps taken are exactly those up to the first that halts,
   * and that halt is how the run ends. Each of the five cases gives the
   * whole run.
   */
  lemma {:induction false} FirstHaltEndsRun(o: Options, env: Env)
    ensures env.banner.Some? ==>
              BeforeScan(o, env) == Run([SnapshotLastUpdate, BannerHelpVersion], Halted(env.banner.value), None)
    ensures env.banner.None? && UpdateDbRequired(o, env.db, env.console).Err? ==>
              BeforeScan(o, env) == Run([SnapshotLastUpdate, BannerHelpVersion],
                                        Halted(Raise(UpdateDbRequired(o, env.db, env.console).error)), None)
    ensures env.banner.None? && UpdateDbRequired(o, env.db, env.console) == Ok(true) && o.url.None? ==>
              BeforeScan(o, env) == Run([SnapshotLastUpdate, BannerHelpVersion] + UpdateSteps(o, env),
                                        Halted(Exit(Success)), None)
    ensures env.banner.None? && UpdatePasses(o, env) && env.availability.Some? ==>
              BeforeScan(o, env) == Run([SnapshotLastUpdate, BannerHelpVersion] + UpdateSteps(o, env) +
                                          [SetupCache, CheckTargetAvailability],
                                        Halted(env.availability.value), None)
    ensures env.banner.None? && UpdatePasses(o, env) && env.availability.None? ==>
              var server := ServerModule(o.server, env.site.server);
              BeforeScan(o, env) == Run([SnapshotLastUpdate, BannerHelpVersion] + UpdateSteps(o, env) +
                                          [SetupCache, CheckTargetAvailability, BindServerModule(server), CheckState],
                                        match CheckWordPressState(env.site, o.force)
                                        case None => Proceed
                                        case Some(h) => Halted(h),
                                        Some(server))
  {
  }

  /** An update with no `--url` ends the run with status 0 before any server loading or state check. */
  lemma UpdateOnlyExits(o: Options, env: Env)
    requires env.banner.None? && UpdateDbRequired(o, env.db, env.console) == Ok(true) && o.url.None?
    ensures BeforeScan(o, env).end == Halted(Exit(Success))
    ensures BeforeScan(o, env).bound == None
    ensures DatabaseUpdate in BeforeScan(o, env).steps
    ensures forall s :: s in BeforeScan(o, env).steps ==> Rank(s) < 4
  {
  }

  /** The banner step lets the run through and the decision asks for an update. */
  predicate UpdateRuns(o: Options, env: Env)
  {
    env.banner.None? && UpdateDbRequired(o, env.db, env.console) == Ok(true)
  }

  /** The database is updated exactly when the banner step lets the run through and the decision says so. */
  lemma {:induction false} UpdateRunsIff(o: Options, env: Env)
    ensures DatabaseUpdate in BeforeScan(o, env).steps <==> UpdateRuns(o, env)
    ensures UpdatePrompt in BeforeScan(o, env).steps <==>
              env.banner.None? && PromptsForUpdate(o, env.db, env.console)
  {
    AfterUpdateInOrder(StepOutcomes(o, env));
    var steps := BeforeScan(o, env).steps;
    if DatabaseUpdate in steps || UpdatePrompt in steps {
      assert env.banner.None?;
    }
  }

  /**
   * The scan proceeds exactly when no step halts: the banner step, the
   * update decision, `update_db`'s exit, availability and the state check.
   */
  lemma ProceedsIff(o: Options, env: Env)
    ensures BeforeScan(o, env).end == Proceed <==>
              && env.banner.None?
              && UpdateDbRequired(o, env.db, env.console).Ok?
              && (UpdateDbRequired(o, env.db, env.console).value ==> o.url.Some?)
              && env.availability.None?
              && CheckWordPressState(env.site, o.force).None?
  {
  }

  /**
   * The state check runs only after the server module is bound, as the
   * step just before it, and the module bound is the one selected.
   */
  lemma {:induction false} ServerBoundBeforeStateCheck(o: Options, env: Env)
    ensures var run := BeforeScan(o, env);
            CheckState in run.steps <==> run.bound.Some?
    ensures var run := BeforeScan(o, env);
            run.bound.Some? ==>
              && run.bound.value == ServerModule(o.server, env.site.server)
              && |run.steps| >= 2
              && run.steps[|run.steps| - 1] == CheckState
              && run.steps[|run.steps| - 2] == BindServerModule(run.bound.value)
  {
    AfterUpdateInOrder(StepOutcomes(o, env));
    AfterBannerInOrder(StepOutcomes(o, env));
    var run := BeforeScan(o, env);
    if CheckState in run.steps {
      assert env.banner.None?;
    }
  }

  /** Once the state check is reached, its outcome is the run's outcome. */
  lemma StateCheckDecidesEnd(o: Options, env: Env)
    requires CheckState in BeforeScan(o, env).steps
    ensures BeforeScan(o, env).end ==
              match CheckWordPressState(env.site, o.force)
              case None => Proceed
              case Some(h) => Halted(h)
  {
    ServerBoundBeforeStateCheck(o, env);
  }
}
