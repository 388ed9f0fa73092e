/**
 * WPScan's `Core` controller (app/controllers/core.rb) as a class whose
 * methods run the steps of `before_scan` in order, update the controller's
 * own fields (`@local_db`, `@last_update`) and bind the selected server
 * module to the target and to the `WpItem` class.
 *
 * The decision methods and BeforeScan are proved against the functions of
 * module Gate, and LocalDb is proved to memoise; the properties of the gate
 * are proved about those functions.
 */
module Controller {
  import opened Gate
  import RubyRegex

  /**
   * DB::Updater over the database directory: what it finds there, the time
   * of its last update, and how many updates it ran.
   */
  class Updater {
    const state: Database
    var lastUpdate: Option<int>
    var updates: nat

    constructor (state: Database)
      ensures this.state == state && lastUpdate == state.lastUpdate && updates == 0
    {
      this.state := state;
      lastUpdate := state.lastUpdate;
      updates := 0;
    }

    /**
     * `update`: the download itself is not modelled; the update happened,
     * and `last_update` is now the time `now` read from the clock.
     */
    method Update(now: int)
      modifies this
      ensures updates == old(updates) + 1
      ensures lastUpdate == Some(now)
    {
      updates := updates + 1;
      lastUpdate := Some(now);
    }
  }

  /** The scan target: what detection says about it, and the server module it was extended with. */
  class Target {
    const site: Site
    var serverModule: Option<Server>

    constructor (site: Site)
      ensures this.site == site && serverModule == None
    {
      this.site := site;
      serverModule := None;
    }
  }

  /** The `WpItem` class, shared by every item of the run: the server module included into it. */
  class WpItem {
    var serverModule: Option<Server>

    constructor ()
      ensures serverModule == None
    {
      serverModule := None;
    }
  }

  class Core {
    const options: Options
    const dbState: Database        // what DB::Updater.new(DB_DIR) finds
    const console: Console
    const banner: Option<Halt>     // outcome of maybe_output_banner_help_and_version
    const availability: Option<Halt>   // outcome of check_target_availability
    const target: Target
    const wpItem: WpItem

    var localDb: Updater?          // @local_db
    var lastUpdate: Option<int>    // @last_update
    ghost var trace: seq<Step>     // the steps taken so far

    /** The memoised updater, once created, is the one over the database directory. */
    ghost predicate Valid()
      reads this, localDb
    {
      localDb != null ==> localDb.state == dbState
    }

    /** The inputs of the gate, as module Gate takes them. */
    ghost function Environment(): Env
    {
      Env(dbState, target.site, console, banner, availability)
    }

    /** `local_db.last_update`, whether or not the updater was created yet. */
    ghost function DbLastUpdate(): Option<int>
      reads this, localDb
    {
      if localDb == null then dbState.lastUpdate else localDb.lastUpdate
    }

    /** Database updates run so far. */
    ghost function Updates(): nat
      reads this, localDb
    {
      if localDb == null then 0 else localDb.updates
    }

    constructor (options: Options, dbState: Database, console: Console,
                 banner: Option<Halt>, availability: Option<Halt>, target: Target, wpItem: WpItem)
      ensures Valid()
      ensures this.options == options && this.dbState == dbState && this.console == console
      ensures this.banner == banner && this.availability == availability
      ensures this.target == target && this.wpItem == wpItem
      ensures localDb == null && lastUpdate == None && trace == []
    {
      this.options := options;
      this.dbState := dbState;
      this.console := console;
      this.banner := banner;
      this.availability := availability;
      this.target := target;
      this.wpItem := wpItem;
      localDb := null;
      lastUpdate := None;
      trace := [];
    }

    /** `local_db`: the updater is created on first use and the same one returned afterwards. */
    method LocalDb() returns (db: Updater)
      requires Valid()
      modifies this`localDb
      ensures Valid() && db == localDb && db.state == dbState
      ensures old(localDb) != null ==> db == old(localDb)
      ensures old(localDb) == null ==> fresh(db) && db.updates == 0
      ensures Updates() == old(Updates()) && DbLastUpdate() == old(DbLastUpdate())
    {
      if localDb == null {
        localDb := new Updater(dbState);
      }
      db := localDb;
    }

    /** `update_db_required?`; the prompt, when shown, is recorded as a step. */
    method UpdateDbRequired() returns (r: Result<bool>)
      requires Valid()
      modifies this`localDb, this`trace
      ensures Valid() && localDb != null
      ensures old(localDb) != null ==> localDb == old(localDb)
      ensures old(localDb) == null ==> fresh(localDb)
      ensures Updates() == old(Updates()) && DbLastUpdate() == old(DbLastUpdate())
      ensures r == Gate.UpdateDbRequired(options, dbState, console)
      ensures trace == old(trace) + (if PromptsForUpdate(options, dbState, console) then [UpdatePrompt] else [])
    {
      var db := LocalDb();
      if db.state.missingFiles {
        if options.update == Some(false) {
          return Err(MissingDatabaseFile);
        }
        return Ok(true);
      }
      if options.update.Some? {
        return Ok(options.update.value);
      }
      if !(console.userInteraction && db.state.outdated) {
        return Ok(false);
      }
      trace := trace + [UpdatePrompt];
      var yes := console.answer.Some? && RubyRegex.MatchesYes(console.answer.value);
      r := Ok(yes);
    }

    /**
     * `update_db`: run the update at time `now`, then stop with status 0 when
     * no `--url` was given.
     */
    method UpdateDb(now: int) returns (halt: Option<Halt>)
      requires Valid()
      modifies this`localDb, this`trace, localDb
      ensures Valid() && localDb != null
      ensures old(localDb) != null ==> localDb == old(localDb)
      ensures old(localDb) == null ==> fresh(localDb)
      ensures Updates() == old(Updates()) + 1 && DbLastUpdate() == Some(now)
      ensures trace == old(trace) + [DatabaseUpdate]
      ensures halt == UpdateDbExit(options)
      ensures halt.Some? <==> options.url.None?
    {
      var db := LocalDb();
      db.Update(now);
      trace := trace + [DatabaseUpdate];
      if options.url.None? {
        return Some(Exit(Success));
      }
      return None;
    }

    /** `update_db if update_db_required?`, at time `now`: the halt it causes, if any. */
    method UpdateIfRequired(now: int) returns (halt: Option<Halt>)
      requires Valid()
      modifies this`localDb, this`trace, localDb
      ensures Valid() && localDb != null
      ensures old(localDb) != null ==> localDb == old(localDb)
      ensures old(localDb) == null ==> fresh(localDb)
      ensures var phase := UpdatePhase(StepOutcomes(options, Environment()));
              halt == phase.halt && trace == old(trace) + phase.steps
      ensures Gate.UpdateDbRequired(options, dbState, console) == Ok(true) ==>
                Updates() == old(Updates()) + 1 && DbLastUpdate() == Some(now)
      ensures Gate.UpdateDbRequired(options, dbState, console) != Ok(true) ==>
                Updates() == old(Updates()) && DbLastUpdate() == old(DbLastUpdate())
    {
      var required := UpdateDbRequired();
      if required.Err? {
        return Some(Raise(required.error));
      }
      if required.value {
        halt := UpdateDb(now);
      } else {
        halt := None;
      }
    }

    /** `load_server_module`: select the module and bind it to the target and to WpItem. */
    method LoadServerModule() returns (server: Server)
      modifies target, wpItem
      ensures server == ServerModule(options.server, target.site.server)
      ensures target.serverModule == Some(server) && wpItem.serverModule == Some(server)
    {
      server := if target.site.server.Some? then target.site.server.value else Apache;
      if options.server == Some("apache") {
        server := Apache;
      } else if options.server == Some("iis") {
        server := IIS;
      } else if options.server == Some("nginx") {
        server := Nginx;
      }
      target.serverModule := Some(server);
      wpItem.serverModule := Some(server);
    }

    /** `check_wordpress_state`: the halt it causes, or None when the target passes. */
    method CheckWordPressState() returns (halt: Option<Halt>)
      ensures halt == Gate.CheckWordPressState(target.site, options.force)
      ensures halt.Some? && halt.value == Raise(NotWordPressError) ==> !options.force
    {
      if target.site.hosted {
        return Some(Raise(WordPressHostedError));
      }
      if RubyRegex.MatchesInstall(target.site.homepagePath) {
        return Some(Exit(Vulnerable));
      }
      if !(target.site.wordpress || options.force) {
        return Some(Raise(NotWordPressError));
      }
      return None;
    }

    /**
     * `before_scan`, with `now` the clock reading an update records: the
     * steps of the gate in order, stopping at the first that halts. The new
     * state is the one module Gate's BeforeScan gives; `@last_update` is the
     * database's last update as it was before any update of this run.
     */
    method BeforeScan(now: int) returns (end: End)
      requires Valid()
      modifies this, target, wpItem, localDb
      ensures Valid() && localDb != null
      ensures old(localDb) != null ==> localDb == old(localDb)
      ensures old(localDb) == null ==> fresh(localDb)
      ensures var run := Gate.BeforeScan(options, Environment());
              && end == run.end
              && trace == old(trace) + run.steps
              && lastUpdate == old(DbLastUpdate())
              && Updates() == old(Updates()) + (if UpdateRuns(options, Environment()) then 1 else 0)
              && DbLastUpdate() == (if UpdateRuns(options, Environment()) then Some(now) else old(DbLastUpdate()))
              && target.serverModule == (if run.bound.Some? then run.bound else old(target.serverModule))
              && wpItem.serverModule == (if run.bound.Some? then run.bound else old(wpItem.serverModule))
    {
      ghost var x := StepOutcomes(options, Environment());
      ghost var run := Sequence(x);
      ghost var update := UpdatePhase(x);
      ghost var tail := AfterUpdate(x);
      ghost var start := trace;
      ghost var before := DbLastUpdate();
      var db := LocalDb();
      lastUpdate := db.lastUpdate;
      assert lastUpdate == before;
      trace := trace + [SnapshotLastUpdate, BannerHelpVersion];
      if banner.Some? {
        return Halted(banner.value);
      }
      var halt := UpdateIfRequired(now);
      assert UpdateRuns(options, Environment()) <==> Gate.UpdateDbRequired(options, dbState, console) == Ok(true);
      if halt.Some? {
        AppendAssoc(start, [SnapshotLastUpdate, BannerHelpVersion], update.steps);
        return Halted(halt.value);
      }
      ghost var prefix := [SnapshotLastUpdate, BannerHelpVersion] + update.steps;
      AppendAssoc(start, [SnapshotLastUpdate, BannerHelpVersion], update.steps);
      assert trace == start + prefix;
      assert run.steps == prefix + tail.steps && run.end == tail.end && run.bound == tail.bound;
      AppendAssoc(start, prefix, tail.steps);
      trace := trace + [SetupCache, CheckTargetAvailability];
      if availability.Some? {
        return Halted(availability.value);
      }
      var server := LoadServerModule();
      AppendAssoc(start + prefix, [SetupCache, CheckTargetAvailability], [BindServerModule(server), CheckState]);
      trace := trace + [BindServerModule(server), CheckState];
      halt := CheckWordPressState();
      end := if halt.Some? then Halted(halt.value) else Proceed;
    }
  }

  /**
   * A caller's view: `--update` without `--url` updates the database and
   * stops with status 0, leaving the target and WpItem without a server
   * module; with a `--url` of a hosted blog the module is bound and the
   * run stops with WordPressHostedError, even under `--force`.
   */
  method UpdateOnlyThenHosted(db: Database, site: Site)
    requires site.hosted
  {
    var target := new Target(site);
    var wpItem := new WpItem();
    var console := Console(false, None);
    var updateOnly := new Core(Options(None, Some(true), None, false), db, console, None, None, target, wpItem);
    var end := updateOnly.BeforeScan(1000);
    UpdateOnlyExits(updateOnly.options, updateOnly.Environment());
    assert end == Halted(Exit(Success));
    assert target.serverModule == None && wpItem.serverModule == None;
    assert updateOnly.Updates() == 1 && updateOnly.lastUpdate == db.lastUpdate;

    var scan := new Core(Options(Some("http://blog.example"), Some(false), Some("nginx"), true),
                         db.(missingFiles := false), console, None, None, target, wpItem);
    end := scan.BeforeScan(2000);
    assert end == Halted(Raise(WordPressHostedError));
    assert target.serverModule == Some(Nginx) && wpItem.serverModule == Some(Nginx);
    assert scan.Updates() == 0;
  }

  /**
   * Regrouping of appended steps. Dafny knows it, but stating it at the
   * points where BeforeScan appends keeps that proof within its resource
   * limit.
   */
  lemma AppendAssoc(a: seq<Step>, b: seq<Step>, c: seq<Step>)
    ensures a + (b + c) == a + b + c
  {
  }
}
