/** The feature commands: checkout and create orchestration over the feature store,
    the git working copy and the external commands of the host tool. */
module Commands {
  import opened Php
  import opened FeatureStore

  const ConfigDir := ".project-x/features"

  const CanceledMessage := "Feature checkout canceled"
  const NoBranchMessage := "Branch does not exist"
  const ChangesMessage := "The current branch has changes which need to be committed or stashed."
  const NoDatabaseMessage := "No database file set in configuration."
  const MissingDatabaseMessage := "Database file no longer exists."
  const CompleteMessage := "Feature checkout complete."

  /** The git working copy as the commands observe it: the checked-out branch, the
      branch names `getBranches` lists, and whether there are uncommitted changes. */
  datatype Git = Git(current: string, branches: set<string>, dirty: bool)

  /** What the project looks like from outside the command: its root path and the
      files that exist on disk. */
  datatype Env = Env(root: string, files: set<string>)

  /** An effect on the world outside the in-memory store and git: a host command run,
      the store written to `features.yml`, or a message shown to the user. */
  datatype Effect =
    | Sync(siteEnv: string)                         // platformsh:sync
    | Export(exportDir: string, filename: string)   // db:export
    | Import(sourceFile: string)                    // db:import
    | Persist(snapshot: seq<Feature>)               // configSave
    | Say(text: string)
    | ShowError(text: string)

  /** A step that either completes or raises an exception with a message. */
  datatype Outcome = Pass | Fail(message: string)

  /** Everything a command can change. */
  datatype Session = Session(features: seq<Feature>, git: Git, log: seq<Effect>)

  /** The database file of a record, as a path under the project root. */
  function ImportPath(root: string, database: string): string
  {
    root + "/" + ConfigDir + "/" + database
  }

  /** Branch switching: the outcome and the git state afterwards. `continueAnyway` is
      the user's answer to the question asked when the branch is already checked out. */
  datatype Switch = Switch(outcome: Outcome, git: Git)

  function SwitchBranch(g: Git, name: string, continueAnyway: bool): (r: Switch)
    ensures r.outcome.Pass? <==>
              if name == g.current then continueAnyway else name in g.branches && !g.dirty
    ensures r.outcome.Pass? ==> r.git == g.(current := name)
    ensures r.outcome.Fail? ==> r.git == g
    ensures name == g.current && !continueAnyway ==> r.outcome == Fail(CanceledMessage)
    ensures name != g.current && name !in g.branches ==> r.outcome == Fail(NoBranchMessage)
    ensures name != g.current && name in g.branches && g.dirty ==> r.outcome == Fail(ChangesMessage)
  {
    if name == g.current && !continueAnyway then Switch(Fail(CanceledMessage), g)
    else if name == g.current then Switch(Pass, g)
    else if name !in g.branches then Switch(Fail(NoBranchMessage), g)
    else if g.dirty then Switch(Fail(ChangesMessage), g)
    else Switch(Pass, g.(current := name))
  }

  /** The checks made before importing a record's database. */
  function ImportCheck(env: Env, database: Option<string>): (r: Outcome)
    ensures r.Pass? <==> !Empty(database) && ImportPath(env.root, database.value) in env.files
    ensures Empty(database) ==> r == Fail(NoDatabaseMessage)
    ensures !Empty(database) && ImportPath(env.root, database.value) !in env.files ==>
              r == Fail(MissingDatabaseMessage)
  {
    if Empty(database) then Fail(NoDatabaseMessage)
    else if ImportPath(env.root, database.value) !in env.files then Fail(MissingDatabaseMessage)
    else Pass
  }

  /** The outcome of an import and the session afterwards. */
  datatype Imported = Imported(outcome: Outcome, session: Session)

  /** Importing the database of feature `name`: looks the record up (creating it if
      unknown), checks it and runs the import only when the checks pass. */
  function ImportDatabase(env: Env, s: Session, name: string): (r: Imported)
    ensures r.session.features == GetOrCreate(s.features, name).store && r.session.git == s.git
    ensures var db := GetOrCreate(s.features, name).store[GetOrCreate(s.features, name).index].database;
            && r.outcome == ImportCheck(env, db)
            && (r.outcome.Fail? ==> r.session.log == s.log)
            && (r.outcome.Pass? ==> db.Some? && r.session.log == s.log + [Import(ImportPath(env.root, db.value))])
  {
    var Handle(fs, i) := GetOrCreate(s.features, name);
    var out := ImportCheck(env, fs[i].database);
    if out.Fail? then Imported(out, s.(features := fs))
    else Imported(out, Session(fs, s.git, s.log + [Import(ImportPath(env.root, fs[i].database.value))]))
  }

  /** `feature:create name`. */
  function Create(env: Env, s: Session, name: string, continueAnyway: bool): (r: Session)
    ensures r.git == SwitchBranch(s.git, name, continueAnyway).git
    ensures SwitchBranch(s.git, name, continueAnyway).outcome.Fail? ==>
              r.features == s.features &&
              r.log == s.log + [ShowError(SwitchBranch(s.git, name, continueAnyway).outcome.message)]
    ensures SwitchBranch(s.git, name, continueAnyway).outcome.Pass? ==>
              r.git.current == name && r.features == Created(s.features, name) &&
              r.log == s.log + [Sync(name), Export(ConfigDir, name), Persist(r.features)]
    ensures UniqueNames(s.features) ==> UniqueNames(r.features)
  {
    var sw := SwitchBranch(s.git, name, continueAnyway);
    if sw.outcome.Fail? then s.(log := s.log + [ShowError(sw.outcome.message)])
    else
      var fs := Created(s.features, name);
      Session(fs, sw.git, s.log + [Sync(name), Export(ConfigDir, name), Persist(fs)])
  }

  /** `feature:checkout name`. `createIt` answers the offer to create an unknown feature. */
  function Checkout(env: Env, s: Session, name: string, createIt: bool, continueAnyway: bool): (r: Session)
    ensures HasFeature(s.features, name) ==>
              r.features == s.features && r.git == SwitchBranch(s.git, name, continueAnyway).git
    ensures HasFeature(s.features, name) && SwitchBranch(s.git, name, continueAnyway).outcome.Fail? ==>
              r.log == s.log + [ShowError(SwitchBranch(s.git, name, continueAnyway).outcome.message)]
    ensures HasFeature(s.features, name) && SwitchBranch(s.git, name, continueAnyway).outcome.Pass? ==>
              var db := s.features[FindFirst(s.features, name).value].database;
              r.git.current == name &&
              r.log == s.log + (if ImportCheck(env, db).Pass?
                                then [Import(ImportPath(env.root, db.value)), Say(CompleteMessage)]
                                else [ShowError(ImportCheck(env, db).message)])
    ensures forall k :: |s.log| <= k < |r.log| && r.log[k].Import? ==>
              HasFeature(s.features, name) && SwitchBranch(s.git, name, continueAnyway).outcome.Pass?
    ensures !HasFeature(s.features, name) && !createIt ==> r == s
    ensures !HasFeature(s.features, name) && createIt ==> r == Create(env, s, name, continueAnyway)
    ensures UniqueNames(s.features) ==> UniqueNames(r.features)
  {
    if HasFeature(s.features, name) then
      var sw := SwitchBranch(s.git, name, continueAnyway);
      if sw.outcome.Fail? then s.(log := s.log + [ShowError(sw.outcome.message)])
      else
        var Imported(out, s') := ImportDatabase(env, s.(git := sw.git), name);
        if out.Fail? then s'.(log := s'.log + [ShowError(out.message)])
        else s'.(log := s'.log + [Say(CompleteMessage)])
    else if createIt then Create(env, s, name, continueAnyway)
    else s
  }

  /** Checking out an unknown feature whose branch does not exist, after agreeing to
      create it: the branch switch fails inside create, the error is shown, and the
      store and git are left as they were. */
  lemma CreateOfMissingBranchKeepsStore(env: Env, s: Session, name: string, continueAnyway: bool)
    requires !HasFeature(s.features, name)
    requires name != s.git.current && name !in s.git.branches
    ensures Checkout(env, s, name, true, continueAnyway) ==
              s.(log := s.log + [ShowError(NoBranchMessage)])
  {
  }

  /** Checking out a known feature whose database file was deleted: the branch switch
      stands, no import runs, and the missing-file error is shown. */
  lemma MissingDatabaseKeepsSwitch(env: Env, s: Session, name: string)
    requires HasFeature(s.features, name)
    requires name != s.git.current && name in s.git.branches && !s.git.dirty
    requires s.features[FindFirst(s.features, name).value].database == Some(DatabaseFile(name))
    requires ImportPath(env.root, DatabaseFile(name)) !in env.files
    ensures Checkout(env, s, name, false, false) ==
              Session(s.features, s.git.(current := name), s.log + [ShowError(MissingDatabaseMessage)])
  {
  }

  /** The feature command object: the parsed `features` list, the git working copy and
      the effects issued so far. */
  class FeatureCommand {
    var features: seq<Feature>
    var git: Git
    var log: seq<Effect>
    const env: Env

    /** The store is read once, here; `loaded` is the `features` list of the file. */
    constructor (env: Env, loaded: seq<Feature>, git: Git)
      ensures this.env == env && features == loaded && this.git == git && log == []
    {
      this.env := env;
      features := loaded;
      this.git := git;
      log := [];
    }

    ghost function State(): Session
      reads this
    {
      Session(features, git, log)
    }

    method ConfigExists(name: string) returns (found: bool)
      ensures found <==> HasFeature(features, name)
    {
      found := false;
      for i := 0 to |features|
        invariant found <==> exists j :: 0 <= j < i && features[j].name == name
      {
        if name == features[i].name {
          found := true;
        }
      }
    }

    /** The lookup-or-create accessor; the returned index is the handle through which
        callers update the record in place. */
    method Config(name: string) returns (idx: nat)
      modifies this`features
      ensures Handle(features, idx) == GetOrCreate(old(features), name)
    {
      var i := 0;
      while i < |features|
        invariant i <= |features|
        invariant forall j :: 0 <= j < i ==> features[j].name != name
      {
        if name == features[i].name {
          return i;
        }
        i := i + 1;
      }
      features := features + [NewFeature(name)];
      idx := |features| - 1;
    }

    /** Records the whole in-memory store as the persisted one. */
    method ConfigSave()
      modifies this`log
      ensures log == old(log) + [Persist(features)]
    {
      log := log + [Persist(features)];
    }

    method GitCheckoutBranch(name: string, continueAnyway: bool) returns (out: Outcome)
      modifies this`git
      ensures Switch(out, git) == SwitchBranch(old(git), name, continueAnyway)
    {
      if name == git.current {
        if !continueAnyway {
          return Fail(CanceledMessage);
        }
      }
      if name != git.current {
        if name !in git.branches {
          return Fail(NoBranchMessage);
        }
        if git.dirty {
          return Fail(ChangesMessage);
        }
        git := git.(current := name);
      }
      out := Pass;
    }

    method DrupalImportDatabase(name: string) returns (out: Outcome)
      modifies this`features, this`log
      ensures Imported(out, State()) == ImportDatabase(env, old(State()), name)
    {
      var idx := Config(name);
      var config := features[idx];
      if Empty(config.database) {
        return Fail(NoDatabaseMessage);
      }
      var file := ImportPath(env.root, config.database.value);
      if file !in env.files {
        return Fail(MissingDatabaseMessage);
      }
      log := log + [Import(file)];
      out := Pass;
    }

    method FeatureCreate(name: string, continueAnyway: bool)
      modifies this`features, this`git, this`log
      ensures State() == Create(env, old(State()), name, continueAnyway)
    {
      var out := GitCheckoutBranch(name, continueAnyway);
      if out.Fail? {
        log := log + [ShowError(out.message)];
        return;
      }
      var idx := Config(name);
      ghost var store := features;
      features := features[idx := features[idx].(branch := Some(name))];
      log := log + [Sync(name)];
      log := log + [Export(ConfigDir, name)];
      features := features[idx := features[idx].(database := Some(DatabaseFile(name)))];
      assert features == store[idx := store[idx].(branch := Some(name), database := Some(DatabaseFile(name)))];
      ConfigSave();
    }

    method FeatureCheckout(name: string, createIt: bool, continueAnyway: bool)
      modifies this`features, this`git, this`log
      ensures State() == Checkout(env, old(State()), name, createIt, continueAnyway)
    {
      var known := ConfigExists(name);
      if known {
        var out := GitCheckoutBranch(name, continueAnyway);
        if out.Pass? {
          out := DrupalImportDatabase(name);
          if out.Pass? {
            log := log + [Say(CompleteMessage)];
          }
        }
        if out.Fail? {
          log := log + [ShowError(out.message)];
        }
        return;
      }
      if createIt {
        FeatureCreate(name, continueAnyway);
      }
    }

    /** `feature:info`: the record of the checked-out branch, if there is one. */
    method FeatureInfo() returns (info: Info)
      modifies this`features
      ensures features == old(features)
      ensures info == Describe(features, git.current)
    {
      var name := git.current;
      var known := ConfigExists(name);
      if known {
        var idx := Config(name);
        info := Found(Fields(features[idx]));
      } else {
        info := NotFound;
      }
    }
  }
}
