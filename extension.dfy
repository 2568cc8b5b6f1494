/** The `QuickSwitch` component: the ordered list of bookmarked project
    folders, the status bar item that opens the picker (or retries a failed
    load), and the commands that add, switch to and remove projects. The
    host's answers (the open folder, the file outcome, the picker's
    selection) are parameters; the messages shown and the documents
    written are results. */
module Extension {
  import opened Wrappers
  import opened ProjectList
  import opened Prompts
  import opened ConfigStore

  /** The status bar item: what it shows and runs, and whether it is shown. */
  datatype StatusItem = StatusItem(display: Label, shown: bool)

  /** `vscode.workspace.rootPath` counts as an open project only when it is
      defined and not the empty string. */
  predicate IsOpen(rootPath: Option<string>): (open: bool)
    ensures !open <==> rootPath == None || rootPath == Some("")
  {
    rootPath.Some? && rootPath.value != ""
  }

  const NoProjectOpened := ErrorMessage("Quick Switch: No project opened.")
  const AlreadyExists := Information("Quick Switch: Project already exists.", "Add Anyway", AddProject(true))
  const ProjectAdded := Information("Quick Switch: Project added.", "Show Projects", SwitchProject)
  const NoProjectAvailable := Information("Quick Switch: No project available.", "Add Current Project", AddProject(false))

  /** The extra entry `switchProject` appends after the projects. */
  const AddCurrentItem := ProjectItem(-1, "Add Current Project...", "Add current project to the list", "",
                                      Some(AddProject(false)))

  /** What choosing in the switch picker leads to. */
  datatype SwitchOutcome = Dismissed | OpenFolder(path: string) | Perform(action: Action)

  /** The documents the removal rounds of "list project" write, in order:
      one save of the shortened list after each removal, the document
      `SaveDocument` builds (`RoundStep` states it in those terms). */
  function RoundSaves(ps: seq<string>, picks: seq<Option<nat>>, round: nat): (docs: seq<ConfigDocument>)
    decreases |picks| - round
  {
    if RoundsEnd(ps, picks, round) then []
    else
      var rest := Splice(ps, picks[round].value);
      [Config(CurrentSchema, rest)] + RoundSaves(rest, picks, round + 1)
  }

  /** There is one save per removal, every save uses the current schema,
      and the last save holds the list the rounds end with, so the file
      matches the list once the rounds are over. */
  lemma {:induction false} RoundSavesFacts(ps: seq<string>, picks: seq<Option<nat>>, round: nat)
    ensures |RoundSaves(ps, picks, round)| == |ps| - |Removals(ps, picks, round)|
    ensures forall k :: 0 <= k < |RoundSaves(ps, picks, round)| ==>
      RoundSaves(ps, picks, round)[k].schema == CurrentSchema
    ensures RoundSaves(ps, picks, round) != [] ==>
      RoundSaves(ps, picks, round)[|RoundSaves(ps, picks, round)| - 1] == SaveDocument(Removals(ps, picks, round))
    decreases |picks| - round
  {
    if !RoundsEnd(ps, picks, round) {
      var rest := Splice(ps, picks[round].value);
      RoundSavesFacts(rest, picks, round + 1);
    }
  }

  /** One round that does not end removes the chosen project, writes the
      shortened list, and leaves the remaining rounds to the shorter list. */
  lemma RoundStep(ps: seq<string>, picks: seq<Option<nat>>, round: nat)
    requires !RoundsEnd(ps, picks, round)
    ensures RoundSaves(ps, picks, round)
      == [SaveDocument(Splice(ps, picks[round].value))] + RoundSaves(Splice(ps, picks[round].value), picks, round + 1)
    ensures Removals(ps, picks, round) == Removals(Splice(ps, picks[round].value), picks, round + 1)
  {
  }

  /** Moving one written document from the pending rounds to the log. */
  lemma AppendRound(saved: seq<ConfigDocument>, pending: seq<ConfigDocument>, doc: ConfigDocument,
                    rest: seq<ConfigDocument>, log: seq<ConfigDocument>)
    requires saved + pending == log && pending == [doc] + rest
    ensures (saved + [doc]) + rest == log
  {
    assert (saved + [doc]) + rest == saved + ([doc] + rest);
  }

  /** Once no round is pending, the log is what was written. */
  lemma LogComplete(saved: seq<ConfigDocument>, pending: seq<ConfigDocument>, log: seq<ConfigDocument>)
    requires saved + pending == log && pending == []
    ensures saved == log
  {
    assert saved + pending == saved;
  }

  class QuickSwitch {
    var projects: seq<string>
    var status: StatusItem

    /** Creates the item with the switch label, hidden, then loads the
        configuration. */
    constructor (outcome: FileOutcome)
      ensures projects == LoadedProjects([], outcome)
      ensures status == StatusItem(LabelFor(LoadFailed(outcome)), true)
    {
      projects := [];
      status := StatusItem(NormalLabel, false);
      new;
      LoadConfigurations(outcome);
    }

    /** Sets the label for an error or for normal operation; visibility
        and the list are untouched. */
    method UpdateStatus(error: bool)
      modifies this
      ensures status == StatusItem(LabelFor(error), old(status.shown))
      ensures projects == old(projects)
    {
      status := status.(display := if error then ErrorLabel else NormalLabel);
    }

    /** Applies one outcome of reading the configuration file: sets the
        list as `LoadedProjects` says, shows the error label exactly when
        the file could not be accessed or read, and shows the item in every
        case. */
    method LoadConfigurations(outcome: FileOutcome)
      modifies this
      ensures projects == LoadedProjects(old(projects), outcome)
      ensures status == StatusItem(LabelFor(LoadFailed(outcome)), true)
    {
      match outcome {
        case Missing =>
          projects := [];
          UpdateStatus(false);
        case AccessDenied =>
          UpdateStatus(true);
        case ReadError =>
          UpdateStatus(true);
        case Content(parse) =>
          match parse {
            case Parsed(doc) =>
              if doc.schema == CurrentSchema {
                projects := doc.projects;
              }
            case Unparsable =>
              projects := [];
          }
          UpdateStatus(false);
      }
      status := status.(shown := true);
    }

    /** The document handed to the file writer: schema 1 and the list. */
    method SaveConfigurations() returns (doc: ConfigDocument)
      ensures doc.schema == CurrentSchema && doc.projects == projects
      ensures LoadedProjects([], Content(Parsed(doc))) == projects
    {
      doc := SaveDocument(projects);
    }

    /** `addProject(force)`: with no open folder only an error is shown; a
        folder already listed is, unless forced, only reported with an
        "Add Anyway" button that repeats the call forced; otherwise the
        folder is appended at the end, saved, and reported. */
    method AddProject(force: bool, rootPath: Option<string>) returns (notice: Notice, saved: Option<ConfigDocument>)
      modifies this
      ensures status == old(status)
      ensures !IsOpen(rootPath) ==>
        projects == old(projects) && notice == NoProjectOpened && saved == None
      ensures IsOpen(rootPath) && !force && rootPath.value in old(projects) ==>
        projects == old(projects) && notice == AlreadyExists && saved == None
      ensures IsOpen(rootPath) && (force || rootPath.value !in old(projects)) ==>
        projects == old(projects) + [rootPath.value] && notice == ProjectAdded
        && saved == Some(SaveDocument(projects))
    {
      if !IsOpen(rootPath) {
        notice, saved := NoProjectOpened, None;
        return;
      }
      var root := rootPath.value;
      if !force && IndexOf(projects, root) >= 0 {
        notice, saved := AlreadyExists, None;
        return;
      }
      projects := projects + [root];
      var doc := SaveConfigurations();
      notice, saved := ProjectAdded, Some(doc);
    }

    /** `pickProject(placeHolder, callback, ...extra)`: shows the projects
        in list order followed by the extra entries; `pick` is the position
        the user chose, if any. A dismissal does nothing, an entry with an
        action runs it, and any other entry goes to the callback. */
    method PickProject(extra: seq<ProjectItem>, pick: Option<nat>, basename: string -> string)
      returns (r: Reaction)
      ensures pick.None? || pick.value >= |projects| + |extra| ==> r == Nothing
      ensures pick.Some? && pick.value < |projects| ==>
        r == RunCallback(ItemFor(projects[pick.value], pick.value, basename))
      ensures pick.Some? && |projects| <= pick.value < |projects| + |extra| ==>
        var item := extra[pick.value - |projects|];
        r == if item.action.Some? then RunAction(item.action.value) else RunCallback(item)
    {
      var items := PickItems(projects, extra, basename);
      r := Dispatch(Choose(items, pick));
      if pick.Some? && |projects| <= pick.value < |items| {
        assert items[pick.value] == items[|projects|..][pick.value - |projects|];
      }
    }

    /** `switchProject`: the picker lists the projects and then the "Add
        Current Project..." entry; a project opens its folder, the extra
        entry runs `addProject()`, a dismissal does nothing. */
    method SwitchProject(pick: Option<nat>, basename: string -> string) returns (r: SwitchOutcome)
      ensures pick.None? || pick.value > |projects| ==> r == Dismissed
      ensures pick.Some? && pick.value < |projects| ==> r == OpenFolder(projects[pick.value])
      ensures pick == Some(|projects|) ==> r == Perform(Action.AddProject(false))
    {
      var reaction := PickProject([AddCurrentItem], pick, basename);
      match reaction {
        case Nothing => r := Dismissed;
        case RunAction(a) => r := Perform(a);
        case RunCallback(item) => r := OpenFolder(item.path);
      }
    }

    /** One round of `listProject`: the picker shows the projects and the
        callback removes the chosen one with `splice(index, 1)` and saves.
        A dismissal changes nothing. */
    method RemoveChosen(pick: Option<nat>, basename: string -> string) returns (saved: Option<ConfigDocument>)
      modifies this
      ensures status == old(status)
      ensures pick.Some? && pick.value < |old(projects)| ==>
        projects == Splice(old(projects), pick.value) && saved == Some(SaveDocument(projects))
      ensures pick.None? || pick.value >= |old(projects)| ==> projects == old(projects) && saved == None
    {
      var reaction := PickProject([], pick, basename);
      if reaction.Nothing? {
        return None;
      }
      projects := Splice(projects, reaction.item.index);
      var doc := SaveConfigurations();
      saved := Some(doc);
    }

    /** One round of the removal loop, stated in the terms of `Removals`
        and `RoundSaves`: it ends the rounds exactly when `RoundsEnd` says
        so, and otherwise writes the first document of the rounds and leaves
        the rest of them to the shortened list. */
    method RemovalRound(picks: seq<Option<nat>>, i: nat, basename: string -> string)
      returns (doc: Option<ConfigDocument>)
      requires i < |picks|
      modifies this
      ensures status == old(status)
      ensures doc.None? <==> RoundsEnd(old(projects), picks, i)
      ensures doc.None? ==> projects == old(projects)
      ensures doc.Some? ==> projects == Splice(old(projects), picks[i].value)
      ensures doc.Some? ==>
        RoundSaves(old(projects), picks, i) == [doc.value] + RoundSaves(projects, picks, i + 1)
        && Removals(projects, picks, i + 1) == Removals(old(projects), picks, i)
    {
      ghost var before := projects;
      doc := RemoveChosen(picks[i], basename);
      if doc.Some? {
        RoundStep(before, picks, i);
      }
    }

    /** The removal rounds of `listProject` on a non-empty list: each
        answer removes the chosen project and saves, and the picker is shown
        again while the list is not empty; a dismissal ends the rounds. */
    method RemovalRounds(picks: seq<Option<nat>>, basename: string -> string) returns (saved: seq<ConfigDocument>)
      modifies this
      ensures status == old(status)
      ensures projects == Removals(old(projects), picks, 0)
      ensures saved == RoundSaves(old(projects), picks, 0)
    {
      ghost var list, log := Removals(projects, picks, 0), RoundSaves(projects, picks, 0);
      saved := [];
      var i, stopped := 0, false;
      while i < |picks| && projects != [] && !stopped
        invariant 0 <= i <= |picks|
        invariant Removals(projects, picks, i) == list
        invariant saved + RoundSaves(projects, picks, i) == log
        invariant stopped ==> RoundsEnd(projects, picks, i)
        invariant status == old(status)
        decreases |picks| - i, !stopped
      {
        ghost var before := projects;
        var doc := RemovalRound(picks, i, basename);
        if doc.None? {
          stopped := true;
        } else {
          AppendRound(saved, RoundSaves(before, picks, i), doc.value, RoundSaves(projects, picks, i + 1), log);
          saved := saved + [doc.value];
          i := i + 1;
        }
      }
      assert RoundSaves(projects, picks, i) == [];
      LogComplete(saved, RoundSaves(projects, picks, i), log);
    }

    /** `listProject`: on an empty list only the "No project available"
        message is shown, offering `addProject()`, and nothing is saved;
        otherwise the removal rounds run. Either way one document is saved
        per removal, the last one holding the final list. */
    method ListProject(picks: seq<Option<nat>>, basename: string -> string)
      returns (notice: Option<Notice>, saved: seq<ConfigDocument>)
      modifies this
      ensures status == old(status)
      ensures projects == Removals(old(projects), picks, 0)
      ensures saved == RoundSaves(old(projects), picks, 0)
      ensures old(projects) == [] ==> notice == Some(NoProjectAvailable) && saved == []
      ensures old(projects) != [] ==> notice == None
      ensures |saved| == |old(projects)| - |projects| <= |picks|
      ensures saved != [] ==> saved[|saved| - 1] == SaveDocument(projects)
    {
      RoundSavesFacts(projects, picks, 0);
      RemovalsBound(projects, picks, 0);
      if |projects| == 0 {
        notice, saved := Some(NoProjectAvailable), [];
        return;
      }
      notice := None;
      saved := RemovalRounds(picks, basename);
    }
  }
}
