/** What the extension shows the user and how it reacts to the answer:
    the actions attached to messages and picker items, the information and
    error messages, the picker's item list and the dispatch of a selection.
    The host's dialogs themselves are not modelled: a selection arrives as a
    value. */
module Prompts {
  import opened Wrappers

  /** The deferred calls the source stores in closures: `addProject(force)`
      and `switchProject()`. */
  datatype Action = AddProject(force: bool) | SwitchProject

  /** An error message, or an information message offering one button
      whose title is shown and whose action runs when it is clicked. */
  datatype Notice =
    | ErrorMessage(message: string)
    | Information(message: string, title: string, action: Action)

  /** An entry of the project picker. `index` is the project's position in
      the list (-1 for extra entries), `path` the project folder. */
  datatype ProjectItem = ProjectItem(
    index: int,
    labelText: string,
    description: string,
    path: string,
    action: Option<Action>)

  /** What happens after the picker closes: nothing, the chosen item's
      own action, or the caller's callback applied to the chosen item. */
  datatype Reaction = Nothing | RunAction(action: Action) | RunCallback(item: ProjectItem)

  /** The picker entry for the project at position `i`: labelled by the
      folder's base name, described and keyed by its full path. */
  function ItemFor(projectPath: string, i: int, basename: string -> string): (item: ProjectItem)
    ensures item.index == i && item.path == projectPath && item.description == projectPath
      && item.labelText == basename(projectPath)
    ensures Dispatch(Some(item)) == RunCallback(item)
  {
    ProjectItem(i, basename(projectPath), projectPath, projectPath, None)
  }

  /** The items shown by `pickProject`: one per project, in list order, then
      the extra items in the order given. */
  function PickItems(projects: seq<string>, extra: seq<ProjectItem>, basename: string -> string)
    : (items: seq<ProjectItem>)
    ensures |items| == |projects| + |extra|
    ensures forall i :: 0 <= i < |projects| ==>
      items[i].index == i && items[i].path == projects[i] && items[i].description == projects[i]
      && items[i].labelText == basename(projects[i])
      && items[i].action.None?
    ensures items[|projects|..] == extra
  {
    seq(|projects|, i requires 0 <= i < |projects| => ItemFor(projects[i], i, basename)) + extra
  }

  /** The picker's answer: `pick` is the position of the chosen entry,
      `None` when the picker was dismissed. The host only ever returns an
      entry it showed, so a position outside the list reads as no answer. */
  function Choose(items: seq<ProjectItem>, pick: Option<nat>): (chosen: Option<ProjectItem>)
    ensures chosen.Some? <==> pick.Some? && pick.value < |items|
    ensures chosen.Some? ==> chosen.value == items[pick.value]
  {
    if pick.Some? && pick.value < |items| then Some(items[pick.value]) else None
  }

  /** The `.then` handler of `pickProject`: no selection does nothing, an
      item carrying an action runs that action, any other item is passed
      to the callback. */
  function Dispatch(chosen: Option<ProjectItem>): (r: Reaction)
    ensures r.Nothing? <==> chosen.None?
    ensures r.RunCallback? <==> chosen.Some? && chosen.value.action.None?
    ensures r.RunCallback? ==> r.item == chosen.value
    ensures r.RunAction? <==> chosen.Some? && chosen.value.action.Some?
    ensures r.RunAction? ==> r.action == chosen.value.action.value
  {
    match chosen
    case None => Nothing
    case Some(item) =>
      match item.action
      case Some(a) => RunAction(a)
      case None => RunCallback(item)
  }

  /** Choosing a project entry hands the callback the project at that
      position of the list, with its index, so the callback acts on the
      project the user saw. Choosing an extra entry runs its action when it
      has one. Dismissing the picker does nothing. */
  lemma DispatchOfPick(projects: seq<string>, extra: seq<ProjectItem>, basename: string -> string, pick: Option<nat>)
    ensures pick.None? ==> Dispatch(Choose(PickItems(projects, extra, basename), pick)) == Nothing
    ensures pick.Some? && pick.value < |projects| ==>
      var r := Dispatch(Choose(PickItems(projects, extra, basename), pick));
      r.RunCallback? && r.item.index == pick.value && r.item.path == projects[pick.value]
    ensures (pick.Some? && |projects| <= pick.value < |projects| + |extra|
             && extra[pick.value - |projects|].action.Some?) ==>
      Dispatch(Choose(PickItems(projects, extra, basename), pick))
        == RunAction(extra[pick.value - |projects|].action.value)
    ensures pick.Some? && pick.value >= |projects| + |extra| ==>
      Dispatch(Choose(PickItems(projects, extra, basename), pick)) == Nothing
  {
    var items := PickItems(projects, extra, basename);
    if pick.Some? && |projects| <= pick.value < |items| {
      assert items[pick.value] == items[|projects|..][pick.value - |projects|];
    }
  }

  /** The `.then` handler of `showInformation`: clicking the offered
      button runs its action; closing the message, or an error message,
      which offers no button, runs nothing. */
  function Respond(notice: Notice, clicked: bool): (r: Option<Action>)
    ensures r.Some? <==> clicked && notice.Information?
    ensures r.Some? ==> r.value == notice.action
  {
    match notice
    case ErrorMessage(_) => None
    case Information(_, _, action) => if clicked then Some(action) else None
  }
}
