# Quick Switch: a Dafny model of the single-list extension core

Quick Switch is a VS Code extension that keeps an ordered list of bookmarked
project folders. A status bar item opens a picker to switch the window to
one of them. This project models the first, single-list revision of
`src/extension.ts`: the `QuickSwitch` component, its project list, the
configuration file `<home>/.quick-switch`, and the status bar item.

Modules:

- `Wrappers`: the `Option` type used for host answers that may be absent.
- `ProjectList`: the list primitives the component uses. These are the
  `indexOf` duplicate test, JavaScript's `splice(index, 1)` (negative and
  out-of-range indices included), and `Removals`. `Removals` specifies the
  list left by the repeated removal rounds of the "list project" command;
  `RoundSaves` (in `Extension`) gives the documents those rounds write.
- `Prompts`: the actions stored in closures (`addProject(force)`,
  `switchProject()`), the information and error messages, the picker items,
  and the dispatch of a picker selection or a message button.
- `ConfigStore`: the persisted document `{schema, projects}` and the
  outcomes of reading it (missing, not readable, read error, unparsable,
  parsed). It also holds the list and status label each outcome leads to,
  the saved document, and the choice of configuration path.
- `Extension`: the class `QuickSwitch`. It has a `projects: seq<string>`
  field and a status record (label and visibility). Its methods update
  them in place as the source does.

Host inputs are method parameters:

- the open folder (`rootPath`);
- the file outcome of a load;
- the picker position chosen (`Option<nat>`, `None` for a dismissal);
- the environment and OS type;
- `path.basename` and `path.join`, passed as functions.

Host outputs are results: the message shown (`Notice`), what a picker
choice leads to, and each document handed to the file writer
(`ConfigDocument`).

Where later revisions of the extension behave differently, this model
follows the code of this revision. In particular, a parsed document whose
schema is not 1 leaves the list unchanged rather than resetting it. A
missing or unparsable file empties the list with the normal status label.
Only an access or read failure shows the error label.

## Model

| member | source | states |
|---|---|---|
| `ProjectList.IndexOf` | src/extension.ts:199 | the position found is -1 exactly when the path is absent; otherwise it holds the path and no earlier position does |
| `ProjectList.Splice` | src/extension.ts:245 | definition of `splice(index, 1)` on the list: a negative index counts from the end and is clamped at 0, an index at or past the end removes nothing; its properties are `SpliceLength` and `SpliceRemovesAt` |
| `ProjectList.SpliceLength` | src/extension.ts:245 | `splice(index, 1)` removes one element exactly when the list is non-empty and the index is before the end (negative indices count from the end, clamped at 0), and otherwise none |
| `ProjectList.SpliceRemovesAt` | src/extension.ts:245 | removing at a position inside the list deletes exactly that element: the prefix is kept, later elements shift down by one, and the multiset loses only that path |
| `ProjectList.SplicePastEndKeeps` | src/extension.ts:245 | a removal index at or past the end leaves the list unchanged |
| `ProjectList.RoundsEnd` | src/extension.ts:244-250 | definition of when the rounds stop: no answer left, an empty list (line 247), a dismissal (line 171), or a position outside the shown list, which the host never returns |
| `ProjectList.Removals` | src/extension.ts:244-250 | definition of the list the rounds leave: each answer that does not end the rounds splices out the chosen position, and the next round works on the shorter list; its properties are `RemovalsSubMultiset`, `RemovalsBound` and `InRangeAnswersEmpty` |
| `ProjectList.RemovalsSubMultiset` | src/extension.ts:244-250 | the rounds only take paths away; no path is added or duplicated |
| `ProjectList.RemovalsBound` | src/extension.ts:244-250 | the rounds never lengthen the list, a round that does not end (non-empty list, a selection inside it) shortens it, and there are no more removals than answers |
| `ProjectList.InRangeAnswersEmpty` | src/extension.ts:244-250 | the picker is shown again after every removal while the list is non-empty, so n answers that each select a project of the list then shown, whichever ones, empty a list of n projects |
| `Prompts.ItemFor` | src/extension.ts:160-167 | the entry for project `i` carries index `i`, the full path as both description and path, the base name as its label, and no action, so choosing it goes to the callback |
| `Prompts.PickItems` | src/extension.ts:160-168 | one item per project in list order, with `index = i`, `path = description = projects[i]`, the base name of `projects[i]` as label, and no action; then the extra items in order; length is the sum |
| `Prompts.Choose` | src/extension.ts:159-173 | the picker answers with an item exactly when a position inside the shown list was chosen, and the item is the one shown at that position |
| `Prompts.DispatchOfPick` | src/extension.ts:159-179 | choosing a project hands the callback that project with its index; an extra item with an action runs that action; no selection does nothing |
| `Prompts.Dispatch` | src/extension.ts:170-179 | no selection does nothing; the callback runs exactly for a chosen item without an action, and on that very item; the item's own action runs exactly when it has one |
| `Prompts.Respond` | src/extension.ts:182-191 | a message button's action runs exactly when an information message's button is clicked |
| `ConfigStore.LabelFor` | src/extension.ts:83-93 | with an error: command `quick-switch.reload`, text `$(stop)` and the retry tooltip; without: command `quick-switch.switchProject`, text `$(repo-pull)` and "Switch Project..." |
| `ConfigStore.LabelForInjective` | src/extension.ts:83-93 | the two labels differ, so the status item shows exactly whether an error was passed |
| `ConfigStore.LoadedProjects` | src/extension.ts:98-129 | an access or read error keeps the list; a missing or unparsable file empties it; a schema-1 document replaces it with that document's list; a schema other than 1 keeps it; any change is to `[]` or to a schema-1 document's list |
| `ConfigStore.LoadIdempotent` | src/extension.ts:95-131 | loading the same file outcome twice leaves the list as loading it once does |
| `ConfigStore.SaveDocument` | src/extension.ts:134-137 | the document written carries schema 1 and exactly the list given, in order; that loading it restores the list is `SaveLoadRoundTrip` |
| `ConfigStore.SaveLoadRoundTrip` | src/extension.ts:119-137 | loading the document that saving writes restores exactly the saved list, whatever was loaded before |
| `ConfigStore.HomeVariable` | src/extension.ts:148 | `USERPROFILE` exactly on `Windows_NT`, `HOME` otherwise |
| `ConfigStore.HomeDirectory` | src/extension.ts:147-149 | the platform variable's value, or `""` exactly when it is unset or empty |
| `ConfigStore.ConfigPathIgnoresOtherVariables` | src/extension.ts:145-152 | changing any environment variable other than the platform's home variable leaves the configuration path unchanged |
| `ConfigStore.ConfigPathSameOffWindows` | src/extension.ts:145-152 | all non-Windows platforms resolve the same path |
| `ConfigStore.ConfigPath` | src/extension.ts:145-152 | `.quick-switch` joined to the platform home variable's value when it is set, and to the empty string when it is not |
| `Extension.IsOpen` | src/extension.ts:195 | a folder counts as open unless `rootPath` is undefined or the empty string, the two falsy values a string can take |
| `Extension.RoundSaves` | src/extension.ts:245-246 | definition of the documents the rounds write: one save of the shortened list after each removal, in order; its properties are `RoundSavesFacts` |
| `Extension.QuickSwitch.constructor` | src/extension.ts:68-77 | the component starts from an empty list; after the initial load the list is what that load gives and the status item is shown with the matching label |
| `Extension.QuickSwitch.UpdateStatus` | src/extension.ts:83-93 | sets command, text and tooltip to the error or normal label; visibility and the list are unchanged |
| `Extension.QuickSwitch.LoadConfigurations` | src/extension.ts:95-131 | the list becomes `LoadedProjects` of the old list and the outcome; the label is the error label exactly for an access or read failure; the item is shown in every branch |
| `Extension.QuickSwitch.SaveConfigurations` | src/extension.ts:133-143 | the document written has schema 1 and the current list, and loading it gives back that list |
| `Extension.QuickSwitch.AddProject` | src/extension.ts:193-216 | no open folder: list unchanged, only the error message; duplicate and not forced: list unchanged, "Add Anyway" offering `addProject(true)`; otherwise the folder is appended at the end, the new list is saved, and "Show Projects" is offered; status untouched |
| `Extension.QuickSwitch.PickProject` | src/extension.ts:154-180 | choosing project `i` calls the callback with item `i` for `projects[i]`; choosing an extra item runs its action, or the callback when it has none; no selection does nothing |
| `Extension.QuickSwitch.SwitchProject` | src/extension.ts:218-232 | choosing project `i` opens `projects[i]`; the entry after the projects runs `addProject()`; anything else does nothing |
| `Extension.QuickSwitch.RemoveChosen` | src/extension.ts:244-246 | a selection inside the list removes exactly that project with `splice(index, 1)` and saves the new list; a dismissal changes nothing and saves nothing; status untouched |
| `Extension.QuickSwitch.RemovalRound` | src/extension.ts:244-249 | one round, stated against the specification: it ends the rounds exactly when `RoundsEnd` holds and then changes nothing; otherwise the list becomes `Splice` of the old list at the chosen index, the document written is the first of `RoundSaves` (schema 1 and that shortened list), and the remaining rounds on the shortened list give the same final list; status untouched |
| `Extension.RoundSavesFacts` | src/extension.ts:245-246 | the rounds write one document per removal, each with schema 1, and the last one holds the list the rounds end with |
| `Extension.QuickSwitch.RemovalRounds` | src/extension.ts:244-250 | the list becomes `Removals` of the answers (chosen projects spliced out one per round until a dismissal or an empty list) and the documents written are exactly `RoundSaves` of them; status untouched |
| `Extension.QuickSwitch.ListProject` | src/extension.ts:234-251 | an empty list only shows "No project available" offering `addProject()` and saves nothing; otherwise no message, and the rounds run as `RemovalRounds` states; one save per removal, at most one removal per answer, the last save holding the final list; status untouched |

## Left out

- The VS Code host is not modelled: dialogs, the status bar widget's rendering, command registration, `onDidChangeConfiguration`, `activate` and `dispose`. User answers are parameters and messages are results.
- The file system is not modelled: `existsSync`, `accessSync`, `readFile` and `writeFile`. A load takes a `FileOutcome`, and a save returns the document handed to the writer. Write failures are only logged by the source and do not appear.
- The asynchrony of `readFile` is not modelled: a load is applied as one step. In the source, other commands may run between the access check and the read callback.
- JSON text is not modelled: `JSON.parse` and `JSON.stringify` are replaced by the `ConfigDocument` value and the `Unparsable` outcome. A parse that throws for another reason (such as `null` content, whose `.schema` access throws) also maps to `Unparsable`, which is the branch the source takes.
- `LoadConfigurations` does not model a document whose `schema` is 1 but whose `projects` field is missing or not a string array. The source would store that value as the list. The document's list is always a `seq<string>`, and a non-numeric `schema` is represented as any integer other than 1.
- `path.basename` and `path.join` are left uninterpreted: they are function parameters, so no property depends on their normalisation.
- `console.error` logging is not modelled.
- ConfigStore.HomeDirectory: the environment is a map with the canonical variable names, and lookup is exact. On Windows, Node's `process.env` ignores case, so a variable spelled `UserProfile` would be found by the source but not by the model.
- ConfigStore.ConfigPathIgnoresOtherVariables: on Windows this holds only for keys that differ from `USERPROFILE` ignoring case. The model's exact lookup does not capture that setting `userprofile` changes the path.
- Extension.QuickSwitch.RemoveChosen: the picker's answer arrives asynchronously, and the model applies it to the list that was shown. In the source, a reload in between (the configuration-change listener at lines 37-38 calls `loadConfigurations`) can replace the list. Then `splice(project.index, 1)` at lines 244-245 removes a different project, or nothing, and line 246 still saves. That interleaving is not modelled. `SplicePastEndKeeps` describes `splice` for the past-the-end index such a stale answer could carry, and the negative-index half of `SpliceLength` covers indices no picker entry carries; no modelled round reaches either.
- The "Add Anyway", "Show Projects" and "Add Current Project" buttons and the picker's extra item are not run by the model. They return the `Action` they would run (`addProject(true)`, `switchProject()`, `addProject()`), and the caller performs it by calling the corresponding method.
- Later revisions of this extension add workspaces, schema versions 2 and 3, status text templates and a periodic reload. These are not in this revision of `src/extension.ts` and are not modelled.
