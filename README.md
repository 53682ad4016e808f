# ShadowCaster, modelled in Dafny

ShadowCaster is an interactive wizard that builds command lines for penetration-testing tools
(nmap, hydra, sqlmap, wpscan, gobuster, aircrack-ng) from JSON tool descriptors. The user picks a
tool and answers the prompts for its required parameters. They then choose optional flags from the
descriptor's categories, and the wizard joins everything into one shell command. Commands can be
saved as scripts or as JSON templates, and saved templates can be listed, loaded and deleted.

This project models the logic under the menus and proves properties of it:

- `Display`: how a menu answer is parsed.
  - Single answers and comma-separated answers, with the all-or-nothing range check.
  - The ask-again loops for menus and text prompts, and the yes/no rule.
- `ConfigLoader`: the descriptor catalogue.
  - `<id>_config.json` files in a directory, read as a map from file name to parsed content.
  - How a listed file name becomes a tool id, and when that id loads the same file again.
- `CommandBuilder`: the rules of the base builder, as functions of the descriptor and the input.
  - `BuildSession.Builder` is the builder object itself: a class whose `selectedFlags` and
    `requiredParams` its methods update in place.
  - Its methods are proved against those functions.
- `ToolBuilders`: what each tool's builder adds after the flags, and Gobuster's own way of asking
  for flags (modes first, then one yes/no question per other category).
- `FileManager`: the templates directory.
  - A map from file name to a script, a JSON object or unreadable text.
  - Saving scripts and templates, loading, listing (sorted by name) and deleting.
- `ShadowCaster`: the application object of `main.py`.
  - The tool-id to builder table, the settings menu (hint mode, clear all templates).
  - The three flows that set the current command: build, load template, manage templates.

The user's keyboard is a script of lines, `input`, read from a cursor `pos`. Every prompt consumes
lines and says where reading stops. Running out of lines is Python's `EOFError`, written `Eof` or
`None`. Inside `build_command` the builder's `except Exception` turns it into a failed build. In the
menus of `main.py` it ends the flow.

Properties proved include:

- A successful build is exactly the base command, then the flags in the order chosen, then the
  tool's values, separated by single blanks. A `None` anywhere gives no command at all.
- Every required key holds a non-blank answer. The count check passes exactly when the map held no
  foreign key beforehand.
- Typing entry numbers selects exactly those entries (a round trip through parsing).
- A menu answer is the first valid line after only invalid ones.
- The sort used for listings is ordered and a permutation.
- Save/load/delete round trips, and "nothing else changes".
- A saved script never shows up among the templates.
- Clearing all templates removes every listed template except one literally named `.json`.
- Managing templates only ever removes files named after a listed template.
- A command the wizard sets as current always comes from the chosen tool or from a template.

## Model

| member | source | states |
|---|---|---|
| Sorting.SortBySorted | utils/config_loader.py:69 | what `sorted(..., key=...)` returns is in non-decreasing key order |
| Sorting.SortByPermutes | utils/config_loader.py:69 | what `sorted` returns has exactly the elements it was given, duplicates included |
| Sorting.EnumerationSize | utils/config_loader.py:57 | a directory enumeration that lists each file once has as many entries as there are files |
| Strings.NotAfterTotal | utils/file_manager.py:101 | the string order `sorted` uses is total |
| Strings.NotAfterTransitive | utils/file_manager.py:101 | the string order `sorted` uses is transitive |
| Strings.SplitJoin | utils/display.py:115 | splitting at a separator that no piece contains gives back the joined pieces |
| ConfigLoader.LoadConfig | utils/config_loader.py:36-48 | `load_config` gives a descriptor exactly when the directory exists, `<tool>_config.json` is in it and parses, and then it is that file's descriptor; otherwise `None` |
| ConfigLoader.LoadConfigReadsOneFile | utils/config_loader.py:38 | two directories that agree on `<tool>_config.json` load the same descriptor for `tool` |
| ConfigLoader.ToolCategories | utils/config_loader.py:71-73 | the `categories` field when present, otherwise empty |
| ConfigLoader.RequiredParams | utils/config_loader.py:75-77 | the `required` field when present, otherwise empty |
| ConfigLoader.ScanConfigs | utils/config_loader.py:57-67 | the scan visits each well-formed `*_config.json` file exactly once and yields one entry per file, in visiting order; malformed files are skipped |
| ConfigLoader.ListAvailableTools | utils/config_loader.py:50-69 | a missing directory lists nothing; otherwise the listing is a permutation of the entries of the well-formed config files, sorted by display name |
| ConfigLoader.DropTrailingConfig | utils/config_loader.py:62 | removing every `_config` from `p + "_config"` removes the trailing one and whatever `p` holds |
| ConfigLoader.RemovalIdentity | utils/config_loader.py:62 | `replace('_config', '')` leaves a text unchanged exactly when the text does not contain `_config` |
| ConfigLoader.ListedIdLoadsSameFile | utils/config_loader.py:38-62 | the id listed for a file loads that same file again exactly when `_config` occurs in its stem only as the suffix |
| Display.ParseShowNat | utils/display.py:123 | `int` reads back a number typed in decimal |
| Display.ParsePiecesEach | utils/display.py:115 | the list comprehension succeeds exactly when every piece is a number, and each index is its piece's number less one |
| Display.ParseSelection | utils/display.py:113-126 | an accepted answer selects indices below the number of entries; a single-choice answer selects exactly one |
| Display.SingleSelection | utils/display.py:122-126 | a single-choice answer is accepted exactly when it names an entry from 1 to n, and then selects `[k - 1]` |
| Display.PiecesNameEntries | utils/display.py:115-117 | parsing every piece and range-checking them all succeeds exactly when every piece names an entry |
| Display.MultipleSelection | utils/display.py:114-118 | a comma-separated answer is accepted exactly when every piece names an entry; one bad piece rejects it all |
| Display.MultipleSelectionEntries | utils/display.py:115-118 | an accepted comma-separated answer selects one index per piece, in the order typed, duplicates kept |
| Display.SelectionRoundTrip | utils/display.py:114-118 | typing the entry numbers `ks` comma-separated selects entries `ks[i] - 1`, in that order |
| Display.SingleSelectionRoundTrip | utils/display.py:122-126 | typing entry number `k` selects entry `k - 1` |
| Display.ReadSelection | utils/display.py:111-131 | the menu's answer comes from a line that parses as a valid selection, and reading stops just after it |
| Display.ReadSelectionSkipsInvalid | utils/display.py:111-131 | every line before the accepted one was rejected; the input runs out exactly when no remaining line is valid |
| Display.TypedChoice | utils/display.py:122-126 | typing entry number `k` answers a single-choice menu with the first line read, selecting entry `k - 1` |
| Display.DisplayMenu | utils/display.py:90-131 | the retry loop returns exactly the first valid selection, or runs out |
| Display.ReadChoice | utils/display.py:143-145 | a multiple-choice menu over items yields items from that list |
| Display.DisplayTools | utils/display.py:134-138 | the index of the tool chosen, below the number of tools, as the menu selected it |
| Display.DisplayCategories | utils/display.py:141-145 | the category keys at the chosen indices, in the order typed |
| Display.DisplayOptions | utils/display.py:170-181 | the option records at the chosen indices, in the order typed |
| Display.TextAnswer | utils/display.py:155-161 | one answer is the stripped line, refused exactly when it is blank and an answer is required |
| Display.ReadText | utils/display.py:154-161 | the answer is a stripped line; a required answer is never empty; an optional one is the very next line |
| Display.ReadTextSkipsBlank | utils/display.py:154-161 | a required answer comes after only blank lines; it runs out exactly when every line left is blank |
| Display.GetTextInput | utils/display.py:148-161 | the retry loop returns exactly the first acceptable answer |
| Display.ReadConfirm | utils/display.py:164-167 | `confirm` reads one line and answers whether it is a yes |
| Display.ConfirmedAnswers | utils/display.py:166-167 | yes means `y` or `yes` in any mix of cases with blanks around it, nothing else; the empty reply is no |
| CommandBuilder.CollectRequired | utils/command_builder.py:33-41 | one non-blank answer per required key, in descriptor order |
| CommandBuilder.Assign | utils/command_builder.py:33-41 | after the loop the map holds the old keys plus the descriptor keys; keys not asked keep their value |
| CommandBuilder.AssignedValues | utils/command_builder.py:41 | with distinct keys, each key holds its own answer |
| CommandBuilder.CountCheck | utils/command_builder.py:43 | the count check passes exactly when every key held beforehand is a descriptor key |
| CommandBuilder.RequiredAnswered | utils/command_builder.py:33-43 | every descriptor key ends up holding a non-blank answer |
| CommandBuilder.ApplyOption | utils/command_builder.py:89-101 | a switch adds its flag verbatim and reads nothing; a value option reads one line and adds `flag "value"`, or nothing for a blank answer |
| CommandBuilder.ApplyOptions | utils/command_builder.py:89-101 | the selected options add at most one flag each |
| CommandBuilder.SwitchesVerbatim | utils/command_builder.py:100-101 | switches without values are added verbatim, in selection order, repeats included, and read no input |
| CommandBuilder.ValueOptionReadsOneLine | utils/command_builder.py:93-99 | a value option adds `flag "value"` for a non-blank answer and nothing for a blank one |
| CommandBuilder.ConfigureCategory | utils/command_builder.py:81-87 | a category without options adds nothing and reads nothing |
| CommandBuilder.OptionalParameters | utils/command_builder.py:71-101 | a tool without categories asks nothing and adds nothing |
| CommandBuilder.JoinParts | utils/command_builder.py:65-69 | the join succeeds exactly when no part is `None` |
| CommandBuilder.Assemble | utils/command_builder.py:57-69 | a command line exists exactly when the base command and every flag are present |
| CommandBuilder.AssembledLayout | utils/command_builder.py:57-65 | the line is the base command, then the flags in order, then the tool's values, each preceded by one blank |
| ToolBuilders.RequiredValues | modules/tool_builders.py:29-148 | the values a builder adds are non-empty; the base and Gobuster builders add none |
| ToolBuilders.RequiredValuesFollowTable | modules/tool_builders.py:29-148 | every builder adds one word per non-empty parameter it reads, in a fixed order: Nmap target; Hydra service then target; SQLMap `-u "url"`; WPScan `--url "url"`; Aircrack capture |
| ToolBuilders.ValuesIgnoreOtherParameters | modules/tool_builders.py:29-84 | a builder's values depend only on the parameters it reads |
| ToolBuilders.NmapTargetLast | modules/tool_builders.py:29-32 | an Nmap line ends with the target when one is given |
| ToolBuilders.HydraServiceThenTarget | modules/tool_builders.py:54-66 | a Hydra line ends with the service, then the target |
| ToolBuilders.OtherCategories | modules/tool_builders.py:106 | the categories other than `Mode`, and only those |
| ToolBuilders.ConfirmEach | modules/tool_builders.py:108-112 | one question per category, the input runs out exactly when there are fewer lines than questions, and only offered categories are chosen |
| ToolBuilders.ConfirmEachChoosesConfirmed | modules/tool_builders.py:110-112 | a category is chosen exactly when its own question was answered yes |
| ToolBuilders.ModeSelection | modules/tool_builders.py:98-103 | without mode options nothing is asked |
| ToolBuilders.GobusterOptional | modules/tool_builders.py:90-135 | a tool without categories keeps its flags and reads nothing |
| ToolBuilders.GobusterModesLead | modules/tool_builders.py:98-103 | the selected modes lead the flags, the last one selected first, and the earlier flags follow unchanged |
| ToolBuilders.BaseOnlyAppends | utils/command_builder.py:71-101 | every builder but Gobuster only appends: the flags chosen earlier stay in place |
| BuildSession.FreshBuild | utils/command_builder.py:45-69 | a fresh build stops within the input |
| BuildSession.FreshCountPasses | utils/command_builder.py:43 | on a fresh builder the count check always passes |
| BuildSession.FreshBuildLayout | utils/command_builder.py:45-69 | a fresh build fails only when input runs out or a part is `None`; a success is base command, flags in order, then the tool's values |
| BuildSession.FreshBuildStarts | utils/command_builder.py:57-65 | a built line starts with the descriptor's base command |
| BuildSession.ConfirmCategories | modules/tool_builders.py:108-112 | the yes/no loop yields exactly the categories answered yes, in order |
| BuildSession.Builder.constructor | utils/command_builder.py:14-23 | a new builder has the descriptor's fields, hints off, no flags and no answers |
| BuildSession.Builder.SetHintMode | utils/command_builder.py:25-27 | sets the hint mode and nothing else |
| BuildSession.Builder.AnswerPrompts | utils/command_builder.py:33-41 | the loop stores one collected answer under each key, in order |
| BuildSession.Builder.GetRequiredParameters | utils/command_builder.py:29-43 | stores one answer per key and reports the count check, which holds exactly when no foreign key was in the map; every key then holds a non-blank answer; Hydra's override (modules/tool_builders.py lines 38-52) is the same loop and check |
| BuildSession.Builder.AddOption | utils/command_builder.py:89-101 | appends exactly what the selected option adds |
| BuildSession.Builder.AddOptions | utils/command_builder.py:89-101 | appends the selected options' flags in order and never changes earlier flags |
| BuildSession.Builder.ConfigureOne | utils/command_builder.py:81-87 | one category's options are offered (if any) and their flags appended |
| BuildSession.Builder.ConfigureChosen | utils/command_builder.py:80-101 | the chosen categories' flags are appended one category after the other; earlier flags stay |
| BuildSession.Builder.BaseOptionalParameters | utils/command_builder.py:71-101 | the base method appends exactly the flags the category and option menus select |
| BuildSession.Builder.InsertModes | modules/tool_builders.py:102-103 | `insert(0, flag)` per selected mode puts them in front, reversed |
| BuildSession.Builder.PutModesFirst | modules/tool_builders.py:98-103 | Gobuster's mode menu puts the selected modes in front, last selected first |
| BuildSession.Builder.GobusterOptionalParameters | modules/tool_builders.py:90-135 | Gobuster's method leaves exactly the flag list its specification gives |
| BuildSession.Builder.GetOptionalParameters | utils/command_builder.py:71-101 | dispatches to the builder's own method: the base one or Gobuster's |
| BuildSession.Builder.BuildCommand | utils/command_builder.py:45-69 | required prompts, then optional menus only after the check passes, then the join; `None` for a failed check, for exhausted input and for a `None` part; every key answered when a line is returned |
| BuildSession.RunBuilder | main.py:135-140 | the builder is made for the tool's kind with the current hint mode, and what it builds is what a fresh build gives, whatever the hint mode |
| FileManager.Parse | utils/file_manager.py:77-82 | `json.load` gives an object exactly for a JSON file |
| FileManager.ScriptTextSplit | utils/file_manager.py:36-39 | a script splits into the shebang line, the review comment, a blank line, then the command's lines |
| FileManager.ScriptTextLines | utils/file_manager.py:36-39 | a script is the three header lines then the command exactly as given, with no newline after it |
| FileManager.ScriptFileName | utils/file_manager.py:29-31 | a script name always ends in `.sh` or `.txt` |
| FileManager.ScriptFileNameRule | utils/file_manager.py:29-31 | a name ending in `.sh` or `.txt` is kept, any other gets `.sh` once, and normalising twice changes nothing |
| FileManager.ScriptNameIsNotJson | utils/file_manager.py:29-31 | a script name never ends in `.json` |
| FileManager.TemplateFileNameInjective | utils/file_manager.py:58 | distinct template names name distinct files |
| FileManager.WithTemplate | utils/file_manager.py:50-62 | saving adds or overwrites the one file `<name>.json` |
| FileManager.Load | utils/file_manager.py:70-82 | loading gives an object exactly when `<name>.json` exists and parses; a missing or malformed file gives `None` |
| FileManager.LoadAfterSave | utils/file_manager.py:50-79 | loading after saving gives back the name, tool, command and description saved |
| FileManager.SaveKeepsOthers | utils/file_manager.py:58-62 | saving under one name changes what no other name loads |
| FileManager.LoadAfterDelete | utils/file_manager.py:103-114 | after a delete the name loads nothing and every other name loads what it did |
| FileManager.SavedTemplateSummary | utils/file_manager.py:92-97 | a saved template is listed with its tool, description and command, under its own name unless the name is empty |
| FileManager.SummariesOf | utils/file_manager.py:88-99 | one entry per listed file, named by the stem, description and command defaulting to `''` |
| FileManager.SaveListsOneMore | utils/file_manager.py:58-62 | saving a template adds its file to the listing and no other |
| FileManager.ScriptSaveInvisible | utils/file_manager.py:29-33 | saving a script changes neither the listing nor what any template name loads |
| FileManager.StemFileRoundTrip | utils/file_manager.py:93-105 | deleting by the listed name targets the listed file itself, except for a file named exactly `.json` |
| FileManager.SummariesStems | utils/file_manager.py:88-99 | the listed names, as file names, are exactly those the listed files' stems give |
| FileManager.SummariesCommands | utils/file_manager.py:88-99 | the listed commands are exactly those the listed files hold |
| FileManager.ListingContents | utils/file_manager.py:84-101 | a sorted listing has one entry per listed file, its names give the stem files and its commands the files' commands |
| FileManager.RemovalListsLess | utils/file_manager.py:103-114 | removing files never lists a new template, name or command |
| FileManager.FileManager.constructor | utils/file_manager.py:15-21 | the manager starts over the given directory |
| FileManager.FileManager.SaveCommandToFile | utils/file_manager.py:23-46 | the script is written under the normalised name (or `command_<timestamp>.sh`) with the header, and the template listing is unchanged |
| FileManager.FileManager.SaveTemplate | utils/file_manager.py:48-68 | `<name>.json` is (over)written with the five fields |
| FileManager.FileManager.LoadTemplate | utils/file_manager.py:70-82 | the object in `<name>.json`, or `None` when it is missing or malformed |
| FileManager.FileManager.ListTemplates | utils/file_manager.py:84-101 | the loop visits each listed file once, and the result is its entries sorted by name |
| FileManager.FileManager.DeleteTemplate | utils/file_manager.py:103-114 | returns whether `<name>.json` existed and removes just that file |
| ShadowCaster.ToolIdOf | main.py:41-48 | each specialised builder is filed under one of the six ids; the base builder under none |
| ShadowCaster.BuilderFor | main.py:41-48 | an id outside the table gets the base builder; any other gets the builder filed under it |
| ShadowCaster.PressEnter | main.py:104 | "Press Enter" reads exactly one line |
| ShadowCaster.ChosenTool | main.py:124-126 | the id picked is the id of one listed tool, and there is one exactly when the tool menu got an answer |
| ShadowCaster.ToolFlow | main.py:129-146 | a command set by a build is never empty |
| ShadowCaster.BuildFlow | main.py:114-146 | the flow stops within the input, runs out only in the tool menu, and sets only non-empty commands |
| ShadowCaster.BuildFlowCommand | main.py:129-146 | a command the flow sets comes from the chosen tool's loaded descriptor and starts with its base command |
| ShadowCaster.ListedToolLoads | main.py:126-131 | a listed tool loads again under its listed id when `_config` occurs in its stem only as suffix |
| ShadowCaster.OfferedToolListed | main.py:117-125 | every tool on the menu is the entry of one listed descriptor |
| ShadowCaster.ClearedLeavesOnlyBareSuffix | main.py:107-111 | clearing leaves no listed template but one named exactly `.json`, and never touches a file that is not `*.json` |
| ShadowCaster.ActionStep | main.py:270-289 | "Use" leaves with the picked template's command; a delete removes only the picked template's file and never sets a command; going round again reads further |
| ShadowCaster.RoundStep | main.py:250-289 | a pass sets only a command some template of the listing holds, deletes only a file named after one of them, and a pass that sets a command leaves the loop |
| ShadowCaster.RoundBack | main.py:258-259 | typing the number of the last entry, "Back to Main Menu", leaves the loop and touches nothing |
| ShadowCaster.RoundPick | main.py:255-261 | typing entry `k` opens the actions of `templates[k - 1]` |
| ShadowCaster.ActionUse | main.py:278-282 | "Use This Template" makes the picked template's command current and leaves |
| ShadowCaster.ActionDelete | main.py:284-289 | "Delete Template" deletes the picked template's file exactly when the confirmation is a yes, then goes round again |
| ShadowCaster.ActionBack | main.py:270-276 | "Back" goes round again, touching nothing |
| ShadowCaster.RoundUse | main.py:255-282 | typing `k`, then 1, makes the command of `templates[k - 1]` current and leaves |
| ShadowCaster.RoundDelete | main.py:255-289 | typing `k`, then 2, deletes the file of `templates[k - 1]` exactly when the next line is a yes |
| ShadowCaster.RoundActionBack | main.py:255-276 | typing `k`, then 3, goes round again, touching nothing |
| ShadowCaster.App.constructor | main.py:50-55 | hints off and no current command |
| ShadowCaster.App.ClearAllTemplates | main.py:107-111 | reports the number of templates listed and removes exactly the files named after their stems |
| ShadowCaster.App.SettingsMenu | main.py:89-112 | option 1 flips the hint mode; option 2 clears all templates after a yes; either is followed by "Press Enter"; "Back" changes nothing |
| ShadowCaster.App.BuildTool | main.py:129-146 | a builder is made only when the descriptor loads, with the app's hint mode; the current command changes only to a non-empty built line |
| ShadowCaster.App.BuildFromListing | main.py:119-146 | an empty listing aborts before any builder; otherwise the flow is the one specified |
| ShadowCaster.App.BuildCommand | main.py:114-147 | lists the tools sorted by name, then builds as specified; the current command changes only as the flow says |
| ShadowCaster.App.LoadTemplate | main.py:219-238 | the templates offered are exactly `list_templates`' result (the directory's entries sorted by name); with none, only "Press Enter"; otherwise the template at the index the menu returns gives the current command, which some listed template holds |
| ShadowCaster.App.DeleteAndRelist | main.py:284-288 | removes exactly `<name>.json` and returns the listing of what remains, sorted by name |
| ShadowCaster.App.TemplateAction | main.py:270-289 | the "Template Actions" menu behaves as `ActionStep` says: the command it makes current, the one file it deletes, the listing read again after a delete and kept otherwise |
| ShadowCaster.App.ManageRound | main.py:250-289 | one pass behaves as `RoundStep` says: how it ends, the command it makes current, the file it deletes, and the listing it continues with; a command it sets was listed at the start |
| ShadowCaster.App.ManageTemplates | main.py:240-289 | only files named after listed stems are removed; a command it sets was held by a template at the start; with no template only "Press Enter" |

## Left out

- Printing, colours, banners, the menus' texts and hint texts: they do not change state. Hint mode is kept as a flag and handed to the builder, but what it prints is not modelled.
- `handle_command_options` (preview, clipboard, save, execute, build another), the builder's `preview_command` and `execute_command`, and `ClipboardManager`: they print or shell out (`xclip`/`xsel`/`pbcopy`, `subprocess.run`). The flows stop once the current command is set.
- The `run` loop and its `KeyboardInterrupt`/exception recovery: control flow around live input. Running out of input ends a flow with `None`.
- File-system effects: `mkdir`, `os.chmod(0o755)`, `json.dump` formatting and I/O errors. The directories are maps from file name to content, and a JSON file is an object, a script, or unreadable text.
- Timestamps (`datetime.now()`) are parameters.
- FileManager.FileManager.SaveCommandToFile: returns the file name rather than the full path, and never fails, since write errors are not modelled.
- Display.ParseInt: Python's `int()` also accepts underscores between digits and non-ASCII decimal digits. The model accepts an optional sign and ASCII digits only; the text is already stripped when it reaches `int`.
- `strip()` and `lower()`: the model strips only the six ASCII whitespace characters (space, `\t`, `\n`, `\r`, `\x0b`, `\x0c`) and folds only ASCII letters. Python's `strip()` also removes `\x1c`-`\x1f`, `\x85`, `\xa0` and the Unicode spaces (U+1680, U+2000-U+200A, U+2028, U+2029, U+202F, U+205F, U+3000), so a line made only of those counts as blank in Python but not here. With the full set, the proofs about menu parsing become much slower to verify.
- Directory order: the order the directory yields files in is a ghost parameter. Listings are proved sorted and a permutation of the files' entries.
- A descriptor without a `name`, or a template whose `tool` is missing, makes Python raise while sorting or calling `.title()`. Descriptor names are always strings here. The load-template flow stops right after setting the current command, which is also where Python's exception leaves it.
- An empty JSON object `{}` as a descriptor (falsy in `main.py`) is not representable, because the descriptor's name is a mandatory field.
- ShadowCaster.App.ManageTemplates: states which files may go and where a command it sets comes from, not the whole run as a function of the input. Each pass of its loop is `ManageRound`, whose contract gives that pass exactly; the loop's own contract does not restate the sequence of passes.
- `main_menu`, `print_banner`, `main` and the setup/run scripts: printing and process start-up.
