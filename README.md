# setup-scripts core, in Dafny

A model of the two classes at the heart of `src/main.py`:

- **MenuBuilder** (`menus.dfy`, module `Menus`) keeps the option table `menu_Opts`. Each entry maps an option name to its display aliases (`args`), a `summary` and an action `mapping` (`[callable, argument, ...]`).
  - `add_new_Opt`, `map_opt_Args`, `map_opt_Summary` and `map_opt_Function` change the table in place. They call each other one level deep.
  - `open_Menu` is the dispatch loop. It looks each input up in a snapshot of the table taken on entry. It stops on `exit`. Otherwise it calls `mapping[0]` with `mapping[1:]` and reports every failure as an invalid selection.
  - The class keeps the table as two fields: the key order (`names`) and the entries (`opts`). The methods reassign these fields.
  - The function `Registered` is the specification of a registration, and `AddNewOpt` is proved against it. The `MapOpt*` methods are proved against dictionary assignment on the table, `Table.Put` of the entry `Table.Get` gives with one field replaced. `Run` is the specification of the dispatch loop, and `OpenMenu` is proved against it.
  - The table is a `Table` value, an ordered dictionary with a key map, because the source assigns and looks up entries by key. The imported recipe is a plain sequence of pairs (`Recipes.Put`), because the import loop only assigns and the listing only walks it in order.
- **Recipe** (`recipes.dfy`, module `Recipes`) handles the recipe file:
  - `generate_Recipe` writes the skeleton recipe unless the file exists;
  - `import_Recipe` turns the top-level mapping of a loaded YAML document into a dictionary, with null values becoming `""`;
  - `list_Recipe` prints the imported contents. Its descent follows only the last element or entry, because the `for` loop leaves the loop variable bound to it.
  - The file system is a map from path to text. The YAML loader is a function parameter `load`.
  - `"{}".format(v)` is a function parameter `show`.
  - `ImportRecipe` and `ListRecipe` keep the source's loops. `ImportRecipe` is proved against `ImportOutcome`/`Collected`. `ListRecipe`, `ListLoop` and `DictLoop` are proved against `RecipeListing`/`ListDescent`/`DictDescent`.

`options.dfy` holds the `Option` datatype both modules use.

## Model

| member | source | states |
|---|---|---|
| Menus.Table.Put | src/main.py:245-246 | dictionary assignment keeps a present key in its place, appends a new key last, sets that key's entry and no other, and keeps the table well formed |
| Menus.PutTwice | src/main.py:245-256 | assigning a key twice keeps only the second entry, in the place the first assignment gave the key |
| Menus.Registered | src/main.py:227-256 | registering a name keeps the table's key list for a present name and appends the name for a new one, keeps key uniqueness, makes the name present, and leaves every other key and entry as it was |
| Menus.RegisterAbsent | src/main.py:245-256 | registering an absent name appends exactly one key at the end; its entry is the supplied fields over the defaults `args=[]`, `summary=""`, `mapping=[]` |
| Menus.RegisterDefaultsIsNoop | src/main.py:245-256 | `add_new_Opt(name)` with every argument at its default leaves a present entry and the table unchanged (why the add_new_Opt / map_opt_* recursion stops) |
| Menus.RegisterTwice | src/main.py:249-256 | two registrations of one name compose field by field: `args` and `mapping` are replaced iff the later one is not None, `summary` iff it is not "" |
| Menus.SummaryNeverCleared | src/main.py:252-253 | once set, a summary is never cleared by a later registration |
| Menus.SummaryThenAction | src/main.py:227-256 | a summary-only then an action-only registration of a new name give one entry with default aliases, that summary and that action |
| Menus.MenuBuilder.constructor | src/main.py:211-225 | the table starts empty |
| Menus.MenuBuilder.AddNewOpt | src/main.py:227-256 | the new table is `Registered(old table, ...)`, and the table stays well formed |
| Menus.MenuBuilder.MapOptArgs | src/main.py:258-276 | the entry is created if absent and its `args` replaced by the argument, None included; nothing else changes |
| Menus.MenuBuilder.MapOptSummary | src/main.py:278-292 | the entry is created if absent and its `summary` replaced, "" included; nothing else changes |
| Menus.MenuBuilder.MapOptFunction | src/main.py:294-309 | the entry is created if absent and its `mapping` replaced, None included; nothing else changes |
| Menus.Step | src/main.py:329-361 | one pass ends the loop iff the input is a key of the snapshot and equals "exit"; every other pass ends with the blank line |
| Menus.StepCallsAction | src/main.py:346-356 | a non-exit option with a non-empty mapping calls `mapping[0]` with exactly `mapping[1:]` (nothing for a one-element mapping); its output, its exception report and its new state are kept |
| Menus.StepWithoutAction | src/main.py:346-358 | a None or empty mapping is reported as an invalid selection and the state is unchanged |
| Menus.Run | src/main.py:321-361 | the loop never reads more inputs than there are, and always prints more lines than the help text alone |
| Menus.RunStopsExactlyAtExit | src/main.py:321-340 | the loop terminates iff "exit" is a key of the snapshot and among the inputs, at its first occurrence; otherwise it reads every input; the last output is always the prompt |
| Menus.ExitInvokesNothing | src/main.py:338-361 | reading `exit` neither calls its mapping nor prints the blank line: output and state equal those of the inputs before it |
| Menus.UnknownInputContinues | src/main.py:333-361 | an input that is not a key prints an invalid-selection line and a blank line, and the loop goes on with the same state |
| Menus.PingThenExit | src/main.py:323-361 | with `ping` mapped to an action printing "pong", inputs "ping", "exit" print prompt, "pong", blank line, prompt, and end |
| Menus.MenuBuilder.OpenMenu | src/main.py:311-361 | the `while True` loop over a snapshot of the table produces exactly the session `Run` specifies: output, termination, inputs read and final state |
| Recipes.Put | src/main.py:149-154 | dictionary assignment keeps existing keys in place, changes only key `k`, appends `k` at the end when new, and stores `(k, v)` |
| Recipes.PutPresentLength | src/main.py:149-154 | assigning to a key already present keeps the dictionary's length |
| Recipes.PutGrows | src/main.py:149-154 | a dictionary only grows by the assigned key's entry, placed last |
| Recipes.PutKeepsDistinct | src/main.py:149-154 | assignment never makes a key appear twice |
| Recipes.PutPresentValue | src/main.py:149-154 | with distinct keys, the new value replaces the old one in the present key's place |
| Recipes.Normalize | src/main.py:145-154 | a stored value is never None; a value other than None is stored unchanged |
| Recipes.Collected | src/main.py:143-154 | the imported dictionary has at most as many entries as the document, and holds the document's last key with its normalised value |
| Recipes.CollectedDistinctKeys | src/main.py:143-154 | the imported dictionary never holds a key twice, whatever the document |
| Recipes.CollectedThree | src/main.py:143-154 | three entries with distinct keys are imported in document order, each value normalised |
| Recipes.SkeletonImported | src/main.py:143-154 | the skeleton's `version`, `settings` and `applications` are imported in that order, `settings` becoming "" |
| Recipes.TypeName | src/main.py:141-143 | the type named in the `.items()` AttributeError is `CommentedMap` iff the document is a mapping |
| Recipes.ImportKeepsKeysInOrder | src/main.py:143-154 | import keeps exactly the document's top-level keys in document order; null becomes "" and every other value is stored unchanged |
| Recipes.ImportOutcome | src/main.py:132-166 | a missing path gives `([], "File does not exist")`; non-empty contents only come from a parsed document, with no error |
| Recipes.ImportFailureIsEmpty | src/main.py:136-161 | a loader exception gives empty contents and its text; a non-mapping document gives empty contents and a non-empty error; a mapping gives no error |
| Recipes.Recipe.ImportRecipe | src/main.py:115-166 | the returned contents and error are `ImportOutcome`'s, and the held contents are replaced by them on failure as well as success |
| Recipes.Recipe.constructor | src/main.py:38-40 | the recipe file name and skeleton are those given |
| Recipes.Recipe.GenerateRecipe | src/main.py:82-113 | an existing file gives "File exists" and is never written; otherwise a successful write stores the skeleton and gives "", a failed write gives its exception text; no other file changes |
| Recipes.GenerateThenImport | src/main.py:63-166 | importing a freshly generated skeleton succeeds with `version`, `settings = ""` and the placeholder application |
| Recipes.Descent | src/main.py:186-205 | only a list or a dict value can make the listing spin; any other value prints nothing more |
| Recipes.EntryListing | src/main.py:183-205 | an entry's listing starts with its `k = v` line and spins iff the descent from its value spins |
| Recipes.ListingOf | src/main.py:183-205 | the listing starts with the first entry's `k = v` line; unless it spins it prints at least one line per entry; an empty dictionary never spins |
| Recipes.RecipeListing | src/main.py:181-205 | None prints nothing and does not spin; non-empty contents print at least one line |
| Recipes.ListDescent | src/main.py:186-194 | the list loop stops on a non-list with nothing printed; after it the variable is not a list, unless it spins on an empty list |
| Recipes.DictDescent | src/main.py:197-205 | the dict loop prints nothing for a non-dict and spins only on a dict |
| Recipes.DescentSteps | src/main.py:186-205 | a non-empty list prints its elements and goes on from its last element only; from a non-list only the dict loop runs |
| Recipes.OnlyLastElementDescended | src/main.py:183-194 | a top-level list prints `k = v`, one tab-indented line per element, then descends into the last element only |
| Recipes.OnlyLastEntryDescended | src/main.py:183-205 | a top-level dict prints `k = v`, one tab-indented `k = v` line per entry, then descends into the last entry's value only |
| Recipes.EmptyContainerHangs | src/main.py:187-204 | a top-level empty list or dict makes the listing spin right after its `k = v` line; no later entry is printed |
| Recipes.ListingAppend | src/main.py:183-205 | the listing of `c1 + c2` is that of `c1`, followed, unless it spins, by that of `c2` |
| Recipes.ListingHangsIffSomeEntryHangs | src/main.py:183-205 | the listing spins iff the descent from some top-level value spins |
| Recipes.ListingExample | src/main.py:183-205 | for `version: 1.0` and an application with three lists, the entries of the application are printed but none of the list elements |
| Recipes.Recipe.ListLoop | src/main.py:186-194 | the `while isinstance(v, list)` loop prints and leaves `v` exactly as `ListDescent` says |
| Recipes.Recipe.DictLoop | src/main.py:197-205 | the `while isinstance(v, dict)` loop prints exactly what `DictDescent` says |
| Recipes.Recipe.PrintItems | src/main.py:193-194 | the inner `for` loop prints one tab-indented line per element and leaves `v` on the last one |
| Recipes.Recipe.PrintEntries | src/main.py:204-205 | the inner `for` loop prints one tab-indented `k = v` line per entry and leaves `v` on the last value |
| Recipes.Recipe.ListRecipe | src/main.py:168-205 | the printed lines, and whether the listing spins, are those of `RecipeListing`: nothing for None, otherwise every entry in order |

## Left out

- File I/O: `os.path.isfile`, `open`, `write` and `close`. The file system is a map from path to text. Failures to open or read a file that exists are not modelled, except as the loader raising.
- Recipes.Recipe.GenerateRecipe: a write that fails leaves the file system unchanged. A partly written file is not modelled.
- The `ruamel.yaml` loader is a parameter `load`. It returns a document or the text of the exception it raised. Scalars other than strings are not distinguished; they would all be `Str`.
- Recipes.ImportOutcome: the `'<type>' object has no attribute 'items'` message uses the type name `TypeName` gives. Exact ruamel class names are assumed.
- `print` and `input` are modelled as sequences: the output is a sequence of lines, and the inputs are a finite sequence.
- Menus.MenuBuilder.OpenMenu:
  - when the inputs run out, the session ends waiting at the prompt. In the source, `input` would raise EOFError and the loop would spin.
  - exception texts are not modelled as strings. They are the `Cause` datatype (KeyError, TypeError, IndexError, or the action's own exception).
- Python `repr` and `str.format` of values are the uninterpreted function `show`.
- `help_Func` is the constant list of lines it prints on every pass (`banner`). An exception it raises is not modelled.
- Actions are modelled as the parameter `call`, which takes a state `S` and returns a new state, printed lines and possibly an exception text. An action that changes the menu table is not modelled. Because the loop works on a shallow snapshot, such a change could affect it only through shared entry dictionaries.
- `display_header`, `display_help`, the `Menu` class, `init`, `setup`, `main` and the exit codes are not part of this model. They only print, or wire the globals together.
- The skeleton text at src/main.py:40-81 is a constructor parameter. `SkeletonDocument` states what it loads as.
- Recipes.Recipe.ListRecipe:
  - where the source loops forever without printing (the descent reaches an empty list or dict), the model stops and reports `hangs = true` with the lines printed before.
  - the rebinding of `k` by the dict loop has no visible effect and is not modelled.
- Recipes.Recipe.constructor: `recipeContents` starts empty. The source leaves `recipe_Contents` unset until the first import.
- The `type(v) == "ruamel.yaml.comments.CommentedMap"` test at src/main.py:147 compares a type with a string, so it is never true. The model stores nested mappings unchanged, as the code does.
- Recipes.ImportKeepsKeysInOrder: assumes the loader returns a mapping with distinct keys, as `ruamel.yaml` rejects duplicate keys by default. `CollectedDistinctKeys` holds without that assumption.
- What the code does that a reader might not expect; the model follows the code:
  - Importing a generated skeleton keeps the placeholder `application-name` entry, with its three lists null (`GenerateThenImport`).
  - A listing never prints the elements of a list that is not the last value on the descent path (`ListingExample`).
