# cbot in Dafny

cbot is a Discord bot whose users run JavaScript inside chat messages. Each
user gets a script context of their own, up to a limit of 16. Inside that
context the user can keep a persistent state object (`this.s`), define text
macros, and export functions that other users may call. This project models
the bot's session and command layer (`cbot.py`) and the bookkeeping half of
the bootstrap script every context runs first (`preamble.js`), and proves
what each operation does.

The model has eight modules, one per file:

- `Text` (`text.dfy`): the Python `str` operations the bot relies on.
  - `strip`, `split()` and `split(maxsplit=1)`, `" ".join`, `replace`, substring tests, and digit strings.
  - Lemmas on these: round trips, idempotence, and `replace` as split-then-join.
- `Errors` (`errors.dfy`): the exceptions that can escape to a reply, and `Option` / `Result`.
- `Values` (`values.dfy`): JavaScript values as the bot sees them and the Python values they become.
  - `serialize_JSObject` as a loop, proved equal to a recursive conversion.
  - The two directions of the save/load round trip between a stored dict and the script's `this.s`.
  - `str()` of a value, as much as the reply logic needs.
- `CallSyntax` (`callsyntax.dfy`): `parse_js_call`, the rewriter that turns `f "a b" c` into `f("a b", c)`.
  - Quoted runs are masked by a sentinel word, the text is split into words, and the quoted runs are put back in.
  - Proved: the call text for well-formed argument lists, exactly when an `IndexError` is raised, and how a quote glued to a word leaks the sentinel into the call.
- `Preamble` (`preamble.dfy`): the class `JsContext`.
  - Fields: the three buffers `stdout`, `new_macros` and `new_exports`, the gateway state `s`, and the script's other globals (`heap`).
  - Methods for `print`, `def_macro`, `def_export` and their resets.
  - The bootstrap run, which registers the built-in `gen` macro.
  - Evaluation of user code through an abstract engine.
- `Gateway` (`gateway.dfy`): the URL allow-list test of `req`, and the fallback to an empty state when a user's stored state is missing or is not a dict.
- `Dispatch` (`dispatch.dfy`): the routing decisions of `on_message` as pure functions.
  - Mention parsing, macro expansion, classification of a command by its sigil (`$`, `#`, `&`) and edit sub-mode, and the reply text of `run_js`.
  - How an outcome becomes a message or reactions.
- `Bot` (`bot.dfy`): the class `Client`, holding the context pool, the counter, the macro tables, the export lists, the stored user states and the shared `usercode/` files. Its methods:
  - `get_js_context`;
  - harvesting (`get_macros_and_exports`);
  - `save_state`, `run_js` and `exec_js_with_context`;
  - `handle_export_call` and `on_message`.

  The replies are tied to specification functions of the old state (`TargetOutcome`, `CommandOutcome`, `Answer`). The new state is tied to functions of the old one as well: `ExecStore` and `ExecGlobals` for one exec, and `CommandStore` and `CommandGlobals` for a whole command, which the two-state predicate `Performed` gathers. The exception is a member's first message (see "Left out"). `Valid()` holds throughout. It says that every registered member has both tables and that the counter equals the number of members holding a context, which is at most 16.

The script engine is a parameter: any total function from a context's globals and a piece of code to new globals and a value or thrown message. The bot's own scripts (the preamble, and the reads and resets of the buffers) are modelled exactly. User code, the file store and the user states are the client's fields, and message handling returns a `Response` value instead of talking to Discord.

Some behaviours of the code that are easy to miss:

- A macro must expand to text starting with a sigil. The body `print("hi " + X)` over `#greet "world"` expands to `print("hi " + "world")`, which `on_message` then ignores because its first character is not `$`, `#` or `&` (cbot.py:241-248).
- A user that `on_ready` did not register (not in `macro_map`) gets a context entered in `context_map` (cbot.py:127), and the preamble runs in it. Harvesting the preamble's `gen` macro then raises `KeyError` at cbot.py:153, inside `get_js_context`. So the counter is not incremented and the first message crashes there (`Bot.Client.Allocate`, `Bot.Client.RouteStranger`). Every later message finds the context and crashes with `KeyError` on the macro table at cbot.py:229. The counter therefore counts members holding a context, not all entries of the pool.
- `save_state` opens the state file for writing before it pickles (cbot.py:141-142). A state that still holds an array or a function of the engine does not pickle, so the reply is the pickling error and the old stored state is gone (`Bot.Client.SaveState`, `Bot.SaveEffect`).
- A command of `&` alone (from a macro whose text is `&`) fails on `cmd[0]` with a string `IndexError` ("string index out of range"). Every other missing part of an edit command fails on a list index ("list index out of range"); see `Dispatch.EditNeedsName`.

## Model

| member | source | states |
|---|---|---|
| Text.LStrip | cbot.py:217 | The result is a suffix of the input and does not start with whitespace |
| Text.LStripSpaces | cbot.py:217 | Every character `lstrip` drops is whitespace |
| Text.RStrip | cbot.py:217 | The result is a prefix of the input and does not end with whitespace |
| Text.RStripSpaces | cbot.py:217 | Every character `rstrip` drops is whitespace |
| Text.StripTrimmed | cbot.py:217 | Text with no whitespace at either end is left unchanged by `strip` |
| Text.SplitWsWords | cbot.py:55 | Every part `split()` returns is non-empty and free of whitespace |
| Text.SplitWsLeading | cbot.py:232 | Leading whitespace does not change the words `split()` finds |
| Text.SplitJoinWords | cbot.py:55-70 | Splitting the space-join of whitespace-free words gives those words back |
| Text.SplitOnce | cbot.py:232 | `split(maxsplit=1)` gives at most two parts; none exactly when there are no words; the first is the first word; a second part is non-empty and starts with a non-space |
| Text.SplitOnceAgrees | cbot.py:268-270 | Two parts exactly when there are at least two words, and the words of the rest are the remaining words |
| Text.SplitOnceWordRest | cbot.py:232 | A word, one space and a rest starting with a non-space split into exactly that word and that rest |
| Text.ReplaceEmpty | cbot.py:235 | Replacing the empty pattern inserts the replacement at each of the \|s\|+1 positions |
| Text.ReplaceIsSplitJoin | cbot.py:235 | `replace` equals splitting on the pattern and joining with the replacement |
| Text.SplitOnJoin | cbot.py:235 | Joining the parts of a split with the separator gives back the original text |
| Text.ReplaceSelf | cbot.py:235 | Replacing a pattern by itself leaves the text unchanged |
| Text.ReplaceAbsent | cbot.py:235 | A text that does not contain the pattern is left unchanged |
| Text.ReplaceSkipPrefix | cbot.py:235 | A prefix without the pattern's first character passes through `replace` unchanged |
| Text.ReplaceLeading | cbot.py:235 | A text that is the pattern plus a shorter tail becomes the replacement plus that tail |
| Text.NatToString | cbot.py:189 | `str` of a non-negative id is a string of decimal digits |
| Text.DigitsRoundTrip | cbot.py:174-175 | `int(str(n)) == n` for every non-negative n |
| Values.DictSet | cbot.py:43 | `out[k] = data` appends a new key at the end; for an existing key it replaces the item at that key's first position by the new value and keeps every other item and its place; the key is present afterwards |
| Values.KeyIndex | cbot.py:43 | The position found holds the key, and no earlier item does |
| Values.DictSetTidy | cbot.py:38-43 | Setting a key of a dict with distinct keys to a tidy value keeps the keys distinct |
| Values.SerializeJsObject | cbot.py:35-45 | The loop over the keys yields exactly the recursive conversion of the object, nested objects included |
| Values.PlainFoldAppends | cbot.py:38-43 | With distinct keys, the output dict holds the object's keys in iteration order, one item each |
| Values.LoadAfterSave | cbot.py:35-45 | Converting a saved object back into a script value gives the original object, for objects with distinct keys |
| Values.PlainTidy | cbot.py:35-45 | `serialize_JSObject` of any value gives a dict with distinct keys all the way down |
| Values.SaveAfterLoad | cbot.py:35-45 | Saving the script value of a stored dict with distinct keys gives the stored dict back |
| Values.StrNone | cbot.py:164-167 | `str` of a value is "None" exactly when the value is None, the string "None", or an opaque value printing as "None" |
| CallSyntax.ParseJsCall | cbot.py:50-73 | The loop over the tokens computes exactly the specification `JsCall`: the call text, or its `IndexError` |
| CallSyntax.RestoreSucceeds | cbot.py:58-63 | Putting back the quoted runs succeeds exactly when there are at least as many runs as sentinel tokens, and then keeps the number of tokens |
| CallSyntax.RestoreAt | cbot.py:58-63 | Token i becomes the next quoted run in quotes when it is the sentinel, and stays itself otherwise |
| CallSyntax.JsCallFails | cbot.py:65 | The rewrite fails exactly when the text has no words or too many sentinels, always with `IndexError` |
| CallSyntax.ScanFindsQuoted | cbot.py:52-53 | `re.findall` finds exactly the quoted runs of the arguments, in order |
| CallSyntax.ScanMasksQuoted | cbot.py:55 | `re.sub` replaces each quoted argument by the sentinel and leaves bare words alone |
| CallSyntax.RestoreWellFormed | cbot.py:56-63 | For well-formed arguments, restoring the masked tokens gives back each argument as written |
| CallSyntax.CallPreservesQuotes | cbot.py:50-70 | For well-formed arguments (bare words without quotes, quoted runs without inner quotes) the rewrite is `f(a1, ..., an)` with each quoted run kept whole, spaces included |
| CallSyntax.MaskedWords | cbot.py:55 | Every masked argument is a single word |
| CallSyntax.SendExample | cbot.py:50-70 | `f "q" w` becomes `f("q", w)` |
| CallSyntax.GluedQuoteExample | cbot.py:55-63 | A quoted run glued to a word is not put back: `f w"q"` becomes `f(w` + sentinel + `)` |
| Preamble.JsContext.constructor | cbot.py:125-127 | A new context has empty buffers, no other globals and the gateway state it was given |
| Preamble.JsContext.Print | preamble.js:3-5 | Appends the value to stdout; nothing else changes |
| Preamble.JsContext.ResetStdout | preamble.js:7-9 | Empties stdout; nothing else changes |
| Preamble.JsContext.DefMacro | preamble.js:27-30 | Logs "Defined macro n" and queues the triple [n, v, t]; the exports and the state are unchanged |
| Preamble.JsContext.ResetMacros | preamble.js:32-34 | Empties the macro queue; nothing else changes |
| Preamble.JsContext.DefExport | preamble.js:38-41 | Logs "Exported function f()" and queues f; the macros and the state are unchanged |
| Preamble.JsContext.ResetExports | preamble.js:43-45 | Empties the export queue; nothing else changes |
| Preamble.JsContext.RunPreamble | preamble.js:1-52 | After the preamble the log holds the `gen` definition line, the macro queue holds exactly the `gen` macro, no export is queued, the state is untouched, the other globals gain the preamble's functions, and the value is undefined (None) |
| Preamble.PreambleKeepsHeap | preamble.js:1-50 | The preamble adds its nine functions to the globals, each bound to the function value it declares, and keeps every other global |
| Preamble.JsContext.Eval | cbot.py:161 | The context's globals, the other globals of the script included, and the outcome become what the engine makes of the old globals and the code |
| Gateway.Req | cbot.py:93-103 | A page is fetched exactly when some allow-list entry occurs in the URL, and then its text is returned; otherwise None |
| Gateway.AllowedAnywhere | cbot.py:95-98 | Any text around an allowed URL is allowed too: the test is a substring test, not a host match |
| Gateway.LoadState | cbot.py:77-91 | The loaded state is always an object; a stored dict with distinct keys is loaded as itself; a missing file or a non-dict gives `{}` |
| Dispatch.Classify | cbot.py:241-308 | A text is a command exactly when it starts with `$`, `#` or `&` |
| Dispatch.QuickCommand | cbot.py:266-281 | A `#` command is an export call or a quick eval of the whole command |
| Dispatch.EditCommand | cbot.py:284-308 | An `&` command is a write, a file run, a file read or a refusal with its error |
| Dispatch.MentionRoundTrip | cbot.py:174-175 | A user's mention matches the mention pattern and `int(mention[2:][:-1])` gives back the user's id |
| Dispatch.GluedMention | cbot.py:272 | A character before a mention still matches the search, but the id cannot be read back (the export call raises) |
| Dispatch.MentionIsWord | cbot.py:268 | A mention contains no whitespace, so it is one word of the command |
| Dispatch.ExpandKnown | cbot.py:231-235 | `#name arg` with a macro `name` becomes the macro's text with every occurrence of its variable replaced by `arg` |
| Dispatch.ExpandUnknown | cbot.py:231-234 | `#name arg` without such a macro is kept as it is |
| Dispatch.ExpandNoArgument | cbot.py:232 | A lone `#name` is kept even for a known macro, because the two-way unpacking fails and the error is swallowed |
| Dispatch.GenReplace | cbot.py:235 | The `gen` macro's body with `Text` replaced by arg is `$gen_text("arg")` |
| Dispatch.GenExample | cbot.py:231-262 | `#gen topic` with the built-in macro expands to `$gen_text("topic")`, which classifies as an eval of `gen_text("topic")` |
| Dispatch.ClassifyExport | cbot.py:266-278 | `#<@id> body` is an export call to that mention with that body |
| Dispatch.ClassifyQuick | cbot.py:279-281 | `#f args` with no mention in the first word is a quick eval of `f args` |
| Dispatch.ClassifyWrite | cbot.py:284-294 | `&+name code` is a write of code to name; `&+name` alone is refused with the malformed-write message |
| Dispatch.ClassifyFile | cbot.py:298-305 | `&&name` runs file name and `&*name` shows it |
| Dispatch.EditNeedsName | cbot.py:284-288 | An edit command with nothing after its sub-mode fails with the list `IndexError`; a bare `&` fails earlier with the string `IndexError` |
| Dispatch.FirstNonText | cbot.py:165 | The index is within the log, and an item there is not a string |
| Dispatch.FirstNonTextPrefix | cbot.py:165 | Every log item before that index is a string |
| Dispatch.LogTextFails | cbot.py:165 | Joining the log succeeds exactly when every item is a string; otherwise it is a `TypeError` naming the first offending item |
| Dispatch.RunReplyNotNone | cbot.py:164-169 | A successful reply of `run_js` is never the text "None" |
| Dispatch.RunAcknowledged | cbot.py:162-169 | A run's reply is empty, and so is answered with a check mark, exactly when its value prints as None or "" and the log is empty |
| Dispatch.SentAddressesUser | cbot.py:310-319 | Every message the bot sends in reply starts with the user's mention and a space |
| Bot.HarvestMacros | cbot.py:152-154 | Harvesting changes only the harvested user's macro table, and the set of users stays the same |
| Bot.HarvestExports | cbot.py:156-158 | Only the harvested user's export list changes, by the queued names appended at its end |
| Bot.LastWriterWins | cbot.py:152-153 | After harvesting, a name holds its last queued definition; names never queued keep their old one |
| Bot.ApplyOne | cbot.py:153 | Harvesting one declaration adds or overwrites exactly that macro |
| Bot.GateOpensForExports | cbot.py:183-189 | The export gate opens exactly when the body's first word is in the target's exports, and then runs the rewritten call; an unlisted name gives the illegal-export error |
| Bot.PreambleReply | cbot.py:160-171 | Running the preamble succeeds, and its reply is the `gen` definition line in backquotes |
| Bot.LimitAddressed | cbot.py:255 | The limit notice starts with the user's mention and a space |
| Bot.CountAdd | cbot.py:130 | Giving a member a context adds one to the number of members holding a context; giving one to a non-member adds nothing |
| Bot.ExecReplyOk | cbot.py:191-196 | `exec_js_with_context` succeeds exactly when the run did not fail, a non-member queued no macro or export, and the state is an object; its reply is then the run's reply |
| Bot.SaveEffect | cbot.py:135-142 | `save_state` succeeds exactly when the state is an object holding no engine object, and then stores `serialize_JSObject` of it; on failure the entry is kept or removed as the file is; other users' entries are kept; stored states stay well-formed pickles |
| Bot.LoadedPickles | cbot.py:77-91 | A loaded state is an object, and saving it again pickles |
| Bot.PreambleSavesLoaded | cbot.py:124-132 | Saving the state a new context loaded writes the stored dict back as it was, or `{}` when there was none |
| Bot.ExecStoreEffect | cbot.py:191-196 | An exec never changes the files, keeps both tables' users and every other user's entries; a run that fails changes no table; a successful exec harvests both queues and stores the user's state |
| Bot.ThrownReported | cbot.py:161 | Code that throws makes the command report exactly that exception |
| Bot.LimitAnswerSent | cbot.py:241-256 | With a full pool, a text is answered with the limit notice exactly when it expands to a non-empty text starting with a sigil, and with nothing else; the answer is never a reaction |
| Bot.PlainIgnored | cbot.py:247-248 | A member's text that does not start with a sigil is ignored |
| Bot.WriteAcknowledged | cbot.py:290-313 | `&+name code` is answered with a check mark |
| Bot.ShowFile | cbot.py:302-317 | `&*name` on a missing file gives the cross and page reactions; on an empty file or one reading "None" a check mark; otherwise the file after the user's mention |
| Bot.ReadOutcome | cbot.py:302-305 | `&*f` gives the file exactly when it exists, and FileNotFoundError otherwise |
| Bot.EditRoundTrip | cbot.py:284-305 | `&+name code` is the write of code to name and `&*name` its read; the read after the write gives back the code |
| Bot.FailedRunKeepsTables | cbot.py:160-196 | Own code that throws or whose reply fails to convert changes no table, and the command fails |
| Bot.GenCommand | cbot.py:231-264 | Once `gen` is registered, `#gen topic` is answered as the eval of `gen_text("topic")` in the user's own context |
| Bot.ExportOnlyListed | cbot.py:173-189 | A successful export call names a registered user whose export list holds the first word of the body |
| Bot.TargetOnlyListed | cbot.py:176-189 | For a target id, success means the id has an export list holding the body's first word |
| Bot.UnlistedRunsNothing | cbot.py:183-189 | An export call whose first word the target does not export fails and runs no code: the target's globals and the tables are as they were, or as the allocation left them |
| Bot.Client.constructor | cbot.py:204-207 | From stored states that `pickle` wrote, the client starts with no contexts, the counter at 0, and an empty macro table and export list for every member |
| Bot.Client.RunJs | cbot.py:160-171 | The reply is `RunResult` of the run over the old globals (the value stringified plus the log, or the error); on success stdout is emptied, and otherwise the globals are as the run left them |
| Bot.Client.Harvest | cbot.py:144-158 | Both queues are emptied and applied to the user's tables: all macros, then all exports; a non-member with anything queued gets `KeyError` |
| Bot.Client.AddMacros | cbot.py:152-154 | A member's queued macros are applied as `HarvestMacros`; a non-member with queued macros gets `KeyError` and no change |
| Bot.Client.AddExports | cbot.py:156-158 | A member's queued exports are appended as `HarvestExports`; a non-member with queued exports gets `KeyError` and no change |
| Bot.Client.SaveState | cbot.py:135-142 | A state that is not an object raises `AttributeError` and stores nothing; one that still holds an engine array or function raises the pickling error and erases the stored state; otherwise the serialized state is stored under the user's id; no other user's entry changes |
| Bot.Client.Exec | cbot.py:191-196 | The reply is `ExecReply` of the run over the old globals; the context's globals become `ExecGlobals` of the run and the tables `ExecStore` of the old tables; the pool, the counter and the files are unchanged |
| Bot.Client.GetJsContext | cbot.py:112-132 | A user with a context gets that one and nothing changes; with a full pool there is no context and nothing changes; otherwise a fresh context is allocated; contexts are never released |
| Bot.Client.Allocate | cbot.py:124-132 | The new context is entered in the map before the preamble runs and starts from the user's loaded state. A member gets it with `gen` registered, its state saved and the counter one higher; a non-member leaves it in the map and gets `KeyError` |
| Bot.Client.Enter | cbot.py:127-132 | The context goes into the map before the preamble runs; afterwards its buffers are empty and the preamble's functions declared; a member gains `gen`, a saved state and a counter one higher; a non-member gets `KeyError` and only the map changes |
| Bot.Client.ExecPreamble | cbot.py:129 | The preamble's run leaves the buffers empty, the state as loaded and the preamble's functions declared; a member gains the `gen` macro and a saved state; a non-member gets `KeyError` and the tables are unchanged |
| Bot.Client.HandleExportCall | cbot.py:173-189 | The result is `ExportOutcome` of the old state and the tables become `ExportStore`; a bad mention, an unregistered target or a full pool change nothing; the target's context ends with `TargetGlobalsAfter`; contexts are never released |
| Bot.Client.CallTarget | cbot.py:176-189 | The result is `TargetOutcome` of the old state and the tables `TargetStore`; a refusal changes nothing; otherwise the target holds a context whose globals are `TargetGlobalsAfter`, unchanged when the gate refuses |
| Bot.Client.CallExport | cbot.py:183-187 | A refused gate returns its error and changes nothing, neither the client nor the context; otherwise the reply is `ExecReply` of the rewritten call run in the context, with globals `ExecGlobals` and tables `ExecStore` |
| Bot.Client.Perform | cbot.py:258-308 | The result is `CommandOutcome` of the old state and the new state is `Performed`: the tables are `CommandStore` and the context reached has `CommandGlobals` (the target's `TargetGlobalsAfter` for an export call); a write stores the file; reads and refusals change nothing |
| Bot.Client.PerformOwn | cbot.py:262-264 | For `$code`, `#f args` and `&&name` the result is `CommandOutcome` and the new state `Performed`; the pool, the counter and the files are unchanged |
| Bot.Client.PerformExport | cbot.py:266-278 | For an export call the result is `CommandOutcome` and the new state `Performed`; the files are unchanged |
| Bot.Client.ExportKeepsCode | cbot.py:173-189 | An export call never changes the stored files |
| Bot.Client.TargetKeepsCode | cbot.py:176-189 | The same for a target id |
| Bot.Client.RunCode | cbot.py:262-264 | The reply is `ExecReply` of the user's code run in the user's context; the context's globals become `ExecGlobals` and the tables `ExecStore` of the run |
| Bot.Client.OnMessage | cbot.py:210-319 | Bot and self messages and texts shorter than 2 are ignored without change; a non-member crashes with `KeyError`; a member holding a context gets `Answer` and the new state `Performed` for the stripped text's command; with a full pool there is the limit answer and no change; otherwise a fresh context; every sent text addresses the author |
| Bot.Client.Route | cbot.py:226-319 | The same cases for a stripped text |
| Bot.Client.RouteHeld | cbot.py:226-319 | A member holding a context gets `Answer` of the old state, and the new state is `Performed` for the text's command |
| Bot.Client.RouteStranger | cbot.py:226-229 | A non-member crashes with `KeyError` after `get_js_context`; only the context pool may have changed |
| Bot.Client.RouteFull | cbot.py:226-256 | With a full pool, a member without a context gets the limit answer and nothing changes |
| Bot.Client.RouteNew | cbot.py:124-132 | A member's first message allocates a fresh context and raises the counter |
| Bot.Client.HandleText | cbot.py:229-319 | With a context the answer is `Answer` of the old state and the new state `Performed` for the text's command (nothing changes for a text that is no command); without one it is the limit answer and nothing changes |

## Left out

- Discord I/O is not modelled. Messages come in as values and replies go out as `Response` values; the emoji reactions are an enumeration.
- `on_ready` is modelled once, as the constructor. Running it again would reset the tables, and that is not modelled.
- The script engine (STPyV8) is a parameter. What user code does is whatever the engine function says.
  - The `with ctx` lock and the concurrency it guards are not modelled; messages are handled one at a time.
- The network fetch of `req` is a parameter. The `gen` method (the Gemini call) and `gen_text` are not modelled beyond the `gen` macro text that calls them.
  - Both are network calls.
- `random_int` and `d` of preamble.js are not modelled, because they draw random numbers.
- File I/O and `pickle` are not modelled.
  - The `userstate/` and `usercode/` directories are maps held by the client.
  - A file that fails to unpickle counts as missing. A state file cut off by a failed `pickle.dump` is modelled as removed, since it then loads like a missing one.
  - The client starts from stored states that `pickle` wrote (`Restorable`: proper dicts holding no engine object). Files written by other programs are not modelled.
  - The text of the pickling error is modelled after Boost.Python's message for an object whose class does not enable pickling. Only the type name in it is taken from the object.
  - Path handling of file names (subdirectories, invalid names) is not modelled.
- Reading the token, the preamble and the Gemini key at start-up is not modelled, and neither is the `dprint` logging.
- The gateway attributes `userid`, `new_exports` and `new_macros` set by `init_state` are not modelled; the bot never reads them.
- `def_macro` and `def_export` arguments are modelled as strings.
  - User code that redefines the preamble's functions or buffers is covered only in that the engine may return any globals.
- Whitespace is Python's `str.isspace` set, Unicode included. Digits are only the ASCII `0`-`9`; the other Unicode decimal digits that `\d` and `int` accept are not modelled.
- `repr` is modelled without quote escaping. The type name `JSObject` and script functions or arrays are opaque scalars. An opaque scalar records whether it is an object of the engine (an array or function), which is what makes `pickle` fail.
- A context's other globals (the `heap`) are a map from names to values, read and written only by the engine. The preamble's nine functions are bound to abstract function values, not to their code.
- Bot.Client.SaveState: only a `JSObject` state is taken to have `keys()`. Any other state raises `AttributeError`, even one the engine might give a `keys` method.
- Bot.Client.OnMessage: for a member's first message it states only that a fresh context exists, the counter rose and any sent text addresses the user. It does not state the exact answer or the new tables. `Performed` relates a command to the state it started from, and here that state is the one `Allocate` leaves, not the caller's. `Bot.Client.Allocate` gives that intermediate state in full.
- Bot.Client.RouteNew: the same gap as OnMessage for a first message. It also states the counter as at least one higher rather than exactly one. The exact count follows from `Valid()` together with `Bot.Client.Allocate`.
- Bot.Client.Perform: for an export call, `Performed` does not state that the user's own context keeps its globals when it is not the target. `Bot.Client.HandleExportCall` states that every context other than the target's is unchanged.
