/** The bot client (cbot.py:112-319): a bounded pool of script contexts,
    one per user, allocated on a user's first message and never released;
    the per-user macro tables and export lists filled from the buffers of
    a context after every run; the persisted user states; the shared store
    of usercode/ files; and the handler that routes each message. */
module Bot {
  import opened Text
  import opened Errors
  import opened Values
  import opened CallSyntax
  import opened Preamble
  import opened Gateway
  import opened Dispatch

  /** MAX_NUM_CONTEXTS (cbot.py:11). */
  const MaxNumContexts: nat := 16

  /** cbot.py:180 */
  const NoVmForExport: string := "Could not alloc VM for export call"

  /** cbot.py:189 */
  function IllegalExport(f: string, id: UserId): string {
    "Illegal export invocation: " + f + " as " + NatToString(id)
  }

  /** What a context evaluates: the preamble, or code of a user's. */
  datatype Script = Bootstrap | UserCode(code: string)

  /** The pair get_js_context returns, or the exception it lets escape. */
  datatype Acquired = Found(ctx: JsContext) | LimitReached | Failed(error: Error)

  datatype Message = Message(author: UserId, fromBot: bool, content: string)

  function Def(d: MacroDecl): MacroDef {
    MacroDef(d.param, d.text)
  }

  // ---------------------------------------------------------------------
  // Harvesting as functions

  /** A macro table after the queued declarations, in queue order
      (cbot.py:152-153). */
  function ApplyMacros(t: MacroTable, ds: seq<MacroDecl>): MacroTable {
    if ds == [] then t
    else ApplyMacros(t, ds[..|ds| - 1])[ds[|ds| - 1].name := Def(ds[|ds| - 1])]
  }

  /** The last declaration named n in the queue. */
  function LastDecl(ds: seq<MacroDecl>, n: string): Option<MacroDef> {
    if ds == [] then None
    else if ds[|ds| - 1].name == n then Some(Def(ds[|ds| - 1]))
    else LastDecl(ds[..|ds| - 1], n)
  }

  /** Only the harvested user's table changes. */
  function HarvestMacros(m: map<UserId, MacroTable>, id: UserId, ds: seq<MacroDecl>): (r: map<UserId, MacroTable>)
    ensures r.Keys == m.Keys
    ensures forall u :: u in m && u != id ==> r[u] == m[u]
  {
    if id in m then m[id := ApplyMacros(m[id], ds)] else m
  }

  /** Only the harvested user's list changes, and it only grows at its end
      (cbot.py:156-157). */
  function HarvestExports(x: map<UserId, seq<string>>, id: UserId, es: seq<string>): (r: map<UserId, seq<string>>)
    ensures r.Keys == x.Keys
    ensures forall u :: u in x && u != id ==> r[u] == x[u]
    ensures id in x ==> |r[id]| == |x[id]| + |es| && r[id][..|x[id]|] == x[id] && r[id][|x[id]|..] == es
  {
    if id in x then x[id := x[id] + es] else x
  }

  /** What evaluating a script does to the globals of a context. */
  function Run(engine: Engine, g: Globals, script: Script): Evaluated {
    match script
    case Bootstrap => Evaluated(AfterPreamble(g.s, g.heap), Returned(Leaf(PyNone)))
    case UserCode(code) => engine(g, code)
  }

  /** The globals of a new context around a stored state once the
      preamble has run and the bot has drained the buffers. */
  function NewGlobals(states: map<UserId, PyValue>, id: UserId): Globals {
    Globals([], [], [], LoadState(Stored(states, id)), DeclarePreamble(map[]))
  }

  /** What run_js returns for an evaluation, or the exception it raises. */
  function RunResult(ev: Evaluated): Result<string> {
    match ev.outcome
    case Thrown(m) => Err(EngineError(m))
    case Returned(v) => RunReply(v, ev.after.stdout)
  }

  /** What save_state (cbot.py:135-142) raises for the gateway state s: a
      state that is not an object has no keys(), and a serialized state
      still holding an engine object does not pickle. */
  function SaveOutcome(s: JsValue): Outcome {
    if !s.Obj? then Fail(AttributeError(TypeName(s)))
    else
      var bad := Unpicklable(Plain(s));
      if bad.Some? then Fail(PickleError(bad.value)) else Pass
  }

  /** The userstate/ files after save_state for user id. The state is
      serialized before the file is opened, so a state without keys()
      leaves the file alone; opening it truncates it, so a state that then
      fails to pickle leaves the user without a stored state (an empty or
      cut-off file loads like a missing one). */
  function Saved(states: map<UserId, PyValue>, id: UserId, s: JsValue): map<UserId, PyValue> {
    if !s.Obj? then states
    else if SaveOutcome(s).Fail? then states - {id}
    else states[id := Plain(s)]
  }

  /** What exec_js_with_context (cbot.py:191-196) returns for an
      evaluation, or the first exception of its three steps: the run, the
      harvest (only a user without tables can fail it, and only when
      something was queued), the save. */
  function ExecReply(ev: Evaluated, id: UserId, member: bool): Result<string> {
    var g := ev.after;
    if RunResult(ev).Err? then RunResult(ev)
    else if !member && (g.newMacros != [] || g.newExports != []) then Err(KeyError(id))
    else if SaveOutcome(g.s).Fail? then Err(SaveOutcome(g.s).error)
    else RunResult(ev)
  }

  /** The globals of the context after exec_js_with_context: as the run
      left them when it raised, otherwise with the log and both queues
      emptied; the state and the other globals stay as the run left them. */
  function ExecGlobals(ev: Evaluated): Globals {
    if RunResult(ev).Err? then ev.after else Drained(ev.after)
  }

  /** The bot's tables and files: what a command may change besides the
      globals of a context. */
  datatype Store = Store(
    macroMap: map<UserId, MacroTable>,
    exports: map<UserId, seq<string>>,
    userState: map<UserId, PyValue>,
    usercode: map<string, string>)

  /** The tables after exec_js_with_context for user id: a failed run
      changes nothing; a harvest that fails changes nothing; otherwise the
      queues are harvested and the state saved. */
  function ExecStore(st: Store, ev: Evaluated, id: UserId): Store {
    var g := ev.after;
    if RunResult(ev).Err? then st
    else if id !in st.macroMap && (g.newMacros != [] || g.newExports != []) then st
    else
      st.(macroMap := HarvestMacros(st.macroMap, id, g.newMacros),
          exports := HarvestExports(st.exports, id, g.newExports),
          userState := Saved(st.userState, id, g.s))
  }

  /** The tables after get_js_context has set up a context for id: a member
      gains `gen` and has the state it was loaded with saved back, for
      anyone else the harvest fails before anything changes. */
  function AllocStore(st: Store, id: UserId): Store {
    Preambled(st, id, LoadState(Stored(st.userState, id)))
  }

  /** The tables after the preamble's run in a context of id's whose state
      is s, when s pickles. */
  function Preambled(st: Store, id: UserId, s: JsValue): Store {
    if id in st.macroMap then
      st.(macroMap := st.macroMap[id := st.macroMap[id][GenMacro.name := Def(GenMacro)]],
          userState := st.userState[id := Plain(s)])
    else st
  }

  /** The userstate/ files as pickle writes them: proper dicts holding no
      engine object. */
  predicate Restorable(states: map<UserId, PyValue>) {
    forall u :: u in states ==> TidyPy(states[u]) && Unpicklable(states[u]).None?
  }

  /** A reply of run_js as the command layer sees it. */
  /** The outcome of `&*f` for the stored files: the file, or
      FileNotFoundError. */
  function ReadOutcome(files: map<string, string>, f: string): (r: Result<Option<string>>)
    ensures r.Ok? <==> f in files
    ensures r.Ok? ==> r.value == Some(files[f])
  {
    if f !in files then Err(FileNotFound(f)) else Ok(Some(files[f]))
  }

  function Lift(r: Result<string>): Result<Option<string>> {
    match r
    case Ok(v) => Ok(Some(v))
    case Err(e) => Err(e)
  }

  /** A user's file under userstate/, if it exists. */
  function Stored(states: map<UserId, PyValue>, id: UserId): Option<PyValue> {
    if id in states then Some(states[id]) else None
  }

  /** cbot.py:183-189 once the target has a context: the first word of the
      body must be one of the target's exports, and then the body is
      rewritten into a call. */
  function ExportGate(exps: seq<string>, id: UserId, body: string): Result<string> {
    var sp := SplitOnce(body);
    if sp == [] then Err(IndexError)
    else if sp[0] in exps then JsCall(body)
    else Err(Raised(IllegalExport(sp[0], id)))
  }

  /** on_message from the macro step on when the pool is full and the user
      has no context (cbot.py:229-256): a command is answered with the
      limit notice only. */
  function LimitAnswer(t: MacroTable, id: UserId, text: string): Response {
    var x := Expand(text, t);
    if x == [] then Crashed(StrIndexError)
    else if Classify(x) == NotCommand then Ignored
    else Sent(LimitReply(id))
  }

  /** A message text that starts with the user's mention and a space. */
  predicate Addressed(id: UserId, text: string) {
    |text| > |Mention(id)| && text[..|Mention(id)| + 1] == Mention(id) + " "
  }

  // ---------------------------------------------------------------------
  // Lemmas about harvesting and the gate

  /** Later declarations of a name overwrite earlier ones; names not
      declared keep what they had. */
  lemma {:induction false} LastWriterWins(t: MacroTable, ds: seq<MacroDecl>, n: string)
    ensures LastDecl(ds, n).Some? ==>
      n in ApplyMacros(t, ds) && ApplyMacros(t, ds)[n] == LastDecl(ds, n).value
    ensures LastDecl(ds, n).None? ==>
      (n in ApplyMacros(t, ds) <==> n in t) && (n in t ==> ApplyMacros(t, ds)[n] == t[n])
    decreases |ds|
  {
    if ds != [] {
      LastWriterWins(t, ds[..|ds| - 1], n);
    }
  }

  /** Harvesting one declaration adds or overwrites exactly that macro. */
  lemma ApplyOne(t: MacroTable, d: MacroDecl)
    ensures ApplyMacros(t, [d]) == t[d.name := Def(d)]
  {
    assert [d][..0] == [];
  }

  /** The gate opens only for an exported name, and then the call is what
      the parser makes of the body. */
  lemma GateOpensForExports(exps: seq<string>, id: UserId, body: string)
    ensures ExportGate(exps, id, body).Ok? <==>
      SplitWs(body) != [] && SplitWs(body)[0] in exps && JsCall(body).Ok?
    ensures ExportGate(exps, id, body).Ok? ==> ExportGate(exps, id, body) == JsCall(body)
    ensures SplitWs(body) != [] && SplitWs(body)[0] !in exps ==>
      ExportGate(exps, id, body) == Err(Raised(IllegalExport(SplitWs(body)[0], id)))
  {
  }

  /** The preamble's run succeeds, and its reply is its log line. */
  lemma PreambleReply(engine: Engine, g: Globals)
    ensures RunResult(Run(engine, g, Bootstrap)) == Ok(" `" + DefinedMacro(GenMacro.name) + "`")
  {
    var line := DefinedMacro(GenMacro.name);
    var log := [JsStr(line)];
    assert FirstNonText(log) == 1 by {
      assert log[1..] == [];
    }
    assert Texts(log) == [line] by {
      assert log[1..] == [];
    }
    assert LogText(log) == Ok(line) by {
      assert Join([line], "\n") == line;
    }
    assert Str(Serialized(Leaf(PyNone))) == "None";
    assert "" + (" `" + line + "`") == " `" + line + "`";
  }

  /** Contexts are never released: every user holding one keeps the same
      one. */
  predicate Grows(m0: map<UserId, JsContext>, m1: map<UserId, JsContext>) {
    forall u :: u in m0 ==> u in m1 && m1[u] == m0[u]
  }

  lemma GrowsByOne(m: map<UserId, JsContext>, id: UserId, c: JsContext)
    requires id !in m
    ensures Grows(m, m[id := c])
  {
  }

  lemma GrowsTrans(m0: map<UserId, JsContext>, m1: map<UserId, JsContext>, m2: map<UserId, JsContext>)
    requires Grows(m0, m1) && Grows(m1, m2)
    ensures Grows(m0, m2)
  {
  }

  /** The limit notice addresses the user first. */
  lemma LimitAddressed(id: UserId)
    ensures Addressed(id, LimitReply(id))
  {
    var m := Mention(id) + " ";
    assert LimitReply(id) == m + "VM limit reached, rip bozo";
    assert LimitReply(id)[..|m|] == m;
  }

  /** Adding one user to those holding a context adds one to the count when
      the user is a member, and nothing otherwise. */
  lemma CountAdd(k: set<UserId>, m: set<UserId>, id: UserId)
    requires id !in k
    ensures id in m ==> |(k + {id}) * m| == |k * m| + 1
    ensures id !in m ==> (k + {id}) * m == k * m
  {
    if id in m {
      assert (k + {id}) * m == (k * m) + {id};
    }
  }

  /** exec_js_with_context succeeds exactly when the run does, the state
      is an object and a user without tables queued nothing; its reply is
      then that of run_js. */
  lemma ExecReplyOk(ev: Evaluated, id: UserId, member: bool)
    ensures ExecReply(ev, id, member).Ok? <==>
      RunResult(ev).Ok? && ev.after.s.Obj? && Unpicklable(Plain(ev.after.s)).None? &&
      (member || (ev.after.newMacros == [] && ev.after.newExports == []))
    ensures ExecReply(ev, id, member).Ok? ==> ExecReply(ev, id, member) == RunResult(ev)
  {
  }

  /** save_state either stores the serialized state and reports nothing,
      or raises; once the file has been opened, the failure loses the
      user's stored state. Other users' files are never touched, and what
      is stored is always a proper, picklable dict. */
  lemma SaveEffect(states: map<UserId, PyValue>, id: UserId, s: JsValue)
    ensures SaveOutcome(s).Pass? <==> s.Obj? && Unpicklable(Plain(s)).None?
    ensures SaveOutcome(s).Pass? ==> Saved(states, id, s) == states[id := Plain(s)] && Plain(s).PyDict?
    ensures SaveOutcome(s).Fail? && s.Obj? ==>
      SaveOutcome(s).error == PickleError(Unpicklable(Plain(s)).value) && id !in Saved(states, id, s)
    ensures !s.Obj? ==> SaveOutcome(s) == Fail(AttributeError(TypeName(s))) && Saved(states, id, s) == states
    ensures forall u :: u != id ==>
      (u in Saved(states, id, s) <==> u in states) && (u in states ==> Saved(states, id, s)[u] == states[u])
    ensures Restorable(states) ==> Restorable(Saved(states, id, s))
  {
    if SaveOutcome(s).Pass? {
      PlainTidy(s);
    }
  }

  /** A stored state loads into an object that serializes and pickles
      again, so the preamble's save never fails. */
  lemma LoadedPickles(states: map<UserId, PyValue>, id: UserId)
    requires Restorable(states)
    ensures LoadState(Stored(states, id)).Obj? && Unpicklable(Plain(LoadState(Stored(states, id)))).None?
  {
    var v := LoadState(Stored(states, id));
    if !(id in states && states[id].PyDict?) {
      assert v == Obj([]);
      assert Plain(v) == PyDict([]);
    }
  }

  /** The preamble's save writes back exactly what was loaded: a stored
      dict unchanged, and an empty dict for a user with none. */
  lemma PreambleSavesLoaded(st: Store, id: UserId)
    requires Restorable(st.userState) && id in st.macroMap
    ensures AllocStore(st, id).userState ==
      st.userState[id := if id in st.userState && st.userState[id].PyDict? then st.userState[id] else PyDict([])]
    ensures Restorable(AllocStore(st, id).userState)
  {
    var v := LoadState(Stored(st.userState, id));
    if !(id in st.userState && st.userState[id].PyDict?) {
      assert Plain(v) == PyDict([]);
    }
    LoadedPickles(st.userState, id);
    SaveEffect(st.userState, id, v);
  }

  /** exec_js_with_context never touches usercode/ and only ever changes the
      running user's tables and file. A run that raises keeps every table;
      a successful one has harvested both queues and stored the serialized
      state. */
  lemma ExecStoreEffect(st: Store, ev: Evaluated, id: UserId)
    requires st.macroMap.Keys == st.exports.Keys
    ensures var t := ExecStore(st, ev, id);
      t.usercode == st.usercode &&
      t.macroMap.Keys == st.macroMap.Keys && t.exports.Keys == st.exports.Keys &&
      forall u :: u != id ==>
        (u in st.macroMap ==> t.macroMap[u] == st.macroMap[u] && t.exports[u] == st.exports[u]) &&
        (u in t.userState <==> u in st.userState) &&
        (u in st.userState ==> t.userState[u] == st.userState[u])
    ensures RunResult(ev).Err? ==> ExecStore(st, ev, id) == st
    ensures ExecReply(ev, id, id in st.macroMap).Ok? ==>
      var t := ExecStore(st, ev, id);
      t.macroMap == HarvestMacros(st.macroMap, id, ev.after.newMacros) &&
      t.exports == HarvestExports(st.exports, id, ev.after.newExports) &&
      id in t.userState && t.userState[id] == Plain(ev.after.s)
    ensures Restorable(st.userState) ==> Restorable(ExecStore(st, ev, id).userState)
  {
    SaveEffect(st.userState, id, ev.after.s);
  }

  /** An exception thrown by the code is the error the command reports,
      whatever else the run did. */
  lemma ThrownReported(ev: Evaluated, id: UserId, member: bool)
    requires ev.outcome.Thrown?
    ensures ExecReply(ev, id, member) == Err(EngineError(ev.outcome.message))
  {
  }

  /** With a full pool, a command is answered with the limit notice and
      nothing else is ever sent. */
  lemma LimitAnswerSent(t: MacroTable, id: UserId, text: string)
    ensures var x := Expand(text, t);
      LimitAnswer(t, id, text).Sent? <==> x != [] && IsSigil(x[0])
    ensures LimitAnswer(t, id, text).Sent? ==> LimitAnswer(t, id, text).text == LimitReply(id)
    ensures !LimitAnswer(t, id, text).Reacted?
  {
  }

  /** A text that does not start with #, $ or & is ignored. */
  lemma PlainIgnored(c: Client, id: UserId, text: string)
    requires id in c.contextMap && id in c.macroMap
    requires text != [] && !IsSigil(text[0])
    ensures c.Answer(id, text) == Ignored
  {
    assert Expand(text, c.macroMap[id]) == text;
  }

  /** `&+name code` is acknowledged with a check mark (the write itself is
      part of Perform's contract). */
  lemma WriteAcknowledged(c: Client, id: UserId, name: string, code: string)
    requires id in c.contextMap && id in c.macroMap
    requires IsWord(name)
    requires code != [] && !IsSpace(code[0]) && !IsSpace(code[|code| - 1])
    ensures c.Answer(id, "&+" + name + " " + code) == Reacted([Check])
  {
    var text := "&+" + name + " " + code;
    WriteText(name, code);
    assert Expand(text, c.macroMap[id]) == text;
    ClassifyWrite(name, code);
    AnswerExpanded(c, id, text, text, Write(name, code));
  }

  /** Answer once the expansion and the command are known. */
  lemma AnswerExpanded(c: Client, id: UserId, text: string, t: string, cmd: Command)
    requires id in c.contextMap && id in c.macroMap
    requires Expand(text, c.macroMap[id]) == t && t != [] && Classify(t) == cmd && cmd != NotCommand
    ensures c.Answer(id, text) == Respond(id, c.CommandOutcome(cmd, id))
    ensures cmd.Write? ==> c.Answer(id, text) == Reacted([Check])
  {
  }

  /** `&*name` sends back the file after the user's mention, a check mark
      when it is empty or reads None, and a cross and a page when there is
      no such file. */
  lemma ShowFile(c: Client, id: UserId, name: string)
    requires id in c.contextMap && id in c.macroMap
    requires IsWord(name)
    ensures name !in c.usercode ==> c.Answer(id, "&*" + name) == Reacted([Cross, Page])
    ensures name in c.usercode ==>
      c.Answer(id, "&*" + name) ==
        (var f := c.usercode[name];
         if f == "" || f == "None" then Reacted([Check]) else Sent(Mention(id) + " " + f))
  {
    var text := "&*" + name;
    SubModeTail('&', '*', name);
    assert Expand(text, c.macroMap[id]) == text;
    ClassifyFile(name);
    ReadAnswer(c, id, text, name);
  }

  /** Answer to a text that stays as it is and reads file f. */
  lemma ReadAnswer(c: Client, id: UserId, text: string, f: string)
    requires id in c.contextMap && id in c.macroMap
    requires Expand(text, c.macroMap[id]) == text && text != [] && Classify(text) == ReadFile(f)
    ensures f !in c.usercode ==> c.Answer(id, text) == Reacted([Cross, Page])
    ensures f in c.usercode ==>
      c.Answer(id, text) ==
        (var x := c.usercode[f];
         if x == "" || x == "None" then Reacted([Check]) else Sent(Mention(id) + " " + x))
  {
    AnswerExpanded(c, id, text, text, ReadFile(f));
  }

  /** Once the preamble has registered `gen`, `#gen topic` runs as the
      command `$gen_text("topic")`. */
  lemma GenCommand(c: Client, id: UserId, arg: string)
    requires id in c.contextMap && id in c.macroMap
    requires GenMacro.name in c.macroMap[id] && c.macroMap[id][GenMacro.name] == Def(GenMacro)
    requires arg != [] && !IsSpace(arg[0]) && !IsSpace(arg[|arg| - 1])
    ensures c.Answer(id, "#gen " + arg) ==
      Respond(id, c.CommandOutcome(Eval("gen_text(\"" + arg + "\")"), id))
  {
    var m := c.macroMap[id];
    assert "#gen " + arg == "#" + "gen" + " " + arg;
    ExpandKnown("gen", arg, m);
    GenReplace(arg);
    GenTail(arg);
  }

  /** `&+name code` is the write of code to name, `&*name` the read of
      name, and the read after the write gives back the code. */
  lemma EditRoundTrip(c: Client, id: UserId, name: string, code: string)
    requires id in c.contextMap && id in c.macroMap
    requires IsWord(name)
    requires code != [] && !IsSpace(code[0]) && !IsSpace(code[|code| - 1])
    ensures c.TextCommand(id, "&+" + name + " " + code) == Write(name, code)
    ensures c.TextCommand(id, "&*" + name) == ReadFile(name)
    ensures ReadOutcome(c.CommandStore(Write(name, code), id).usercode, name) == Ok(Some(code))
  {
    WriteText(name, code);
    assert Expand("&+" + name + " " + code, c.macroMap[id]) == "&+" + name + " " + code;
    SubModeTail('&', '*', name);
    assert Expand("&*" + name, c.macroMap[id]) == "&*" + name;
    ClassifyWrite(name, code);
    ClassifyFile(name);
  }

  /** Code of the user's own that throws or whose reply does not convert
      leaves every table as it was: no macro, export or state is saved. */
  lemma FailedRunKeepsTables(c: Client, cmd: Command, id: UserId)
    requires c.Valid() && id in c.contextMap
    requires c.OwnCode(cmd).Some?
    requires RunResult(Run(c.engine, c.contextMap[id].Snapshot(), UserCode(c.OwnCode(cmd).value))).Err?
    ensures c.CommandStore(cmd, id) == c.Tables()
    ensures c.CommandOutcome(cmd, id).Err?
  {
    var ev := Run(c.engine, c.contextMap[id].Snapshot(), UserCode(c.OwnCode(cmd).value));
    ExecStoreEffect(c.Tables(), ev, id);
  }

  /** An export call whose first word the target does not export runs no
      code: the target's globals stay as they were or as the allocation
      left them, and the only change to the tables is the allocation's. */
  lemma UnlistedRunsNothing(c: Client, id: UserId, body: string)
    requires !c.Refusal(id)
    requires SplitWs(body) == [] || SplitWs(body)[0] !in c.exports[id]
    ensures c.TargetOutcome(id, body).Err?
    ensures c.TargetStore(id, body) == if id in c.contextMap then c.Tables() else AllocStore(c.Tables(), id)
    ensures c.TargetGlobalsAfter(id, body) == c.TargetGlobals(id)
  {
    GateOpensForExports(c.exports[id], id, body);
  }

  /** Only an exported function of the target is ever invoked through an
      export call. */
  lemma ExportOnlyListed(c: Client, mention: string, body: string)
    ensures c.ExportOutcome(mention, body).Ok? ==>
      MentionId(mention).Ok? && MentionId(mention).value in c.exports &&
      SplitWs(body) != [] && SplitWs(body)[0] in c.exports[MentionId(mention).value]
  {
    var m := MentionId(mention);
    if m.Ok? {
      TargetOnlyListed(c, m.value, body);
    }
  }

  lemma TargetOnlyListed(c: Client, id: UserId, body: string)
    ensures c.TargetOutcome(id, body).Ok? ==>
      id in c.exports && SplitWs(body) != [] && SplitWs(body)[0] in c.exports[id]
  {
    if id in c.exports {
      var gate := ExportGate(c.exports[id], id, body);
      assert gate.Err? ==> c.TargetOutcome(id, body).Err?;
      GateOpensForExports(c.exports[id], id, body);
    }
  }

  // ---------------------------------------------------------------------
  // The client

  class Client {
    const selfId: UserId
    const engine: Engine
    var contextMap: map<UserId, JsContext>
    var numAllocatedContexts: nat
    var macroMap: map<UserId, MacroTable>
    var exports: map<UserId, seq<string>>
    /** The userstate/ files, by user. */
    var userState: map<UserId, PyValue>
    /** The usercode/ files, shared by all users. */
    var usercode: map<string, string>

    /** The members on_ready registered have both tables; the counter counts
        the members holding a context and stays within the limit; the stored
        states are what pickle can have written. */
    predicate Valid()
      reads this
    {
      macroMap.Keys == exports.Keys &&
      numAllocatedContexts == |contextMap.Keys * macroMap.Keys| &&
      numAllocatedContexts <= MaxNumContexts &&
      Restorable(userState)
    }

    function Tables(): Store
      reads this
    {
      Store(macroMap, exports, userState, usercode)
    }

    /** The client after start-up (cbot.py:328-334) and on_ready, which gives
        every member of the guild an empty macro table and export list
        (cbot.py:204-207). */
    constructor (selfId: UserId, engine: Engine, members: set<UserId>,
                 userState: map<UserId, PyValue>, usercode: map<string, string>)
      requires Restorable(userState)
      ensures Valid()
      ensures this.selfId == selfId && this.engine == engine
      ensures contextMap == map[] && numAllocatedContexts == 0
      ensures macroMap.Keys == members && exports.Keys == members
      ensures forall u :: u in members ==> macroMap[u] == map[] && exports[u] == []
      ensures this.userState == userState && this.usercode == usercode
    {
      this.selfId := selfId;
      this.engine := engine;
      contextMap := map[];
      numAllocatedContexts := 0;
      macroMap := map u | u in members :: map[];
      exports := map u | u in members :: [];
      this.userState := userState;
      this.usercode := usercode;
    }

    /** run_js (cbot.py:160-171): evaluate, compose the reply, and empty
        stdout only once the reply is composed. */
    method RunJs(ctx: JsContext, script: Script) returns (r: Result<string>)
      modifies ctx
      ensures var ev := Run(engine, old(ctx.Snapshot()), script);
        r == RunResult(ev) &&
        ctx.Snapshot() == if r.Ok? then ev.after.(stdout := []) else ev.after
    {
      var value: JsValue;
      match script {
        case Bootstrap =>
          value := ctx.RunPreamble();
        case UserCode(code) =>
          var o := ctx.Eval(engine, code);
          if o.Thrown? {
            return Err(EngineError(o.message));
          }
          value := o.value;
      }
      r := RunReply(value, ctx.stdout);
      if r.Ok? {
        ctx.ResetStdout();
      }
    }

    /** get_macros_and_exports (cbot.py:144-158): take both queues and reset
        them, then record each macro and append each export for the user. A
        user without tables raises KeyError at the first entry. */
    method Harvest(ctx: JsContext, id: UserId) returns (o: Outcome)
      requires macroMap.Keys == exports.Keys
      modifies this, ctx
      ensures ctx.newMacros == [] && ctx.newExports == []
      ensures ctx.stdout == old(ctx.stdout) && ctx.s == old(ctx.s) && ctx.heap == old(ctx.heap)
      ensures contextMap == old(contextMap) && numAllocatedContexts == old(numAllocatedContexts)
      ensures userState == old(userState) && usercode == old(usercode)
      ensures var ds, es := old(ctx.newMacros), old(ctx.newExports);
        if id !in old(macroMap) && (ds != [] || es != []) then
          o == Fail(KeyError(id)) && macroMap == old(macroMap) && exports == old(exports)
        else
          o == Pass && macroMap == HarvestMacros(old(macroMap), id, ds) &&
          exports == HarvestExports(old(exports), id, es)
    {
      var ds := ctx.newMacros;
      ctx.ResetMacros();
      var es := ctx.newExports;
      ctx.ResetExports();
      o := AddMacros(id, ds);
      if o.Fail? {
        return;
      }
      o := AddExports(id, es);
    }

    /** The first loop of get_macros_and_exports (cbot.py:152-154). */
    method AddMacros(id: UserId, ds: seq<MacroDecl>) returns (o: Outcome)
      modifies this
      ensures id !in old(macroMap) && ds != [] ==> o == Fail(KeyError(id)) && macroMap == old(macroMap)
      ensures id in old(macroMap) || ds == [] ==> o == Pass && macroMap == HarvestMacros(old(macroMap), id, ds)
      ensures exports == old(exports) && contextMap == old(contextMap)
      ensures numAllocatedContexts == old(numAllocatedContexts)
      ensures userState == old(userState) && usercode == old(usercode)
    {
      if id !in macroMap {
        if ds != [] {
          return Fail(KeyError(id));
        }
        return Pass;
      }
      for i := 0 to |ds|
        invariant id in macroMap
        invariant macroMap == old(macroMap)[id := ApplyMacros(old(macroMap)[id], ds[..i])]
        invariant exports == old(exports) && contextMap == old(contextMap)
        invariant numAllocatedContexts == old(numAllocatedContexts)
        invariant userState == old(userState) && usercode == old(usercode)
      {
        assert ds[..i + 1][..i] == ds[..i];
        var d := ds[i];
        macroMap := macroMap[id := macroMap[id][d.name := Def(d)]];
      }
      assert ds[..|ds|] == ds;
      o := Pass;
    }

    /** The second loop of get_macros_and_exports (cbot.py:156-158). */
    method AddExports(id: UserId, es: seq<string>) returns (o: Outcome)
      modifies this
      ensures id !in old(exports) && es != [] ==> o == Fail(KeyError(id)) && exports == old(exports)
      ensures id in old(exports) || es == [] ==> o == Pass && exports == HarvestExports(old(exports), id, es)
      ensures macroMap == old(macroMap) && contextMap == old(contextMap)
      ensures numAllocatedContexts == old(numAllocatedContexts)
      ensures userState == old(userState) && usercode == old(usercode)
    {
      if id !in exports {
        if es != [] {
          return Fail(KeyError(id));
        }
        return Pass;
      }
      assert exports == old(exports)[id := old(exports)[id] + es[..0]] by {
        assert old(exports)[id] + es[..0] == old(exports)[id];
      }
      for i := 0 to |es|
        invariant id in exports
        invariant exports == old(exports)[id := old(exports)[id] + es[..i]]
        invariant macroMap == old(macroMap) && contextMap == old(contextMap)
        invariant numAllocatedContexts == old(numAllocatedContexts)
        invariant userState == old(userState) && usercode == old(usercode)
      {
        assert es[..i + 1] == es[..i] + [es[i]];
        assert exports[id] + [es[i]] == old(exports)[id] + es[..i + 1];
        exports := exports[id := exports[id] + [es[i]]];
      }
      assert es[..|es|] == es;
      o := Pass;
    }

    /** save_state (cbot.py:135-142): serialize this.s, open the user's
        file for writing, which empties it, and pickle the dict into it. */
    method SaveState(ctx: JsContext, id: UserId) returns (o: Outcome)
      modifies this
      ensures o == SaveOutcome(ctx.s) && userState == Saved(old(userState), id, ctx.s)
      ensures contextMap == old(contextMap) && numAllocatedContexts == old(numAllocatedContexts)
      ensures macroMap == old(macroMap) && exports == old(exports) && usercode == old(usercode)
    {
      if !ctx.s.Obj? {
        return Fail(AttributeError(TypeName(ctx.s)));
      }
      var out := SerializeJsObject(ctx.s);
      var bad := Unpicklable(PyDict(out));
      if bad.Some? {
        userState := userState - {id};
        return Fail(PickleError(bad.value));
      }
      userState := userState[id := PyDict(out)];
      o := Pass;
    }

    /** exec_js_with_context (cbot.py:191-196): run, then harvest, then
        save; the first exception stops the rest. */
    method Exec(ctx: JsContext, id: UserId, script: Script) returns (r: Result<string>)
      requires macroMap.Keys == exports.Keys
      modifies this, ctx
      ensures macroMap.Keys == old(macroMap).Keys && exports.Keys == old(exports).Keys
      ensures contextMap == old(contextMap) && numAllocatedContexts == old(numAllocatedContexts)
      ensures usercode == old(usercode)
      ensures Restorable(old(userState)) ==> Restorable(userState)
      ensures var ev := Run(engine, old(ctx.Snapshot()), script);
        r == ExecReply(ev, id, id in old(macroMap)) &&
        ctx.Snapshot() == ExecGlobals(ev) &&
        Tables() == ExecStore(old(Tables()), ev, id)
    {
      ghost var st := Tables();
      ghost var ev := Run(engine, ctx.Snapshot(), script);
      ExecStoreEffect(st, ev, id);
      r := RunJs(ctx, script);
      if r.Err? {
        return;
      }
      var h := Harvest(ctx, id);
      if h.Fail? {
        return Err(h.error);
      }
      var o := SaveState(ctx, id);
      if o.Fail? {
        r := Err(o.error);
      }
    }

    /** get_js_context (cbot.py:112-132). A user with a context gets it
        back and a full pool refuses, both without any change. Otherwise a
        new context is set up around the user's stored state, entered in
        the map, and runs the preamble; harvesting the preamble's `gen`
        raises KeyError for a user who is no member, after the context has
        been entered and before the counter moves. */
    method GetJsContext(id: UserId) returns (a: Acquired)
      requires Valid()
      modifies this
      ensures Valid() && Grows(old(contextMap), contextMap)
      ensures a.Found? ==> id in contextMap && a.ctx == contextMap[id]
      ensures id in old(contextMap) ==> a == Found(old(contextMap)[id]) && unchanged(this)
      ensures id !in old(contextMap) && old(numAllocatedContexts) == MaxNumContexts ==>
        a == LimitReached && unchanged(this)
      ensures id !in old(contextMap) && old(numAllocatedContexts) < MaxNumContexts ==>
        id in contextMap && fresh(contextMap[id]) &&
        contextMap == old(contextMap)[id := contextMap[id]] &&
        contextMap[id].Snapshot() == NewGlobals(old(userState), id) &&
        Tables() == AllocStore(old(Tables()), id) &&
        if id in old(macroMap) then
          a == Found(contextMap[id]) && numAllocatedContexts == old(numAllocatedContexts) + 1
        else
          a == Failed(KeyError(id)) && numAllocatedContexts == old(numAllocatedContexts)
    {
      if id in contextMap {
        return Found(contextMap[id]);
      }
      if numAllocatedContexts == MaxNumContexts {
        return LimitReached;
      }
      a := Allocate(id);
    }

    /** cbot.py:124-132: a new context, entered in the map before the
        preamble is exec'd, counted only once that succeeded. */
    method Allocate(id: UserId) returns (a: Acquired)
      requires Valid() && id !in contextMap && numAllocatedContexts < MaxNumContexts
      modifies this
      ensures Valid() && Grows(old(contextMap), contextMap)
      ensures id in contextMap && fresh(contextMap[id])
      ensures contextMap == old(contextMap)[id := contextMap[id]]
      ensures contextMap[id].Snapshot() == NewGlobals(old(userState), id)
      ensures Tables() == AllocStore(old(Tables()), id)
      ensures id in old(macroMap) ==>
        a == Found(contextMap[id]) && numAllocatedContexts == old(numAllocatedContexts) + 1
      ensures id !in old(macroMap) ==>
        a == Failed(KeyError(id)) && numAllocatedContexts == old(numAllocatedContexts)
    {
      var s0 := LoadState(Stored(userState, id));
      LoadedPickles(userState, id);
      var ctx := new JsContext(s0);
      a := Enter(id, ctx);
    }

    /** Enter a context that has not run anything yet for id, boot it and
        count it. */
    method Enter(id: UserId, ctx: JsContext) returns (a: Acquired)
      requires Valid() && id !in contextMap && numAllocatedContexts < MaxNumContexts
      requires ctx.s.Obj? && Unpicklable(Plain(ctx.s)).None?
      modifies this, ctx
      ensures Valid() && Grows(old(contextMap), contextMap)
      ensures contextMap == old(contextMap)[id := ctx]
      ensures ctx.Snapshot() == Globals([], [], [], old(ctx.s), DeclarePreamble(old(ctx.heap)))
      ensures exports == old(exports) && usercode == old(usercode)
      ensures id in old(macroMap) ==>
        a == Found(ctx) && numAllocatedContexts == old(numAllocatedContexts) + 1 &&
        macroMap == old(macroMap)[id := old(macroMap)[id][GenMacro.name := Def(GenMacro)]] &&
        userState == old(userState)[id := Plain(old(ctx.s))]
      ensures id !in old(macroMap) ==>
        a == Failed(KeyError(id)) && numAllocatedContexts == old(numAllocatedContexts) &&
        macroMap == old(macroMap) && userState == old(userState)
    {
      ghost var k0, m0 := contextMap.Keys, macroMap.Keys;
      contextMap := contextMap[id := ctx];
      assert contextMap.Keys == k0 + {id};
      GrowsByOne(old(contextMap), id, ctx);
      var r := ExecPreamble(ctx, id);
      CountAdd(k0, m0, id);
      if r.Ok? {
        numAllocatedContexts := numAllocatedContexts + 1;
        a := Found(ctx);
      } else {
        a := Failed(r.error);
      }
    }

    /** exec_js_with_context on the preamble (cbot.py:129): the run always
        succeeds and queues `gen` and no export, so only the harvest can
        fail, for a user without tables, and the save cannot, for a state
        that pickles. */
    method ExecPreamble(ctx: JsContext, id: UserId) returns (r: Result<string>)
      requires macroMap.Keys == exports.Keys && ctx.s.Obj? && Unpicklable(Plain(ctx.s)).None?
      requires Restorable(userState)
      modifies this, ctx
      ensures ctx.Snapshot() == Globals([], [], [], old(ctx.s), DeclarePreamble(old(ctx.heap)))
      ensures contextMap == old(contextMap) && numAllocatedContexts == old(numAllocatedContexts)
      ensures macroMap.Keys == old(macroMap).Keys && macroMap.Keys == exports.Keys
      ensures exports == old(exports) && usercode == old(usercode)
      ensures Restorable(userState)
      ensures id in old(macroMap) ==>
        r.Ok? && macroMap == old(macroMap)[id := old(macroMap)[id][GenMacro.name := Def(GenMacro)]] &&
        userState == old(userState)[id := Plain(old(ctx.s))]
      ensures id !in old(macroMap) ==>
        r == Err(KeyError(id)) && macroMap == old(macroMap) && userState == old(userState)
    {
      PreambleReply(engine, ctx.Snapshot());
      if id in macroMap {
        ApplyOne(macroMap[id], GenMacro);
        assert exports[id := exports[id] + []] == exports by {
          assert exports[id] + [] == exports[id];
        }
      }
      r := Exec(ctx, id, Bootstrap);
    }

    // -------------------------------------------------------------------
    // What a command answers, as functions of the client's state

    /** The globals a user's next evaluation starts from: those of the
        user's context, or, when get_js_context still has to allocate one,
        the fresh context after the preamble and its harvest. */
    function TargetGlobals(id: UserId): Globals
      reads this, contextMap.Values
    {
      if id in contextMap then contextMap[id].Snapshot()
      else NewGlobals(userState, id)
    }

    /** handle_export_call (cbot.py:173-189): the target is the id inside
        the mention. */
    function ExportOutcome(mention: string, body: string): Result<string>
      reads this, contextMap.Values
    {
      var m := MentionId(mention);
      if m.Err? then Err(m.error) else TargetOutcome(m.value, body)
    }

    /** cbot.py:176-189 for the target id: it must have an export list and
        a context, and the body must pass the gate; then the call runs in
        the target's context. */
    function TargetOutcome(id: UserId, body: string): Result<string>
      reads this, contextMap.Values
    {
      if id !in exports then Err(KeyError(id))
      else if id !in contextMap && numAllocatedContexts == MaxNumContexts then Err(Raised(NoVmForExport))
      else
        var gate := ExportGate(exports[id], id, body);
        if gate.Err? then gate
        else ExecReply(Run(engine, TargetGlobals(id), UserCode(gate.value)), id, id in macroMap)
    }

    /** The try block of on_message (cbot.py:258-308) for the user's
        command, before the answer is composed. */
    function CommandOutcome(cmd: Command, id: UserId): Result<Option<string>>
      requires id in contextMap
      reads this, contextMap.Values
    {
      var g := contextMap[id].Snapshot();
      var member := id in macroMap;
      match cmd
      case NotCommand => Ok(None)
      case Eval(code) => Lift(ExecReply(Run(engine, g, UserCode(code)), id, member))
      case QuickEval(call) =>
        var c := JsCall(call);
        if c.Err? then Err(c.error) else Lift(ExecReply(Run(engine, g, UserCode(c.value)), id, member))
      case ExportCall(mention, body) => Lift(ExportOutcome(mention, body))
      case Write(_, _) => Ok(None)
      case RunFile(f) =>
        if f !in usercode then Err(FileNotFound(f))
        else Lift(ExecReply(Run(engine, g, UserCode(usercode[f])), id, member))
      case ReadFile(f) => ReadOutcome(usercode, f)
      case Refused(e) => Err(e)
    }

    /** on_message from the macro step on (cbot.py:229-319), for a member
        holding a context. */
    function Answer(id: UserId, text: string): Response
      requires id in contextMap && id in macroMap
      reads this, contextMap.Values
    {
      var t := Expand(text, macroMap[id]);
      if t == [] then Crashed(StrIndexError)
      else
        var c := Classify(t);
        if c == NotCommand then Ignored else Respond(id, CommandOutcome(c, id))
    }

    /** Messages on_message drops before doing anything (cbot.py:212-223). */
    predicate Quiet(msg: Message) {
      msg.fromBot || msg.author == selfId || |Strip(msg.content)| < 2
    }

    // -------------------------------------------------------------------
    // What a command changes, as functions of the client's state

    /** The command a member's text comes to after the macro step, and
        NotCommand for a text that expands to nothing. */
    function TextCommand(id: UserId, text: string): Command
      requires id in macroMap
      reads this
    {
      var t := Expand(text, macroMap[id]);
      if t == [] then NotCommand else Classify(t)
    }

    /** The code a command runs in the user's own context, if it runs any. */
    function OwnCode(cmd: Command): Option<string>
      reads this
    {
      match cmd
      case Eval(code) => Some(code)
      case QuickEval(call) => if JsCall(call).Ok? then Some(JsCall(call).value) else None
      case RunFile(f) => if f in usercode then Some(usercode[f]) else None
      case _ => None
    }

    /** The globals of the user's own context after a command that is not
        an export call. */
    function CommandGlobals(cmd: Command, id: UserId): Globals
      requires id in contextMap
      reads this, contextMap.Values
    {
      var g := contextMap[id].Snapshot();
      var code := OwnCode(cmd);
      if code.Some? then ExecGlobals(Run(engine, g, UserCode(code.value))) else g
    }

    /** The tables after a command of the user's: a write stores the file,
        code run in the user's context is exec'd there, an export call
        does what handle_export_call does, and anything else (a read, an
        edit command that raises, code that does not parse, a missing
        file) changes nothing. */
    function CommandStore(cmd: Command, id: UserId): Store
      requires id in contextMap
      reads this, contextMap.Values
    {
      var code := OwnCode(cmd);
      if cmd.ExportCall? then ExportStore(cmd.mention, cmd.body)
      else if cmd.Write? then Tables().(usercode := usercode[cmd.filename := cmd.contents])
      else if code.Some? then ExecStore(Tables(), Run(engine, contextMap[id].Snapshot(), UserCode(code.value)), id)
      else Tables()
    }

    /** The user whose context an export call reaches the gate in: the one
        named in the mention, when the mention parses, the user has an
        export list and has or can get a context. */
    function ExportTarget(mention: string): Option<UserId>
      reads this
    {
      var m := MentionId(mention);
      if m.Err? || Refusal(m.value) then None else Some(m.value)
    }

    /** The tables after handle_export_call. */
    function ExportStore(mention: string, body: string): Store
      reads this, contextMap.Values
    {
      var m := MentionId(mention);
      if m.Err? then Tables() else TargetStore(m.value, body)
    }

    /** The tables after handle_export_call for the target id: nothing
        changes when it gives up early; otherwise a context is allocated if
        the target has none, and only when the gate lets the call through
        is it exec'd there. */
    function TargetStore(id: UserId, body: string): Store
      reads this, contextMap.Values
    {
      if Refusal(id) then Tables()
      else
        var st := if id in contextMap then Tables() else AllocStore(Tables(), id);
        var gate := ExportGate(exports[id], id, body);
        if gate.Err? then st
        else ExecStore(st, Run(engine, TargetGlobals(id), UserCode(gate.value)), id)
    }

    /** An export call never touches the stored files. */
    lemma ExportKeepsCode(mention: string, body: string)
      requires macroMap.Keys == exports.Keys
      ensures ExportStore(mention, body).usercode == usercode
    {
      var m := MentionId(mention);
      if m.Ok? {
        TargetKeepsCode(m.value, body);
      }
    }

    lemma TargetKeepsCode(id: UserId, body: string)
      requires macroMap.Keys == exports.Keys
      ensures TargetStore(id, body).usercode == usercode
    {
      if !Refusal(id) {
        var st := if id in contextMap then Tables() else AllocStore(Tables(), id);
        assert st.usercode == usercode && st.macroMap.Keys == st.exports.Keys;
        var gate := ExportGate(exports[id], id, body);
        if gate.Ok? {
          ExecStoreEffect(st, Run(engine, TargetGlobals(id), UserCode(gate.value)), id);
        }
      }
    }

    /** The globals of the target's context after an export call that got
        as far as the gate: as they were, or as the allocation left them,
        when the gate refuses; as the exec'd call left them otherwise. */
    function TargetGlobalsAfter(id: UserId, body: string): Globals
      requires id in exports
      reads this, contextMap.Values
    {
      var gate := ExportGate(exports[id], id, body);
      if gate.Err? then TargetGlobals(id)
      else ExecGlobals(Run(engine, TargetGlobals(id), UserCode(gate.value)))
    }

    /** The state after a command of user id's, against the state before
        it: the tables as CommandStore gives them, and the globals of the
        context the command ran in. */
    twostate predicate Performed(cmd: Command, id: UserId)
      requires old(id in contextMap)
      reads this, contextMap.Values
    {
      Tables() == old(CommandStore(cmd, id)) &&
      if cmd.ExportCall? then
        var t := old(ExportTarget(cmd.mention));
        t.Some? ==> t.value in contextMap && contextMap[t.value].Snapshot() == old(TargetGlobalsAfter(t.value, cmd.body))
      else
        id in contextMap && contextMap[id].Snapshot() == old(CommandGlobals(cmd, id))
    }

    // -------------------------------------------------------------------
    // The handlers

    /** handle_export_call (cbot.py:173-189). */
    method HandleExportCall(mention: string, body: string) returns (r: Result<string>)
      requires Valid()
      modifies this, contextMap.Values
      ensures Valid()
      ensures r == old(ExportOutcome(mention, body))
      ensures Grows(old(contextMap), contextMap)
      ensures old(numAllocatedContexts) <= numAllocatedContexts
      ensures old(ExportTarget(mention)).None? ==> unchanged(this) && unchanged(old(contextMap.Values))
      ensures Tables() == old(ExportStore(mention, body))
      ensures var t := old(ExportTarget(mention));
        t.Some? ==>
          t.value in contextMap && contextMap[t.value].Snapshot() == old(TargetGlobalsAfter(t.value, body)) &&
          unchanged(old(contextMap.Values) - {contextMap[t.value]})
    {
      var m := MentionId(mention);
      if m.Err? {
        return Err(m.error);
      }
      r := CallTarget(m.value, body);
    }

    /** The cases in which handle_export_call gives up before it touches any
        state: no export list for the target, or no context for it and no
        room for one. */
    predicate Refusal(id: UserId)
      reads this
    {
      id !in exports || (id !in contextMap && numAllocatedContexts == MaxNumContexts)
    }

    /** cbot.py:176-189 for the target id. */
    method CallTarget(id: UserId, body: string) returns (r: Result<string>)
      requires Valid()
      modifies this, Owned(id)
      ensures Valid()
      ensures r == old(TargetOutcome(id, body))
      ensures Grows(old(contextMap), contextMap)
      ensures old(numAllocatedContexts) <= numAllocatedContexts
      ensures old(Refusal(id)) ==> unchanged(this) && unchanged(old(Owned(id)))
      ensures Tables() == old(TargetStore(id, body))
      ensures !old(Refusal(id)) ==>
        id in contextMap && contextMap[id].Snapshot() == old(TargetGlobalsAfter(id, body))
    {
      if id !in exports {
        return Err(KeyError(id));
      }
      var exps := exports[id];
      ghost var g0 := TargetGlobals(id);
      var a := GetJsContext(id);
      if !a.Found? {
        return Err(Raised(NoVmForExport));
      }
      assert a.ctx.Snapshot() == g0;
      r := CallExport(a.ctx, id, exps, body);
    }

    /** The context user id holds, if any: the only one a call into id's
        context may change. */
    function Owned(id: UserId): set<JsContext>
      reads this
    {
      if id in contextMap then {contextMap[id]} else {}
    }

    /** cbot.py:183-187 once the target's context is at hand. */
    method CallExport(ctx: JsContext, id: UserId, exps: seq<string>, body: string) returns (r: Result<string>)
      requires Valid() && id in macroMap
      modifies this, ctx
      ensures Valid()
      ensures contextMap == old(contextMap) && numAllocatedContexts == old(numAllocatedContexts)
      ensures usercode == old(usercode)
      ensures var gate := ExportGate(exps, id, body);
        if gate.Err? then r == gate && unchanged(this) && unchanged(ctx)
        else
          var ev := Run(engine, old(ctx.Snapshot()), UserCode(gate.value));
          r == ExecReply(ev, id, true) && ctx.Snapshot() == ExecGlobals(ev) &&
          Tables() == ExecStore(old(Tables()), ev, id)
    {
      var sp := SplitOnce(body);
      if sp == [] {
        return Err(IndexError);
      }
      if sp[0] !in exps {
        return Err(Raised(IllegalExport(sp[0], id)));
      }
      var code := ParseJsCall(body);
      if code.Err? {
        return code;
      }
      r := Exec(ctx, id, UserCode(code.value));
    }

    /** The try block of on_message (cbot.py:258-308) for a command of the
        user's, run in the user's own context ctx. */
    method Perform(cmd: Command, ctx: JsContext, id: UserId) returns (r: Result<Option<string>>)
      requires Valid() && id in contextMap && ctx == contextMap[id] && cmd != NotCommand
      modifies this, contextMap.Values
      ensures Valid()
      ensures r == old(CommandOutcome(cmd, id))
      ensures Grows(old(contextMap), contextMap)
      ensures old(numAllocatedContexts) <= numAllocatedContexts
      ensures Performed(cmd, id)
      ensures cmd.Write? ==>
        usercode == old(usercode)[cmd.filename := cmd.contents] &&
        contextMap == old(contextMap) && numAllocatedContexts == old(numAllocatedContexts) &&
        macroMap == old(macroMap) && exports == old(exports) && userState == old(userState)
      ensures !cmd.Write? ==> usercode == old(usercode)
      ensures cmd.ReadFile? || cmd.Refused? ==> unchanged(this)
    {
      match cmd {
        case Eval(_) =>
          r := PerformOwn(cmd, ctx, id);
        case QuickEval(_) =>
          r := PerformOwn(cmd, ctx, id);
        case RunFile(_) =>
          r := PerformOwn(cmd, ctx, id);
        case ExportCall(mention, body) =>
          r := PerformExport(cmd, id);
        case Write(f, c) =>
          usercode := usercode[f := c];
          r := Ok(None);
        case ReadFile(f) =>
          if f !in usercode {
            return Err(FileNotFound(f));
          }
          r := Ok(Some(usercode[f]));
        case Refused(e) =>
          r := Err(e);
      }
    }

    /** Perform for a command that runs code in the user's own context:
        `$code`, `#f args` and `&&name`. Code that does not parse and a
        missing file raise before anything runs. */
    method PerformOwn(cmd: Command, ctx: JsContext, id: UserId) returns (r: Result<Option<string>>)
      requires Valid() && id in contextMap && ctx == contextMap[id]
      requires cmd.Eval? || cmd.QuickEval? || cmd.RunFile?
      modifies this, ctx
      ensures Valid()
      ensures r == old(CommandOutcome(cmd, id))
      ensures contextMap == old(contextMap) && numAllocatedContexts == old(numAllocatedContexts)
      ensures usercode == old(usercode)
      ensures Performed(cmd, id)
    {
      match cmd {
        case Eval(code) =>
          r := RunCode(ctx, id, code);
        case QuickEval(call) =>
          var code := ParseJsCall(call);
          if code.Err? {
            return Err(code.error);
          }
          r := RunCode(ctx, id, code.value);
        case RunFile(f) =>
          if f !in usercode {
            return Err(FileNotFound(f));
          }
          r := RunCode(ctx, id, usercode[f]);
      }
    }

    /** Perform for an export call: handle_export_call, its reply lifted. */
    method PerformExport(cmd: Command, id: UserId) returns (r: Result<Option<string>>)
      requires Valid() && id in contextMap && cmd.ExportCall?
      modifies this, contextMap.Values
      ensures Valid()
      ensures r == old(CommandOutcome(cmd, id))
      ensures Grows(old(contextMap), contextMap)
      ensures old(numAllocatedContexts) <= numAllocatedContexts && usercode == old(usercode)
      ensures Performed(cmd, id)
    {
      assert CommandStore(cmd, id) == ExportStore(cmd.mention, cmd.body);
      assert CommandOutcome(cmd, id) == Lift(ExportOutcome(cmd.mention, cmd.body));
      ExportKeepsCode(cmd.mention, cmd.body);
      var x := HandleExportCall(cmd.mention, cmd.body);
      r := Lift(x);
    }

    /** exec_js_with_context on code in the user's own context, its reply
        as the command layer sees it. */
    method RunCode(ctx: JsContext, id: UserId, code: string) returns (r: Result<Option<string>>)
      requires Valid()
      modifies this, ctx
      ensures Valid()
      ensures contextMap == old(contextMap) && numAllocatedContexts == old(numAllocatedContexts)
      ensures var ev := Run(engine, old(ctx.Snapshot()), UserCode(code));
        r == Lift(ExecReply(ev, id, id in old(macroMap))) && ctx.Snapshot() == ExecGlobals(ev) &&
        Tables() == ExecStore(old(Tables()), ev, id)
    {
      var x := Exec(ctx, id, UserCode(code));
      r := Lift(x);
    }

    /** on_message (cbot.py:210-319). Messages of bots, of the bot itself
        and of fewer than two characters are dropped before anything
        happens. */
    method OnMessage(msg: Message) returns (resp: Response)
      requires Valid()
      modifies this, contextMap.Values
      ensures Valid() && Grows(old(contextMap), contextMap)
      ensures old(numAllocatedContexts) <= numAllocatedContexts
      ensures Quiet(msg) ==> resp == Ignored && unchanged(this)
      ensures !Quiet(msg) && msg.author !in old(macroMap) ==>
        resp == Crashed(KeyError(msg.author)) && numAllocatedContexts == old(numAllocatedContexts) &&
        macroMap == old(macroMap) && exports == old(exports) &&
        userState == old(userState) && usercode == old(usercode)
      ensures !Quiet(msg) && msg.author in old(macroMap) && msg.author in old(contextMap) ==>
        resp == old(Answer(msg.author, Strip(msg.content))) &&
        Performed(old(TextCommand(msg.author, Strip(msg.content))), msg.author)
      ensures !Quiet(msg) && msg.author in old(macroMap) && msg.author !in old(contextMap) ==>
        if old(numAllocatedContexts) == MaxNumContexts then
          resp == LimitAnswer(old(macroMap)[msg.author], msg.author, Strip(msg.content)) && unchanged(this)
        else
          msg.author in contextMap && fresh(contextMap[msg.author]) &&
          numAllocatedContexts >= old(numAllocatedContexts) + 1
      ensures resp.Sent? ==> Addressed(msg.author, resp.text)
    {
      if msg.fromBot || msg.author == selfId {
        return Ignored;
      }
      var text := Strip(msg.content);
      if |text| < 2 {
        return Ignored;
      }
      resp := Route(msg.author, text);
    }

    /** on_message once a message is taken up (cbot.py:226-319). A context
        is taken first, before the macro step; get_js_context's exception
        and the lookup of the macro table are outside every try, so they
        crash the handler. */
    method Route(id: UserId, text: string) returns (resp: Response)
      requires Valid()
      modifies this, contextMap.Values
      ensures Valid() && Grows(old(contextMap), contextMap)
      ensures old(numAllocatedContexts) <= numAllocatedContexts
      ensures id !in old(macroMap) ==>
        resp == Crashed(KeyError(id)) && numAllocatedContexts == old(numAllocatedContexts) &&
        macroMap == old(macroMap) && exports == old(exports) &&
        userState == old(userState) && usercode == old(usercode)
      ensures id in old(macroMap) && id in old(contextMap) ==>
        resp == old(Answer(id, text)) && Performed(old(TextCommand(id, text)), id)
      ensures id in old(macroMap) && id !in old(contextMap) ==>
        if old(numAllocatedContexts) == MaxNumContexts then
          resp == LimitAnswer(old(macroMap)[id], id, text) && unchanged(this)
        else
          id in contextMap && fresh(contextMap[id]) &&
          numAllocatedContexts >= old(numAllocatedContexts) + 1
      ensures resp.Sent? ==> Addressed(id, resp.text)
    {
      if id !in macroMap {
        resp := RouteStranger(id, text);
      } else if id in contextMap {
        resp := RouteHeld(id, text);
      } else if numAllocatedContexts == MaxNumContexts {
        resp := RouteFull(id, text);
      } else {
        resp := RouteNew(id, text);
      }
    }

    /** Route for a member who already holds a context: get_js_context hands
        it back and changes nothing. */
    method RouteHeld(id: UserId, text: string) returns (resp: Response)
      requires Valid() && id in contextMap && id in macroMap
      modifies this, contextMap.Values
      ensures Valid() && Grows(old(contextMap), contextMap)
      ensures old(numAllocatedContexts) <= numAllocatedContexts
      ensures resp == old(Answer(id, text)) && Performed(old(TextCommand(id, text)), id)
      ensures resp.Sent? ==> Addressed(id, resp.text)
    {
      var a := GetJsContext(id);
      resp := HandleText(id, text, true);
    }

    /** Route for a user on_ready did not register: whatever get_js_context
        does, the lookup of the macro table raises KeyError. */
    method RouteStranger(id: UserId, text: string) returns (resp: Response)
      requires Valid() && id !in macroMap
      modifies this
      ensures Valid() && Grows(old(contextMap), contextMap)
      ensures resp == Crashed(KeyError(id)) && numAllocatedContexts == old(numAllocatedContexts)
      ensures macroMap == old(macroMap) && exports == old(exports)
      ensures userState == old(userState) && usercode == old(usercode)
    {
      var a := GetJsContext(id);
      if a.Failed? {
        return Crashed(a.error);
      }
      resp := Crashed(KeyError(id));
    }

    /** Route for a member without a context when the pool is full: the
        macro step still runs, and a command gets the limit notice. */
    method RouteFull(id: UserId, text: string) returns (resp: Response)
      requires Valid() && id in macroMap && id !in contextMap && numAllocatedContexts == MaxNumContexts
      modifies this, contextMap.Values
      ensures resp == LimitAnswer(old(macroMap)[id], id, text) && unchanged(this)
      ensures resp.Sent? ==> Addressed(id, resp.text)
    {
      var a := GetJsContext(id);
      resp := HandleText(id, text, false);
    }

    /** Route for a member's first message: the new context runs the
        preamble, and then the message is handled in it. */
    method RouteNew(id: UserId, text: string) returns (resp: Response)
      requires Valid() && id in macroMap && id !in contextMap && numAllocatedContexts < MaxNumContexts
      modifies this, contextMap.Values
      ensures Valid() && Grows(old(contextMap), contextMap)
      ensures id in contextMap && fresh(contextMap[id])
      ensures numAllocatedContexts >= old(numAllocatedContexts) + 1
      ensures resp.Sent? ==> Addressed(id, resp.text)
    {
      var a := GetJsContext(id);
      ghost var m1 := contextMap;
      resp := HandleText(id, text, true);
      GrowsTrans(old(contextMap), m1, contextMap);
    }

    /** on_message from the macro step on (cbot.py:229-319), for a member;
        found tells whether get_js_context gave a context. */
    method HandleText(id: UserId, text: string, found: bool) returns (resp: Response)
      requires Valid() && id in macroMap && (found ==> id in contextMap)
      modifies this, contextMap.Values
      ensures Valid()
      ensures Grows(old(contextMap), contextMap)
      ensures old(numAllocatedContexts) <= numAllocatedContexts
      ensures found ==> resp == old(Answer(id, text)) && Performed(old(TextCommand(id, text)), id)
      ensures !found ==> resp == LimitAnswer(old(macroMap)[id], id, text) && unchanged(this)
      ensures resp.Sent? ==> Addressed(id, resp.text)
    {
      var t := Expand(text, macroMap[id]);
      if t == [] {
        return Crashed(StrIndexError);
      }
      var cmd := Classify(t);
      if cmd == NotCommand {
        return Ignored;
      }
      if !found {
        LimitAddressed(id);
        return Sent(LimitReply(id));
      }
      var out := Perform(cmd, contextMap[id], id);
      resp := Respond(id, out);
      if resp.Sent? {
        SentAddressesUser(id, out);
      }
    }
  }
}
