/** The bookkeeping half of preamble.js, the script every new context runs
    first: three global buffers that the bot drains after each run (stdout,
    new_macros, new_exports), the functions that push onto them and reset
    them, and the bootstrap call that registers the built-in `gen` macro.
    The gateway state `this.s` lives beside them in the same context. */
module Preamble {
  import opened Values

  /** One entry of new_macros: the triple [name, variable, text]
      (preamble.js:29). */
  datatype MacroDecl = MacroDecl(name: string, param: string, text: string)

  /** The global bindings of a context other than the three buffers, by
      name: the preamble's functions and whatever user code declares. */
  type Heap = map<string, JsValue>

  /** Everything of a context: the three buffers the bot reads back, the
      gateway state, and the rest of the global object, which only the
      engine reads and writes. */
  datatype Globals = Globals(
    stdout: seq<JsValue>,
    newMacros: seq<MacroDecl>,
    newExports: seq<string>,
    s: JsValue,
    heap: Heap)

  /** What evaluating code gives: its value, or the message of the exception
      it threw. */
  datatype EvalOutcome = Returned(value: JsValue) | Thrown(message: string)

  /** The globals after an evaluation, and its outcome. */
  datatype Evaluated = Evaluated(after: Globals, outcome: EvalOutcome)

  /** The script engine: evaluating code against the globals of a context.
      Arbitrary code may print, define macros and exports, change the state
      or throw, so the engine is any total function. */
  type Engine = (Globals, string) -> Evaluated

  function JsStr(t: string): JsValue {
    Leaf(PyStr(t))
  }

  /** The line def_macro prints (preamble.js:28). */
  function DefinedMacro(n: string): string {
    "Defined macro " + n
  }

  /** The line def_export prints (preamble.js:39). */
  function ExportedFunction(f: string): string {
    "Exported function " + f + "()"
  }

  /** The macro the bootstrap registers (preamble.js:52). */
  const GenMacro: MacroDecl := MacroDecl("gen", "Text", "$gen_text(\"Text\")")

  /** The functions the preamble declares (preamble.js:3-50). */
  const PreambleFunctions: set<string> :=
    {"print", "reset_stdout", "random_int", "d", "def_macro", "reset_macros",
     "def_export", "reset_exports", "gen_text"}

  /** A function of the preamble as a value of the engine. */
  function FunctionValue(f: string): JsValue {
    Leaf(Opaque("JSFunction", f, true))
  }

  /** The heap once the preamble's functions are declared over h. */
  function DeclarePreamble(h: Heap): Heap {
    h + map f | f in PreambleFunctions :: FunctionValue(f)
  }

  /** The preamble adds its functions to the heap and leaves every other
      binding as it was. */
  lemma PreambleKeepsHeap(h: Heap)
    ensures DeclarePreamble(h).Keys == h.Keys + PreambleFunctions
    ensures forall f :: f in h && f !in PreambleFunctions ==> DeclarePreamble(h)[f] == h[f]
    ensures forall f :: f in PreambleFunctions ==> DeclarePreamble(h)[f] == FunctionValue(f)
  {
  }

  /** The globals right after the preamble has run over a context whose
      gateway state is s and whose other globals are h. */
  function AfterPreamble(s: JsValue, h: Heap): Globals {
    Globals([JsStr(DefinedMacro(GenMacro.name))], [GenMacro], [], s, DeclarePreamble(h))
  }

  /** The globals with all three buffers emptied, as the bot leaves them
      after a run that did not fail. */
  function Drained(g: Globals): Globals {
    g.(stdout := [], newMacros := [], newExports := [])
  }

  /** A script context (STPyV8.JSContext) whose global object is a user's
      gateway. */
  class JsContext {
    var stdout: seq<JsValue>
    var newMacros: seq<MacroDecl>
    var newExports: seq<string>
    var s: JsValue
    var heap: Heap

    /** A new context around a gateway holding state s0 (cbot.py:125-127);
        the buffers are empty until the preamble declares them, and nothing
        else is bound yet. */
    constructor (s0: JsValue)
      ensures stdout == [] && newMacros == [] && newExports == [] && s == s0 && heap == map[]
    {
      stdout := [];
      newMacros := [];
      newExports := [];
      s := s0;
      heap := map[];
    }

    function Snapshot(): Globals
      reads this
    {
      Globals(stdout, newMacros, newExports, s, heap)
    }

    /** print(s) (preamble.js:3-5). */
    method Print(x: JsValue)
      modifies this
      ensures stdout == old(stdout) + [x]
      ensures newMacros == old(newMacros) && newExports == old(newExports) && s == old(s) && heap == old(heap)
    {
      stdout := stdout + [x];
    }

    /** reset_stdout() (preamble.js:7-9). */
    method ResetStdout()
      modifies this
      ensures stdout == []
      ensures newMacros == old(newMacros) && newExports == old(newExports) && s == old(s) && heap == old(heap)
    {
      stdout := [];
    }

    /** def_macro(n, v, t) (preamble.js:27-30): announce the macro, then
        queue it. */
    method DefMacro(n: string, v: string, t: string)
      modifies this
      ensures stdout == old(stdout) + [JsStr(DefinedMacro(n))]
      ensures newMacros == old(newMacros) + [MacroDecl(n, v, t)]
      ensures newExports == old(newExports) && s == old(s) && heap == old(heap)
    {
      Print(JsStr(DefinedMacro(n)));
      newMacros := newMacros + [MacroDecl(n, v, t)];
    }

    /** reset_macros() (preamble.js:32-34). */
    method ResetMacros()
      modifies this
      ensures newMacros == []
      ensures stdout == old(stdout) && newExports == old(newExports) && s == old(s) && heap == old(heap)
    {
      newMacros := [];
    }

    /** def_export(f) (preamble.js:38-41): announce the export, then queue
        it. */
    method DefExport(f: string)
      modifies this
      ensures stdout == old(stdout) + [JsStr(ExportedFunction(f))]
      ensures newExports == old(newExports) + [f]
      ensures newMacros == old(newMacros) && s == old(s) && heap == old(heap)
    {
      Print(JsStr(ExportedFunction(f)));
      newExports := newExports + [f];
    }

    /** reset_exports() (preamble.js:43-45). */
    method ResetExports()
      modifies this
      ensures newExports == []
      ensures stdout == old(stdout) && newMacros == old(newMacros) && s == old(s) && heap == old(heap)
    {
      newExports := [];
    }

    /** The top level of preamble.js: declare the three buffers empty
        (preamble.js:1, 25, 36) and register `gen` (preamble.js:52). The
        value of the script is that of its last call, undefined, which
        reaches Python as None. */
    method RunPreamble() returns (v: JsValue)
      modifies this
      ensures Snapshot() == AfterPreamble(old(s), old(heap))
      ensures v == Leaf(PyNone)
    {
      heap := DeclarePreamble(heap);
      stdout := [];
      newMacros := [];
      newExports := [];
      DefMacro(GenMacro.name, GenMacro.param, GenMacro.text);
      assert [] + [JsStr(DefinedMacro(GenMacro.name))] == [JsStr(DefinedMacro(GenMacro.name))];
      assert [] + [GenMacro] == [GenMacro];
      v := Leaf(PyNone);
    }

    /** ctx.eval(code) for code of the user's: whatever the engine makes of
        the current globals. */
    method Eval(engine: Engine, code: string) returns (o: EvalOutcome)
      modifies this
      ensures Snapshot() == engine(old(Snapshot()), code).after
      ensures o == engine(old(Snapshot()), code).outcome
    {
      var ev := engine(Snapshot(), code);
      stdout := ev.after.stdout;
      newMacros := ev.after.newMacros;
      newExports := ev.after.newExports;
      s := ev.after.s;
      heap := ev.after.heap;
      o := ev.outcome;
    }
  }
}
