/** The routing of on_message (cbot.py:210-319) as pure functions: macro
    expansion, the sigil and edit sub-mode classification, the detection of
    export calls by mention, the text run_js makes of a result and its log
    (cbot.py:160-171), and the choice between a reply and a reaction. */
module Dispatch {
  import opened Text
  import opened Errors
  import opened Values

  /** A user's macro: its variable and its body (cbot.py:153). */
  datatype MacroDef = MacroDef(param: string, text: string)

  type MacroTable = map<string, MacroDef>

  /** How a message tags a user: `<@id>`. */
  function Mention(id: UserId): string {
    "<@" + NatToString(id) + ">"
  }

  // ---------------------------------------------------------------------
  // Mentions

  /** `\d+>` matches at the start of t. */
  predicate DigitsThenClose(t: string)
    decreases |t|
  {
    |t| >= 2 && IsDigit(t[0]) && (t[1] == '>' || DigitsThenClose(t[1..]))
  }

  /** re.search(r"<@(\d+)>", w) finds a match (cbot.py:13, 272). */
  predicate HasMention(w: string)
    decreases |w|
  {
    |w| >= 4 && ((w[0] == '<' && w[1] == '@' && DigitsThenClose(w[2..])) || HasMention(w[1..]))
  }

  /** int(w[2:][:-1]) (cbot.py:174-175): the id between `<@` and the last
      character, or the ValueError for text that is not a decimal number. */
  function MentionId(w: string): Result<UserId> {
    var inner := if |w| >= 3 then w[2..|w| - 1] else "";
    if IsDigits(inner) then Ok(DigitsValue(inner)) else Err(ValueError(inner))
  }

  // ---------------------------------------------------------------------
  // Macro expansion

  /** cbot.py:231-239: `#name arg` with a macro `name` of the user's becomes
      the macro's text with every occurrence of its variable replaced by
      arg. Anything else, including a `#` command with no argument (the
      two-way unpacking fails and the error is swallowed), is kept. */
  function Expand(text: string, macros: MacroTable): string {
    if text != [] && text[0] == '#' then
      var parts := SplitOnce(Strip(text[1..]));
      if |parts| == 2 && parts[0] in macros then
        Replace(macros[parts[0]].text, macros[parts[0]].param, parts[1])
      else text
    else text
  }

  // ---------------------------------------------------------------------
  // Commands

  const MalformedWrite: string := "Malformed write, should be &+filename code"
  const UnknownEdit: string := "Unknown edit command"

  /** What a message asks for once its first character is known. */
  datatype Command =
    | NotCommand                                 // no sigil: the message is ignored
    | Eval(code: string)                         // `$code`
    | ExportCall(mention: string, body: string)  // `#<@id> f args`
    | QuickEval(call: string)                    // `#f args`
    | Write(filename: string, contents: string)  // `&+name code`
    | RunFile(filename: string)                  // `&&name`
    | ReadFile(filename: string)                 // `&*name`
    | Refused(error: Error)                      // an edit command that raises before any effect

  predicate IsSigil(c: char) {
    c == '$' || c == '#' || c == '&'
  }

  /** cbot.py:241-308 on the text after expansion: the first character
      picks the kind of command, the rest is its argument. */
  function Classify(text: string): (c: Command)
    requires text != []
    ensures c == NotCommand <==> !IsSigil(text[0])
  {
    var cmd := text[1..];
    if text[0] == '$' then Eval(cmd)
    else if text[0] == '#' then QuickCommand(cmd)
    else if text[0] == '&' then EditCommand(cmd)
    else NotCommand
  }

  /** cbot.py:269-281: a `#` command whose first word holds a mention and
      that has more after it is an export call; anything else is a call in
      the user's own context. */
  function QuickCommand(cmd: string): (c: Command)
    ensures c.ExportCall? || c == QuickEval(cmd)
  {
    var sp := SplitOnce(cmd);
    if |sp| >= 2 && HasMention(sp[0]) then ExportCall(sp[0], sp[1]) else QuickEval(cmd)
  }

  /** cbot.py:284-308: the sub-mode is the first character (indexing the
      empty string when there is none); the file name is the first word
      after it (indexing an empty list when there is none) and is taken
      before the sub-mode is looked at, so a missing name wins over an
      unknown sub-mode. */
  function EditCommand(cmd: string): (c: Command)
    ensures c.Write? || c.RunFile? || c.ReadFile? || c.Refused?
  {
    if cmd == [] then Refused(StrIndexError)
    else
      var edit := SplitOnce(Strip(cmd[1..]));
      if edit == [] then Refused(IndexError)
      else if cmd[0] == '+' then
        if |edit| != 2 then Refused(Raised(MalformedWrite)) else Write(edit[0], edit[1])
      else if cmd[0] == '&' then RunFile(edit[0])
      else if cmd[0] == '*' then ReadFile(edit[0])
      else Refused(Raised(UnknownEdit))
  }

  // ---------------------------------------------------------------------
  // Replies

  predicate IsText(v: JsValue) {
    v.Leaf? && v.scalar.PyStr?
  }

  /** Index of the first item of the log that is not a string, or |log|. */
  function FirstNonText(log: seq<JsValue>): (i: nat)
    ensures i <= |log|
    ensures i < |log| ==> !IsText(log[i])
  {
    if log == [] || !IsText(log[0]) then 0 else 1 + FirstNonText(log[1..])
  }

  function Texts(log: seq<JsValue>): (ts: seq<string>)
    ensures |ts| == |log|
  {
    if log == [] then []
    else [if IsText(log[0]) then log[0].scalar.s else ""] + Texts(log[1..])
  }

  /** "\n".join(list(stdout)) (cbot.py:165): a TypeError names the first
      item that is not a string. */
  function LogText(log: seq<JsValue>): Result<string> {
    var i := FirstNonText(log);
    if i < |log| then Err(TypeError(i, TypeName(log[i]))) else Ok(Join(Texts(log), "\n"))
  }

  /** The Python value run_js stringifies: an object is serialized first. */
  function Serialized(v: JsValue): PyValue {
    if v.Obj? then Plain(v) else PyLeaf(v.scalar)
  }

  /** run_js's reply (cbot.py:162-169): str() of the value, blank when it
      is "None", followed by the log in backquotes when the log is not
      empty. */
  function RunReply(v: JsValue, log: seq<JsValue>): Result<string> {
    match LogText(log)
    case Err(e) => Err(e)
    case Ok(l) =>
      var r := Str(Serialized(v));
      Ok((if r == "None" then "" else r) + (if l == "" then "" else " `" + l + "`"))
  }

  datatype Reaction = Check | Cross | Page

  /** What the bot does in the channel: nothing, a message, reactions on the
      user's message, or an exception that escapes the handler. */
  datatype Response =
    | Ignored
    | Sent(text: string)
    | Reacted(reactions: seq<Reaction>)
    | Crashed(error: Error)

  /** cbot.py:255 */
  function LimitReply(id: UserId): string {
    Mention(id) + " VM limit reached, rip bozo"
  }

  /** cbot.py:310-319: a reply other than None, "" and "None" is sent after
      the user's mention, otherwise the message gets a check mark; a missing
      file gets a cross and a page; any other exception is sent as text. */
  function Respond(id: UserId, outcome: Result<Option<string>>): Response {
    match outcome
    case Ok(reply) =>
      if reply.Some? && reply.value != "" && reply.value != "None" then Sent(Mention(id) + " " + reply.value)
      else Reacted([Check])
    case Err(e) =>
      if e.FileNotFound? then Reacted([Cross, Page]) else Sent(Mention(id) + " " + ErrorText(e))
  }

  // ---------------------------------------------------------------------
  // Lemmas: mentions

  lemma {:induction false} DigitsClose(d: string)
    requires IsDigits(d)
    ensures DigitsThenClose(d + ">")
    decreases |d|
  {
    var t := d + ">";
    assert t[0] == d[0];
    if |d| > 1 {
      assert t[1..] == d[1..] + ">";
      assert IsDigits(d[1..]) by {
        forall k | 0 <= k < |d[1..]| ensures IsDigit(d[1..][k]) {
          assert d[1..][k] == d[k + 1];
        }
      }
      DigitsClose(d[1..]);
    } else {
      assert t[1] == '>';
    }
  }

  /** A user's mention is recognised, and it gives back the user's id. */
  lemma MentionRoundTrip(id: UserId)
    ensures HasMention(Mention(id))
    ensures MentionId(Mention(id)) == Ok(id)
  {
    var d := NatToString(id);
    var m := Mention(id);
    assert m == "<@" + (d + ">");
    assert m[2..] == d + ">";
    DigitsClose(d);
    assert m[2..|m| - 1] == d;
    DigitsRoundTrip(id);
  }

  /** The search finds a mention anywhere in the word, but the id is read
      from fixed positions: a mention with anything in front of it passes
      the detection and then fails to parse. */
  lemma GluedMention(c: char, id: UserId)
    ensures HasMention([c] + Mention(id))
    ensures MentionId([c] + Mention(id)).Err?
  {
    var m := [c] + Mention(id);
    MentionRoundTrip(id);
    assert m[1..] == Mention(id);
    assert m[2..|m| - 1][0] == '@';
  }

  /** A mention contains no whitespace. */
  lemma MentionIsWord(id: UserId)
    ensures IsWord(Mention(id))
  {
    var d := NatToString(id);
    var m := Mention(id);
    forall k | 0 <= k < |m| ensures !IsSpace(m[k]) {
      if 2 <= k < |m| - 1 {
        assert m[k] == d[k - 2];
      }
    }
  }

  // ---------------------------------------------------------------------
  // Lemmas: expansion

  /** The words of `#name arg` after the sigil. */
  lemma HashWords(name: string, arg: string)
    requires IsWord(name)
    requires arg != [] && !IsSpace(arg[0]) && !IsSpace(arg[|arg| - 1])
    ensures SplitOnce(Strip(("#" + name + " " + arg)[1..])) == [name, arg]
  {
    var cmd := name + " " + arg;
    assert ("#" + name + " " + arg)[1..] == cmd by {
      assert "#" + name + " " + arg == "#" + cmd;
    }
    StripTrimmed(cmd);
    SplitOnceWordRest(name, arg);
  }

  /** `#name arg` with a known macro expands to the macro's text with the
      variable replaced by arg. */
  lemma ExpandKnown(name: string, arg: string, macros: MacroTable)
    requires IsWord(name) && name in macros
    requires arg != [] && !IsSpace(arg[0]) && !IsSpace(arg[|arg| - 1])
    ensures Expand("#" + name + " " + arg, macros) ==
      Replace(macros[name].text, macros[name].param, arg)
  {
    HashWords(name, arg);
  }

  /** `#name arg` with a name the user has no macro for is kept as it is. */
  lemma ExpandUnknown(name: string, arg: string, macros: MacroTable)
    requires IsWord(name) && name !in macros
    requires arg != [] && !IsSpace(arg[0]) && !IsSpace(arg[|arg| - 1])
    ensures Expand("#" + name + " " + arg, macros) == "#" + name + " " + arg
  {
    HashWords(name, arg);
  }

  /** The word of `#name` after the sigil. */
  lemma HashWord(name: string)
    requires IsWord(name)
    ensures SplitOnce(Strip(("#" + name)[1..])) == [name]
  {
    assert ("#" + name)[1..] == name;
    StripTrimmed(name);
    SplitOnceWord(name);
  }

  /** A lone `#name` is kept even when name is a macro: the unpacking into
      name and argument fails. */
  lemma ExpandNoArgument(name: string, macros: MacroTable)
    requires IsWord(name)
    ensures Expand("#" + name, macros) == "#" + name
  {
    HashWord(name);
  }

  /** The body of the built-in macro with its variable replaced. */
  lemma GenReplace(arg: string)
    ensures Replace("$gen_text(\"Text\")", "Text", arg) == "$gen_text(\"" + arg + "\")"
  {
    var a, t := GenPieces();
    ReplaceSkipPrefix(a, t, "Text", arg);
    ReplaceLeading("Text", "\")", arg);
    GenJoin(a, arg);
  }

  lemma GenPieces() returns (a: string, t: string)
    ensures a == "$gen_text(\"" && t == "Text" + "\")"
    ensures "$gen_text(\"Text\")" == a + t
    ensures |t| >= |"Text"|
    ensures forall k :: 0 <= k < |a| ==> a[k] != "Text"[0]
  {
    a := "$gen_text(\"";
    t := "Text" + "\")";
  }

  lemma GenJoin(a: string, arg: string)
    requires a == "$gen_text(\""
    ensures a + (arg + "\")") == "$gen_text(\"" + arg + "\")"
  {
  }

  /** `#gen topic` with the built-in macro becomes a `$` command that calls
      gen_text on the quoted topic. */
  lemma GenExample(arg: string)
    requires arg != [] && !IsSpace(arg[0]) && !IsSpace(arg[|arg| - 1])
    ensures Expand("#gen " + arg, map["gen" := MacroDef("Text", "$gen_text(\"Text\")")]) ==
      "$gen_text(\"" + arg + "\")"
    ensures Classify("$gen_text(\"" + arg + "\")") == Eval("gen_text(\"" + arg + "\")")
  {
    GenExpands(arg);
    GenTail(arg);
  }

  lemma GenExpands(arg: string)
    requires arg != [] && !IsSpace(arg[0]) && !IsSpace(arg[|arg| - 1])
    ensures Expand("#gen " + arg, map["gen" := MacroDef("Text", "$gen_text(\"Text\")")]) ==
      "$gen_text(\"" + arg + "\")"
  {
    var macros := map["gen" := MacroDef("Text", "$gen_text(\"Text\")")];
    assert "#gen " + arg == "#" + "gen" + " " + arg;
    ExpandKnown("gen", arg, macros);
    GenReplace(arg);
  }

  lemma GenTail(arg: string)
    ensures ("$gen_text(\"" + arg + "\")")[1..] == "gen_text(\"" + arg + "\")"
    ensures ("$gen_text(\"" + arg + "\")")[0] == '$'
  {
    var x := "gen_text(\"" + arg + "\")";
    assert "$gen_text(\"" + arg + "\")" == "$" + x;
  }

  // ---------------------------------------------------------------------
  // Lemmas: classification

  lemma SigilWords(c: char, w: string, rest: string)
    ensures ([c] + w + " " + rest)[1..] == w + " " + rest
    ensures ([c] + w + " " + rest)[0] == c
  {
    assert [c] + w + " " + rest == [c] + (w + " " + rest);
  }

  /** `#<@id> body` is an export call to user id. */
  lemma ClassifyExport(id: UserId, body: string)
    requires body != [] && !IsSpace(body[0])
    ensures Classify("#" + Mention(id) + " " + body) == ExportCall(Mention(id), body)
  {
    SigilWords('#', Mention(id), body);
    ExportWords(id, body);
  }

  lemma ExportWords(id: UserId, body: string)
    requires body != [] && !IsSpace(body[0])
    ensures QuickCommand(Mention(id) + " " + body) == ExportCall(Mention(id), body)
  {
    MentionIsWord(id);
    MentionRoundTrip(id);
    SplitOnceWordRest(Mention(id), body);
  }

  /** `#f args` without a mention in front is a call in the user's own
      context. */
  lemma ClassifyQuick(f: string, args: string)
    requires IsWord(f) && !HasMention(f)
    requires args != [] && !IsSpace(args[0])
    ensures Classify("#" + f + " " + args) == QuickEval(f + " " + args)
  {
    SigilWords('#', f, args);
    SplitOnceWordRest(f, args);
  }

  /** `&+name code` writes code to the file name; without code it is
      refused. */
  lemma ClassifyWrite(name: string, code: string)
    requires IsWord(name)
    requires code != [] && !IsSpace(code[0]) && !IsSpace(code[|code| - 1])
    ensures Classify("&+" + name + " " + code) == Write(name, code)
    ensures Classify("&+" + name) == Refused(Raised(MalformedWrite))
  {
    WriteText(name, code);
    WriteTwo(name, code);
    SubModeTail('&', '+', name);
    SubModeOne('+', name);
  }

  lemma WriteText(name: string, code: string)
    ensures ("&+" + name + " " + code)[0] == '&'
    ensures ("&+" + name + " " + code)[1..] == "+" + name + " " + code
  {
    var x := "+" + name + " " + code;
    assert "&+" + name + " " + code == "&" + x;
  }

  lemma WriteTwo(name: string, code: string)
    requires IsWord(name)
    requires code != [] && !IsSpace(code[0]) && !IsSpace(code[|code| - 1])
    ensures EditCommand("+" + name + " " + code) == Write(name, code)
  {
    var cmd := "+" + name + " " + code;
    assert cmd[0] == '+';
    assert cmd[1..] == name + " " + code by {
      assert cmd == "+" + (name + " " + code);
    }
    StripTrimmed(name + " " + code);
    SplitOnceWordRest(name, code);
  }

  lemma SubModeTail(sigil: char, op: char, name: string)
    ensures ([sigil, op] + name)[0] == sigil
    ensures ([sigil, op] + name)[1..] == [op] + name
  {
  }

  lemma SubModeOne(op: char, name: string)
    requires IsWord(name)
    ensures EditCommand([op] + name) ==
      if op == '+' then Refused(Raised(MalformedWrite))
      else if op == '&' then RunFile(name)
      else if op == '*' then ReadFile(name)
      else Refused(Raised(UnknownEdit))
  {
    var cmd := [op] + name;
    assert cmd[1..] == name;
    StripTrimmed(name);
    SplitOnceWord(name);
  }

  /** `&&name` runs the file name and `&*name` shows it. */
  lemma ClassifyFile(name: string)
    requires IsWord(name)
    ensures Classify("&&" + name) == RunFile(name)
    ensures Classify("&*" + name) == ReadFile(name)
  {
    SubModeTail('&', '&', name);
    SubModeOne('&', name);
    SubModeTail('&', '*', name);
    SubModeOne('*', name);
  }

  /** An edit command with nothing after its sub-mode fails on the missing
      file name, whatever the sub-mode, and a bare `&` fails earlier, on
      the missing sub-mode. */
  lemma EditNeedsName(op: char)
    ensures Classify("&" + [op]) == Refused(IndexError)
    ensures Classify("&") == Refused(StrIndexError)
  {
    assert "&"[1..] == [];
    var text := "&" + [op];
    assert text[1..] == [op];
    assert text[1..][1..] == [];
  }

  // ---------------------------------------------------------------------
  // Lemmas: replies

  /** Every item before FirstNonText is a string. */
  lemma {:induction false} FirstNonTextPrefix(log: seq<JsValue>, k: nat)
    requires k < FirstNonText(log)
    ensures IsText(log[k])
    decreases |log|
  {
    if k > 0 {
      FirstNonTextPrefix(log[1..], k - 1);
    }
  }

  /** Joining the log fails exactly when some item is not a string, and then
      on the first such item. */
  lemma LogTextFails(log: seq<JsValue>)
    ensures LogText(log).Ok? <==> forall k :: 0 <= k < |log| ==> IsText(log[k])
    ensures LogText(log).Err? ==>
      exists i :: 0 <= i < |log| && !IsText(log[i]) && LogText(log).error == TypeError(i, TypeName(log[i])) &&
        forall k :: 0 <= k < i ==> IsText(log[k])
  {
    var i := FirstNonText(log);
    forall k | 0 <= k < i ensures IsText(log[k]) {
      FirstNonTextPrefix(log, k);
    }
  }

  /** The reply of a run is never the text "None". */
  lemma RunReplyNotNone(v: JsValue, log: seq<JsValue>)
    requires RunReply(v, log).Ok?
    ensures RunReply(v, log).value != "None"
  {
    var l := LogText(log).value;
    var r := Str(Serialized(v));
    var head := if r == "None" then "" else r;
    if l != "" {
      var t := head + (" `" + l + "`");
      assert t[|t| - 1] == '`';
    }
  }

  /** After a run, the message gets a check mark exactly when the value
      prints as None or as nothing and the log is empty; otherwise the
      reply is sent after the user's mention. */
  lemma RunAcknowledged(id: UserId, v: JsValue, log: seq<JsValue>)
    requires RunReply(v, log).Ok?
    ensures var r := Str(Serialized(v));
      Respond(id, Ok(Some(RunReply(v, log).value))) == Reacted([Check]) <==>
        LogText(log).value == "" && (r == "None" || r == "")
  {
    RunReplyNotNone(v, log);
    var l := LogText(log).value;
    var r := Str(Serialized(v));
    var head := if r == "None" then "" else r;
    if l != "" {
      var t := head + (" `" + l + "`");
      assert |t| > 0;
    }
  }

  /** Every message the bot sends addresses the user first. */
  lemma SentAddressesUser(id: UserId, outcome: Result<Option<string>>)
    requires Respond(id, outcome).Sent?
    ensures |Respond(id, outcome).text| > |Mention(id)|
    ensures Respond(id, outcome).text[..|Mention(id)| + 1] == Mention(id) + " "
  {
    var m := Mention(id) + " ";
    var t := Respond(id, outcome).text;
    assert t[..|m|] == m;
  }
}
