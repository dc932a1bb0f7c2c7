/** Values crossing the boundary between the script engine and Python.
    A live engine object (JsValue.Obj) is converted by serialize_JSObject
    (cbot.py:35-45) into a plain insertion-ordered dictionary (PyValue.PyDict)
    before it is stringified or pickled; scalars pass through unchanged. */
module Values {
  import opened Text
  import opened Errors

  /** Engine values that are not objects, as Python sees them. Numbers of the
      engine that are not integers, arrays and functions are Opaque: they
      carry their Python type name and what str() gives for them, and
      whether they are still objects of the engine (arrays, functions),
      which pickle refuses, rather than Python values (floats). */
  datatype Scalar =
    | PyNone
    | PyBool(b: bool)
    | PyInt(i: int)
    | PyStr(s: string)
    | Opaque(typeName: string, text: string, engineObject: bool)

  /** A value inside the engine: a scalar, or an object with its keys in order. */
  datatype JsValue = Leaf(scalar: Scalar) | Obj(entries: seq<JsEntry>)
  datatype JsEntry = JsEntry(key: string, val: JsValue)

  /** A plain Python value: a scalar, or a dict with its items in insertion order. */
  datatype PyValue = PyLeaf(scalar: Scalar) | PyDict(items: seq<PyItem>)
  datatype PyItem = PyItem(key: string, val: PyValue)

  /** `k in d` for a dict given by its items. */
  predicate HasKey(items: seq<PyItem>, k: string) {
    items != [] && (items[0].key == k || HasKey(items[1..], k))
  }

  /** The place of key k in a dict that has it: its first position. */
  function KeyIndex(items: seq<PyItem>, k: string): (i: nat)
    requires HasKey(items, k)
    ensures i < |items| && items[i].key == k
    ensures forall j :: 0 <= j < i ==> items[j].key != k
  {
    if items[0].key == k then 0
    else
      var i := KeyIndex(items[1..], k) + 1;
      assert forall j :: 1 <= j < i ==> items[j] == items[1..][j - 1];
      i
  }

  /** `d[k] = v` on a dict: an existing key keeps its place and now maps to
      v, every other item keeps its value and place, and a new key goes
      last. */
  function DictSet(items: seq<PyItem>, k: string, v: PyValue): (r: seq<PyItem>)
    ensures !HasKey(items, k) ==> r == items + [PyItem(k, v)]
    ensures HasKey(items, k) ==> r == items[KeyIndex(items, k) := PyItem(k, v)]
    ensures HasKey(r, k)
  {
    if items == [] then [PyItem(k, v)]
    else if items[0].key == k then [PyItem(k, v)] + items[1..]
    else
      var r := [items[0]] + DictSet(items[1..], k, v);
      assert r[1..] == DictSet(items[1..], k, v);
      r
  }

  /** What serialize_JSObject gives for a value: an object becomes a dict
      built key by key in order, recursively; a scalar is left as it is. */
  function Plain(v: JsValue): PyValue
    decreases v, 1, 0
  {
    match v
    case Leaf(s) => PyLeaf(s)
    case Obj(es) => PlainFold(v, |es|)
  }

  /** The dict after the first n keys of object v have been copied. */
  function PlainFold(v: JsValue, n: nat): (p: PyValue)
    requires v.Obj? && n <= |v.entries|
    ensures p.PyDict?
    decreases v, 0, n
  {
    if n == 0 then PyDict([])
    else
      var e := v.entries[n - 1];
      assert e in v.entries;
      PyDict(DictSet(PlainFold(v, n - 1).items, e.key, Plain(e.val)))
  }

  /** serialize_JSObject (cbot.py:35-45): fill a dict by walking the object's
      keys; a value that is itself an object is serialized recursively. */
  method SerializeJsObject(v: JsValue) returns (out: seq<PyItem>)
    requires v.Obj?
    ensures PyDict(out) == Plain(v)
    decreases v
  {
    out := [];
    for i := 0 to |v.entries|
      invariant PyDict(out) == PlainFold(v, i)
    {
      var e := v.entries[i];
      assert e in v.entries;
      var data: PyValue;
      if e.val.Obj? {
        var sub := SerializeJsObject(e.val);
        data := PyDict(sub);
      } else {
        data := PyLeaf(e.val.scalar);
      }
      out := DictSet(out, e.key, data);
    }
  }

  /** How a plain value looks from inside the engine: a dict becomes an
      object with the same keys in the same order. */
  function ToJs(p: PyValue): JsValue
    decreases p, 1, 0
  {
    match p
    case PyLeaf(s) => Leaf(s)
    case PyDict(items) => Obj(ToJsPrefix(p, |items|))
  }

  function ToJsPrefix(p: PyValue, n: nat): (es: seq<JsEntry>)
    requires p.PyDict? && n <= |p.items|
    ensures |es| == n
    decreases p, 0, n
  {
    if n == 0 then []
    else
      var it := p.items[n - 1];
      assert it in p.items;
      ToJsPrefix(p, n - 1) + [JsEntry(it.key, ToJs(it.val))]
  }

  predicate DistinctKeys(es: seq<JsEntry>) {
    forall i, j :: 0 <= i < j < |es| ==> es[i].key != es[j].key
  }

  /** An engine value whose objects have distinct keys, as engine objects do. */
  predicate TidyJs(v: JsValue)
    decreases v
  {
    match v
    case Leaf(_) => true
    case Obj(es) =>
      DistinctKeys(es) &&
      forall i :: 0 <= i < |es| ==> (assert es[i] in es; TidyJs(es[i].val))
  }

  predicate DistinctItemKeys(items: seq<PyItem>) {
    forall i, j :: 0 <= i < j < |items| ==> items[i].key != items[j].key
  }

  /** A plain value whose dicts have distinct keys, as Python dicts do. */
  predicate TidyPy(p: PyValue)
    decreases p
  {
    match p
    case PyLeaf(_) => true
    case PyDict(items) =>
      DistinctItemKeys(items) &&
      forall i :: 0 <= i < |items| ==> (assert items[i] in items; TidyPy(items[i].val))
  }

  /** The Python type name of an engine value as the bot receives it. */
  function TypeName(v: JsValue): string {
    match v
    case Obj(_) => "JSObject"
    case Leaf(PyNone) => "NoneType"
    case Leaf(PyBool(_)) => "bool"
    case Leaf(PyInt(_)) => "int"
    case Leaf(PyStr(_)) => "str"
    case Leaf(Opaque(t, _, _)) => t
  }

  // ---------------------------------------------------------------------
  // pickle.dump of a plain value

  /** The type name of the first engine object pickle meets in a plain
      value, walking each dict's items in order, or None when the value
      pickles. */
  function Unpicklable(p: PyValue): Option<string>
    decreases p, 1, 0
  {
    match p
    case PyLeaf(s) => if s.Opaque? && s.engineObject then Some(s.typeName) else None
    case PyDict(items) => UnpicklableFrom(p, 0)
  }

  function UnpicklableFrom(p: PyValue, i: nat): Option<string>
    requires p.PyDict? && i <= |p.items|
    decreases p, 0, |p.items| - i
  {
    if i == |p.items| then None
    else
      assert p.items[i] in p.items;
      var x := Unpicklable(p.items[i].val);
      if x.Some? then x else UnpicklableFrom(p, i + 1)
  }

  // ---------------------------------------------------------------------
  // str() of a plain value

  function ScalarStr(s: Scalar): string {
    match s
    case PyNone => "None"
    case PyBool(b) => if b then "True" else "False"
    case PyInt(i) => IntToString(i)
    case PyStr(t) => t
    case Opaque(_, t, _) => t
  }

  function ScalarRepr(s: Scalar): string {
    if s.PyStr? then "'" + s.s + "'" else ScalarStr(s)
  }

  function Repr(p: PyValue): string
    decreases p, 1, 0
  {
    match p
    case PyLeaf(s) => ScalarRepr(s)
    case PyDict(items) => "{" + ReprItems(p, |items|) + "}"
  }

  function ReprItems(p: PyValue, n: nat): string
    requires p.PyDict? && n <= |p.items|
    decreases p, 0, n
  {
    if n == 0 then ""
    else
      var it := p.items[n - 1];
      assert it in p.items;
      var one := "'" + it.key + "': " + Repr(it.val);
      if n == 1 then one else ReprItems(p, n - 1) + ", " + one
  }

  /** str() of a plain value. */
  function Str(p: PyValue): string {
    match p
    case PyLeaf(s) => ScalarStr(s)
    case PyDict(_) => Repr(p)
  }

  // ---------------------------------------------------------------------
  // Lemmas

  /** Only the None value, the string "None" and an opaque value printing as
      "None" are stringified to "None" (the text run_js blanks out). */
  lemma StrNone(p: PyValue)
    ensures Str(p) == "None" <==>
      p == PyLeaf(PyNone) || p == PyLeaf(PyStr("None")) ||
      (p.PyLeaf? && p.scalar.Opaque? && p.scalar.text == "None")
  {
    if p.PyLeaf? && p.scalar.PyInt? {
      var i := p.scalar.i;
      if i < 0 {
        assert IntToString(i)[0] == '-';
      } else {
        assert IsDigit(IntToString(i)[0]);
      }
    }
    if p.PyDict? {
      assert Str(p)[0] == '{';
    }
  }

  lemma {:induction false} ToJsPrefixStable(x: seq<PyItem>, y: seq<PyItem>, m: nat)
    requires m <= |x|
    ensures ToJsPrefix(PyDict(x + y), m) == ToJsPrefix(PyDict(x), m)
  {
    if m > 0 {
      ToJsPrefixStable(x, y, m - 1);
      assert (x + y)[m - 1] == x[m - 1];
    }
  }

  /** A tidy engine value survives serialization and reloading unchanged. */
  lemma {:induction false} LoadAfterSave(v: JsValue)
    requires TidyJs(v)
    ensures ToJs(Plain(v)) == v
    decreases v, 1
  {
    match v
    case Leaf(_) =>
    case Obj(es) =>
      LoadAfterSaveFold(v, |es|);
      assert es[..|es|] == es;
  }

  /** With distinct keys every key is new, so folding appends key by key. */
  lemma {:induction false} PlainFoldAppends(v: JsValue, n: nat)
    requires v.Obj? && DistinctKeys(v.entries) && 0 < n <= |v.entries|
    ensures PlainFold(v, n).items
         == PlainFold(v, n - 1).items + [PyItem(v.entries[n - 1].key, Plain(v.entries[n - 1].val))]
    ensures |PlainFold(v, n).items| == n
    ensures forall k :: 0 <= k < n ==> PlainFold(v, n).items[k].key == v.entries[k].key
    decreases n
  {
    var es := v.entries;
    var prev := PlainFold(v, n - 1).items;
    if n > 1 {
      PlainFoldAppends(v, n - 1);
    }
    assert |prev| == n - 1 && forall k :: 0 <= k < n - 1 ==> prev[k].key == es[k].key;
    assert forall i :: 0 <= i < |prev| ==> prev[i].key != es[n - 1].key;
    NoKeyIn(prev, es[n - 1].key);
  }

  lemma {:induction false} LoadAfterSaveFold(v: JsValue, n: nat)
    requires v.Obj? && TidyJs(v) && n <= |v.entries|
    ensures |PlainFold(v, n).items| == n
    ensures ToJsPrefix(PlainFold(v, n), n) == v.entries[..n]
    decreases v, 0, n
  {
    if n > 0 {
      var e := v.entries[n - 1];
      assert e in v.entries;
      LoadAfterSaveFold(v, n - 1);
      assert TidyJs(e.val);
      LoadAfterSave(e.val);
      PlainFoldAppends(v, n);
      LoadAfterSaveStep(v, n);
    }
  }

  /** One key of the round trip the other way: see SaveAfterLoadStep. */
  lemma {:induction false} LoadAfterSaveStep(v: JsValue, n: nat)
    requires v.Obj? && 0 < n <= |v.entries|
    requires ToJs(Plain(v.entries[n - 1].val)) == v.entries[n - 1].val
    requires |PlainFold(v, n - 1).items| == n - 1
    requires ToJsPrefix(PlainFold(v, n - 1), n - 1) == v.entries[..n - 1]
    requires PlainFold(v, n).items
          == PlainFold(v, n - 1).items + [PyItem(v.entries[n - 1].key, Plain(v.entries[n - 1].val))]
    ensures |PlainFold(v, n).items| == n
    ensures ToJsPrefix(PlainFold(v, n), n) == v.entries[..n]
  {
    var es := v.entries;
    var e := es[n - 1];
    var prev := PlainFold(v, n - 1).items;
    var item := PyItem(e.key, Plain(e.val));
    ToJsPrefixAppend(prev, item);
    assert es[..n] == es[..n - 1] + [e];
  }

  lemma {:induction false} ToJsPrefixAppend(prev: seq<PyItem>, item: PyItem)
    ensures ToJsPrefix(PyDict(prev + [item]), |prev| + 1)
         == ToJsPrefix(PyDict(prev), |prev|) + [JsEntry(item.key, ToJs(item.val))]
  {
    var items := prev + [item];
    assert items[|prev|] == item;
    ToJsPrefixStable(prev, [item], |prev|);
  }

  /** A tidy plain value read into the engine and serialized again is the
      same dict: loading persisted state and saving it back is lossless. */
  lemma {:induction false} SaveAfterLoad(p: PyValue)
    requires TidyPy(p)
    ensures Plain(ToJs(p)) == p
    decreases p
  {
    match p
    case PyLeaf(_) =>
    case PyDict(items) =>
      forall i | 0 <= i < |items|
        ensures Plain(ToJs(items[i].val)) == items[i].val
      {
        TidyPyItem(p, i);
        SaveAfterLoad(items[i].val);
      }
      assert DistinctItemKeys(items);
      SaveAfterLoadPrefix(p, |items|);
      assert items[..|items|] == items;
  }

  lemma {:induction false} SaveAfterLoadPrefix(p: PyValue, n: nat)
    requires p.PyDict? && DistinctItemKeys(p.items) && n <= |p.items|
    requires forall i :: 0 <= i < |p.items| ==> Plain(ToJs(p.items[i].val)) == p.items[i].val
    ensures PlainFold(Obj(ToJsPrefix(p, n)), n) == PyDict(p.items[..n])
  {
    if n > 0 {
      SaveAfterLoadPrefix(p, n - 1);
      NewKeyInPrefix(p.items, n - 1);
      SaveAfterLoadStep(p, n);
    }
  }

  /** One key of the round trip: if the first n - 1 keys come back and the
      value at key n does, the first n keys do. */
  lemma {:induction false} SaveAfterLoadStep(p: PyValue, n: nat)
    requires p.PyDict? && 0 < n <= |p.items|
    requires !HasKey(p.items[..n - 1], p.items[n - 1].key)
    requires Plain(ToJs(p.items[n - 1].val)) == p.items[n - 1].val
    requires PlainFold(Obj(ToJsPrefix(p, n - 1)), n - 1) == PyDict(p.items[..n - 1])
    ensures PlainFold(Obj(ToJsPrefix(p, n)), n) == PyDict(p.items[..n])
  {
    var it := p.items[n - 1];
    var v := Obj(ToJsPrefix(p, n));
    ToJsPrefixLast(p, n);
    PlainFoldStable(Obj(ToJsPrefix(p, n - 1)), v, n - 1);
    assert PlainFold(v, n).items == p.items[..n - 1] + [it];
    assert p.items[..n] == p.items[..n - 1] + [it];
  }

  lemma {:induction false} ToJsPrefixLast(p: PyValue, n: nat)
    requires p.PyDict? && 0 < n <= |p.items|
    ensures ToJsPrefix(p, n)[..n - 1] == ToJsPrefix(p, n - 1)[..n - 1]
    ensures ToJsPrefix(p, n)[n - 1] == JsEntry(p.items[n - 1].key, ToJs(p.items[n - 1].val))
  {
    assert ToJsPrefix(p, n) == ToJsPrefix(p, n - 1) + [JsEntry(p.items[n - 1].key, ToJs(p.items[n - 1].val))];
  }

  lemma TidyPyItem(p: PyValue, i: nat)
    requires p.PyDict? && TidyPy(p) && i < |p.items|
    ensures DistinctItemKeys(p.items) && TidyPy(p.items[i].val) && p.items[i].val < p
  {
    assert p.items[i] in p.items;
  }

  /** With distinct keys, the key at position n is not among the first n. */
  lemma {:induction false} NewKeyInPrefix(items: seq<PyItem>, n: nat)
    requires DistinctItemKeys(items) && n < |items|
    ensures !HasKey(items[..n], items[n].key)
  {
    assert forall i :: 0 <= i < n ==> items[..n][i] == items[i];
    NoKeyIn(items[..n], items[n].key);
  }

  lemma {:induction false} NoKeyIn(items: seq<PyItem>, k: string)
    requires forall i :: 0 <= i < |items| ==> items[i].key != k
    ensures !HasKey(items, k)
  {
    if items != [] {
      assert forall i :: 0 <= i < |items| - 1 ==> items[1..][i] == items[i + 1];
      NoKeyIn(items[1..], k);
    }
  }

  /** A key the dict does not have is at none of its places. */
  lemma {:induction false} KeyAbsent(items: seq<PyItem>, k: string)
    requires !HasKey(items, k)
    ensures forall i :: 0 <= i < |items| ==> items[i].key != k
  {
    if items != [] {
      KeyAbsent(items[1..], k);
      assert forall i :: 1 <= i < |items| ==> items[i] == items[1..][i - 1];
    }
  }

  /** Setting a key keeps a dict proper: keys stay distinct and every value
      stays proper. */
  lemma DictSetTidy(items: seq<PyItem>, k: string, v: PyValue)
    requires TidyPy(PyDict(items)) && TidyPy(v)
    ensures TidyPy(PyDict(DictSet(items, k, v)))
  {
    var r := DictSet(items, k, v);
    TidyValues(items);
    if HasKey(items, k) {
      var i := KeyIndex(items, k);
      assert r == items[i := PyItem(k, v)];
      assert forall j :: 0 <= j < |r| ==> r[j].key == items[j].key;
      assert forall j :: 0 <= j < |r| ==> r[j].val == items[j].val || r[j].val == v;
    } else {
      KeyAbsent(items, k);
      assert r == items + [PyItem(k, v)];
      assert forall j :: 0 <= j < |items| ==> r[j] == items[j];
    }
    TidyOfParts(r);
  }

  /** The values of a proper dict are proper. */
  lemma TidyValues(items: seq<PyItem>)
    requires TidyPy(PyDict(items))
    ensures DistinctItemKeys(items)
    ensures forall j :: 0 <= j < |items| ==> TidyPy(items[j].val)
  {
    forall j | 0 <= j < |items|
      ensures TidyPy(items[j].val)
    {
      TidyPyItem(PyDict(items), j);
    }
  }

  /** A dict with distinct keys and proper values is proper. */
  lemma TidyOfParts(items: seq<PyItem>)
    requires DistinctItemKeys(items)
    requires forall j :: 0 <= j < |items| ==> TidyPy(items[j].val)
    ensures TidyPy(PyDict(items))
  {
  }

  /** What serialize_JSObject builds is a proper dict at every level: no
      key occurs twice in any of its dicts. */
  lemma {:induction false} PlainTidy(v: JsValue)
    ensures TidyPy(Plain(v))
    decreases v, 1
  {
    match v
    case Leaf(_) =>
    case Obj(es) => PlainFoldTidy(v, |es|);
  }

  lemma {:induction false} PlainFoldTidy(v: JsValue, n: nat)
    requires v.Obj? && n <= |v.entries|
    ensures TidyPy(PlainFold(v, n))
    decreases v, 0, n
  {
    if n > 0 {
      var e := v.entries[n - 1];
      assert e in v.entries;
      PlainFoldTidy(v, n - 1);
      PlainTidy(e.val);
      DictSetTidy(PlainFold(v, n - 1).items, e.key, Plain(e.val));
    }
  }

  /** Folding the first m keys only looks at those keys. */
  lemma {:induction false} PlainFoldStable(u: JsValue, v: JsValue, m: nat)
    requires u.Obj? && v.Obj? && m <= |u.entries| && m <= |v.entries|
    requires u.entries[..m] == v.entries[..m]
    ensures PlainFold(u, m) == PlainFold(v, m)
  {
    if m > 0 {
      assert u.entries[..m - 1] == v.entries[..m - 1] by {
        assert u.entries[..m - 1] == u.entries[..m][..m - 1];
        assert v.entries[..m - 1] == v.entries[..m][..m - 1];
      }
      PlainFoldStable(u, v, m - 1);
      assert u.entries[m - 1] == u.entries[..m][m - 1];
      assert v.entries[m - 1] == v.entries[..m][m - 1];
    }
  }
}
