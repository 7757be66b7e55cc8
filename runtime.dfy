/** The runtime values of src/eval/runtime.js and their `inspect` text.

    Every value class carries a fixed `type` name. The classes built on `EveObject` (Null,
    Boolean, Number, String, Return) keep a host value in `value` and share the base
    `inspect`, which is `value && value.toString()`: a truthy host value gives its text,
    a falsy one is returned itself. Array, Error, Hash and Function have their own
    `inspect`. */
module Runtime {
  import opened Strings
  import opened Numbers
  import opened Ast

  /** A host primitive: what a value object keeps in its `value` field. */
  datatype Host = HostNull | HostBool(b: bool) | HostNumber(n: Num) | HostString(s: string)

  /** Host truthiness. */
  predicate Truthy(h: Host)
    ensures h.HostString? ==> (Truthy(h) <==> h.s != "")
    ensures h.HostNull? ==> !Truthy(h)
  {
    match h
    case HostNull => false
    case HostBool(b) => b
    case HostNumber(n) => !IsFalsy(n)
    case HostString(s) => s != ""
  }

  /** The host's conversion of a primitive to text, as `String(h)` and `${h}` do it. */
  function HostText(h: Host): (r: string)
    ensures r == "" <==> h == HostString("")
  {
    match h
    case HostNull => "null"
    case HostBool(b) => if b then "true" else "false"
    case HostNumber(n) => NumberText(n)
    case HostString(s) => s
  }

  /** What `inspect` returns: a text, or the falsy host value the base `inspect` hands
      back unchanged. */
  datatype Shown = Text(text: string) | Falsy(value: Host)

  /** How `Array.prototype.join` writes an element: `null` becomes the empty text. */
  function JoinPart(s: Shown): (r: string)
    ensures s != Falsy(HostNull) ==> r == TemplatePart(s)
    ensures s == Falsy(HostNull) ==> r == ""
  {
    match s
    case Text(t) => t
    case Falsy(h) => if h == HostNull then "" else HostText(h)
  }

  /** How a template literal `${...}` writes a value: `null` becomes `null`. */
  function TemplatePart(s: Shown): (r: string)
    ensures r == "" <==> s == Text("") || s == Falsy(HostString(""))
  {
    match s
    case Text(t) => t
    case Falsy(h) => HostText(h)
  }

  /** The runtime values. A hash lists its entries in the order its keys are enumerated;
      a function keeps its parameter names and body (the environment it closes over is
      not part of this model). */
  datatype Value =
    | NullValue
    | BooleanValue(b: bool)
    | NumberValue(n: Num)
    | StringValue(s: string)
    | ReturnValue(wrapped: Value)
    | ArrayValue(elements: seq<Value>)
    | ErrorValue(message: string)
    | HashValue(entries: seq<(string, Value)>)
    | FunctionValue(params: seq<string>, body: Stmt)

  /** The `type` each constructor sets. */
  function TypeTag(v: Value): string {
    match v
    case NullValue => "Null"
    case BooleanValue(_) => "Boolean"
    case NumberValue(_) => "Number"
    case StringValue(_) => "String"
    case ReturnValue(_) => "Return"
    case ArrayValue(_) => "Array"
    case ErrorValue(_) => "Error"
    case HashValue(_) => "Hash"
    case FunctionValue(_, _) => "Function"
  }

  /** The values that keep a host primitive in `value` and use the base `inspect`. */
  predicate IsPrimitive(v: Value) {
    v.NullValue? || v.BooleanValue? || v.NumberValue? || v.StringValue?
  }

  /** The `value` field of a primitive value; Null's is always `null`. */
  function Primitive(v: Value): Host
    requires IsPrimitive(v)
  {
    match v
    case NullValue => HostNull
    case BooleanValue(b) => HostBool(b)
    case NumberValue(n) => HostNumber(n)
    case StringValue(s) => HostString(s)
  }

  /** `EveObject.inspect`: `value && value.toString()`. */
  function BaseInspect(h: Host): (r: Shown)
    ensures r.Text? ==> r.text != ""
    ensures r.Falsy? ==> r.value == h
    ensures TemplatePart(r) == HostText(h)
  {
    if Truthy(h) then Text(HostText(h)) else Falsy(h)
  }

  /** The text an object gets from the host's default `toString`. */
  const ObjectText: string := "[object Object]"

  function Inspect(v: Value): (r: Shown)
    ensures r.Falsy? ==> IsPrimitive(v) && r.value == Primitive(v) && !Truthy(r.value)
    ensures r.Text? ==> r.text != ""
    decreases v
  {
    match v
    case NullValue => BaseInspect(Primitive(v))
    case BooleanValue(_) => BaseInspect(Primitive(v))
    case NumberValue(_) => BaseInspect(Primitive(v))
    case StringValue(_) => BaseInspect(Primitive(v))
    // A Return keeps a value object in `value`; objects are truthy and print by default.
    case ReturnValue(_) => Text(ObjectText)
    case ArrayValue(elements) => Text("[" + Join(ElementTexts(v, elements), ",") + "]")
    case ErrorValue(message) => Text("ERROR: " + message)
    case HashValue(entries) => Text("{" + Join(EntryTexts(v, entries), ",") + "}")
    case FunctionValue(params, body) => Text("fn" + RenderParams(params) + " " + RenderStmt(body))
  }

  /** `elements.map(elem => elem.inspect())`, each written as `join` writes it. */
  function ElementTexts(v: Value, elements: seq<Value>): (r: seq<string>)
    requires v.ArrayValue? && v.elements == elements
    ensures |r| == |elements|
    decreases v, 0
  {
    seq(|elements|, k requires 0 <= k < |elements| => JoinPart(Inspect(elements[k])))
  }

  /** `key + ': ' + val.inspect()` for each entry. */
  function EntryTexts(v: Value, entries: seq<(string, Value)>): (r: seq<string>)
    requires v.HashValue? && v.entries == entries
    ensures |r| == |entries|
    decreases v, 0
  {
    seq(|entries|, k requires 0 <= k < |entries| => entries[k].0 + ": " + TemplatePart(Inspect(entries[k].1)))
  }

  // ---------------------------------------------------------------------------
  // Properties of inspect
  // ---------------------------------------------------------------------------

  /** Each type name belongs to exactly one kind of value. */
  lemma TypeTagIdentifies(v: Value)
    ensures TypeTag(v) == "Null" <==> v.NullValue?
    ensures TypeTag(v) == "Boolean" <==> v.BooleanValue?
    ensures TypeTag(v) == "Number" <==> v.NumberValue?
    ensures TypeTag(v) == "String" <==> v.StringValue?
    ensures TypeTag(v) == "Return" <==> v.ReturnValue?
    ensures TypeTag(v) == "Array" <==> v.ArrayValue?
    ensures TypeTag(v) == "Error" <==> v.ErrorValue?
    ensures TypeTag(v) == "Hash" <==> v.HashValue?
    ensures TypeTag(v) == "Function" <==> v.FunctionValue?
  {
  }

  /** Exactly `null`, `false`, the empty string, NaN and zero of either sign come back
      from `inspect` as themselves; every other primitive shows as its text, and written
      into a template every primitive reads as the host writes it. */
  lemma PrimitiveInspect(v: Value)
    requires IsPrimitive(v)
    ensures Inspect(v).Falsy? <==> || v == NullValue || v == BooleanValue(false) || v == StringValue("")
                                   || (v.NumberValue? && (v.n.NaN? || v.n.mantissa == 0))
    ensures TemplatePart(Inspect(v)) == HostText(Primitive(v))
  {
  }

  /** Null, `false`, zero and the empty string never show as text; a string always
      stands for itself wherever it is written. */
  lemma FalsyPrimitives(n: Num, s: string)
    ensures Inspect(NullValue) == Falsy(HostNull)
    ensures Inspect(BooleanValue(false)) == Falsy(HostBool(false))
    ensures IsFalsy(n) ==> Inspect(NumberValue(n)) == Falsy(HostNumber(n))
    ensures Inspect(StringValue("")) == Falsy(HostString(""))
    ensures JoinPart(Inspect(StringValue(s))) == s && TemplatePart(Inspect(StringValue(s))) == s
  {
  }

  /** The text of an array: its elements' texts joined by `,`. */
  function ArrayInner(elements: seq<Value>): string {
    Join(ElementTexts(ArrayValue(elements), elements), ",")
  }

  /** The text between the brackets of an array is its elements' texts separated by `,`:
      an empty array shows `[]`, and the inner text of two arrays put together is the two
      inner texts with a `,` between them. */
  lemma ArrayInspectSplits(xs: seq<Value>, ys: seq<Value>)
    requires xs != [] && ys != []
    ensures Inspect(ArrayValue([])) == Text("[]")
    ensures Inspect(ArrayValue(xs + ys)) == Text("[" + ArrayInner(xs) + "," + ArrayInner(ys) + "]")
  {
    ArrayInnerSplits(xs, ys);
  }

  lemma ArrayInnerSplits(xs: seq<Value>, ys: seq<Value>)
    requires xs != [] && ys != []
    ensures ArrayInner(xs + ys) == ArrayInner(xs) + "," + ArrayInner(ys)
  {
    ElementTextsAppend(xs, ys);
    JoinAppend(ElementTexts(ArrayValue(xs), xs), ElementTexts(ArrayValue(ys), ys), ",");
  }

  /** The element texts of two arrays put together are the two arrays' element texts. */
  lemma ElementTextsAppend(xs: seq<Value>, ys: seq<Value>)
    ensures ElementTexts(ArrayValue(xs + ys), xs + ys)
         == ElementTexts(ArrayValue(xs), xs) + ElementTexts(ArrayValue(ys), ys)
  {
    var a, b := ElementTexts(ArrayValue(xs), xs), ElementTexts(ArrayValue(ys), ys);
    forall k | 0 <= k < |xs + ys|
      ensures ElementTexts(ArrayValue(xs + ys), xs + ys)[k] == (a + b)[k]
    {
      if k < |xs| {
        assert (xs + ys)[k] == xs[k];
      } else {
        assert (xs + ys)[k] == ys[k - |xs|];
      }
    }
  }

  /** The text of a hash: its entries' texts joined by `,`. */
  function HashInner(entries: seq<(string, Value)>): string {
    Join(EntryTexts(HashValue(entries), entries), ",")
  }

  /** A hash of one entry shows its key, `: ` and its value as a template writes it. */
  lemma HashEntry(key: string, v: Value)
    ensures Inspect(HashValue([(key, v)])) == Text("{" + key + ": " + TemplatePart(Inspect(v)) + "}")
  {
    HashShows([(key, v)]);
    SingleEntry(key, v);
  }

  /** A hash shows its inner text between braces. */
  lemma HashShows(entries: seq<(string, Value)>)
    ensures Inspect(HashValue(entries)) == Text("{" + HashInner(entries) + "}")
  {
  }

  lemma SingleEntry(key: string, v: Value)
    ensures HashInner([(key, v)]) == key + ": " + TemplatePart(Inspect(v))
  {
    var texts := EntryTexts(HashValue([(key, v)]), [(key, v)]);
    assert texts == [texts[0]];
  }

  /** The text between the braces of a hash is its entries' texts separated by `,`: an
      empty hash shows `{}`, and the inner text of two entry lists put together is the two
      inner texts with a `,` between them. */
  lemma HashInspectSplits(xs: seq<(string, Value)>, ys: seq<(string, Value)>)
    requires xs != [] && ys != []
    ensures Inspect(HashValue([])) == Text("{}")
    ensures Inspect(HashValue(xs + ys)) == Text("{" + HashInner(xs) + "," + HashInner(ys) + "}")
  {
    HashShows([]);
    HashShows(xs + ys);
    HashInnerSplits(xs, ys);
    Braced(HashInner(xs + ys), HashInner(xs), HashInner(ys));
  }

  lemma Braced(whole: string, left: string, right: string)
    requires whole == left + "," + right
    ensures "{" + whole + "}" == "{" + left + "," + right + "}"
  {
  }

  lemma HashInnerSplits(xs: seq<(string, Value)>, ys: seq<(string, Value)>)
    requires xs != [] && ys != []
    ensures HashInner(xs + ys) == HashInner(xs) + "," + HashInner(ys)
  {
    EntryTextsAppend(xs, ys);
    JoinAppend(EntryTexts(HashValue(xs), xs), EntryTexts(HashValue(ys), ys), ",");
  }

  /** The entry texts of two entry lists put together are the two lists' entry texts. */
  lemma EntryTextsAppend(xs: seq<(string, Value)>, ys: seq<(string, Value)>)
    ensures EntryTexts(HashValue(xs + ys), xs + ys)
         == EntryTexts(HashValue(xs), xs) + EntryTexts(HashValue(ys), ys)
  {
    var a, b := EntryTexts(HashValue(xs), xs), EntryTexts(HashValue(ys), ys);
    forall k | 0 <= k < |xs + ys|
      ensures EntryTexts(HashValue(xs + ys), xs + ys)[k] == (a + b)[k]
    {
      if k < |xs| {
        assert (xs + ys)[k] == xs[k];
      } else {
        assert (xs + ys)[k] == ys[k - |xs|];
      }
    }
  }

  /** An array's text is two brackets, each element's text, and one `,` between
      neighbours. */
  lemma ArrayInspectLength(elements: seq<Value>)
    requires elements != []
    ensures |Inspect(ArrayValue(elements)).text|
         == 2 + TotalLength(ElementTexts(ArrayValue(elements), elements)) + |elements| - 1
  {
    JoinLength(ElementTexts(ArrayValue(elements), elements), ",");
  }

  /** `join` writes a `null` element as nothing, so `[null]` shows like `[]`, while a
      hash writes it as `null`. */
  lemma NullElements(key: string)
    ensures Inspect(ArrayValue([NullValue])) == Inspect(ArrayValue([]))
    ensures Inspect(HashValue([(key, NullValue)])) == Text("{" + key + ": null}")
  {
    assert ElementTexts(ArrayValue([NullValue]), [NullValue]) == [""];
    assert TemplatePart(Inspect(NullValue)) == "null";
    var entries := EntryTexts(HashValue([(key, NullValue)]), [(key, NullValue)]);
    assert entries[0] == key + ": null";
    assert entries == [key + ": null"];
  }

  /** An error shows its message after a fixed prefix, so the message can be read back and
      two errors show alike only when their messages agree. */
  lemma ErrorInspect(m: string, m': string)
    ensures |Inspect(ErrorValue(m)).text| == 7 + |m| && Inspect(ErrorValue(m)).text[7..] == m
    ensures Inspect(ErrorValue(m)) == Inspect(ErrorValue(m')) <==> m == m'
  {
    if Inspect(ErrorValue(m)) == Inspect(ErrorValue(m')) {
      assert Inspect(ErrorValue(m)).text[7..] == Inspect(ErrorValue(m')).text[7..];
    }
  }

  /** A function shows as the source text of the `fn` node with its parameters and body. */
  lemma FunctionInspect(params: seq<string>, body: Stmt)
    ensures Inspect(FunctionValue(params, body)) == Text(RenderFunction(FunctionNode(params, body)))
  {
  }
}
