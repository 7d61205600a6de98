/** The `enum.*` library functions.

    An enum value is a bare symbol string; it is interpreted against the
    resolved enum schema (the type bound to the wildcard `A`), whose ordered
    `symbols` list defines the symbol-to-index mapping, as in the Enums
    subsection under Complex Types of the Apache Avro specification. */
module Enum {
  import opened Signatures

  /** The resolved enum type handed to the body as its first parameter type. */
  datatype EnumSchema = EnumSchema(name: string, symbols: seq<string>)

  /** Outcome of an enum function. `NotInEnum` is the schema exception the source
      raises when the symbol is not in the enum; it carries no error code. */
  datatype Lookup<+T> = Found(value: T) | NotInEnum

  const ToStringFcn := LibFcn("enum.toString", Sig([Param("x", WildEnum("A"))], String), 19000)
  const ToIntFcn := LibFcn("enum.toInt", Sig([Param("x", WildEnum("A"))], Int), 19010)
  const NumSymbolsFcn := LibFcn("enum.numSymbols", Sig([Param("x", WildEnum("A"))], Int), 19020)

  /** Avro requires the symbols of an enum to be distinct. */
  predicate UniqueSymbols(s: seq<string>)
  {
    forall i, j :: 0 <= i < j < |s| ==> s[i] != s[j]
  }

  /** Python's `list.index`: the position of the first occurrence of `x`, or
      `None` where the list method raises `ValueError`. */
  function IndexOf(s: seq<string>, x: string): (r: Option<nat>)
    ensures r.Some? <==> x in s
    ensures r.Some? ==> r.value < |s| && s[r.value] == x
    ensures r.Some? ==> forall j :: 0 <= j < r.value ==> s[j] != x
  {
    if s == [] then None
    else if s[0] == x then Some(0)
    else match IndexOf(s[1..], x)
      case None => None
      case Some(i) => Some(i + 1)
  }

  /** `enum.toString`: the symbol itself, if it belongs to the enum. */
  function ToString(t: EnumSchema, x: string): (r: Lookup<string>)
    ensures r.Found? <==> x in t.symbols
    ensures r.Found? ==> r.value == x && r.value in t.symbols
  {
    if x in t.symbols then Found(x) else NotInEnum
  }

  /** `enum.toInt`: the index of the symbol in the enum's symbol order. */
  function ToInt(t: EnumSchema, x: string): (r: Lookup<int>)
    ensures r.Found? <==> x in t.symbols
    ensures r.Found? ==> 0 <= r.value < |t.symbols| && t.symbols[r.value] == x
    ensures r.Found? ==> forall j :: 0 <= j < r.value ==> t.symbols[j] != x
  {
    match IndexOf(t.symbols, x)
    case Some(i) => Found(i)
    case None => NotInEnum
  }

  /** `enum.numSymbols`: the size of the enum; the value `x` is not consulted. */
  function NumSymbols(t: EnumSchema, x: string): (r: int)
    ensures r == |t.symbols|
  {
    |t.symbols|
  }

  /** toString and toInt accept exactly the same symbols, and the index toInt
      gives names the symbol toString returns. */
  lemma ToIntNamesToString(t: EnumSchema, x: string)
    ensures ToString(t, x).Found? <==> ToInt(t, x).Found?
    ensures ToInt(t, x).Found? ==> t.symbols[ToInt(t, x).value] == ToString(t, x).value
  {
  }

  /** Every index toInt can produce is below numSymbols, whatever value is
      passed to numSymbols, and numSymbols never fails. */
  lemma ToIntBelowNumSymbols(t: EnumSchema, x: string, y: string)
    ensures NumSymbols(t, y) == NumSymbols(t, x) >= 0
    ensures ToInt(t, x).Found? ==> 0 <= ToInt(t, x).value < NumSymbols(t, y)
  {
  }

  /** With distinct symbols (as Avro requires), toInt is a bijection between the
      symbols and `0 .. numSymbols - 1`: each index is returned for exactly the
      symbol at that index. */
  lemma {:induction false} ToIntIsPosition(t: EnumSchema, x: string, i: int)
    requires UniqueSymbols(t.symbols)
    ensures ToInt(t, x) == Found(i) <==> 0 <= i < NumSymbols(t, x) && t.symbols[i] == x
  {
    if 0 <= i < |t.symbols| && t.symbols[i] == x {
      assert forall k :: 0 <= k < i ==> t.symbols[k] != x;
    }
  }

  /** The three enum functions each take one enum-wildcard parameter and own
      distinct error-code bases, 10 apart. */
  lemma EnumSignatures()
    ensures TakesOneEnum(ToStringFcn) && TakesOneEnum(ToIntFcn) && TakesOneEnum(NumSymbolsFcn)
    ensures ToIntFcn.errcodeBase == ToStringFcn.errcodeBase + 10
    ensures NumSymbolsFcn.errcodeBase == ToIntFcn.errcodeBase + 10
    ensures ToStringFcn.sig.ret == String && ToIntFcn.sig.ret == Int && NumSymbolsFcn.sig.ret == Int
  {
  }

  /** The three functions on the enum `Color` with symbols RED, GREEN, BLUE. */
  lemma ColorExample()
    ensures ToInt(EnumSchema("Color", ["RED", "GREEN", "BLUE"]), "GREEN") == Found(1)
    ensures ToInt(EnumSchema("Color", ["RED", "GREEN", "BLUE"]), "PURPLE") == NotInEnum
    ensures ToString(EnumSchema("Color", ["RED", "GREEN", "BLUE"]), "PURPLE") == NotInEnum
    ensures NumSymbols(EnumSchema("Color", ["RED", "GREEN", "BLUE"]), "PURPLE") == 3
  {
    var c := EnumSchema("Color", ["RED", "GREEN", "BLUE"]);
    assert c.symbols[0] != "GREEN";
    assert c.symbols[1] == "GREEN";
    assert "PURPLE" !in c.symbols by {
      assert c.symbols[0] != "PURPLE" && c.symbols[1] != "PURPLE" && c.symbols[2] != "PURPLE";
    }
  }
}
