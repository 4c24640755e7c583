/** Java type names for data-structure nodes (lib/index.js, mapType to getClassNameFromDataStructureElement). */
module TypeNames {
  import opened Wrappers
  import opened JsText
  import opened Ast

  /** The fixed primitive table of mapType. */
  const PrimitiveTypes: map<string, string> := map[
    "number" := "Integer",
    "array" := "List",
    "int" := "int",
    "double" := "double",
    "boolean" := "boolean",
    "float" := "float"]

  /** `s` has a character outside `[a-zA-Z0-9\s]`. */
  predicate HasNonWordChar(s: string) {
    exists i :: 0 <= i < |s| && !IsWordChar(s[i])
  }

  predicate IsWordChar(c: char) {
    IsAsciiAlnum(c) || IsJsSpace(c)
  }

  /**
   * mapType: null and strings with a non-word character pass through; table
   * entries are translated; every other string is Pascal-cased.
   */
  function MapType(t: Option<string>, pascalCase: string -> string): Option<string> {
    match t
    case None => None
    case Some(s) =>
      if HasNonWordChar(s) then t
      else if s in PrimitiveTypes then Some(PrimitiveTypes[s])
      else Some(pascalCase(s))
  }

  /** Null stays null; a string is passed through, translated or Pascal-cased. */
  lemma MapTypeCases(t: Option<string>, pascalCase: string -> string)
    ensures MapType(t, pascalCase).None? <==> t.None?
    ensures t.Some? && HasNonWordChar(t.value) ==> MapType(t, pascalCase) == t
    ensures t.Some? && !HasNonWordChar(t.value) && t.value in PrimitiveTypes ==>
      MapType(t, pascalCase) == Some(PrimitiveTypes[t.value])
    ensures t.Some? && !HasNonWordChar(t.value) && t.value !in PrimitiveTypes ==>
      MapType(t, pascalCase) == Some(pascalCase(t.value))
  {
  }

  /** The table entries, and the pass-through of an already composed name. */
  lemma MapTypeTable(pascalCase: string -> string)
    ensures MapType(Some("number"), pascalCase) == Some("Integer")
    ensures MapType(Some("array"), pascalCase) == Some("List")
    ensures forall p :: p in ["int", "double", "boolean", "float"] ==> MapType(Some(p), pascalCase) == Some(p)
    ensures MapType(Some("List<Integer>"), pascalCase) == Some("List<Integer>")
  {
    assert !IsWordChar("List<Integer>"[4]);
  }

  /** nameOrLiteral: a falsy name gives null, a string itself, an object its `literal`. */
  function NameOrLiteral(n: NameRef): (r: Option<string>)
    ensures n.NoName? ==> r.None?
    ensures n.Text? ==> r == (if n.text == "" then None else Some(n.text))
    ensures n.Reference? ==> r == n.literal
  {
    match n
    case NoName => None
    case Text(s) => if s == "" then None else Some(s)
    case Reference(l) => l
  }

  /** stripPrefixedAt: drops one leading `@`, leaves anything else as it is. */
  function StripPrefixedAt(s: string): (r: string)
    ensures r == s || "@" + r == s
    ensures s != [] && s[0] == '@' ==> |r| == |s| - 1
  {
    if |s| == 0 || s[0] != '@' then s else s[1..]
  }

  /** Prefixing an `@` and stripping it again is the identity. */
  lemma StripPrefixedAtRoundTrip(s: string)
    ensures StripPrefixedAt("@" + s) == s
  {
  }

  // ------------------------------------------------------- generic naming

  /** The base name of a node: its element through the primitive table. */
  function BaseName(n: Node, pascalCase: string -> string): string {
    MapType(Some(n.element), pascalCase).value
  }

  /**
   * Children that make a node generic: anything but exactly one child whose
   * own content is neither null nor an array.
   */
  predicate IsGenericList(cs: seq<Node>) {
    |cs| != 1 || cs[0].content.Null? || cs[0].content.Children?
  }

  predicate IsGeneric(n: Node) {
    n.content.Children? && |n.content.nodes| > 0 && IsGenericList(n.content.nodes)
  }

  /** The arguments the loop of lib/index.js:91-93 appends: `count` copies of `arg`, comma-separated. */
  function ArgumentList(arg: string, count: nat): string {
    if count == 0 then ""
    else ArgumentList(arg, count - 1) + (if count - 1 > 0 then ", " else "") + arg
  }

  /** The debugging marker: exactly `Long<String>` gets `!!!` appended. */
  function Marked(name: string): string {
    if name == "Long<String>" then name + "!!!" else name
  }

  /**
   * getClassNameFromDataStructureElement. Every generic argument is the name of
   * the FIRST child, however many children there are.
   */
  function ClassNameOf(n: Node, pascalCase: string -> string): string {
    var base := BaseName(n, pascalCase);
    if IsGeneric(n) then
      var cs := n.content.nodes;
      Marked(base + "<" + ArgumentList(ClassNameOf(cs[0], pascalCase), |cs|) + ">")
    else
      Marked(base)
  }

  /** The marker leaves no name that is exactly `Long<String>`. */
  lemma NeverBareLongString(n: Node, pascalCase: string -> string)
    ensures ClassNameOf(n, pascalCase) != "Long<String>"
  {
  }

  function Repeat(x: string, count: nat): (r: seq<string>)
    ensures |r| == count && forall i :: 0 <= i < count ==> r[i] == x
  {
    seq(count, _ => x)
  }

  /** The argument loop joins `count` copies with `", "`. */
  lemma {:induction false} ArgumentListIsJoin(arg: string, count: nat)
    ensures ArgumentList(arg, count) == Join(Repeat(arg, count), ", ")
  {
    if count > 1 {
      ArgumentListIsJoin(arg, count - 1);
      assert Repeat(arg, count) == Repeat(arg, count - 1) + [arg];
      JoinSnoc(Repeat(arg, count - 1), arg, ", ");
    } else if count == 1 {
      assert Repeat(arg, 1) == [arg];
    }
  }

  /**
   * A generic node is named `Base<A, ..., A>` with one argument per child, each
   * argument the name of the first child.
   */
  lemma GenericNameShape(n: Node, pascalCase: string -> string)
    requires IsGeneric(n)
    ensures var cs := n.content.nodes;
      ClassNameOf(n, pascalCase) ==
        Marked(BaseName(n, pascalCase) + "<" + Join(Repeat(ClassNameOf(cs[0], pascalCase), |cs|), ", ") + ">")
  {
    ArgumentListIsJoin(ClassNameOf(n.content.nodes[0], pascalCase), |n.content.nodes|);
  }

  /**
   * A node without children, or with one child whose content is a scalar or a
   * key/value pair, gets no generic arguments; for a table element the name is
   * exactly the table entry.
   */
  lemma WrapperNameShape(n: Node, pascalCase: string -> string)
    requires !IsGeneric(n)
    ensures ClassNameOf(n, pascalCase) == Marked(BaseName(n, pascalCase))
    ensures n.element in PrimitiveTypes ==> ClassNameOf(n, pascalCase) == PrimitiveTypes[n.element]
  {
    if n.element in PrimitiveTypes {
      var e := n.element;
      assert !HasNonWordChar(e) by {
        assert e in PrimitiveTypes.Keys;
        assert e == "number" || e == "array" || e == "int" || e == "double" || e == "boolean" || e == "float";
      }
    }
  }

  /** Only the first child and the number of children enter a generic name. */
  lemma OnlyFirstChildNamed(n: Node, m: Node, pascalCase: string -> string)
    requires n.element == m.element && n.content.Children? && m.content.Children?
    requires |n.content.nodes| == |m.content.nodes| >= 2
    requires n.content.nodes[0] == m.content.nodes[0]
    ensures ClassNameOf(n, pascalCase) == ClassNameOf(m, pascalCase)
  {
  }

  /** A word-only string outside the table is Pascal-cased. */
  lemma PascalCasedName(t: string, pascalCase: string -> string)
    requires forall i :: 0 <= i < |t| ==> IsWordChar(t[i])
    requires t !in PrimitiveTypes
    ensures MapType(Some(t), pascalCase) == Some(pascalCase(t))
  {
  }

  /** `string` and `Long` are word-only names outside the table. */
  lemma PlainNames()
    ensures forall i :: 0 <= i < |"string"| ==> IsWordChar("string"[i])
    ensures forall i :: 0 <= i < |"Long"| ==> IsWordChar("Long"[i])
    ensures "string" !in PrimitiveTypes && "Long" !in PrimitiveTypes
  {
    assert "string"[0] == 's' && "Long"[0] == 'L';
  }

  /** A node named `string` with null content is named `String`. */
  lemma StringNodeName(pascalCase: string -> string)
    requires pascalCase("string") == "String"
    ensures ClassNameOf(Node("string", NoName, Meta("", ""), Null), pascalCase) == "String"
  {
    hide ClassNameOf, MapType;
    var inner := Node("string", NoName, Meta("", ""), Null);
    PlainNames();
    PascalCasedName("string", pascalCase);
    WrapperNameShape(inner, pascalCase);
    assert |"String"| != |"Long<String>"|;
  }

  /** The name of a generic node, one level unfolded. */
  lemma GenericName(n: Node, pascalCase: string -> string)
    requires IsGeneric(n)
    ensures ClassNameOf(n, pascalCase) ==
      Marked(BaseName(n, pascalCase) + "<" + ArgumentList(ClassNameOf(n.content.nodes[0], pascalCase), |n.content.nodes|) + ">")
  {
  }

  /** A `Long` holding one null-content `string` node is named `Long<String>!!!`. */
  lemma LongStringIsMarked(pascalCase: string -> string)
    requires pascalCase("Long") == "Long" && pascalCase("string") == "String"
    ensures ClassNameOf(Node("Long", NoName, Meta("", ""), Children([Node("string", NoName, Meta("", ""), Null)])), pascalCase)
      == "Long<String>!!!"
  {
    hide ClassNameOf, MapType, HasNonWordChar;
    var inner := Node("string", NoName, Meta("", ""), Null);
    var outer := Node("Long", NoName, Meta("", ""), Children([inner]));
    PlainNames();
    PascalCasedName("Long", pascalCase);
    StringNodeName(pascalCase);
    GenericName(outer, pascalCase);
    assert ArgumentList("String", 1) == "String";
    assert "Long" + "<" + "String" + ">" == "Long<String>";
  }
}
