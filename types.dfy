/**
 The values the type checker reads but does not compute: locations, parsed
 type tags ("complex types"), syntax-tree nodes and method pins. Each one
 keeps exactly the parts the checker looks at; how they are produced
 (parsing, qualification, probing, source mapping) is outside this model and
 enters as data.
 */
module Types {
  import opened Strings

  datatype Option<+T> = None | Some(value: T)

  /** A zero-indexed source range, as `Solargraph::Range`. */
  datatype Range = Range(startLine: nat, startColumn: nat, endLine: nat, endColumn: nat)

  /** A file name and a range, as `Solargraph::Location`. */
  datatype Location = Location(filename: string, range: Range)

  /**
   One atom of a type tag (a unique type): its bare `name`, its qualified
   `namespace`, its rendering `tag` (as `to_s` renders it) and its generic
   parameters. The checker only ever reads the rendered form of a generic
   parameter, so `subtypes`, `keyTypes` and `valueTypes` hold renderings.
   */
  datatype Atom = Atom(
    name: string,
    namespace: string,
    tag: string,
    subtypes: seq<string>,
    keyTypes: seq<string>,
    valueTypes: seq<string>)

  /**
   A complex type: a union of atoms in declaration order. Single-type
   queries (name, tag, subtypes, key and value types, undefined?, void?)
   answer for the first atom; `to_s` joins the tags of all atoms.
   */
  datatype ComplexType = ComplexType(atoms: seq<Atom>)
  {
    /** `to_s`: the tags of all atoms, separated by ", ". */
    function ToS(): string
    {
      Join(Tags(), ", ")
    }

    /** The tag of every atom, in order (`map(&:to_s)`). */
    function Tags(): (r: seq<string>)
      ensures |r| == |atoms|
      ensures forall i :: 0 <= i < |atoms| ==> r[i] == atoms[i].tag
    {
      seq(|atoms|, i requires 0 <= i < |atoms| => atoms[i].tag)
    }

    /** A type with no atoms, or whose first atom is `undefined`. */
    predicate Undefined()
    {
      |atoms| == 0 || atoms[0].name == "undefined"
    }

    /** A type whose first atom is `void`. */
    predicate Void()
    {
      |atoms| > 0 && atoms[0].name == "void"
    }

    function Name(): string
    {
      if |atoms| == 0 then "" else atoms[0].name
    }

    /** `tag`: the tag of the first atom. */
    function Tag(): string
    {
      if |atoms| == 0 then "" else atoms[0].tag
    }

    function Subtypes(): seq<string>
    {
      if |atoms| == 0 then [] else atoms[0].subtypes
    }

    function ValueTypes(): seq<string>
    {
      if |atoms| == 0 then [] else atoms[0].valueTypes
    }

    /** Some atom of this type has namespace `ns` (`map(&:namespace).include?`). */
    predicate HasNamespace(ns: string)
    {
      exists a :: a in atoms && a.namespace == ns
    }

    /** Some atom of this type renders as `t` (`map(&:to_s).include?`). */
    predicate HasTag(t: string)
    {
      exists a :: a in atoms && a.tag == t
    }
  }

  /**
   A `@param` documentation tag: its name (YARD leaves it nil when the tag
   names no parameter) and its declared type, already parsed and qualified
   against the method's namespace.
   */
  datatype ParamTag = ParamTag(name: Option<string>, qualified: ComplexType)

  /**
   A method-like pin as the checker sees it. `returnType` is the declared
   `@return` type as written; `typified` and `probed` are what the pin's
   `typify` and `probe` answer against the checker's API map.
   `parameters` are the parameter declarations as source text ("a",
   "b = 1", "*rest", "k:", "**opts"); `parameterNames` are the bare names.
   */
  datatype MethodPin = MethodPin(
    name: string,
    path: string,
    location: Option<Location>,
    parameters: seq<string>,
    parameterNames: seq<string>,
    paramTags: seq<ParamTag>,
    returnType: ComplexType,
    typified: ComplexType,
    probed: ComplexType,
    isAttribute: bool)

  /**
   A parameter pin: `closure` is the owning method when that owner is a
   `Pin::Method`, and `None` otherwise. `returnType` is the declared
   `@param` type as written and `typified` its resolution.
   */
  datatype ParameterPin = ParameterPin(
    name: string,
    location: Option<Location>,
    closure: Option<MethodPin>,
    returnType: ComplexType,
    typified: ComplexType)

  /**
   A syntax-tree node: its type (`send`, `hash`, `splat`, `pair`, ...), its
   children and its source range. A child is another node, a leaf value
   (a symbol, string or number) or nil.
   */
  datatype Node = Node(kind: string, children: seq<Child>, range: Range)

  datatype Child = Sub(node: Node) | Leaf(value: string) | Nil
  {
    predicate IsNode(kind: string)
    {
      Sub? && node.kind == kind
    }
  }
}
