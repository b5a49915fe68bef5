/**
 The type checker: given the pins and the syntax tree of one file and an API
 map to consult, it reports problems with the file's type annotations —
 undefined or unresolved `@return` and `@param` types, `@param` tags naming
 no parameter, declared return types that disagree with the probed ones, and
 call sites whose arguments disagree with the callee's documented parameters.
 */
module TypeChecker {
  import opened Strings
  import opened Types

  /** A problem found by the checker: where, what, and optionally a fix. */
  datatype Problem = Problem(location: Option<Location>, message: string, suggestion: Option<string>)

  /**
   What the checker asks of its API map and of the expression chains it
   builds. `superAndSub(a, b)` is `api_map.super_and_sub?(a, b)`,
   `bundled(f)` is `api_map.bundled?(f)`; for a call node, `define` and
   `words` answer for the chain of that node (its pins, and the words of its
   links), and `infer(call, e)` is the type inferred for argument expression
   `e` in the lexical context of `call`.
   */
  datatype ApiMap = ApiMap(
    superAndSub: (string, string) -> bool,
    bundled: string -> bool,
    define: Node -> seq<MethodPin>,
    infer: (Node, Child) -> ComplexType,
    words: Node -> seq<string>)

  /** A checker for one file. */
  datatype Checker = Checker(filename: string, api: ApiMap)

  /** How Ruby interpolates an optional name: nil renders as "". */
  function Render(name: Option<string>): string
  {
    match name
    case Some(s) => s
    case None => ""
  }

  // ---------------------------------------------------------------------
  // Parameter kinds
  // ---------------------------------------------------------------------

  datatype ArgKind = Arg | OptArg | RestArg | KwArg | KwOptArg | KwRestArg

  /** The character class `[a-z0-9_]`. */
  predicate KeyChar(ch: char)
  {
    ('a' <= ch <= 'z') || ('0' <= ch <= '9') || ch == '_'
  }

  /** Where Ruby's `^` matches: the start of the string or just after a newline. */
  predicate LineStart(s: string, p: int)
  {
    p == 0 || (0 < p <= |s| && s[p - 1] == '\n')
  }

  predicate AllKeyChars(s: string, p: int, q: int)
    requires 0 <= p <= q <= |s|
  {
    forall k :: p <= k < q ==> KeyChar(s[k])
  }

  /** `[a-z0-9_]*?:` matches `s[p..q+1]`. */
  predicate KeyColonAt(s: string, p: int, q: int)
  {
    0 <= p <= q < |s| && s[q] == ':' && AllKeyChars(s, p, q)
  }

  /** `s =~ /^[a-z0-9_]*?:/`: some line of `s` starts with key characters and a colon. */
  ghost predicate KwargPattern(s: string)
  {
    exists p, q :: LineStart(s, p) && KeyColonAt(s, p, q)
  }

  /** A left-to-right scan for `KwargPattern`; `inKey` says that every
      character since the last line start was a key character. */
  function KwargScan(s: string, i: nat, inKey: bool): bool
    decreases |s| - i
  {
    if i >= |s| then false
    else if inKey && s[i] == ':' then true
    else if inKey && KeyChar(s[i]) then KwargScan(s, i + 1, true)
    else if s[i] == '\n' then KwargScan(s, i + 1, true)
    else KwargScan(s, i + 1, false)
  }

  /** From position `i`, the scan finds exactly the matches that end at or after `i`. */
  lemma {:induction false} KwargScanFinds(s: string, i: nat, inKey: bool, p0: int)
    requires i <= |s|
    requires inKey ==> 0 <= p0 <= i && LineStart(s, p0) && AllKeyChars(s, p0, i)
    requires !inKey ==> forall p :: 0 <= p <= i && LineStart(s, p) ==> !AllKeyChars(s, p, i)
    ensures KwargScan(s, i, inKey) <==> exists p, q :: LineStart(s, p) && KeyColonAt(s, p, q) && i <= q
    decreases |s| - i
  {
    if i == |s| {
    } else if inKey && s[i] == ':' {
      assert KeyColonAt(s, p0, i);
    } else {
      // A match cannot end at `i` in any of the remaining cases.
      forall p, q | LineStart(s, p) && KeyColonAt(s, p, q) && i <= q
        ensures i + 1 <= q
      {
      }
      if inKey && KeyChar(s[i]) {
        KwargScanFinds(s, i + 1, true, p0);
      } else if s[i] == '\n' {
        KwargScanFinds(s, i + 1, true, i + 1);
      } else {
        forall p | 0 <= p <= i + 1 && LineStart(s, p)
          ensures !AllKeyChars(s, p, i + 1)
        {
          if p <= i {
            assert !KeyChar(s[i]) || !AllKeyChars(s, p, i);
          }
        }
        KwargScanFinds(s, i + 1, false, p0);
      }
    }
  }

  lemma KwargScanMatchesPattern(s: string)
    ensures KwargScan(s, 0, true) <==> KwargPattern(s)
  {
    KwargScanFinds(s, 0, true, 0);
  }

  /** `arg_type`: the kind of a parameter declaration, by the first rule that applies. */
  function ArgType(s: string): ArgKind
  {
    if StartsWith(s, "**") then KwRestArg
    else if StartsWith(s, "*") then RestArg
    else if '=' in s then OptArg
    else if EndsWith(s, ":") then KwOptArg
    else if KwargScan(s, 0, true) then KwArg
    else Arg
  }

  /**
   The rules of `arg_type`, each as an if-and-only-if: a `**` prefix, a `*`
   prefix, an `=` anywhere, a trailing `:`, a line starting with a keyword
   name and `:`, and otherwise a plain argument.
   */
  lemma ArgTypeRules(s: string)
    ensures ArgType(s) == KwRestArg <==> StartsWith(s, "**")
    ensures ArgType(s) == RestArg <==> StartsWith(s, "*") && !StartsWith(s, "**")
    ensures ArgType(s) == OptArg <==> !StartsWith(s, "*") && '=' in s
    ensures ArgType(s) == KwOptArg <==> !StartsWith(s, "*") && '=' !in s && EndsWith(s, ":")
    ensures ArgType(s) == KwArg <==> !StartsWith(s, "*") && '=' !in s && !EndsWith(s, ":") && KwargPattern(s)
    ensures ArgType(s) == Arg <==> !StartsWith(s, "*") && '=' !in s && !EndsWith(s, ":") && !KwargPattern(s)
  {
    KwargScanMatchesPattern(s);
    if StartsWith(s, "**") {
      assert s[..1] == s[..2][..1];
    }
  }

  // The kinds of the declarations in the Ruby method
  // `def m(a, b = 1, *r, k:, o: 2, **kw, &blk)`, one lemma each.

  /** Without a colon from `i` on, the scan finds no keyword. */
  lemma {:induction false} NoColonNoKeyword(s: string, i: nat, inKey: bool)
    requires forall k :: i <= k < |s| ==> s[k] != ':'
    ensures !KwargScan(s, i, inKey)
    decreases |s| - i
  {
    if i < |s| {
      NoColonNoKeyword(s, i + 1, true);
      NoColonNoKeyword(s, i + 1, false);
    }
  }

  /** A declaration with no `*` prefix, no `=` and no `:` is a plain
      argument: a bare name such as `a`, and a block parameter such as `&blk`. */
  lemma UnmarkedIsPlain(s: string)
    requires !StartsWith(s, "*") && '=' !in s && ':' !in s
    ensures ArgType(s) == Arg
  {
    NoColonNoKeyword(s, 0, true);
    if |s| > 0 {
      assert s[|s| - 1..][0] == s[|s| - 1];
    }
    if |s| >= 2 {
      assert s[..2][..1] == s[..1];
    }
  }

  lemma PlainArgExample()
    ensures ArgType("a") == Arg
  {
    assert "a" == ['a'];
    assert "a"[..1] != "*" by { assert "a"[..1][0] == 'a'; }
    UnmarkedIsPlain("a");
  }

  lemma BlockArgExample()
    ensures ArgType("&blk") == Arg
  {
    var s := "&blk";
    assert s == ['&', 'b', 'l', 'k'];
    assert s[..1] != "*" by { assert s[..1][0] == '&'; }
    UnmarkedIsPlain(s);
  }

  lemma OptArgExample()
    ensures ArgType("b = 1") == OptArg
  {
    assert !StartsWith("b = 1", "*") by { assert "b = 1"[0] != '*'; }
    assert '=' in "b = 1" by { assert "b = 1"[2] == '='; }
  }

  lemma RestArgExample()
    ensures ArgType("*r") == RestArg
  {
    assert StartsWith("*r", "*") && !StartsWith("*r", "**") by {
      assert "*r"[..1] == "*";
      assert "*r"[1] != '*';
    }
  }

  /** A trailing colon is read as `kwoptarg`, although Ruby calls `k:` a
      required keyword. */
  lemma KwOptArgExample()
    ensures ArgType("k:") == KwOptArg
  {
    assert !StartsWith("k:", "*") by { assert "k:"[0] != '*'; }
    assert EndsWith("k:", ":") by { assert "k:"[1..] == ":"; }
  }

  /** A key followed by a default is read as `kwarg`, although Ruby calls
      `o: 2` an optional keyword. */
  lemma KwArgExample()
    ensures ArgType("o: 2") == KwArg
  {
    assert !StartsWith("o: 2", "*") by { assert "o: 2"[0] != '*'; }
    assert !EndsWith("o: 2", ":") by { assert "o: 2"[3] != ':'; }
    assert KwargScan("o: 2", 0, true);
  }

  lemma KwRestArgExample()
    ensures ArgType("**kw") == KwRestArg
  {
    assert StartsWith("**kw", "**") by { assert "**kw"[..2] == "**"; }
  }

  /** The kinds of the parameters of `def m(a, b = 1, *r, k:, o: 2, **kw, &blk)`. */
  lemma ArgTypeExamples()
    ensures ArgType("a") == Arg && ArgType("b = 1") == OptArg && ArgType("*r") == RestArg
    ensures ArgType("k:") == KwOptArg && ArgType("o: 2") == KwArg && ArgType("**kw") == KwRestArg
    ensures ArgType("&blk") == Arg
  {
    PlainArgExample();
    OptArgExample();
    RestArgExample();
    KwOptArgExample();
    KwArgExample();
    KwRestArgExample();
    BlockArgExample();
  }

  /** The kind of every parameter, in order. */
  function ParameterKinds(parameters: seq<string>): (kinds: seq<ArgKind>)
  {
    seq(|parameters|, i requires 0 <= i < |parameters| => ArgType(parameters[i]))
  }

  /** `arg_types`: the kind of each of the pin's parameters; none for a nil pin. */
  method ArgTypes(pin: Option<MethodPin>) returns (kinds: seq<ArgKind>)
    ensures pin.None? ==> kinds == []
    ensures pin.Some? ==> |kinds| == |pin.value.parameters|
    ensures pin.Some? ==> forall i :: 0 <= i < |kinds| ==> kinds[i] == ArgType(pin.value.parameters[i])
  {
    kinds := [];
    if pin.None? {
      return;
    }
    var parameters := pin.value.parameters;
    var index := 0;
    while index < |parameters|
      invariant 0 <= index <= |parameters|
      invariant |kinds| == index
      invariant forall i :: 0 <= i < index ==> kinds[i] == ArgType(parameters[i])
    {
      kinds := kinds + [ArgType(parameters[index])];
      index := index + 1;
    }
  }

  // ---------------------------------------------------------------------
  // Arity
  // ---------------------------------------------------------------------

  /** A nil argument list counts as empty. */
  function ArgsOrEmpty<A>(args: Option<seq<A>>): seq<A>
  {
    match args
    case Some(a) => a
    case None => []
  }

  /** The pin accepts the arguments: both lists empty, equal lengths, or a
      parameter declared with a leading `*`. */
  predicate Fits<A>(pin: MethodPin, args: seq<A>)
  {
    || (|pin.parameters| == 0 && |args| == 0)
    || |pin.parameters| == |args|
    || exists par :: par in pin.parameters && StartsWith(par, "*")
  }

  /** `check_arity`: the first pin, in list order, that fits the arguments. */
  function CheckArity<A>(pins: seq<MethodPin>, args: Option<seq<A>>): (r: Option<MethodPin>)
    ensures r.None? <==> forall i :: 0 <= i < |pins| ==> !Fits(pins[i], ArgsOrEmpty(args))
    ensures r.Some? ==> exists i :: 0 <= i < |pins| && pins[i] == r.value && Fits(pins[i], ArgsOrEmpty(args)) &&
                                    forall j :: 0 <= j < i ==> !Fits(pins[j], ArgsOrEmpty(args))
    decreases |pins|
  {
    if |pins| == 0 then None
    else if Fits(pins[0], ArgsOrEmpty(args)) then Some(pins[0])
    else
      var r := CheckArity(pins[1..], args);
      assert forall i :: 0 <= i < |pins| - 1 ==> pins[1..][i] == pins[i + 1];
      assert r.Some? ==> exists i :: 1 <= i < |pins| && pins[i] == r.value && Fits(pins[i], ArgsOrEmpty(args)) &&
                                     forall j :: 1 <= j < i ==> !Fits(pins[j], ArgsOrEmpty(args));
      r
  }

  // ---------------------------------------------------------------------
  // Report gating
  // ---------------------------------------------------------------------

  /** `report_location?`: problems about a pin are worth reporting when it is
      declared in the checked file or in the bundled catalogue. */
  function ReportLocation(c: Checker, location: Option<Location>): (report: bool)
    ensures location.None? ==> !report
    ensures location.Some? ==>
      (report <==> location.value.filename == c.filename || c.api.bundled(location.value.filename))
  {
    location.Some? && (c.filename == location.value.filename || c.api.bundled(location.value.filename))
  }

  // ---------------------------------------------------------------------
  // @param tags
  // ---------------------------------------------------------------------

  /** A tag name is known when it is one of the parameter names (nil never is). */
  predicate Known(name: Option<string>, parameterNames: seq<string>)
  {
    name.Some? && name.value in parameterNames
  }

  function UnknownParamProblem(pin: MethodPin, name: Option<string>): Problem
  {
    Problem(pin.location, pin.name + " has unknown @param " + Render(name), None)
  }

  /** The problems for the given `@param` tags of `pin`: one per tag that names
      no parameter, in tag order. */
  function ParamTagProblems(pin: MethodPin, tags: seq<ParamTag>): (problems: seq<Problem>)
    ensures |problems| <= |tags|
    decreases |tags|
  {
    if |tags| == 0 then []
    else
      var rest := ParamTagProblems(pin, tags[..|tags| - 1]);
      var last := tags[|tags| - 1];
      if Known(last.name, pin.parameterNames) then rest
      else rest + [UnknownParamProblem(pin, last.name)]
  }

  /** No problems exactly when every tag names a parameter. */
  lemma {:induction false} ParamTagProblemsEmpty(pin: MethodPin, tags: seq<ParamTag>)
    ensures ParamTagProblems(pin, tags) == [] <==> forall i :: 0 <= i < |tags| ==> Known(tags[i].name, pin.parameterNames)
    decreases |tags|
  {
    if |tags| > 0 {
      var init := tags[..|tags| - 1];
      ParamTagProblemsEmpty(pin, init);
      assert forall i :: 0 <= i < |init| ==> init[i] == tags[i];
    }
  }

  /** Every tag that names no parameter is reported. */
  lemma {:induction false} UnknownTagReported(pin: MethodPin, tags: seq<ParamTag>, i: nat)
    requires i < |tags| && !Known(tags[i].name, pin.parameterNames)
    ensures UnknownParamProblem(pin, tags[i].name) in ParamTagProblems(pin, tags)
    decreases |tags|
  {
    var init := tags[..|tags| - 1];
    if i < |init| {
      assert init[i] == tags[i];
      UnknownTagReported(pin, init, i);
    }
  }

  /** Every problem is the one of a tag that names no parameter. */
  lemma {:induction false} ParamTagProblemSource(pin: MethodPin, tags: seq<ParamTag>, p: Problem)
    requires p in ParamTagProblems(pin, tags)
    ensures exists i :: 0 <= i < |tags| && !Known(tags[i].name, pin.parameterNames) &&
                        p == UnknownParamProblem(pin, tags[i].name)
    decreases |tags|
  {
    var init := tags[..|tags| - 1];
    var last := tags[|tags| - 1];
    if p in ParamTagProblems(pin, init) {
      ParamTagProblemSource(pin, init, p);
      var i :| 0 <= i < |init| && !Known(init[i].name, pin.parameterNames) && p == UnknownParamProblem(pin, init[i].name);
      assert init[i] == tags[i];
    } else {
      assert p == UnknownParamProblem(pin, tags[|tags| - 1].name);
    }
  }

  /** `check_param_tags`. */
  method CheckParamTags(pin: MethodPin) returns (problems: seq<Problem>)
    ensures problems == ParamTagProblems(pin, pin.paramTags)
  {
    problems := [];
    var tags := pin.paramTags;
    var index := 0;
    while index < |tags|
      invariant 0 <= index <= |tags|
      invariant problems == ParamTagProblems(pin, tags[..index])
    {
      assert tags[..index + 1][..index] == tags[..index];
      if !Known(tags[index].name, pin.parameterNames) {
        problems := problems + [UnknownParamProblem(pin, tags[index].name)];
      }
      index := index + 1;
    }
    assert tags[..index] == tags;
  }

  /** The declared type of every `@param` tag, keyed by tag name; a later tag
      with the same name replaces an earlier one. */
  function ParamTable(tags: seq<ParamTag>): (table: map<Option<string>, ComplexType>)
    ensures |table| <= |tags|
    decreases |tags|
  {
    if |tags| == 0 then map[]
    else
      var earlier := ParamTable(tags[..|tags| - 1]);
      var last := tags[|tags| - 1];
      var table := earlier[last.name := last.qualified];
      assert table.Keys == earlier.Keys + {last.name};
      table
  }

  /** The keys of the table are exactly the tag names. */
  lemma {:induction false} ParamTableKeys(tags: seq<ParamTag>, n: Option<string>)
    ensures n in ParamTable(tags) <==> exists i :: 0 <= i < |tags| && tags[i].name == n
    decreases |tags|
  {
    if |tags| > 0 {
      var init := tags[..|tags| - 1];
      ParamTableKeys(init, n);
      assert forall i :: 0 <= i < |init| ==> init[i] == tags[i];
    }
  }

  /** A name maps to the type of the last tag with that name. */
  lemma {:induction false} ParamTableLastWins(tags: seq<ParamTag>, i: nat)
    requires i < |tags|
    requires forall j :: i < j < |tags| ==> tags[j].name != tags[i].name
    ensures tags[i].name in ParamTable(tags) && ParamTable(tags)[tags[i].name] == tags[i].qualified
    decreases |tags|
  {
    var init := tags[..|tags| - 1];
    if i < |init| {
      assert init[i] == tags[i];
      forall j | i < j < |init| ensures init[j].name != init[i].name {
        assert init[j] == tags[j];
      }
      ParamTableLastWins(init, i);
    }
  }

  /** `param_tags_from`: the pin's `@param` types by name; empty for a nil pin. */
  method ParamTagsFrom(pin: Option<MethodPin>) returns (table: map<Option<string>, ComplexType>)
    ensures pin.None? ==> table == map[]
    ensures pin.Some? ==> table == ParamTable(pin.value.paramTags)
  {
    table := map[];
    if pin.None? {
      return;
    }
    var tags := pin.value.paramTags;
    var index := 0;
    while index < |tags|
      invariant 0 <= index <= |tags|
      invariant table == ParamTable(tags[..index])
    {
      assert tags[..index + 1][..index] == tags[..index];
      table := table[tags[index].name := tags[index].qualified];
      index := index + 1;
    }
    assert tags[..index] == tags;
  }

  // ---------------------------------------------------------------------
  // @return types
  // ---------------------------------------------------------------------

  /** `check_return_type`: one problem when the pin's return type does not
      resolve — with the probed type as suggestion when none was declared. */
  function CheckReturnType(pin: MethodPin): (problems: seq<Problem>)
    ensures problems == [] <==> !pin.typified.Undefined()
    ensures |problems| <= 1
    ensures problems != [] ==> problems[0].location == pin.location
    ensures problems != [] && pin.returnType.Undefined() ==> problems[0].suggestion == Some(pin.probed.ToS())
    ensures problems != [] && !pin.returnType.Undefined() ==> problems[0].suggestion.None?
  {
    if pin.typified.Undefined() then
      if pin.returnType.Undefined() then
        [Problem(pin.location, pin.name + " has undefined @return type", Some(pin.probed.ToS()))]
      else
        [Problem(pin.location, pin.name + " has unresolved @return type " + pin.returnType.ToS(), None)]
    else []
  }

  /** Some declared generic parameter is a supertype of some probed one. */
  predicate Related(c: Checker, declared: seq<string>, probed: seq<string>)
  {
    exists d, p :: d in declared && p in probed && c.api.superAndSub(d, p)
  }

  /**
   The comparison of one probed atom `pt` with one declared atom `tt` of the
   declared type `tagged`; false exactly where the source clears `all`.
   */
  predicate AtomsAgree(c: Checker, tagged: ComplexType, pt: Atom, tt: Atom)
  {
    if pt.name == tt.name && !c.api.superAndSub(tt.namespace, pt.namespace) && !tagged.HasNamespace(pt.namespace) then
      false
    else if pt.name == tt.name && pt.name in ["Array", "Class", "Module"] then
      Related(c, tt.subtypes, pt.subtypes)
    else if pt.name == tt.name && pt.name == "Hash" then
      var keysDisagree := !(|tt.keyTypes| == 0 && |pt.keyTypes| != 0) && !Related(c, tt.keyTypes, pt.keyTypes);
      var valuesDisagree := !(|tt.valueTypes| == 0 && |pt.valueTypes| != 0) && !Related(c, tt.valueTypes, pt.valueTypes);
      !(keysDisagree && valuesDisagree)
    else if pt.name != tt.name && !c.api.superAndSub(tt.tag, pt.tag) && !tagged.HasTag(pt.tag) then
      false
    else
      true
  }

  /** Every probed atom agrees with every declared atom. */
  predicate AllAgree(c: Checker, tagged: ComplexType, probed: ComplexType)
  {
    forall i, j :: 0 <= i < |probed.atoms| && 0 <= j < |tagged.atoms| ==>
      AtomsAgree(c, tagged, probed.atoms[i], tagged.atoms[j])
  }

  /** The cases `confirm_return_type` leaves alone before comparing atoms. */
  predicate NothingToConfirm(pin: MethodPin)
  {
    || pin.typified.Void() || pin.typified.Undefined() || pin.isAttribute
    || pin.probed.Undefined()
    || pin.typified.ToS() == pin.probed.ToS()
  }

  /** An empty `Array` or an empty-valued `Hash` was probed where one was declared. */
  predicate EmptyContainer(tagged: ComplexType, probed: ComplexType)
  {
    || (probed.Name() == "Array" && |probed.Subtypes()| == 0 && tagged.Name() == "Array")
    || (probed.Name() == "Hash" && |probed.ValueTypes()| == 0 && tagged.Name() == "Hash")
  }

  function MismatchProblem(pin: MethodPin): Problem
  {
    Problem(pin.location,
            "@return type `" + pin.typified.ToS() + "` does not match inferred type `" + pin.probed.ToS() + "`",
            Some(pin.probed.ToS()))
  }

  /** What `confirm_return_type` reports for `pin`. */
  function ConfirmedReturnType(c: Checker, pin: MethodPin): (problems: seq<Problem>)
    ensures |problems| <= 1
    ensures problems != [] ==> !NothingToConfirm(pin) && problems == [MismatchProblem(pin)]
    ensures problems != [] ==> problems[0].suggestion == Some(pin.probed.ToS())
  {
    if NothingToConfirm(pin) || EmptyContainer(pin.typified, pin.probed) || AllAgree(c, pin.typified, pin.probed) then []
    else [MismatchProblem(pin)]
  }

  /** `confirm_return_type`: compares every probed atom with every declared one. */
  method ConfirmReturnType(c: Checker, pin: MethodPin) returns (problems: seq<Problem>)
    ensures pin.typified.Void() || pin.typified.Undefined() || pin.isAttribute ==> problems == []
    ensures pin.probed.Undefined() ==> problems == []
    ensures pin.typified.ToS() == pin.probed.ToS() ==> problems == []
    ensures EmptyContainer(pin.typified, pin.probed) ==> problems == []
    ensures problems == ConfirmedReturnType(c, pin)
  {
    var tagged := pin.typified;
    if tagged.Void() || tagged.Undefined() || pin.isAttribute {
      return [];
    }
    var probed := pin.probed;
    if probed.Undefined() {
      return [];
    }
    if tagged.ToS() != probed.ToS() {
      if probed.Name() == "Array" && |probed.Subtypes()| == 0 {
        if tagged.Name() == "Array" {
          return [];
        }
      }
      if probed.Name() == "Hash" && |probed.ValueTypes()| == 0 {
        if tagged.Name() == "Hash" {
          return [];
        }
      }
      var all := true;
      var i := 0;
      while i < |probed.atoms|
        invariant 0 <= i <= |probed.atoms|
        invariant all <==> forall a, b :: 0 <= a < i && 0 <= b < |tagged.atoms| ==>
                             AtomsAgree(c, tagged, probed.atoms[a], tagged.atoms[b])
      {
        var j := 0;
        while j < |tagged.atoms|
          invariant 0 <= j <= |tagged.atoms|
          invariant all <==> (forall a, b :: 0 <= a < i && 0 <= b < |tagged.atoms| ==>
                                AtomsAgree(c, tagged, probed.atoms[a], tagged.atoms[b]))
                             && (forall b :: 0 <= b < j ==> AtomsAgree(c, tagged, probed.atoms[i], tagged.atoms[b]))
        {
          if !AtomsAgree(c, tagged, probed.atoms[i], tagged.atoms[j]) {
            all := false;
            break;
          }
          j := j + 1;
        }
        i := i + 1;
      }
      if all {
        return [];
      }
      return [MismatchProblem(pin)];
    }
    return [];
  }

  /** A declared type whose atoms include every probed atom (none of them a
      generic container) is confirmed: a narrower union is accepted. */
  lemma NarrowerUnionConfirmed(c: Checker, pin: MethodPin)
    requires forall i :: 0 <= i < |pin.probed.atoms| ==>
               pin.probed.atoms[i] in pin.typified.atoms &&
               pin.probed.atoms[i].name !in ["Array", "Class", "Module", "Hash"]
    ensures ConfirmedReturnType(c, pin) == []
  {
    forall i, j | 0 <= i < |pin.probed.atoms| && 0 <= j < |pin.typified.atoms|
      ensures AtomsAgree(c, pin.typified, pin.probed.atoms[i], pin.typified.atoms[j])
    {
      var pt := pin.probed.atoms[i];
      assert pin.typified.HasNamespace(pt.namespace);
      assert pin.typified.HasTag(pt.tag);
    }
  }

  /** A probed atom whose name differs from some declared atom's, that no
      declared atom renders like and that is not below that declared atom,
      fails the confirmation with the probed type as suggestion. */
  lemma ForeignAtomRejected(c: Checker, pin: MethodPin, i: nat, j: nat)
    requires !NothingToConfirm(pin) && !EmptyContainer(pin.typified, pin.probed)
    requires i < |pin.probed.atoms| && j < |pin.typified.atoms|
    requires pin.probed.atoms[i].name != pin.typified.atoms[j].name
    requires !c.api.superAndSub(pin.typified.atoms[j].tag, pin.probed.atoms[i].tag)
    requires forall a :: a in pin.typified.atoms ==> a.tag != pin.probed.atoms[i].tag
    ensures ConfirmedReturnType(c, pin) == [MismatchProblem(pin)]
    ensures ConfirmedReturnType(c, pin)[0].suggestion == Some(pin.probed.ToS())
  {
    assert !AtomsAgree(c, pin.typified, pin.probed.atoms[i], pin.typified.atoms[j]);
  }

  /** The `Hash` atom that probing a hash literal gives. */
  const HashLiteral: Atom := Atom("Hash", "Hash", "Hash", [], [], [])

  /** A method returning a hash literal and declared `@return [Hash]` (with or
      without generic parameters) is confirmed. */
  lemma HashLiteralConfirmsHash(c: Checker, pin: MethodPin)
    requires pin.probed == ComplexType([HashLiteral])
    requires pin.typified.Name() == "Hash"
    ensures ConfirmedReturnType(c, pin) == []
  {
  }

  /** The same method declared `@return [String]` gets exactly one mismatch,
      suggesting "Hash", unless the API map places Hash below String. */
  lemma HashLiteralRejectsString(c: Checker, pin: MethodPin)
    requires pin.probed == ComplexType([HashLiteral])
    requires pin.typified == ComplexType([Atom("String", "String", "String", [], [], [])])
    requires !pin.isAttribute
    requires !c.api.superAndSub("String", "Hash")
    ensures |ConfirmedReturnType(c, pin)| == 1
    ensures ConfirmedReturnType(c, pin)[0].suggestion == Some("Hash")
  {
    assert pin.typified.ToS() == "String";
    assert pin.probed.ToS() == "Hash";
    ForeignAtomRejected(c, pin, 0, 0);
  }

  // ---------------------------------------------------------------------
  // Call-site arguments (check_send_args)
  // ---------------------------------------------------------------------

  /** A resolved call: the `send` node, the first pin its chain defines, that
      pin's parameter kinds and its table of `@param` types. */
  datatype CallSite = CallSite(
    checker: Checker,
    node: Node,
    pin: MethodPin,
    ptypes: seq<ArgKind>,
    params: map<Option<string>, ComplexType>)

  /** Where call-site problems are reported: the call node in the checked file. */
  function NodeLocation(c: Checker, node: Node): Option<Location>
  {
    Some(Location(c.filename, node.range))
  }

  /** `pin.parameter_names[index]`, nil past the end. */
  function NameAt(cs: CallSite, index: nat): Option<string>
  {
    if index < |cs.pin.parameterNames| then Some(cs.pin.parameterNames[index]) else None
  }

  /** `params[pin.parameter_names[index]]`: the documented type of the
      parameter at the argument's own position. */
  function ParamTypeAt(cs: CallSite, index: nat): Option<ComplexType>
  {
    var key := NameAt(cs, index);
    if key in cs.params then Some(cs.params[key]) else None
  }

  function Report(cs: CallSite): bool
  {
    ReportLocation(cs.checker, cs.pin.location)
  }

  function UnresolvedProblem(c: Checker, node: Node): Problem
  {
    Problem(NodeLocation(c, node), "Unresolved method signature " + Join(c.api.words(node), "."), None)
  }

  function NotEnoughProblem(cs: CallSite): Problem
  {
    Problem(NodeLocation(cs.checker, cs.node), "Not enough arguments send to " + cs.pin.path, None)
  }

  function NoParamTypeProblem(cs: CallSite, index: nat): Problem
  {
    Problem(NodeLocation(cs.checker, cs.node),
            "No @param type for " + Render(NameAt(cs, index)) + " in " + cs.pin.path, None)
  }

  function WrongTypeProblem(cs: CallSite, index: nat, expected: ComplexType, received: ComplexType): Problem
  {
    Problem(NodeLocation(cs.checker, cs.node), "Wrong parameter type for " + WrongTypeDetail(cs, index, expected, received), None)
  }

  /** What follows the prefix of a wrong-type message: callee, parameter, both tags. */
  function WrongTypeDetail(cs: CallSite, index: nat, expected: ComplexType, received: ComplexType): string
  {
    cs.pin.path + ": " + Render(NameAt(cs, index)) + " expected " + expected.Tag() + ", received " + received.Tag()
  }

  function SplatProblem(cs: CallSite, index: nat): Problem
  {
    Problem(NodeLocation(cs.checker, cs.node),
            "Can't handle splat in " + Render(NameAt(cs, index)) + " " + cs.pin.path, None)
  }

  /** Compare the type inferred for `value` with the documented `expected` one by tag. */
  function TypeProblems(cs: CallSite, index: nat, expected: ComplexType, value: Child): seq<Problem>
  {
    var received := cs.checker.api.infer(cs.node, value);
    if received.Tag() != expected.Tag() then [WrongTypeProblem(cs, index, expected, received)] else []
  }

  /** The value expression of a hash pair (`pair.children[1]`). */
  function PairValue(pair: Child): Child
  {
    if pair.Sub? && |pair.node.children| >= 2 then pair.node.children[1] else Nil
  }

  /** One pair of a hash argument at position `index`. */
  function PairProblems(cs: CallSite, index: nat, pair: Child): seq<Problem>
  {
    match ParamTypeAt(cs, index)
    case None => if Report(cs) && KwRestArg !in cs.ptypes then [NoParamTypeProblem(cs, index)] else []
    case Some(expected) => TypeProblems(cs, index, expected, PairValue(pair))
  }

  /** All pairs of a hash argument at position `index`, in order. */
  function HashProblems(cs: CallSite, index: nat, pairs: seq<Child>): seq<Problem>
    decreases |pairs|
  {
    if |pairs| == 0 then []
    else HashProblems(cs, index, pairs[..|pairs| - 1]) + PairProblems(cs, index, pairs[|pairs| - 1])
  }

  /** A positional argument at position `index`. */
  function PositionalProblems(cs: CallSite, index: nat, arg: Child): seq<Problem>
  {
    match ParamTypeAt(cs, index)
    case None => if Report(cs) then [NoParamTypeProblem(cs, index)] else []
    case Some(expected) => TypeProblems(cs, index, expected, arg)
  }

  /** The problems of the argument at position `index`. */
  function ArgProblems(cs: CallSite, index: nat, arg: Child): seq<Problem>
  {
    if arg.IsNode("hash") then HashProblems(cs, index, arg.node.children)
    else if arg.IsNode("splat") then [SplatProblem(cs, index)]
    else PositionalProblems(cs, index, arg)
  }

  /** `ptypes[cursor]`, nil past the end. */
  function KindAt(ptypes: seq<ArgKind>, cursor: nat): Option<ArgKind>
  {
    if cursor < |ptypes| then Some(ptypes[cursor]) else None
  }

  /** The kind for the next argument: re-read from `ptypes[cursor]` while the
      current one is nil or a plain argument, kept otherwise. */
  function NextKind(ptypes: seq<ArgKind>, cursor: nat, curtype: Option<ArgKind>): Option<ArgKind>
  {
    if curtype.None? || curtype == Some(Arg) then KindAt(ptypes, cursor) else curtype
  }

  /**
   The walk over the arguments from position `index`, with the loop state
   `cursor` and `curtype`, for any check `check` of one argument: the current
   kind is re-read from `ptypes[cursor]` only while it is nil or a plain
   argument, the walk stops at a rest parameter, reports `notEnough` once and
   stops when the kinds are exhausted, stops after a splat met past the plain
   parameters of a callee with a `*` parameter, and advances the cursor only
   past plain arguments.
   */
  function Walk(ptypes: seq<ArgKind>, args: seq<Child>, index: nat, cursor: nat, curtype: Option<ArgKind>,
                check: (nat, Child) -> seq<Problem>, notEnough: Problem): seq<Problem>
    decreases |args| - index
  {
    if index >= |args| then []
    else
      var kind := NextKind(ptypes, cursor, curtype);
      if kind == Some(RestArg) || kind == Some(KwRestArg) then []
      else if kind.None? then [notEnough]
      else
        var here := check(index, args[index]);
        if args[index].IsNode("splat") && kind != Some(Arg) && RestArg in ptypes then here
        else here + Walk(ptypes, args, index + 1, if kind == Some(Arg) then cursor + 1 else cursor, kind, check, notEnough)
  }

  /** The check of one argument at a call site. */
  function ArgCheck(cs: CallSite): (nat, Child) -> seq<Problem>
  {
    (index: nat, arg: Child) => ArgProblems(cs, index, arg)
  }

  /** The argument walk of a call site. */
  function WalkFrom(cs: CallSite, args: seq<Child>, index: nat, cursor: nat, curtype: Option<ArgKind>): seq<Problem>
  {
    Walk(cs.ptypes, args, index, cursor, curtype, ArgCheck(cs), NotEnoughProblem(cs))
  }

  /** One step of the walk, case by case. */
  lemma WalkStep(ptypes: seq<ArgKind>, args: seq<Child>, index: nat, cursor: nat, curtype: Option<ArgKind>,
                 check: (nat, Child) -> seq<Problem>, notEnough: Problem)
    requires index < |args|
    ensures var kind := NextKind(ptypes, cursor, curtype);
            var walk := Walk(ptypes, args, index, cursor, curtype, check, notEnough);
            && (kind == Some(RestArg) || kind == Some(KwRestArg) ==> walk == [])
            && (kind.None? ==> walk == [notEnough])
            && (kind.Some? && kind != Some(RestArg) && kind != Some(KwRestArg) ==>
                  if args[index].IsNode("splat") && kind != Some(Arg) && RestArg in ptypes
                  then walk == check(index, args[index])
                  else walk == check(index, args[index]) +
                               Walk(ptypes, args, index + 1, if kind == Some(Arg) then cursor + 1 else cursor, kind, check, notEnough))
  {
  }

  /** `node.children[2..-1]`: the arguments of a `send` node. */
  function Arguments(node: Node): seq<Child>
  {
    if |node.children| >= 2 then node.children[2..] else []
  }

  /** The call site `node` resolves to when its chain defines `pin` first. */
  function CallSiteOf(c: Checker, node: Node, pin: MethodPin): CallSite
  {
    CallSite(c, node, pin, ParameterKinds(pin.parameters), ParamTable(pin.paramTags))
  }

  /** The problems `node` itself contributes (nothing unless it is a `send`). */
  function CallProblems(c: Checker, node: Node): seq<Problem>
  {
    if node.kind != "send" then []
    else
      var pins := c.api.define(node);
      if |pins| == 0 then [UnresolvedProblem(c, node)]
      else WalkFrom(CallSiteOf(c, node, pins[0]), Arguments(node), 0, 0, None)
  }

  /** The problems `own` gives every node of a tree, in pre-order. */
  function TreeProblems(node: Node, own: Node -> seq<Problem>): seq<Problem>
    decreases node, 1, 0
  {
    own(node) + ForestProblems(node, 0, own)
  }

  /** The problems `own` gives the subtrees rooted at `node.children[i..]`, in order. */
  function ForestProblems(node: Node, i: nat, own: Node -> seq<Problem>): seq<Problem>
    decreases node, 0, |node.children| - i
  {
    if i >= |node.children| then []
    else
      var here := match node.children[i]
        case Sub(child) => TreeProblems(child, own)
        case _ => [];
      here + ForestProblems(node, i + 1, own)
  }

  /** The problems of one node of the tree pass. */
  function CallCheck(c: Checker): Node -> seq<Problem>
  {
    (node: Node) => CallProblems(c, node)
  }

  /** The problems of a whole tree, in pre-order. */
  function SendArgsProblems(c: Checker, node: Node): seq<Problem>
  {
    TreeProblems(node, CallCheck(c))
  }

  /** The problems of the subtrees rooted at `node.children[i..]`, in order. */
  function ChildrenProblems(c: Checker, node: Node, i: nat): seq<Problem>
  {
    ForestProblems(node, i, CallCheck(c))
  }

  /** The pairs of a hash argument. */
  method CheckHashPairs(cs: CallSite, index: nat, pairs: seq<Child>) returns (problems: seq<Problem>)
    ensures problems == HashProblems(cs, index, pairs)
  {
    problems := [];
    var j := 0;
    while j < |pairs|
      invariant 0 <= j <= |pairs|
      invariant problems == HashProblems(cs, index, pairs[..j])
    {
      assert pairs[..j + 1][..j] == pairs[..j];
      var partype := ParamTypeAt(cs, index);
      if partype.None? {
        if ReportLocation(cs.checker, cs.pin.location) {
          if KwRestArg !in cs.ptypes {
            problems := problems + [NoParamTypeProblem(cs, index)];
          }
        }
      } else {
        var argtype := cs.checker.api.infer(cs.node, PairValue(pairs[j]));
        if argtype.Tag() != partype.value.Tag() {
          problems := problems + [WrongTypeProblem(cs, index, partype.value, argtype)];
        }
      }
      j := j + 1;
    }
    assert pairs[..j] == pairs;
  }

  /** The body of the argument loop, for one argument at position `index`
      whose kind is neither a rest parameter nor exhausted. */
  method CheckArgument(cs: CallSite, index: nat, arg: Child) returns (problems: seq<Problem>)
    ensures problems == ArgProblems(cs, index, arg)
  {
    problems := [];
    if arg.IsNode("hash") {
      problems := CheckHashPairs(cs, index, arg.node.children);
    } else if arg.IsNode("splat") {
      problems := [SplatProblem(cs, index)];
    } else {
      var partype := ParamTypeAt(cs, index);
      if partype.None? {
        if ReportLocation(cs.checker, cs.pin.location) {
          problems := [NoParamTypeProblem(cs, index)];
        }
      } else {
        var argtype := cs.checker.api.infer(cs.node, arg);
        if argtype.Tag() != partype.value.Tag() {
          problems := [WrongTypeProblem(cs, index, partype.value, argtype)];
        }
      }
    }
  }

  /**
   One pass of the `each_with_index` loop body at argument `index`: it adds
   the problems of that argument to `problems`, settles the kind and the
   cursor for the next pass, and says whether the loop ends here (a rest
   kind, exhausted kinds or a splat past the plain parameters).
   */
  method WalkOne(cs: CallSite, args: seq<Child>, problems: seq<Problem>, index: nat, cursor: nat, curtype: Option<ArgKind>)
    returns (more: seq<Problem>, kind: Option<ArgKind>, next: nat, stop: bool)
    requires index < |args|
    ensures stop ==> more == problems + WalkFrom(cs, args, index, cursor, curtype)
    ensures !stop ==> more + WalkFrom(cs, args, index + 1, next, kind) == problems + WalkFrom(cs, args, index, cursor, curtype)
  {
    WalkStep(cs.ptypes, args, index, cursor, curtype, ArgCheck(cs), NotEnoughProblem(cs));
    kind := NextKind(cs.ptypes, cursor, curtype);
    next := cursor;
    if kind == Some(RestArg) || kind == Some(KwRestArg) {
      more, stop := problems, true;
      return;
    }
    if kind.None? {
      more, stop := problems + [NotEnoughProblem(cs)], true;
      return;
    }
    var arg := args[index];
    var here := CheckArgument(cs, index, arg);
    assert here == ArgCheck(cs)(index, arg);
    more := problems + here;
    stop := arg.IsNode("splat") && kind != Some(Arg) && RestArg in cs.ptypes;
    if kind == Some(Arg) {
      next := cursor + 1;
    }
    if !stop {
      ghost var rest := WalkFrom(cs, args, index + 1, next, kind);
      assert more + rest == problems + (here + rest);
    }
  }

  /** The `each_with_index` loop over the arguments of a resolved call. */
  method WalkArguments(cs: CallSite, args: seq<Child>) returns (problems: seq<Problem>)
    ensures problems == WalkFrom(cs, args, 0, 0, None)
  {
    problems := [];
    var cursor := 0;
    var curtype: Option<ArgKind> := None;
    var index := 0;
    while index < |args|
      invariant 0 <= index <= |args|
      invariant problems + WalkFrom(cs, args, index, cursor, curtype) == WalkFrom(cs, args, 0, 0, None)
    {
      var more, kind, next, stop := WalkOne(cs, args, problems, index, cursor, curtype);
      problems := more;
      if stop {
        return;
      }
      cursor, curtype, index := next, kind, index + 1;
    }
  }

  /** `check_send_args`: the problems of every `send` node in the tree, in pre-order. */
  method CheckSendArgs(c: Checker, node: Node) returns (problems: seq<Problem>)
    ensures problems == SendArgsProblems(c, node)
    decreases node
  {
    problems := [];
    if node.kind == "send" {
      var pins := c.api.define(node);
      if |pins| == 0 {
        problems := problems + [UnresolvedProblem(c, node)];
      } else {
        var pin := pins[0];
        var ptypes := ArgTypes(Some(pin));
        var params := ParamTagsFrom(Some(pin));
        assert ptypes == ParameterKinds(pin.parameters);
        problems := WalkArguments(CallSite(c, node, pin, ptypes, params), Arguments(node));
      }
    }
    assert problems == CallProblems(c, node);
    var i := 0;
    while i < |node.children|
      invariant 0 <= i <= |node.children|
      invariant problems + ChildrenProblems(c, node, i) == SendArgsProblems(c, node)
    {
      var child := node.children[i];
      if child.Sub? {
        assert child.node < node;
        var more := CheckSendArgs(c, child.node);
        problems := problems + more;
      }
      i := i + 1;
    }
  }

  // ---------------------------------------------------------------------
  // Properties of the argument walk
  // ---------------------------------------------------------------------

  /** The four kinds of call-site problem, told apart by their messages. */
  predicate IsNotEnough(p: Problem)   { StartsWith(p.message, "Not enough arguments send to ") }
  predicate IsNoParamType(p: Problem) { StartsWith(p.message, "No @param type for ") }
  predicate IsWrongType(p: Problem)   { StartsWith(p.message, "Wrong parameter type for ") }
  predicate IsSplat(p: Problem)       { StartsWith(p.message, "Can't handle splat in ") }

  lemma MessageStarts(prefix: string, rest: string)
    ensures StartsWith(prefix + rest, prefix)
  {
    StartsWithConcat(prefix, rest);
  }

  lemma NotEnoughKind(cs: CallSite)
    ensures IsNotEnough(NotEnoughProblem(cs)) && !IsNoParamType(NotEnoughProblem(cs))
  {
    var m := NotEnoughProblem(cs).message;
    assert m == "Not enough arguments send to " + cs.pin.path;
    MessageStarts("Not enough arguments send to ", cs.pin.path);
    StartsWithDiffers(m, "No @param type for ", "Not enough arguments send to ", 2);
  }

  lemma NoParamTypeKind(cs: CallSite, index: nat)
    ensures var p := NoParamTypeProblem(cs, index);
            IsNoParamType(p) && !IsNotEnough(p) && !IsSplat(p)
  {
    var rest := Render(NameAt(cs, index)) + " in " + cs.pin.path;
    var m := NoParamTypeProblem(cs, index).message;
    assert m == "No @param type for " + rest;
    MessageStarts("No @param type for ", rest);
    StartsWithDiffers(m, "Not enough arguments send to ", "No @param type for ", 2);
    StartsWithDiffers(m, "Can't handle splat in ", "No @param type for ", 0);
  }

  lemma WrongTypeKind(cs: CallSite, index: nat, expected: ComplexType, received: ComplexType)
    ensures var p := WrongTypeProblem(cs, index, expected, received);
            IsWrongType(p) && !IsNotEnough(p) && !IsNoParamType(p) && !IsSplat(p)
  {
    var rest := WrongTypeDetail(cs, index, expected, received);
    var m := WrongTypeProblem(cs, index, expected, received).message;
    assert m == "Wrong parameter type for " + rest;
    MessageStarts("Wrong parameter type for ", rest);
    StartsWithDiffers(m, "Not enough arguments send to ", "Wrong parameter type for ", 0);
    StartsWithDiffers(m, "No @param type for ", "Wrong parameter type for ", 0);
    StartsWithDiffers(m, "Can't handle splat in ", "Wrong parameter type for ", 0);
  }

  lemma SplatKind(cs: CallSite, index: nat)
    ensures var p := SplatProblem(cs, index);
            IsSplat(p) && !IsNotEnough(p) && !IsNoParamType(p)
  {
    var rest := Render(NameAt(cs, index)) + " " + cs.pin.path;
    var m := SplatProblem(cs, index).message;
    assert m == "Can't handle splat in " + rest;
    MessageStarts("Can't handle splat in ", rest);
    StartsWithDiffers(m, "Not enough arguments send to ", "Can't handle splat in ", 0);
    StartsWithDiffers(m, "No @param type for ", "Can't handle splat in ", 0);
  }

  /** Each call-site problem has exactly the kind its constructor names. */
  lemma ProblemKinds(cs: CallSite, index: nat, expected: ComplexType, received: ComplexType)
    ensures IsNotEnough(NotEnoughProblem(cs)) && !IsNoParamType(NotEnoughProblem(cs))
    ensures IsNoParamType(NoParamTypeProblem(cs, index)) && !IsNotEnough(NoParamTypeProblem(cs, index))
                                                         && !IsSplat(NoParamTypeProblem(cs, index))
    ensures var w := WrongTypeProblem(cs, index, expected, received);
            IsWrongType(w) && !IsNotEnough(w) && !IsNoParamType(w) && !IsSplat(w)
    ensures IsSplat(SplatProblem(cs, index)) && !IsNotEnough(SplatProblem(cs, index))
                                             && !IsNoParamType(SplatProblem(cs, index))
  {
    NotEnoughKind(cs);
    NoParamTypeKind(cs, index);
    WrongTypeKind(cs, index, expected, received);
    SplatKind(cs, index);
  }

  /** What every problem of one argument is: reported at the call node, never
      "Not enough arguments", a missing `@param` type only when the callee's
      location is reported (and, for a hash, when it has no `**` parameter),
      and a splat problem only for a splat. */
  predicate ArgProblemOk(cs: CallSite, index: nat, arg: Child, p: Problem)
  {
    && p.location == NodeLocation(cs.checker, cs.node)
    && (IsNoParamType(p) || IsWrongType(p) || IsSplat(p))
    && !IsNotEnough(p)
    && (IsNoParamType(p) ==> Report(cs) && (arg.IsNode("hash") ==> KwRestArg !in cs.ptypes))
    && (arg.IsNode("splat") <==> IsSplat(p))
  }

  lemma {:induction false} HashProblemsOk(cs: CallSite, index: nat, arg: Child, pairs: seq<Child>)
    requires arg.IsNode("hash")
    ensures forall p :: p in HashProblems(cs, index, pairs) ==> ArgProblemOk(cs, index, arg, p)
    decreases |pairs|
  {
    if |pairs| > 0 {
      HashProblemsOk(cs, index, arg, pairs[..|pairs| - 1]);
      var last := PairValue(pairs[|pairs| - 1]);
      match ParamTypeAt(cs, index)
      case None =>
        ProblemKinds(cs, index, ComplexType([]), ComplexType([]));
      case Some(expected) =>
        ProblemKinds(cs, index, expected, cs.checker.api.infer(cs.node, last));
    }
  }

  lemma PositionalProblemsOk(cs: CallSite, index: nat, arg: Child)
    requires !arg.IsNode("hash") && !arg.IsNode("splat")
    ensures forall p :: p in PositionalProblems(cs, index, arg) ==> ArgProblemOk(cs, index, arg, p)
  {
    match ParamTypeAt(cs, index)
    case None =>
      NoParamTypeKind(cs, index);
    case Some(expected) =>
      WrongTypeKind(cs, index, expected, cs.checker.api.infer(cs.node, arg));
  }

  lemma ArgProblemsOk(cs: CallSite, index: nat, arg: Child)
    ensures forall p :: p in ArgProblems(cs, index, arg) ==> ArgProblemOk(cs, index, arg, p)
  {
    if arg.IsNode("hash") {
      HashProblemsOk(cs, index, arg, arg.node.children);
    } else if arg.IsNode("splat") {
      SplatKind(cs, index);
      assert ArgProblems(cs, index, arg) == [SplatProblem(cs, index)];
    } else {
      PositionalProblemsOk(cs, index, arg);
      assert ArgProblems(cs, index, arg) == PositionalProblems(cs, index, arg);
    }
  }

  /** A positional argument whose parameter is documented gets one "Wrong
      parameter type" problem exactly when the tag inferred for it differs
      from the documented tag, and nothing otherwise; an undocumented one
      gets "No @param type" exactly when the callee's location is reported. */
  lemma PositionalTypeChecked(cs: CallSite, index: nat, arg: Child)
    requires !arg.IsNode("hash") && !arg.IsNode("splat")
    ensures ParamTypeAt(cs, index).Some? ==>
              var expected := ParamTypeAt(cs, index).value;
              var received := cs.checker.api.infer(cs.node, arg);
              ArgProblems(cs, index, arg) ==
                (if received.Tag() != expected.Tag() then [WrongTypeProblem(cs, index, expected, received)] else [])
    ensures ParamTypeAt(cs, index).None? ==>
              ArgProblems(cs, index, arg) == (if Report(cs) then [NoParamTypeProblem(cs, index)] else [])
    ensures |ArgProblems(cs, index, arg)| <= 1
  {
  }

  /** Every pair of a hash argument is checked against the same documented
      type, the one at the hash's own position: with a documented type, the
      problems are one "Wrong parameter type" per pair whose value's tag
      differs, in pair order. */
  lemma {:induction false} HashPairsChecked(cs: CallSite, index: nat, pairs: seq<Child>)
    requires ParamTypeAt(cs, index).Some?
    ensures var expected := ParamTypeAt(cs, index).value;
            HashProblems(cs, index, pairs) ==
              FlatMap(pairs, (pair: Child) =>
                var received := cs.checker.api.infer(cs.node, PairValue(pair));
                if received.Tag() != expected.Tag() then [WrongTypeProblem(cs, index, expected, received)] else [])
    decreases |pairs|
  {
    if |pairs| > 0 {
      HashPairsChecked(cs, index, pairs[..|pairs| - 1]);
    }
  }

  /** With no documented type at the hash's position, the lookup is repeated
      for every pair: one identical "No @param type" problem per pair when the
      callee's location is reported and it has no `**` parameter, none otherwise. */
  lemma {:induction false} HashUndocumented(cs: CallSite, index: nat, pairs: seq<Child>)
    requires ParamTypeAt(cs, index).None?
    ensures HashProblems(cs, index, pairs) ==
            if Report(cs) && KwRestArg !in cs.ptypes then seq(|pairs|, _ => NoParamTypeProblem(cs, index)) else []
    decreases |pairs|
  {
    if |pairs| > 0 {
      HashUndocumented(cs, index, pairs[..|pairs| - 1]);
    }
  }

  /** The position of the first parameter that is not a plain argument. */
  function FirstNonArg(ptypes: seq<ArgKind>): (k: nat)
    ensures k <= |ptypes|
    ensures forall i :: 0 <= i < k ==> ptypes[i] == Arg
    ensures k < |ptypes| ==> ptypes[k] != Arg
    decreases |ptypes|
  {
    if |ptypes| == 0 || ptypes[0] != Arg then 0 else 1 + FirstNonArg(ptypes[1..])
  }

  /** Every parameter is a plain argument. */
  predicate AllPositional(ptypes: seq<ArgKind>)
  {
    forall i :: 0 <= i < |ptypes| ==> ptypes[i] == Arg
  }

  function CountNotEnough(ps: seq<Problem>): nat
  {
    if |ps| == 0 then 0 else (if IsNotEnough(ps[0]) then 1 else 0) + CountNotEnough(ps[1..])
  }

  lemma {:induction false} CountNotEnoughAppend(a: seq<Problem>, b: seq<Problem>)
    ensures CountNotEnough(a + b) == CountNotEnough(a) + CountNotEnough(b)
  {
    if |a| == 0 {
      assert a + b == b;
    } else {
      assert (a + b)[1..] == a[1..] + b;
      CountNotEnoughAppend(a[1..], b);
    }
  }

  lemma {:induction false} CountNotEnoughNone(ps: seq<Problem>)
    requires forall p :: p in ps ==> !IsNotEnough(p)
    ensures CountNotEnough(ps) == 0
  {
    if |ps| > 0 {
      assert forall p :: p in ps[1..] ==> p in ps;
      CountNotEnoughNone(ps[1..]);
    }
  }

  /** The walk reads the current kind only through `NextKind`: walking from
      the kind it settles on is the same walk. */
  lemma WalkByKind(ptypes: seq<ArgKind>, args: seq<Child>, index: nat, cursor: nat, curtype: Option<ArgKind>,
                   check: (nat, Child) -> seq<Problem>, notEnough: Problem)
    ensures Walk(ptypes, args, index, cursor, curtype, check, notEnough) ==
            Walk(ptypes, args, index, cursor, NextKind(ptypes, cursor, curtype), check, notEnough)
  {
    assert NextKind(ptypes, cursor, NextKind(ptypes, cursor, curtype)) == NextKind(ptypes, cursor, curtype);
  }

  /** No check of one argument yields "Not enough arguments". */
  ghost predicate NoNotEnoughIn(check: (nat, Child) -> seq<Problem>)
  {
    forall index: nat, arg: Child, p :: p in check(index, arg) ==> !IsNotEnough(p)
  }

  lemma ArgCheckNoNotEnough(cs: CallSite)
    ensures NoNotEnoughIn(ArgCheck(cs))
  {
    forall index: nat, arg: Child, p | p in ArgCheck(cs)(index, arg)
      ensures !IsNotEnough(p)
    {
      ArgProblemsOk(cs, index, arg);
    }
  }

  lemma CheckCountNone(check: (nat, Child) -> seq<Problem>, index: nat, arg: Child, more: seq<Problem>)
    requires NoNotEnoughIn(check)
    ensures CountNotEnough(check(index, arg) + more) == CountNotEnough(more)
  {
    CountNotEnoughNone(check(index, arg));
    CountNotEnoughAppend(check(index, arg), more);
  }

  /** Once the current kind is an optional, keyword or rest kind, the walk
      reports no "Not enough arguments". */
  lemma {:induction false} StickyWalkNoNotEnough(ptypes: seq<ArgKind>, args: seq<Child>, index: nat, cursor: nat, kind: ArgKind,
                                                 check: (nat, Child) -> seq<Problem>, notEnough: Problem)
    requires kind != Arg && NoNotEnoughIn(check)
    ensures CountNotEnough(Walk(ptypes, args, index, cursor, Some(kind), check, notEnough)) == 0
    decreases |args| - index
  {
    if index < |args| && kind != RestArg && kind != KwRestArg {
      WalkStep(ptypes, args, index, cursor, Some(kind), check, notEnough);
      assert NextKind(ptypes, cursor, Some(kind)) == Some(kind);
      var here := check(index, args[index]);
      var rest := Walk(ptypes, args, index + 1, cursor, Some(kind), check, notEnough);
      StickyWalkNoNotEnough(ptypes, args, index + 1, cursor, kind, check, notEnough);
      CheckCountNone(check, index, args[index], rest);
      CheckCountNone(check, index, args[index], []);
      assert here + [] == here;
    }
  }

  /** Before the first non-plain parameter, one step reads a plain kind and
      moves on to the next argument and parameter together. */
  lemma PlainStep(ptypes: seq<ArgKind>, args: seq<Child>, index: nat, curtype: Option<ArgKind>,
                  check: (nat, Child) -> seq<Problem>, notEnough: Problem)
    requires index < |args| && index < FirstNonArg(ptypes)
    requires curtype.None? || curtype == Some(Arg)
    ensures Walk(ptypes, args, index, index, curtype, check, notEnough) ==
            check(index, args[index]) + Walk(ptypes, args, index + 1, index + 1, Some(Arg), check, notEnough)
  {
    assert NextKind(ptypes, index, curtype) == Some(Arg);
  }

  /** At the first non-plain parameter, the walk reports "Not enough" once
      if there is none (all parameters are plain), and never otherwise. */
  lemma BoundaryNotEnough(ptypes: seq<ArgKind>, args: seq<Child>, k: nat, curtype: Option<ArgKind>,
                          check: (nat, Child) -> seq<Problem>, notEnough: Problem)
    requires k < |args| && k <= |ptypes| && (k < |ptypes| ==> ptypes[k] != Arg)
    requires curtype.None? || curtype == Some(Arg)
    requires NoNotEnoughIn(check) && IsNotEnough(notEnough)
    ensures CountNotEnough(Walk(ptypes, args, k, k, curtype, check, notEnough)) == if k == |ptypes| then 1 else 0
  {
    if k == |ptypes| {
      WalkStep(ptypes, args, k, k, curtype, check, notEnough);
      assert [notEnough][1..] == [];
    } else {
      WalkByKind(ptypes, args, k, k, curtype, check, notEnough);
      StickyWalkNoNotEnough(ptypes, args, k, k, ptypes[k], check, notEnough);
    }
  }

  lemma {:induction false} LeadingWalkNotEnough(ptypes: seq<ArgKind>, args: seq<Child>, index: nat, curtype: Option<ArgKind>,
                                                check: (nat, Child) -> seq<Problem>, notEnough: Problem)
    requires index <= FirstNonArg(ptypes)
    requires curtype.None? || curtype == Some(Arg)
    requires NoNotEnoughIn(check) && IsNotEnough(notEnough)
    ensures CountNotEnough(Walk(ptypes, args, index, index, curtype, check, notEnough)) ==
            if AllPositional(ptypes) && |args| > |ptypes| then 1 else 0
    decreases |args| - index
  {
    var k := FirstNonArg(ptypes);
    assert AllPositional(ptypes) <==> k == |ptypes|;
    if index < |args| {
      if index < k {
        PlainStep(ptypes, args, index, curtype, check, notEnough);
        LeadingWalkNotEnough(ptypes, args, index + 1, Some(Arg), check, notEnough);
        CheckCountNone(check, index, args[index], Walk(ptypes, args, index + 1, index + 1, Some(Arg), check, notEnough));
      } else {
        BoundaryNotEnough(ptypes, args, k, curtype, check, notEnough);
      }
    }
  }

  /** "Not enough arguments" is reported exactly once when every parameter is
      plain and there are more arguments than parameters, and never otherwise:
      it flags too many arguments, not too few. */
  lemma NotEnoughExactlyWhenTooMany(cs: CallSite, args: seq<Child>)
    ensures CountNotEnough(WalkFrom(cs, args, 0, 0, None)) ==
            if AllPositional(cs.ptypes) && |args| > |cs.ptypes| then 1 else 0
  {
    ArgCheckNoNotEnough(cs);
    NotEnoughKind(cs);
    LeadingWalkNotEnough(cs.ptypes, args, 0, None, ArgCheck(cs), NotEnoughProblem(cs));
  }

  predicate StopsAt(ptypes: seq<ArgKind>, k: nat)
  {
    k < |ptypes| && (ptypes[k] == RestArg || ptypes[k] == KwRestArg)
  }

  lemma {:induction false} LeadingWalkStopsAtRest(ptypes: seq<ArgKind>, args: seq<Child>, index: nat, curtype: Option<ArgKind>,
                                                  check: (nat, Child) -> seq<Problem>, notEnough: Problem)
    requires StopsAt(ptypes, FirstNonArg(ptypes))
    requires index <= FirstNonArg(ptypes) <= |args|
    requires curtype.None? || curtype == Some(Arg)
    ensures Walk(ptypes, args, index, index, curtype, check, notEnough) ==
            Walk(ptypes, args[..FirstNonArg(ptypes)], index, index, curtype, check, notEnough)
    decreases FirstNonArg(ptypes) - index
  {
    var k := FirstNonArg(ptypes);
    if index < k {
      PlainStep(ptypes, args, index, curtype, check, notEnough);
      PlainStep(ptypes, args[..k], index, curtype, check, notEnough);
      assert args[..k][index] == args[index];
      LeadingWalkStopsAtRest(ptypes, args, index + 1, Some(Arg), check, notEnough);
    } else if index < |args| {
      assert NextKind(ptypes, index, curtype) == Some(ptypes[k]);
    }
  }

  /** When the first non-plain parameter is `*rest` or `**opts`, the walk stops
      there: arguments from that position on are never looked at, whatever
      the check of one argument. */
  lemma RestParameterStopsWalk(ptypes: seq<ArgKind>, args: seq<Child>, check: (nat, Child) -> seq<Problem>, notEnough: Problem)
    requires StopsAt(ptypes, FirstNonArg(ptypes))
    requires FirstNonArg(ptypes) <= |args|
    ensures Walk(ptypes, args, 0, 0, None, check, notEnough) ==
            Walk(ptypes, args[..FirstNonArg(ptypes)], 0, 0, None, check, notEnough)
  {
    LeadingWalkStopsAtRest(ptypes, args, 0, None, check, notEnough);
  }

  /** The checks of every argument from position `index` on, in order. */
  function ChecksFrom(args: seq<Child>, index: nat, check: (nat, Child) -> seq<Problem>): seq<Problem>
    decreases |args| - index
  {
    if index >= |args| then [] else check(index, args[index]) + ChecksFrom(args, index + 1, check)
  }

  /** Once the current kind is an optional or keyword kind, it never changes
      again, so a later `*rest` or `**opts` is never reached: every remaining
      argument is checked, up to a splat. */
  lemma {:induction false} StickyNonRestChecksAll(ptypes: seq<ArgKind>, args: seq<Child>, index: nat, cursor: nat, kind: ArgKind,
                                                  check: (nat, Child) -> seq<Problem>, notEnough: Problem)
    requires kind == OptArg || kind == KwArg || kind == KwOptArg
    requires forall j :: index <= j < |args| ==> !args[j].IsNode("splat")
    ensures Walk(ptypes, args, index, cursor, Some(kind), check, notEnough) == ChecksFrom(args, index, check)
    decreases |args| - index
  {
    if index < |args| {
      StickyNonRestChecksAll(ptypes, args, index + 1, cursor, kind, check, notEnough);
    }
  }

  lemma {:induction false} LeadingWalkChecksAll(ptypes: seq<ArgKind>, args: seq<Child>, index: nat, curtype: Option<ArgKind>,
                                                check: (nat, Child) -> seq<Problem>, notEnough: Problem)
    requires FirstNonArg(ptypes) < |ptypes| && ptypes[FirstNonArg(ptypes)] in [OptArg, KwArg, KwOptArg]
    requires forall j :: FirstNonArg(ptypes) <= j < |args| ==> !args[j].IsNode("splat")
    requires index <= FirstNonArg(ptypes)
    requires curtype.None? || curtype == Some(Arg)
    ensures Walk(ptypes, args, index, index, curtype, check, notEnough) == ChecksFrom(args, index, check)
    decreases |args| - index
  {
    var k := FirstNonArg(ptypes);
    if index < |args| {
      if index < k {
        PlainStep(ptypes, args, index, curtype, check, notEnough);
        LeadingWalkChecksAll(ptypes, args, index + 1, Some(Arg), check, notEnough);
      } else {
        WalkByKind(ptypes, args, k, k, curtype, check, notEnough);
        assert NextKind(ptypes, k, curtype) == Some(ptypes[k]);
        StickyNonRestChecksAll(ptypes, args, k, k, ptypes[k], check, notEnough);
      }
    }
  }

  /** When the first non-plain parameter is an optional or keyword one (as in
      `def m(a, b = 1, *r)`), the walk never stops at a later rest parameter:
      unless a splat stops it, every argument is checked, in order, and no
      "Not enough arguments" is reported. */
  lemma NonRestParameterChecksAll(ptypes: seq<ArgKind>, args: seq<Child>, check: (nat, Child) -> seq<Problem>, notEnough: Problem)
    requires FirstNonArg(ptypes) < |ptypes| && ptypes[FirstNonArg(ptypes)] in [OptArg, KwArg, KwOptArg]
    requires forall j :: FirstNonArg(ptypes) <= j < |args| ==> !args[j].IsNode("splat")
    ensures Walk(ptypes, args, 0, 0, None, check, notEnough) == ChecksFrom(args, 0, check)
  {
    LeadingWalkChecksAll(ptypes, args, 0, None, check, notEnough);
  }

  /** Once the current kind is no longer a plain argument, the cursor is never
      read again: the walk is the same whatever its value. */
  lemma {:induction false} StickyKindIgnoresCursor(ptypes: seq<ArgKind>, args: seq<Child>, index: nat, c1: nat, c2: nat, kind: ArgKind,
                                                   check: (nat, Child) -> seq<Problem>, notEnough: Problem)
    requires kind != Arg
    ensures Walk(ptypes, args, index, c1, Some(kind), check, notEnough) == Walk(ptypes, args, index, c2, Some(kind), check, notEnough)
    decreases |args| - index
  {
    if index < |args| {
      StickyKindIgnoresCursor(ptypes, args, index + 1, c1, c2, kind, check, notEnough);
    }
  }

  lemma {:induction false} LeadingArgumentWalked(ptypes: seq<ArgKind>, args: seq<Child>, index: nat, curtype: Option<ArgKind>, j: nat,
                                                 check: (nat, Child) -> seq<Problem>, notEnough: Problem, p: Problem)
    requires index <= j < |args| && j < FirstNonArg(ptypes)
    requires curtype.None? || curtype == Some(Arg)
    requires p in check(j, args[j])
    ensures p in Walk(ptypes, args, index, index, curtype, check, notEnough)
    decreases j - index
  {
    PlainStep(ptypes, args, index, curtype, check, notEnough);
    if index < j {
      LeadingArgumentWalked(ptypes, args, index + 1, Some(Arg), j, check, notEnough, p);
    }
  }

  /** Every argument before the first non-plain parameter is checked against
      the parameter at its own position; a splat there is always reported. */
  lemma LeadingArgumentChecked(cs: CallSite, args: seq<Child>, j: nat)
    requires j < |args| && j < FirstNonArg(cs.ptypes)
    ensures forall p :: p in ArgProblems(cs, j, args[j]) ==> p in WalkFrom(cs, args, 0, 0, None)
    ensures args[j].IsNode("splat") ==> SplatProblem(cs, j) in WalkFrom(cs, args, 0, 0, None)
  {
    forall p | p in ArgProblems(cs, j, args[j])
      ensures p in WalkFrom(cs, args, 0, 0, None)
    {
      LeadingArgumentWalked(cs.ptypes, args, 0, None, j, ArgCheck(cs), NotEnoughProblem(cs), p);
    }
    if args[j].IsNode("splat") {
      assert SplatProblem(cs, j) in ArgProblems(cs, j, args[j]);
    }
  }

  /** A hash argument is checked by position: its problems depend on the
      pairs' values only, never on the keys they name. */
  lemma {:induction false} HashKeysIgnored(cs: CallSite, index: nat, pairs1: seq<Child>, pairs2: seq<Child>)
    requires |pairs1| == |pairs2|
    requires forall i :: 0 <= i < |pairs1| ==> PairValue(pairs1[i]) == PairValue(pairs2[i])
    ensures HashProblems(cs, index, pairs1) == HashProblems(cs, index, pairs2)
    decreases |pairs1|
  {
    var n := |pairs1|;
    if n > 0 {
      HashKeysIgnored(cs, index, pairs1[..n - 1], pairs2[..n - 1]);
    }
  }

  /** A property of every problem that each argument check and the "not
      enough" problem have holds of every problem of the walk. */
  lemma {:induction false} WalkKeeps(ptypes: seq<ArgKind>, args: seq<Child>, index: nat, cursor: nat, curtype: Option<ArgKind>,
                                     check: (nat, Child) -> seq<Problem>, notEnough: Problem, ok: Problem -> bool)
    requires forall i: nat, a: Child, p :: p in check(i, a) ==> ok(p)
    requires ok(notEnough)
    ensures forall p :: p in Walk(ptypes, args, index, cursor, curtype, check, notEnough) ==> ok(p)
    decreases |args| - index
  {
    if index < |args| {
      var kind := NextKind(ptypes, cursor, curtype);
      if kind.Some? && kind != Some(RestArg) && kind != Some(KwRestArg) {
        WalkKeeps(ptypes, args, index + 1, if kind == Some(Arg) then cursor + 1 else cursor, kind, check, notEnough, ok);
      }
    }
  }

  /** What every problem of the walk of a call site is. */
  predicate WalkProblemOk(cs: CallSite, p: Problem)
  {
    && p.location == NodeLocation(cs.checker, cs.node)
    && (IsNotEnough(p) || IsNoParamType(p) || IsWrongType(p) || IsSplat(p))
    && (IsNoParamType(p) ==> Report(cs))
  }

  /** Every problem of the walk is reported at the call node and is one of
      the four call-site kinds, and a missing `@param` type only appears when
      the callee's location is reported. */
  lemma WalkProblemsOk(cs: CallSite, args: seq<Child>)
    ensures forall p :: p in WalkFrom(cs, args, 0, 0, None) ==> WalkProblemOk(cs, p)
  {
    forall index: nat, arg: Child, p | p in ArgCheck(cs)(index, arg)
      ensures WalkProblemOk(cs, p)
    {
      ArgProblemsOk(cs, index, arg);
    }
    NotEnoughKind(cs);
    WalkKeeps(cs.ptypes, args, 0, 0, None, ArgCheck(cs), NotEnoughProblem(cs), (p: Problem) => WalkProblemOk(cs, p));
  }

  // ---------------------------------------------------------------------
  // Properties of the tree pass
  // ---------------------------------------------------------------------

  lemma CallProblemsInFile(c: Checker, node: Node)
    ensures forall p :: p in CallProblems(c, node) ==> p.location == NodeLocation(c, node)
  {
    if node.kind == "send" && |c.api.define(node)| > 0 {
      WalkProblemsOk(CallSiteOf(c, node, c.api.define(node)[0]), Arguments(node));
    }
  }

  /** A property every node's own problems have holds of every problem of the tree. */
  lemma {:induction false} TreeKeeps(node: Node, own: Node -> seq<Problem>, ok: Problem -> bool)
    requires forall n: Node, p :: p in own(n) ==> ok(p)
    ensures forall p :: p in TreeProblems(node, own) ==> ok(p)
    decreases node, 1, 0
  {
    ForestKeeps(node, 0, own, ok);
  }

  lemma {:induction false} ForestKeeps(node: Node, i: nat, own: Node -> seq<Problem>, ok: Problem -> bool)
    requires forall n: Node, p :: p in own(n) ==> ok(p)
    ensures forall p :: p in ForestProblems(node, i, own) ==> ok(p)
    decreases node, 0, |node.children| - i
  {
    if i < |node.children| {
      if node.children[i].Sub? {
        TreeKeeps(node.children[i].node, own, ok);
      }
      ForestKeeps(node, i + 1, own, ok);
    }
  }

  /** Every call-site problem is located in the checked file. */
  lemma SendArgsProblemsInFile(c: Checker, node: Node)
    ensures forall p :: p in SendArgsProblems(c, node) ==> p.location.Some? && p.location.value.filename == c.filename
  {
    forall n: Node, p | p in CallCheck(c)(n)
      ensures p.location.Some? && p.location.value.filename == c.filename
    {
      CallProblemsInFile(c, n);
    }
    TreeKeeps(node, CallCheck(c), (p: Problem) => p.location.Some? && p.location.value.filename == c.filename);
  }

  predicate IsUnresolved(p: Problem) { StartsWith(p.message, "Unresolved method signature ") }

  /** No argument problem reads as an unresolved signature. */
  lemma WalkKindsNotUnresolved(p: Problem)
    requires IsNotEnough(p) || IsNoParamType(p) || IsWrongType(p) || IsSplat(p)
    ensures !IsUnresolved(p)
  {
    var u := "Unresolved method signature ";
    if IsNotEnough(p) {
      StartsWithDiffers(p.message, u, "Not enough arguments send to ", 0);
    } else if IsNoParamType(p) {
      StartsWithDiffers(p.message, u, "No @param type for ", 0);
    } else if IsWrongType(p) {
      StartsWithDiffers(p.message, u, "Wrong parameter type for ", 0);
    } else {
      StartsWithDiffers(p.message, u, "Can't handle splat in ", 0);
    }
  }

  function CountUnresolved(ps: seq<Problem>): nat
  {
    if |ps| == 0 then 0 else (if IsUnresolved(ps[0]) then 1 else 0) + CountUnresolved(ps[1..])
  }

  lemma {:induction false} CountUnresolvedAppend(a: seq<Problem>, b: seq<Problem>)
    ensures CountUnresolved(a + b) == CountUnresolved(a) + CountUnresolved(b)
  {
    if |a| == 0 {
      assert a + b == b;
    } else {
      assert (a + b)[1..] == a[1..] + b;
      CountUnresolvedAppend(a[1..], b);
    }
  }

  lemma {:induction false} CountUnresolvedNone(ps: seq<Problem>)
    requires forall p :: p in ps ==> !IsUnresolved(p)
    ensures CountUnresolved(ps) == 0
  {
    if |ps| > 0 {
      assert forall p :: p in ps[1..] ==> p in ps;
      CountUnresolvedNone(ps[1..]);
    }
  }

  /** A `send` node whose chain defines no pin. */
  predicate UnresolvedCall(c: Checker, node: Node)
  {
    node.kind == "send" && |c.api.define(node)| == 0
  }

  /** The sum of `count` over every node of a tree. */
  function TreeSum(node: Node, count: Node -> nat): nat
    decreases node, 1, 0
  {
    count(node) + ForestSum(node, 0, count)
  }

  function ForestSum(node: Node, i: nat, count: Node -> nat): nat
    decreases node, 0, |node.children| - i
  {
    if i >= |node.children| then 0
    else
      (match node.children[i] case Sub(child) => TreeSum(child, count) case _ => 0) +
      ForestSum(node, i + 1, count)
  }

  /** The number of unresolved calls in a tree. */
  function UnresolvedCalls(c: Checker, node: Node): nat
  {
    TreeSum(node, (n: Node) => if UnresolvedCall(c, n) then 1 else 0)
  }

  /** When every node's own problems hold `count(n)` unresolved signatures,
      the tree's problems hold the sum of `count` over the tree. */
  lemma {:induction false} TreeCountsUnresolved(node: Node, own: Node -> seq<Problem>, count: Node -> nat)
    requires forall n: Node :: CountUnresolved(own(n)) == count(n)
    ensures CountUnresolved(TreeProblems(node, own)) == TreeSum(node, count)
    decreases node, 1, 0
  {
    ForestCountsUnresolved(node, 0, own, count);
    CountUnresolvedAppend(own(node), ForestProblems(node, 0, own));
  }

  lemma {:induction false} ForestCountsUnresolved(node: Node, i: nat, own: Node -> seq<Problem>, count: Node -> nat)
    requires forall n: Node :: CountUnresolved(own(n)) == count(n)
    ensures CountUnresolved(ForestProblems(node, i, own)) == ForestSum(node, i, count)
    decreases node, 0, |node.children| - i
  {
    if i < |node.children| {
      var here := match node.children[i] case Sub(child) => TreeProblems(child, own) case _ => [];
      if node.children[i].Sub? {
        TreeCountsUnresolved(node.children[i].node, own, count);
      }
      ForestCountsUnresolved(node, i + 1, own, count);
      CountUnresolvedAppend(here, ForestProblems(node, i + 1, own));
    }
  }

  /** A node's own problems hold one "Unresolved method signature" exactly
      when it is an unresolved call. */
  lemma CallProblemsUnresolved(c: Checker, node: Node)
    ensures CountUnresolved(CallProblems(c, node)) == if UnresolvedCall(c, node) then 1 else 0
  {
    if UnresolvedCall(c, node) {
      MessageStarts("Unresolved method signature ", Join(c.api.words(node), "."));
      assert CallProblems(c, node) == [UnresolvedProblem(c, node)];
    } else if node.kind == "send" {
      var walk := CallProblems(c, node);
      WalkProblemsOk(CallSiteOf(c, node, c.api.define(node)[0]), Arguments(node));
      forall p | p in walk ensures !IsUnresolved(p) {
        WalkKindsNotUnresolved(p);
      }
      CountUnresolvedNone(walk);
    }
  }

  /** Every unresolved call of the tree is reported exactly once: the tree's
      "Unresolved method signature" problems are as many as its unresolved
      calls. */
  lemma UnresolvedReportedOnce(c: Checker, node: Node)
    ensures CountUnresolved(SendArgsProblems(c, node)) == UnresolvedCalls(c, node)
  {
    var count := (n: Node) => if UnresolvedCall(c, n) then 1 else 0;
    forall n: Node
      ensures CountUnresolved(CallCheck(c)(n)) == count(n)
    {
      CallProblemsUnresolved(c, n);
    }
    TreeCountsUnresolved(node, CallCheck(c), count);
  }

  /** The problems of the child subtree at `j` are among the forest's from `i`. */
  lemma {:induction false} ForestIncludes(node: Node, i: nat, j: nat, own: Node -> seq<Problem>, p: Problem)
    requires i <= j < |node.children| && node.children[j].Sub?
    requires p in TreeProblems(node.children[j].node, own)
    ensures p in ForestProblems(node, i, own)
    decreases j - i
  {
    if i < j {
      ForestIncludes(node, i + 1, j, own, p);
    }
  }

  /** Every subtree's problems appear in the problems of the whole tree. */
  lemma SubtreeProblemsIncluded(c: Checker, node: Node, j: nat)
    requires j < |node.children| && node.children[j].Sub?
    ensures forall p :: p in SendArgsProblems(c, node.children[j].node) ==> p in SendArgsProblems(c, node)
  {
    forall p | p in SendArgsProblems(c, node.children[j].node)
      ensures p in SendArgsProblems(c, node)
    {
      ForestIncludes(node, 0, j, CallCheck(c), p);
    }
  }

  /** The tree holds a `send` node. */
  predicate HasSend(node: Node)
    decreases node
  {
    node.kind == "send" ||
    exists i :: 0 <= i < |node.children| && node.children[i].Sub? && HasSend(node.children[i].node)
  }

  /** When only `send` nodes have problems of their own, a tree without one has none. */
  lemma {:induction false} TreeWithoutSend(node: Node, own: Node -> seq<Problem>)
    requires forall n: Node :: n.kind != "send" ==> own(n) == []
    requires !HasSend(node)
    ensures TreeProblems(node, own) == []
    decreases node, 1, 0
  {
    ForestWithoutSend(node, 0, own);
  }

  lemma {:induction false} ForestWithoutSend(node: Node, i: nat, own: Node -> seq<Problem>)
    requires forall n: Node :: n.kind != "send" ==> own(n) == []
    requires !HasSend(node)
    ensures ForestProblems(node, i, own) == []
    decreases node, 0, |node.children| - i
  {
    if i < |node.children| {
      if node.children[i].Sub? {
        TreeWithoutSend(node.children[i].node, own);
      }
      ForestWithoutSend(node, i + 1, own);
    }
  }

  /** A tree without calls has no call-site problems. */
  lemma NoSendNoProblems(c: Checker, node: Node)
    requires !HasSend(node)
    ensures SendArgsProblems(c, node) == []
  {
    TreeWithoutSend(node, CallCheck(c));
  }

  // ---------------------------------------------------------------------
  // The public passes
  // ---------------------------------------------------------------------

  /** `xs.each { |x| result.concat f(x) }`: the results of `f` for every
      element, concatenated in order. */
  function FlatMap<T, U>(xs: seq<T>, f: T -> seq<U>): seq<U>
    decreases |xs|
  {
    if |xs| == 0 then [] else FlatMap(xs[..|xs| - 1], f) + f(xs[|xs| - 1])
  }

  lemma FlatMapStep<T, U>(xs: seq<T>, f: T -> seq<U>, i: nat)
    requires i < |xs|
    ensures FlatMap(xs[..i + 1], f) == FlatMap(xs[..i], f) + f(xs[i])
  {
    assert xs[..i + 1][..i] == xs[..i];
  }

  /** When `f` gives nothing exactly for the elements satisfying `ok`, the
      concatenation is empty exactly when every element satisfies `ok`. */
  lemma {:induction false} FlatMapEmpty<T, U>(xs: seq<T>, f: T -> seq<U>, ok: T -> bool)
    requires forall x :: f(x) == [] <==> ok(x)
    ensures FlatMap(xs, f) == [] <==> forall i :: 0 <= i < |xs| ==> ok(xs[i])
    decreases |xs|
  {
    if |xs| > 0 {
      var init := xs[..|xs| - 1];
      FlatMapEmpty(init, f, ok);
      assert forall i :: 0 <= i < |init| ==> init[i] == xs[i];
    }
  }

  /** Every result of every element is in the concatenation. */
  lemma {:induction false} FlatMapIncludes<T, U>(xs: seq<T>, f: T -> seq<U>, i: nat, u: U)
    requires i < |xs| && u in f(xs[i])
    ensures u in FlatMap(xs, f)
    decreases |xs|
  {
    var init := xs[..|xs| - 1];
    if i < |init| {
      assert init[i] == xs[i];
      FlatMapIncludes(init, f, i, u);
    }
  }

  /** Everything in the concatenation is a result of some element. */
  lemma {:induction false} FlatMapSource<T, U>(xs: seq<T>, f: T -> seq<U>, u: U)
    requires u in FlatMap(xs, f)
    ensures exists i :: 0 <= i < |xs| && u in f(xs[i])
    decreases |xs|
  {
    var init := xs[..|xs| - 1];
    if u in FlatMap(init, f) {
      FlatMapSource(init, f, u);
      var i :| 0 <= i < |init| && u in f(init[i]);
      assert init[i] == xs[i];
    } else {
      assert u in f(xs[|xs| - 1]);
    }
  }

  /** The concatenation of at most one result per element is no longer than the input. */
  lemma {:induction false} FlatMapAtMostOne<T, U>(xs: seq<T>, f: T -> seq<U>)
    requires forall x :: |f(x)| <= 1
    ensures |FlatMap(xs, f)| <= |xs|
    decreases |xs|
  {
    if |xs| > 0 {
      FlatMapAtMostOne(xs[..|xs| - 1], f);
    }
  }

  /** The `check_return_type` problems of every method pin of the file, in pin order. */
  function AllReturnTypeProblems(pins: seq<MethodPin>): seq<Problem>
  {
    FlatMap(pins, CheckReturnType)
  }

  /** `return_type_problems`, over the method pins of the file's source map. */
  method ReturnTypeProblems(pins: seq<MethodPin>) returns (problems: seq<Problem>)
    ensures problems == AllReturnTypeProblems(pins)
  {
    problems := [];
    var index := 0;
    while index < |pins|
      invariant 0 <= index <= |pins|
      invariant problems == FlatMap(pins[..index], CheckReturnType)
    {
      FlatMapStep(pins, CheckReturnType, index);
      problems := problems + CheckReturnType(pins[index]);
      index := index + 1;
    }
    assert pins[..index] == pins;
  }

  /** The file has no return-type problems exactly when every method pin's
      return type resolves, and has at most one per pin. */
  lemma ReturnTypeProblemsEmpty(pins: seq<MethodPin>)
    ensures AllReturnTypeProblems(pins) == [] <==> forall i :: 0 <= i < |pins| ==> !pins[i].typified.Undefined()
    ensures |AllReturnTypeProblems(pins)| <= |pins|
  {
    FlatMapEmpty(pins, CheckReturnType, (pin: MethodPin) => !pin.typified.Undefined());
    FlatMapAtMostOne(pins, CheckReturnType);
  }

  /** Each method pin whose return type does not resolve is reported. */
  lemma ReturnTypeProblemReported(pins: seq<MethodPin>, i: nat)
    requires i < |pins| && pins[i].typified.Undefined()
    ensures CheckReturnType(pins[i])[0] in AllReturnTypeProblems(pins)
  {
    FlatMapIncludes(pins, CheckReturnType, i, CheckReturnType(pins[i])[0]);
  }

  /** Every return-type problem is the one of a method pin whose return type
      does not resolve. */
  lemma ReturnTypeProblemSource(pins: seq<MethodPin>, p: Problem)
    requires p in AllReturnTypeProblems(pins)
    ensures exists i :: 0 <= i < |pins| && pins[i].typified.Undefined() && p == CheckReturnType(pins[i])[0]
  {
    FlatMapSource(pins, CheckReturnType, p);
    var i :| 0 <= i < |pins| && p in CheckReturnType(pins[i]);
    assert pins[i].typified.Undefined() && p == CheckReturnType(pins[i])[0];
  }

  /** The problem for a parameter whose `@param` type does not resolve:
      "undefined" when none was documented, "unresolved" otherwise. */
  function UndefinedParamProblem(par: ParameterPin, closure: MethodPin): Problem
  {
    var what := if par.returnType.Undefined() then " has undefined @param type for " else " has unresolved @param type for ";
    Problem(par.location, closure.name + what + par.name, None)
  }

  /** What `param_type_problems` reports for one parameter: nothing when its
      owner is not a method; otherwise the owner's unknown `@param` tags, then
      the parameter's own missing type. */
  function ParameterProblems(par: ParameterPin): (problems: seq<Problem>)
    ensures problems == [] <==> ParameterClean(par)
    ensures par.closure.Some? && par.typified.Undefined() ==> UndefinedParamProblem(par, par.closure.value) in problems
  {
    match par.closure
    case None => []
    case Some(closure) =>
      var tagProblems := ParamTagProblems(closure, closure.paramTags);
      ParamTagProblemsEmpty(closure, closure.paramTags);
      var own := if par.typified.Undefined() then [UndefinedParamProblem(par, closure)] else [];
      assert own != [] ==> own[0] == (tagProblems + own)[|tagProblems|];
      tagProblems + own
  }

  /** A parameter with nothing to report: not owned by a method, or every tag
      of its owner names a parameter and its own type resolves. */
  predicate ParameterClean(par: ParameterPin)
  {
    par.closure.None? || (AllTagsKnown(par.closure.value) && !par.typified.Undefined())
  }

  /** Every `@param` tag of `pin` names one of its parameters. */
  predicate AllTagsKnown(pin: MethodPin)
  {
    forall i :: 0 <= i < |pin.paramTags| ==> Known(pin.paramTags[i].name, pin.parameterNames)
  }

  /** The `param_type_problems` of every parameter, in order. */
  function AllParamTypeProblems(pars: seq<ParameterPin>): seq<Problem>
  {
    FlatMap(pars, ParameterProblems)
  }

  /** `param_type_problems`, over the parameter pins among the file's locals. */
  method ParamTypeProblems(pars: seq<ParameterPin>) returns (problems: seq<Problem>)
    ensures problems == AllParamTypeProblems(pars)
  {
    problems := [];
    var index := 0;
    while index < |pars|
      invariant 0 <= index <= |pars|
      invariant problems == FlatMap(pars[..index], ParameterProblems)
    {
      FlatMapStep(pars, ParameterProblems, index);
      var par := pars[index];
      if par.closure.Some? {
        var closure := par.closure.value;
        var tagProblems := CheckParamTags(closure);
        problems := problems + tagProblems;
        if par.typified.Undefined() {
          problems := problems + [UndefinedParamProblem(par, closure)];
        }
      }
      index := index + 1;
    }
    assert pars[..index] == pars;
  }

  /** No parameter problems exactly when every parameter is clean. */
  lemma ParamTypeProblemsEmpty(pars: seq<ParameterPin>)
    ensures AllParamTypeProblems(pars) == [] <==> forall i :: 0 <= i < |pars| ==> ParameterClean(pars[i])
  {
    FlatMapEmpty(pars, ParameterProblems, ParameterClean);
  }

  /** Every problem of a parameter appears in the pass: an owner's unknown
      tags are among the problems of each of its parameters. */
  lemma ParameterProblemReported(pars: seq<ParameterPin>, i: nat, p: Problem)
    requires i < |pars| && p in ParameterProblems(pars[i])
    ensures p in AllParamTypeProblems(pars)
  {
    FlatMapIncludes(pars, ParameterProblems, i, p);
  }

  /** Every problem of the pass belongs to some parameter owned by a method. */
  lemma ParamTypeProblemSource(pars: seq<ParameterPin>, p: Problem)
    requires p in AllParamTypeProblems(pars)
    ensures exists i :: 0 <= i < |pars| && pars[i].closure.Some? && p in ParameterProblems(pars[i])
  {
    FlatMapSource(pars, ParameterProblems, p);
  }

  /** The `confirm_return_type` problems of every method pin, in pin order. */
  function AllConfirmedReturnTypes(c: Checker, pins: seq<MethodPin>): seq<Problem>
  {
    FlatMap(pins, (pin: MethodPin) => ConfirmedReturnType(c, pin))
  }

  /** `confirm_return_type` over every method pin, concatenated. */
  method ConfirmReturnTypes(c: Checker, pins: seq<MethodPin>) returns (problems: seq<Problem>)
    ensures problems == AllConfirmedReturnTypes(c, pins)
  {
    var f := (pin: MethodPin) => ConfirmedReturnType(c, pin);
    problems := [];
    var index := 0;
    while index < |pins|
      invariant 0 <= index <= |pins|
      invariant problems == FlatMap(pins[..index], f)
    {
      FlatMapStep(pins, f, index);
      var more := ConfirmReturnType(c, pins[index]);
      problems := problems + more;
      index := index + 1;
    }
    assert pins[..index] == pins;
  }

  /** `strict_type_problems`: the declared return types confirmed against the
      probed ones, then the call sites of the file's syntax tree. */
  method StrictTypeProblems(c: Checker, pins: seq<MethodPin>, root: Node) returns (problems: seq<Problem>)
    ensures problems == AllConfirmedReturnTypes(c, pins) + SendArgsProblems(c, root)
  {
    var confirmed := ConfirmReturnTypes(c, pins);
    var calls := CheckSendArgs(c, root);
    problems := confirmed + calls;
  }

  /** Every mismatch comes from a pin with something to confirm, and names
      its probed type as the suggestion. */
  lemma ConfirmedProblemSource(c: Checker, pins: seq<MethodPin>, p: Problem)
    requires p in AllConfirmedReturnTypes(c, pins)
    ensures exists i :: 0 <= i < |pins| && !NothingToConfirm(pins[i]) && p == MismatchProblem(pins[i])
    ensures p.suggestion.Some?
  {
    var f := (pin: MethodPin) => ConfirmedReturnType(c, pin);
    FlatMapSource(pins, f, p);
    var i :| 0 <= i < |pins| && p in f(pins[i]);
    assert !NothingToConfirm(pins[i]) && p == MismatchProblem(pins[i]);
  }

  /** A file whose method pins have nothing to confirm and whose tree makes
      no call has no strict problems. */
  lemma QuietFileHasNoStrictProblems(c: Checker, pins: seq<MethodPin>, root: Node)
    requires forall i :: 0 <= i < |pins| ==> NothingToConfirm(pins[i])
    requires !HasSend(root)
    ensures AllConfirmedReturnTypes(c, pins) + SendArgsProblems(c, root) == []
  {
    NoSendNoProblems(c, root);
    if AllConfirmedReturnTypes(c, pins) != [] {
      ConfirmedProblemSource(c, pins, AllConfirmedReturnTypes(c, pins)[0]);
    }
  }
}
