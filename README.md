# Solargraph type checker and alias pin, modelled in Dafny

This project models the decision logic of Solargraph's `TypeChecker`. It
inspects the pins and syntax tree of one Ruby file and reports four groups
of problems:

- undefined or unresolved `@return` types;
- `@param` tags that name no parameter, and parameters with undefined or
  unresolved `@param` types;
- declared return types that disagree with the probed ones (strict mode);
- call sites whose arguments disagree with the callee's documented
  parameters (strict mode).

It also models the `MethodAlias` pin, which has a fixed kind and visibility
and a path that is built once and then remembered.

Layout:

- `strings.dfy` (module `Strings`): the string operations the checker uses.
- `types.dfy` (module `Types`): the values the checker reads: locations,
  complex types and their atoms, `@param` tags, method and parameter pins,
  and syntax-tree nodes.
- `type_checker.dfy` (module `TypeChecker`): the checker, its problems, and
  the lemmas about them.
- `method_alias.dfy` (module `Pin`): the alias pin, as a class whose `path`
  method fills its cached field.

The checker consults an API map and the expression chains it builds. These
are modelled as an `ApiMap` value holding uninterpreted functions:

- `superAndSub` is `super_and_sub?`;
- `bundled` is `bundled?`;
- `define(node)` is the pins that a call node's chain defines;
- `infer(node, e)` is the type inferred for the argument expression `e`;
- `words(node)` is the words of a call node's chain links.

What `typify`, `probe` and `ComplexType.try_parse(...).qualify(...)` answer
enters as data: `MethodPin.typified`, `MethodPin.probed`, `ParamTag.qualified`
and `ParameterPin.typified`. The pins a source map selects are given as
sequences: the method pins of the file, and the parameter pins among its
locals.

A complex type is a sequence of atoms. Single-type queries (`name`, `tag`,
`subtypes`, `value_types`, `undefined?`, `void?`) answer for the first atom.
`to_s` joins the tags of all atoms with ", ".

Behaviour that the proofs make explicit, following the code:

- "Not enough arguments" is reported when a call passes MORE arguments than
  the callee has plain parameters, and only when every parameter is plain.
  It is reported exactly once (`NotEnoughExactlyWhenTooMany`).
- Hash argument pairs are checked against the `@param` type of the parameter
  at the hash's own position (`parameter_names[index]`). The pair's key is
  read but never used (`HashKeysIgnored`). Keys are not matched against the
  documented parameters by name.
- The walk stops at a rest parameter when the rest parameter is the first
  non-plain one (`RestParameterStopsWalk`), and only then: when the first
  non-plain parameter is optional or keyword, the current kind never changes
  again, a later `*rest` or `**opts` is never reached, and every argument is
  checked up to a splat (`NonRestParameterChecksAll`). The cursor stops
  mattering once the kind is not plain (`StickyKindIgnoresCursor`).
- The call target is the first pin the chain defines; it is not chosen by
  arity. `check_arity` is modelled, but `check_send_args` does not call it.
- `arg_type` calls a declaration ending in `:` (Ruby's required keyword
  `k:`) `:kwoptarg`. It calls `k: 1` `:kwarg`. The model keeps these labels.
  Only `:restarg`, `:kwrestarg` and `:arg` change the walk, so the swap has
  no effect on the problems reported.

## Model

| member | source | states |
|---|---|---|
| TypeChecker.ArgTypeRules | lib/solargraph/type_checker.rb:261-268 | the kind is decided by the first rule that applies, in the source's order: `**` prefix, `*` prefix, an `=` anywhere, a trailing `:`, a line that starts with `[a-z0-9_]*` and a colon; otherwise a plain argument. Each kind is given iff its rule is the first to hold. |
| TypeChecker.KwargScanMatchesPattern | lib/solargraph/type_checker.rb:266 | the linear scan the function runs agrees with the declarative reading of `/^[a-z0-9_]*?:/`, where `^` matches at the start of any line |
| TypeChecker.ArgTypeExamples | lib/solargraph/type_checker.rb:261-268 | the kinds of `a`, `b = 1`, `*r`, `k:`, `o: 2`, `**kw` and `&blk` |
| TypeChecker.ArgTypes | lib/solargraph/type_checker.rb:250-257 | empty for a nil pin; otherwise one kind per parameter, the i-th being `arg_type` of the i-th declaration |
| TypeChecker.CheckArity | lib/solargraph/type_checker.rb:225-233 | nil args count as empty; the result is nil iff no pin fits; otherwise it is the first pin, in list order, that fits (both lists empty, equal lengths, or a `*` parameter) |
| TypeChecker.ReportLocation | lib/solargraph/type_checker.rb:270-273 | false for a nil location; otherwise true iff the location's file is the checked file or is bundled |
| TypeChecker.ParamTagProblems | lib/solargraph/type_checker.rb:85-92 | at most one problem per tag |
| TypeChecker.ParamTagProblemsEmpty | lib/solargraph/type_checker.rb:85-92 | no problems iff every tag names a parameter (a nil tag name never does) |
| TypeChecker.UnknownTagReported | lib/solargraph/type_checker.rb:87-89 | every tag that names no parameter has its "unknown @param" problem reported |
| TypeChecker.ParamTagProblemSource | lib/solargraph/type_checker.rb:87-89 | every problem is the "unknown @param" problem of a tag that names no parameter |
| TypeChecker.CheckParamTags | lib/solargraph/type_checker.rb:85-92 | the loop yields exactly the unknown-tag problems, in tag order |
| TypeChecker.ParamTable | lib/solargraph/type_checker.rb:235-246 | the table has no more entries than there are tags |
| TypeChecker.ParamTableKeys | lib/solargraph/type_checker.rb:241-244 | the keys are exactly the tag names, nil included |
| TypeChecker.ParamTableLastWins | lib/solargraph/type_checker.rb:241-244 | each name maps to the qualified type of the last tag with that name |
| TypeChecker.ParamTagsFrom | lib/solargraph/type_checker.rb:235-246 | empty for a nil pin; otherwise the loop builds exactly the table above |
| TypeChecker.CheckReturnType | lib/solargraph/type_checker.rb:96-107 | no problem iff the typified type is defined, otherwise exactly one, at the pin's location; its suggestion is the probed type's rendering when no type was declared, and absent when the declared type is unresolved |
| TypeChecker.ConfirmReturnType | lib/solargraph/type_checker.rb:111-150 | no problem for a void or undefined declared type, an attribute, an undefined probed type, equal renderings, or an empty `Array`/`Hash` probed where one is declared; otherwise the nested atom loops, which clear `all` and break, give the result of the atom-by-atom comparison |
| TypeChecker.ConfirmedReturnType | lib/solargraph/type_checker.rb:111-150 | at most one problem, whose suggestion is the probed type's rendering |
| TypeChecker.NarrowerUnionConfirmed | lib/solargraph/type_checker.rb:123-147 | a declared union that contains every probed atom (none of them a generic container) is confirmed |
| TypeChecker.ForeignAtomRejected | lib/solargraph/type_checker.rb:141-148 | a probed atom whose name differs from a declared atom's, that is not below it and that no declared atom renders like, gives exactly the mismatch problem, suggesting the probed type |
| TypeChecker.HashLiteralConfirmsHash | lib/solargraph/type_checker.rb:111-150 | a method probed as a hash literal and declared `Hash`, with or without generic parameters, is confirmed with no problem |
| TypeChecker.HashLiteralRejectsString | lib/solargraph/type_checker.rb:111-150 | a method probed as a hash literal but declared `String` gets exactly one mismatch, suggesting `Hash` |
| TypeChecker.CheckHashPairs | lib/solargraph/type_checker.rb:179-195 | every pair of a hash argument is checked against the type documented at the hash's own position |
| TypeChecker.CheckArgument | lib/solargraph/type_checker.rb:176-212 | a hash argument, a splat and a positional argument produce exactly the problems of the argument specification |
| TypeChecker.WalkArguments | lib/solargraph/type_checker.rb:167-215 | the `cursor`/`curtype` loop yields exactly the problems of the walk specification, which re-reads the kind only while it is nil or `:arg`, stops at rest kinds, reports once when the kinds are exhausted, and advances the cursor only past `:arg` |
| TypeChecker.CheckSendArgs | lib/solargraph/type_checker.rb:153-223 | the problems of every `send` node of the tree, in pre-order: "Unresolved method signature" when the chain defines no pin, otherwise the argument walk against the first pin |
| TypeChecker.ArgProblemsOk | lib/solargraph/type_checker.rb:176-212 | every problem of one argument is at the call node and is a missing-type, wrong-type or splat problem, never "Not enough"; a missing type is reported only when `report_location?` holds, and for a hash only when the callee has no `**` parameter; a splat problem is reported iff the argument is a splat |
| TypeChecker.PositionalTypeChecked | lib/solargraph/type_checker.rb:199-211 | a positional argument with a documented parameter type gets one "Wrong parameter type" problem iff its inferred tag differs from the documented one; without a documented type it gets "No @param type" iff `report_location?` holds |
| TypeChecker.HashUndocumented | lib/solargraph/type_checker.rb:179-187 | with no documented type at the hash's position, the hash gives one identical "No @param type" problem per pair when `report_location?` holds and the callee has no `**` parameter, and nothing otherwise |
| TypeChecker.HashPairsChecked | lib/solargraph/type_checker.rb:179-195 | with a documented type at the hash's position, every pair is compared with that same type, giving one "Wrong parameter type" per pair whose inferred tag differs, in pair order |
| TypeChecker.NotEnoughExactlyWhenTooMany | lib/solargraph/type_checker.rb:169-174 | "Not enough arguments" appears once when every parameter is plain and there are more arguments than parameters, and never otherwise |
| TypeChecker.RestParameterStopsWalk | lib/solargraph/type_checker.rb:170-171 | when the first non-plain parameter is `*rest` or `**opts`, the problems are those of the arguments before it alone |
| TypeChecker.NonRestParameterChecksAll | lib/solargraph/type_checker.rb:169-215 | when the first non-plain parameter is optional or keyword, the walk is the check of every argument in order, with no stop at a later rest parameter, as long as no splat follows |
| TypeChecker.StickyNonRestChecksAll | lib/solargraph/type_checker.rb:169-215 | once the current kind is optional or keyword, every remaining argument up to a splat is checked in order |
| TypeChecker.StickyKindIgnoresCursor | lib/solargraph/type_checker.rb:169-214 | once the current kind is neither nil nor `:arg`, it is never re-read, so the cursor no longer affects the result |
| TypeChecker.LeadingArgumentChecked | lib/solargraph/type_checker.rb:169-214 | every argument before the first non-plain parameter has all its problems reported, and a splat there always gives "Can't handle splat" |
| TypeChecker.HashKeysIgnored | lib/solargraph/type_checker.rb:179-181 | two hash arguments whose pairs have equal values give the same problems, whatever their keys |
| TypeChecker.WalkProblemsOk | lib/solargraph/type_checker.rb:169-215 | every walk problem is at the call node and is of one of the four call-site kinds; a missing-type problem only appears when `report_location?` holds |
| TypeChecker.SendArgsProblemsInFile | lib/solargraph/type_checker.rb:153-223 | every call-site problem of a tree is located in the checked file |
| TypeChecker.UnresolvedReportedOnce | lib/solargraph/type_checker.rb:153-223 | the "Unresolved method signature" problems of a tree are exactly as many as its `send` nodes whose chain defines no pin |
| TypeChecker.SubtreeProblemsIncluded | lib/solargraph/type_checker.rb:218-221 | every child subtree's problems appear in its parent's |
| TypeChecker.NoSendNoProblems | lib/solargraph/type_checker.rb:153-223 | a tree without `send` nodes has no call-site problems |
| TypeChecker.ReturnTypeProblems | lib/solargraph/type_checker.rb:39-45 | the loop concatenates the return-type problems of every method pin, in pin order |
| TypeChecker.ReturnTypeProblemsEmpty | lib/solargraph/type_checker.rb:39-45 | no return-type problems iff every method pin's return type resolves |
| TypeChecker.ReturnTypeProblemReported | lib/solargraph/type_checker.rb:39-45 | each pin whose return type does not resolve has its problem reported |
| TypeChecker.ReturnTypeProblemSource | lib/solargraph/type_checker.rb:39-45 | every reported problem belongs to a pin whose return type does not resolve |
| TypeChecker.ParameterProblems | lib/solargraph/type_checker.rb:51-62 | a parameter has no problems iff its owner is not a method, or its owner's tags all name parameters and its own type resolves; an unresolved type is always reported |
| TypeChecker.ParamTypeProblems | lib/solargraph/type_checker.rb:48-65 | the loop skips parameters not owned by a method; for the others it gives the owner's unknown tags, then "undefined"/"unresolved @param type", so an owner's unknown tags are repeated for each of its parameters |
| TypeChecker.ParamTypeProblemsEmpty | lib/solargraph/type_checker.rb:48-65 | no parameter problems iff every parameter is clean |
| TypeChecker.ParameterProblemReported | lib/solargraph/type_checker.rb:48-65 | every problem of every parameter is reported, including its owner's unknown-tag problems |
| TypeChecker.ParamTypeProblemSource | lib/solargraph/type_checker.rb:48-65 | every reported problem belongs to a parameter owned by a method |
| TypeChecker.StrictTypeProblems | lib/solargraph/type_checker.rb:68-76 | the confirmation problems of every method pin, followed by the call-site problems of the tree |
| TypeChecker.ConfirmedProblemSource | lib/solargraph/type_checker.rb:68-76 | every confirmation problem is the mismatch problem of a pin with something to confirm |
| TypeChecker.QuietFileHasNoStrictProblems | lib/solargraph/type_checker.rb:68-76 | with nothing to confirm and no calls, strict mode reports nothing |
| Pin.MethodAlias.constructor | lib/solargraph/pin/method_alias.rb:12-16 | scope defaults to `instance` and `original` to nil; namespace, name, scope and original are stored as given; no path is cached yet |
| Pin.MethodAlias.Kind | lib/solargraph/pin/method_alias.rb:18-20 | always the alias kind |
| Pin.MethodAlias.GetVisibility | lib/solargraph/pin/method_alias.rb:22-24 | always public |
| Pin.MethodAlias.Path | lib/solargraph/pin/method_alias.rb:26-28 | the path is namespace, `#` for the instance scope or `.` for any other, then name; it is cached on the first call, and a cached path is returned unchanged |
| Pin.PathIsStable | lib/solargraph/pin/method_alias.rb:26-28 | two successive calls give the same path, which begins with the namespace followed by the scope's separator |
| Pin.PathParts | lib/solargraph/pin/method_alias.rb:27 | a path splits back into namespace, separator and name |
| Pin.PathInjective | lib/solargraph/pin/method_alias.rb:27 | within one namespace, the path determines the name and whether the scope is the instance scope |

## Left out

- `TypeChecker.load`, `TypeChecker.load_string` and the `ApiMap.load` fallback in `initialize` read files and directories, so they are not modelled. A checker is built from a file name and a given API map.
- The source map (`source_map`, `locals_at`, `locate_block_pin`) is left out. Its pin and local selections are inputs, and block and locals are folded into the `infer` oracle.
- `super_and_sub?`, `bundled?`, `typify`, `probe`, `try_parse`/`qualify` and `NodeChainer.chain` with `define`/`infer`/`links` are unseen code. They are oracles or data.
- ParamTagsFrom: the interim `ComplexType::UNDEFINED` entry written before each parsed type is not modelled, because it is overwritten at once.
- TypeChecker.PairValue: a malformed pair, or a `send` node with fewer than two children, would raise in the source. The model reads a missing child as nil and no arguments.
- The hash-pair key (`sym`) is computed in the source but never used, so it is not modelled.
- The numeric values of the `Pin` kind constants are not part of this model. Kinds are an enumeration.
- MethodAlias: the base pin's other fields and the `**splat` passed to the superclass (location, comments, parameters) are left out. Only namespace and name are kept.
- Parser gem nodes are reduced to a type, a child list and a range. Leaf values are opaque strings.
- TypeChecker.ConfirmedReturnType: the function's own contract states only the bound and the suggestion. The early exits are stated on `ConfirmReturnType` and the atom-level cases in the lemmas.
- Pin.MethodAlias: Ruby scopes are Symbols (`:instance`, `:class`); they are modelled as names (`"instance"`), so a String scope spelled like the Symbol cannot be told apart from it here.
