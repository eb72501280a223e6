# xlang: validation pass, builtins and interpreter in Dafny

xlang is a small statically typed language. A program is parsed into a
`GlobalScope` of structs and functions. The validation pass then resolves
every type name and type-checks every function body, writing the inferred
types onto the tree and raising a context error, a type mismatch or an
internal compiler error. A tree-walking interpreter runs the checked program,
calling the builtins (`prints`, `printi`, `printf`, `printb`, `assert`, the
array method `append` and the string methods `toLowerCase`/`toUpperCase`).

This project models:

- the AST and its constants;
- the type helpers (name lookup, literal typing, type compatibility);
- the builtin registry;
- the validator with its scope stack;
- the interpreter with its runtime values and scope stack.

It proves what these promise. Each source file keeps its own form:

- The pure decision code becomes Dafny functions. The main one is the
  checker in `check.dfy`, which returns the annotated copy of a node the
  Python code writes in place.
- The code that changes objects becomes classes with `modifies` clauses,
  each method proved equal to the function that specifies it:
  - the two `ScopeStack`s;
  - the validator's `Typeifier`, which saves and restores `inside_loop`;
  - the builtin registry;
  - `append` on an array cell;
  - the `Interpreter`, which swaps its scope stack around each call.
- The validation driver, which overwrites types member by member, becomes
  methods whose loops work on local copies of the struct and function
  lists. Each is proved equal to its function in `check.dfy`
  (`ResolveStruct`, `ResolveStructs`, `ResolveSignature`, `ResolveSignatures`,
  `CheckFunction`, `CheckBodies`, `ValidationPass`).

Files:

- `wrappers.dfy`: Option, Result and Outcome.
- `ast.dfy`: the AST (`Ast`) and the error kinds (`Exceptions`).
- `types.dfy`: the type helpers (`Types`).
- `frames.dfy`: innermost-first lookup over a stack of frames (`Frames`).
- `scopes.dfy`: the validator's scope stack (`Scopes`).
- `check.dfy`: the checker as functions (`Check`).
- `check_props.dfy`: what the checker promises (`CheckProps`).
- `typeifier.dfy`: the `Typeifier` class and the driver (`Validation`).
- `builtins.dfy`: the builtins (`Builtins`).
- `runtime.dfy`: values and the interpreter's scope stack (`Runtime`).
- `interp.dfy`: the interpreter (`Interp`).

How errors are modelled:

- The three `ContextException` kinds carry a position and, once the driver
  tags them, the name and position of the function they were raised in.
- A crash of the host Python (an `AttributeError`, `KeyError`, failed
  `assert` or `TypeError`) and an `InternalCompilerError` are both
  `Internal`.
- The interpreter's plain `Exception` is `Runtime`.

Where the files of this snapshot disagree, the model follows the code of the
core file that runs the step:

- `typeify` is called with three arguments (`xlang/validation_pass.py:92`)
  but declared with two (`xlang/xl_types.py:11`). It is modelled as the
  two-argument function.
- `get_type_from_string` (`xlang/xl_types.py:33-59`) has no enum case.
  Enum-typed variables, parameters and struct members therefore fail with
  "Unknown type". The two enum-member checks of the driver and of struct
  initialisation cannot fire as written.
- The transformer of this snapshot also puts the builtins into the
  function table (`xlang/transformer.py:165-167`). The validator looks them
  up separately, after the user functions (`xlang/validation_pass.py:476-479`),
  and its driver could not visit a builtin (line 721 asserts a user
  function). So the model's `GlobalScope` holds the user functions only.
  Both the checker and the interpreter consult the builtin registry after
  them, which gives the same answer because the transformer rejects a
  user function named like a builtin.
- The interpreter names an `OperatorExpression` class that no AST file
  defines (`xlang/interpreter.py:84`). It is read as the two binary node
  kinds, math and comparison. Comparisons reach "unimplemented operator".
- `xlang/validation_pass.py:40` imports `TypeMismatchException`, which
  `xlang/exceptions.py` does not define. The model reads it as a subclass of
  `ContextException`, like `InterpreterAssertionError`. So
  `Exceptions.TagWithFunction` tags it with the function name and context,
  and it keeps its own kind.
- `xlang/interpreter.py:7-30` defines its own `Value` and `ScopeStack`. The
  model uses the fuller ones of `xlang/interpreter_datatypes.py`, which the
  builtins use.
- `tests/test_interpreter.py:96-112` expects `assert(false)` to raise an
  assertion error through the interpreter. The interpreter of this snapshot
  calls every builtin without the `context` keyword
  (`xlang/interpreter.py:57`), and `assert` is registered to read it
  (`xlang/xl_builtins.py:30-32`). As written, every `assert` call therefore
  fails with a `KeyError`. The model follows the code:
  `Interp.AssertCallHasNoContext`. What `assert` does when it is given a
  context is `Builtins.AssertFailsIffNotTrue`.

## Model

| member | source | states |
|---|---|---|
| Ast.IntegerTypesAreTheEightWidths | xlang/xl_ast.py:31-43 | the integer types are exactly the eight signed and unsigned widths; no string, bool or float is among them |
| Ast.NumberTypesAddOnlyFloat | xlang/xl_ast.py:43 | NUMBER_TYPES is the integer types plus FLOAT; F32, STRING, BOOL and CHAR are not numbers |
| Ast.MakeContext | xlang/xl_ast.py:54-65 | a context without a token is the builtin one; otherwise it copies line and column, and the positions from the token's stream position (old format) or its start and end |
| Ast.ContextRepr | xlang/xl_ast.py:67-71 | a builtin context prints as `<builtin>`, any other starts with `line: ` |
| Ast.ContextReprShowsPosition | xlang/xl_ast.py:70-71 | a parsed context prints its line after `line: ` and its column after `, column: `, each a numeral that reads back as the number |
| Ast.NatToString | xlang/xl_ast.py:71 | `str` of a non-negative int is a non-empty digit string denoting that int |
| Ast.IntToString | xlang/xl_ast.py:71 | `str` of an int is an optional minus sign and digits that read back as that int |
| Ast.NewFunctionCall | xlang/xl_ast.py:145-149 | a new call node has no type yet and keeps its name, arguments and context |
| Ast.NewIf | xlang/xl_ast.py:206-211 | a new if has no elifs and no else, and keeps its condition and body |
| Ast.NewReturn | xlang/xl_ast.py:233-235 | a return built without a value carries none |
| Ast.FindStruct | xlang/xl_ast.py:89-92 | the struct found has the name asked for; none is found iff no struct has that name |
| Ast.FindFunction | xlang/xl_ast.py:89-92 | the function found has the name asked for; none is found iff no function has that name |
| Exceptions.TagWithFunction | xlang/validation_pass.py:725-728 | only context exceptions get a function name and context; the same exception comes through, keeping its kind (context error, type mismatch or assertion failure), message and position; other errors pass through untouched |
| Types.PrimitiveByName | xlang/xl_types.py:33-55 | no type name spells CHAR or FLOAT |
| Types.GetTypeFromString | xlang/xl_types.py:33-59 | primitive names map to their primitive type, then struct names to struct types; any other name is the internal error "Unknown type: name"; the result is always primitive or struct |
| Types.Typeify | xlang/xl_types.py:11-24 | an unresolved name is looked up, an array of an unresolved name gets its element looked up; any other type is an internal error; a success is fully resolved |
| Types.TablesAreTheBounds | xlang/xl_types.py:62-75 | the SIGNED and UNSIGNED tables hold the minimum and maximum of i8..i64 and u8..u64 |
| Types.LiteralTypeIsNarrowest | xlang/xl_types.py:77-99 | an integer constant fails iff it lies outside i64..u64 ("Constant out of range"); otherwise it gets a signed type iff it is negative, the value fits, and no narrower type of that family holds it |
| Types.IsTypeCompatible | xlang/xl_types.py:134-155 | a generic target accepts everything; different categories never match; structs match by name; the only failure is the internal "Unhandled type" error |
| Types.PrimitiveCompatibleIffWidens | xlang/xl_types.py:103-155 | for primitive types, compatibility is exactly the auto-conversion table |
| Types.WideningDirection | xlang/xl_types.py:103-132 | an unsigned target accepts unsigned types no wider; a signed target accepts signed types no wider and unsigned types strictly narrower; any other type accepts only itself |
| Types.I32AcceptsU8ButNotConversely | xlang/xl_types.py:103-132 | i32 accepts u8 but u8 does not accept i32 |
| Types.CompatibleReflexive | xlang/xl_types.py:134-155 | every resolved type accepts itself |
| Types.CompatibleAntisymmetric | xlang/xl_types.py:134-155 | two types that accept each other are equal |
| Types.CompatibleTransitive | xlang/xl_types.py:134-155 | compatibility composes |
| Types.EnumPairIsInternalError | xlang/xl_types.py:153-155 | comparing two enum types raises the internal "Unhandled type" error |
| Frames.Lookup | xlang/interpreter_datatypes.py:32-37 | a name is found iff some frame binds it, and then the value is the innermost frame's binding |
| Frames.LookupAfterPush | xlang/interpreter_datatypes.py:39-40 | pushing an empty frame hides nothing |
| Frames.LookupShadowing | xlang/interpreter_datatypes.py:32-35 | a name bound in the innermost frame shadows the outer frames; otherwise the outer answer is kept |
| Frames.Bind | xlang/interpreter_datatypes.py:29-30 | binding writes the innermost frame only: outer frames and other names are unchanged |
| Frames.LookupAfterBind | xlang/interpreter_datatypes.py:29-35 | after binding, the name reads back its value and every other name reads as before |
| Runtime.NewValue | xlang/interpreter_datatypes.py:17-22 | a new Value has no primitive tag, is not an array and has no type name |
| Runtime.GetVariableResult | xlang/interpreter_datatypes.py:32-37 | reading succeeds iff some frame binds the name, with the innermost binding; otherwise the internal error "Unknown variable: name" |
| Runtime.ScopeStack.constructor | xlang/interpreter_datatypes.py:26-27 | a new stack holds one empty frame |
| Runtime.ScopeStack.SetVariable | xlang/interpreter_datatypes.py:29-30 | writes the innermost frame, overwriting silently; on an empty stack it is an index error and nothing changes |
| Runtime.ScopeStack.GetVariable | xlang/interpreter_datatypes.py:32-37 | the loop over the frames from the innermost returns GetVariableResult |
| Runtime.ScopeStack.PushScope | xlang/interpreter_datatypes.py:39-40 | appends one empty frame |
| Runtime.ScopeStack.PopScope | xlang/interpreter_datatypes.py:42-43 | drops exactly the innermost frame; an empty stack is an internal error and stays empty |
| Runtime.GetAfterSet | xlang/interpreter_datatypes.py:29-37 | a set variable reads back its value; other names are unaffected |
| Runtime.SetOverwrites | xlang/interpreter_datatypes.py:29-30 | setting a name twice leaves the last value, with no duplicate check |
| Runtime.PopUncoversShadowed | xlang/interpreter_datatypes.py:39-43 | a binding in a pushed frame shadows the outer one for that name only, every other name still reads its outer binding, and popping that frame gives back the old frames |
| Builtins.Prim | xlang/xl_builtins.py:106-115 | a builtin parameter is by value, of the given primitive type, at the builtin context |
| Builtins.MethodTable | xlang/xl_builtins.py:17 | the per-type method table of a type never registered is empty |
| Builtins.Registry.constructor | xlang/xl_builtins.py:118-181 | registering the decorated builtins in source order yields the function, array-method and primitive-method tables |
| Builtins.Registry.RegisterFunction | xlang/xl_builtins.py:20-44 | adds or replaces one entry of the function table and leaves the method tables alone |
| Builtins.Registry.RegisterArrayMethod | xlang/xl_builtins.py:47-73 | adds or replaces one array method and leaves the other tables alone |
| Builtins.Registry.RegisterPrimitiveMethod | xlang/xl_builtins.py:76-103 | adds or replaces one method in the table of its primitive type, creating that table on first use |
| Builtins.AppendParam | xlang/xl_builtins.py:144-155 | append's parameter is by value and generic |
| Builtins.FreeFunctionSignatures | xlang/xl_builtins.py:118-141 | there are exactly five free builtins, each returning nothing and taking one by-value primitive (string, i64, f32, bool, bool); only `assert` asks for the context |
| Builtins.MethodSignatures | xlang/xl_builtins.py:144-181 | arrays have only `append`; only strings have methods, `toLowerCase` and `toUpperCase`, which take nothing and return a string |
| Builtins.BuiltinAssert | xlang/xl_builtins.py:138-141 | passes iff the value is True; otherwise an assertion failure at the call context |
| Builtins.Appended | xlang/xl_builtins.py:156-157 | appending to a list value adds the element at the end, keeping the items before it and every other field |
| Builtins.ValueCell.constructor | xlang/xl_builtins.py:156-157 | a cell holds the value it was made with |
| Builtins.AppendInPlace | xlang/xl_builtins.py:156-157 | the array's value becomes Appended of the old value; on a non-list it is unchanged |
| Builtins.Invoke | xlang/xl_builtins.py:30-34 | an entry registered with context and called without one is a KeyError; a wrong argument count is a host error; only append changes its arguments |
| Builtins.ContextOnlyWhenRegistered | xlang/xl_builtins.py:30-34 | an entry registered without context ignores any context it is given |
| Builtins.AssertFailsIffNotTrue | xlang/xl_builtins.py:138-141 | called with a context, `assert` fails iff its argument is not True, with an assertion failure at that context |
| Builtins.AppendThroughRegistry | xlang/xl_builtins.py:144-157 | the registered `append` adds the value at the end of the array's items |
| Scopes.Define | xlang/validation_pass.py:48-53 | defining fails iff the innermost frame already binds the name ("Variable name already defined") or the stack is empty (an internal error); otherwise the name reads back its binding |
| Scopes.TypeOfVariable | xlang/validation_pass.py:55-59 | the type of the innermost binding, None for an unbound name |
| Scopes.ConstnessOf | xlang/validation_pass.py:61-65 | the constness of the innermost binding, None for an unbound name |
| Scopes.ScopeStack.constructor | xlang/validation_pass.py:45-46 | a new stack holds one empty frame |
| Scopes.ScopeStack.DefVariable | xlang/validation_pass.py:48-53 | the new stack is Define of the old one, or the error and no change |
| Scopes.ScopeStack.GetVariableType | xlang/validation_pass.py:55-59 | the loop from the innermost frame returns TypeOfVariable |
| Scopes.ScopeStack.IsConst | xlang/validation_pass.py:61-65 | the loop from the innermost frame returns ConstnessOf |
| Scopes.ScopeStack.PushScope | xlang/validation_pass.py:67-68 | appends one empty frame |
| Scopes.ScopeStack.PopScope | xlang/validation_pass.py:70-71 | drops exactly the innermost frame |
| Scopes.ShadowInPushedFrame | xlang/validation_pass.py:48-68 | in a pushed frame a name may be defined again; it shadows the outer binding and the outer frames are unchanged |
| Scopes.DefineKeepsOthers | xlang/validation_pass.py:48-65 | defining one name changes the type and constness of no other name |
| Check.RequireType | xlang/validation_pass.py:395-471 | reading the type of an untyped node is an internal error |
| Check.Compat | xlang/xl_types.py:134-155 | is_type_compatible on two known types; an unknown target is an internal error |
| Check.ConstantType | xlang/validation_pass.py:630-654 | integer literals get their narrowest type; strings are string, floats f32, bools bool, chars char |
| Check.EnumType | xlang/validation_pass.py:657-673 | a name that is no enum gives None; an enum access must name a member, and that member must exist |
| Check.CalleeSignature | xlang/validation_pass.py:473-486 | user functions first, then builtins; a name that is neither is "Unknown function called" |
| Check.MethodFor | xlang/validation_pass.py:522-561 | a method resolves iff it is an array method of an array or a registered method of the primitive type; otherwise a context error |
| Check.FirstMember | xlang/validation_pass.py:338-344 | the first member of that name, None iff there is none |
| Check.LastMember | xlang/validation_pass.py:574 | the last member of that name, the one the field map keeps, None iff there is none |
| Check.FirstMissingEnumField | xlang/validation_pass.py:612-621 | the first enum member neither initialised nor defaulted, None iff there is none |
| Check.Innermost | xlang/validation_pass.py:134-136 | the result is on the access's member chain and has no member, so it is the chain's end; an access without a member is its own innermost |
| Check.FoldInt | xlang/validation_pass.py:257-274 | integer folding: `/` and `%` by zero are "Division by zero", otherwise floor division and modulo; an unknown operator fails |
| Check.FoldFloat | xlang/validation_pass.py:279-308 | float folding yields f32; a zero divisor or an unknown operator fails |
| Check.Unify | xlang/validation_pass.py:309-328 | the first operand's type if it accepts the second, else the second's if it accepts the first, else "Incompatible type in operator expressions"; a chosen type is always a known one |
| Check.Expression | xlang/validation_pass.py:395-471 | the annotated node carries the type returned and keeps its context; every node but a call or access gets a type |
| Check.VariableAccessType | xlang/validation_pass.py:202-236 | the access keeps its name and context, gets the variable's type, and keeps exactly the index, member and method call it had |
| Check.ArrayAccess | xlang/validation_pass.py:361-393 | indexing an array gives its element type and a string gives char; the index is an integer; any other type is "Indexing not supported" |
| Check.StructAccess | xlang/validation_pass.py:330-359 | member access needs a struct type and a member of that name |
| Check.MethodCall | xlang/validation_pass.py:522-561 | a method call has the resolved method's return type and keeps its arguments' number |
| Check.FunctionCallType | xlang/validation_pass.py:473-486 | a call has its callee's return type and keeps its name, context and arguments' number |
| Check.CheckCallArguments | xlang/validation_pass.py:488-520 | a wrong argument count is rejected with the expected and given counts |
| Check.CheckArgs | xlang/validation_pass.py:503-520 | an accepted argument list has one checked argument per argument |
| Check.CheckedArguments | xlang/validation_pass.py:503-520 | each accepted argument keeps its location, has a type its parameter accepts, and is a non-const variable where the parameter is a reference |
| Check.StructInitialization | xlang/validation_pass.py:563-627 | an unknown struct is "Unknown struct"; an accepted initialiser has the struct type and one checked entry per field initialiser |
| Check.AcceptedStructInitialization | xlang/validation_pass.py:563-627 | an accepted initialiser names known fields, each at most once, and initialises every enum field that has no default |
| Check.FieldInits | xlang/validation_pass.py:580-609 | accepted field initialisers keep their number |
| Check.AcceptedFieldInits | xlang/validation_pass.py:580-609 | accepted field initialisers are distinct, known, not initialised before and type-correct, and the set of initialised names grows by exactly them |
| Check.Block | xlang/validation_pass.py:146-148 | a block leaves the state it found and keeps its statements' number |
| Check.CheckStatements | xlang/validation_pass.py:86-88 | a statement list keeps its length and changes only the innermost frame |
| Check.CheckIf | xlang/validation_pass.py:151-179 | an accepted if leaves the state unchanged and has a bool condition, its elifs in number, each with a bool condition |
| Check.CheckElif | xlang/validation_pass.py:167-179 | an accepted elif has a bool condition and leaves the state unchanged |
| Check.CheckElifs | xlang/validation_pass.py:167-179 | every accepted elif has a bool condition; the state is unchanged |
| Check.CheckStatement | xlang/validation_pass.py:90-200 | only declarations and definitions change the state, and then only the innermost frame; loops and ifs restore it |
| Check.DefineParams | xlang/validation_pass.py:77-82 | binding the parameters changes only the base frame of the stack |
| Check.ParamsKeepBaseFrame | xlang/validation_pass.py:77-82 | binding the parameters keeps every binding the base frame held |
| Check.ParamsAreBound | xlang/validation_pass.py:77-82 | every parameter is bound in the base frame, const unless passed by reference |
| Check.CheckFunction | xlang/validation_pass.py:723-724 | checking a body changes only the body, keeping its length |
| Check.DefaultValueType | xlang/validation_pass.py:680-695 | a constant default has its constant type, an access default its enum type; any other default is "Invalid default value type: " |
| Check.WithType | xlang/validation_pass.py:701 | writing a type onto a node sets exactly its type |
| Check.ResolveMember | xlang/validation_pass.py:679-708 | a resolved member has its type resolved by typeify and a default of a type it accepts |
| Check.ResolveMembers | xlang/validation_pass.py:678-708 | every member is resolved as ResolveMember says |
| Check.ResolveStruct | xlang/validation_pass.py:678-708 | a struct changes only in its members |
| Check.ResolveStructs | xlang/validation_pass.py:677-708 | every struct is resolved as ResolveStruct says, in order |
| Check.ResolveParams | xlang/validation_pass.py:715-718 | each parameter changes only in its type, resolved by typeify |
| Check.ResolveSignature | xlang/validation_pass.py:711-718 | a signature keeps name, body and context; a return type is resolved by typeify |
| Check.ResolveSignatures | xlang/validation_pass.py:710-718 | every signature is resolved as ResolveSignature says, in order |
| Check.CheckBodies | xlang/validation_pass.py:720-728 | every body is checked as CheckFunction says, in order |
| CheckProps.FloorDivMod | xlang/validation_pass.py:263-270 | folded `/` and `%` recombine to the dividend and the remainder has the divisor's sign |
| CheckProps.FloorExamples | xlang/validation_pass.py:263-270 | floor rounding on negative operands: -7 // 2 is -4 and 7 % -2 is -1 |
| CheckProps.FoldedConstantType | xlang/validation_pass.py:247-276 | two integer constants take the narrowest type of the folded value; `/` or `%` by a zero constant is "Division by zero" |
| CheckProps.FoldingExamples | xlang/validation_pass.py:247-276 | 200 + 100 is a u16, 5 - 10 an i8, and 7 / 0 is rejected |
| CheckProps.UnfoldedMathTakesOperandType | xlang/validation_pass.py:309-328 | an unfolded operation takes one operand's type, which accepts the other's |
| CheckProps.ComparisonIsBool | xlang/validation_pass.py:404-416 | a comparison is a bool, accepted iff one operand type accepts the other |
| CheckProps.UnaryOperandRules | xlang/validation_pass.py:417-466 | `not` needs a bool; unary minus keeps a signed integer or f32 type and rejects unsigned ones by name |
| CheckProps.UserFunctionShadowsBuiltin | xlang/validation_pass.py:473-486 | a user function's return type wins over a builtin of the same name |
| CheckProps.CallArityMismatch | xlang/validation_pass.py:488-500 | a wrong argument count is rejected with both counts |
| CheckProps.AcceptedCallArguments | xlang/validation_pass.py:503-520 | an accepted call passes accepted arguments and non-const variables for reference parameters |
| CheckProps.MethodsOnlyOnArraysAndStrings | xlang/validation_pass.py:522-561 | method calls on types other than arrays and strings fail |
| CheckProps.VariableShadowsEnum | xlang/validation_pass.py:202-236 | a variable hides an enum of the same name |
| CheckProps.UnknownNames | xlang/validation_pass.py:202-236 | a name that is no variable must be an enum with the member named |
| CheckProps.StringIndexIsChar | xlang/validation_pass.py:361-393 | indexing a string gives char with an integer index |
| CheckProps.StructFieldMustExist | xlang/validation_pass.py:330-359 | a field access must name a member of the struct |
| CheckProps.AccessStatementNeedsMethodCall | xlang/validation_pass.py:133-142 | an access statement whose chain ends without a method call is rejected |
| CheckProps.BreakNeedsLoop | xlang/validation_pass.py:143-150 | break and continue are accepted iff inside a loop; a loop around a conditional break is accepted anywhere and restores the state |
| CheckProps.DeclarationBindsMutable | xlang/validation_pass.py:91-97 | a declaration binds a mutable variable of the resolved type, and fails on a name already in the innermost frame |
| CheckProps.DefinitionBindsWithConstness | xlang/validation_pass.py:98-112 | a definition binds with its own constness and needs a value the declared type accepts |
| CheckProps.AssignmentRules | xlang/validation_pass.py:113-130 | assignment needs a non-const variable and a value its type accepts |
| CheckProps.OneParamFrame | xlang/validation_pass.py:77-82 | one parameter makes a base frame with that parameter alone, const unless by reference |
| CheckProps.AssignToValueParamFails | xlang/validation_pass.py:78-82 | assigning to a by-value parameter is rejected |
| CheckProps.RedeclaredParamFails | xlang/validation_pass.py:78-97 | redeclaring a parameter at the top of the body is "already defined" |
| CheckProps.ConditionsAreBool | xlang/validation_pass.py:151-179 | the conditions of an if and all its elifs are bool |
| CheckProps.ReturnRules | xlang/validation_pass.py:180-192 | a bare return is accepted; a value needs a return type that accepts it |
| CheckProps.FirstFailingBody | xlang/validation_pass.py:720-728 | the error reported is that of the first failing body, tagged with that function |
| Check.ValidationPass | xlang/validation_pass.py:676-728 | the struct phase, then the signature phase report their first error; an accepted program keeps its enums and its numbers of structs and functions (what it resolves is CheckProps.AcceptedProgramIsResolved) |
| CheckProps.AcceptedProgramIsResolved | xlang/validation_pass.py:676-728 | an accepted program has every member, parameter and return type resolved and keeps its structs and functions in order |
| Validation.Typeifier.constructor | xlang/validation_pass.py:75-84 | a new typeifier has a fresh single-frame stack and is outside any loop |
| Validation.Typeifier.DefineParameters | xlang/validation_pass.py:77-82 | the parameter loop yields DefineParams of the starting stack |
| Validation.Typeifier.Statements | xlang/validation_pass.py:86-88 | the statement loop agrees with CheckStatements: the same error, or the same annotated statements and state |
| Validation.Typeifier.Block | xlang/validation_pass.py:146-148 | push, statements, pop agree with Block |
| Validation.Typeifier.Statement | xlang/validation_pass.py:90-200 | agrees with CheckStatement, including the saved and restored `inside_loop` |
| Validation.Typeifier.Declaration | xlang/validation_pass.py:91-112 | agrees with CheckStatement on declarations and definitions |
| Validation.Typeifier.Assignment | xlang/validation_pass.py:113-130 | agrees with CheckStatement on assignments |
| Validation.Typeifier.AccessStatement | xlang/validation_pass.py:133-142 | the walk to the innermost access agrees with CheckStatement |
| Validation.Typeifier.IfStatement | xlang/validation_pass.py:151-179 | agrees with CheckStatement on ifs |
| Validation.Typeifier.Elifs | xlang/validation_pass.py:167-179 | the elif loop agrees with CheckElifs |
| Validation.Typeifier.ElifBranch | xlang/validation_pass.py:168-179 | one elif agrees with CheckElif |
| Validation.Typeifier.ReturnStatement | xlang/validation_pass.py:180-192 | agrees with CheckStatement on returns |
| Validation.ResolveStructInPlace | xlang/validation_pass.py:678-708 | the member loop yields ResolveStruct |
| Validation.ResolveSignatureInPlace | xlang/validation_pass.py:711-718 | the parameter loop yields ResolveSignature |
| Validation.CheckFunctionInPlace | xlang/validation_pass.py:723-724 | a fresh typeifier over the body yields CheckFunction |
| Validation.ResolveStructsInPlace | xlang/validation_pass.py:677-708 | the first phase yields ResolveStructs |
| Validation.ResolveSignaturesInPlace | xlang/validation_pass.py:710-718 | the second phase yields ResolveSignatures |
| Validation.CheckBodiesInPlace | xlang/validation_pass.py:720-728 | the third phase yields CheckBodies, tagging the error with its function |
| Validation.ValidatePass | xlang/validation_pass.py:676-728 | the three phases in place yield ValidationPass |
| Interp.ValueFromConstant | xlang/interpreter.py:110-111 | a constant is a primitive, non-array Value with its literal and the validator's tag; an untyped node has no tag to read |
| Interp.FloatGuardRejectsExactlyTheMixes | xlang/interpreter.py:92-93 | the intended guard rejects iff exactly one operand is FLOAT |
| Interp.FloatGuardAsWrittenRejectsFloatPair | xlang/interpreter.py:92-93 | the guard as written rejects FLOAT with FLOAT and agrees with the intended one on every other pair |
| Interp.Arith | xlang/interpreter.py:94-103 | on integers only a zero divisor fails, and `/` and `%` are floor division and modulo; non-numbers are a host error |
| Interp.ApplyWith | xlang/interpreter.py:87-104 | the operand checks come first ("not supported"), then the FLOAT guard (the mixing error); a success is the payload arithmetic tagged with the node's type |
| Interp.ApplyArithAsWritten | xlang/interpreter.py:87-104 | the step the evaluator runs: non-numbers are "not supported", a pair the guard as written rejects is the mixing error, a success is the tagged arithmetic, and no FLOAT operand on either side ever succeeds |
| Interp.ApplyArith | xlang/interpreter.py:87-104 | the corrected step: non-numeric, array or untagged operands are "not supported"; a FLOAT mixed with another tag is rejected; a success is the payload arithmetic tagged with the node's type |
| Interp.FloatPlusFloatRejectedAsWritten | xlang/interpreter.py:92-93 | 1.0 + 2.0 on FLOAT values raises the mixing error as written, in the step and in the evaluator, and gives 3.0 with the intended guard |
| Interp.EvalExpr | xlang/interpreter.py:77-108 | only constants and the five arithmetic operators evaluate, to non-array primitives tagged with the node's type; operand 1 fails first; the operator step is line 92 as written |
| Interp.ArithmeticNeedsNumbers | xlang/interpreter.py:85-104 | an evaluated operation had two numeric non-array operands, neither of them FLOAT, and its value is their arithmetic |
| Interp.IntegerDivisionFloors | xlang/interpreter.py:100-104 | integer `/` and `%` recombine to the dividend, the remainder has the divisor's sign, and both are tagged with the node's type |
| Interp.ValidatedIntConstant | xlang/interpreter.py:110-111 | a validated integer constant evaluates to its value with an integer tag that holds it |
| Interp.IntegerConstantMath | xlang/interpreter.py:94-104 | two integer-tagged constants evaluate to the validator's fold of their values |
| Interp.InterpreterAgreesWithFolding | xlang/interpreter.py:94-104 | an operation on two integer constants that validates evaluates to the validator's folded value, tagged with the validator's type, which holds it |
| Interp.FloatConstantsAreNotOperands | xlang/interpreter.py:88-89 | float constants, typed f32 by the validator, are rejected as operands at run time |
| Interp.EvalArgs | xlang/interpreter.py:54 | the arguments evaluate iff each does, in order, one value per argument |
| Interp.FirstFailingArgument | xlang/interpreter.py:54 | a failing argument list reports its first failing argument |
| Interp.ExecStatement | xlang/interpreter.py:46-75 | only a call can pass; an access statement is "Unhandled statement" and every other kind "not implemented" |
| Interp.CallStep | xlang/interpreter.py:53-63 | a call fails with its arguments' error, else runs the user function's body one level deeper (the recursion error at depth 0), else the builtin |
| Interp.CallBuiltin | xlang/interpreter.py:55-57 | a name no builtin has is a KeyError; a builtin call passes iff the builtin accepts the arguments without a context |
| Interp.ExecStatements | xlang/interpreter.py:42-44 | an empty statement list passes; the order law is Interp.FirstFailingStatement |
| Interp.FirstFailingStatement | xlang/interpreter.py:42-44 | a list passes when each statement does, and otherwise reports its first failing statement |
| Interp.AssertCallHasNoContext | xlang/interpreter.py:54-57 | calling `assert` always fails with the KeyError for the missing context |
| Interp.PrintCallPasses | xlang/interpreter.py:54-57 | a print builtin with one evaluable argument passes |
| Interp.SelfCallHitsRecursionLimit | xlang/interpreter.py:58-63 | a function whose body only calls itself ends in the recursion error at every depth |
| Interp.DepthOnlyMattersAtTheLimit | xlang/interpreter.py:58-63 | more call depth does not change a run that did not hit the limit |
| Interp.StatementDepth | xlang/interpreter.py:53-63 | the same for a single statement |
| Interp.Interpreter.constructor | xlang/interpreter.py:33 | a new interpreter holds an empty program and a fresh stack |
| Interp.Interpreter.Run | xlang/interpreter.py:34-40 | without `main`, "No main function found"; otherwise main's body runs on a fresh single-frame stack |
| Interp.Interpreter.Statements | xlang/interpreter.py:42-44 | the loop agrees with ExecStatements and, on success, keeps the same stack |
| Interp.Interpreter.Statement | xlang/interpreter.py:46-75 | agrees with ExecStatement; a user call that returns leaves the caller's stack object in place with its frames untouched |

## Left out

- The parser and the transformer are not part of this model. A built `GlobalScope` is the input, and the transformer's rejection of duplicate names is the predicate `Ast.UniqueNames`.
- Console output of `prints`, `printi`, `printf` and `printb` is left out. Only their signatures and the argument passing are modelled.
- Builtins.Invoke: `toLowerCase` and `toUpperCase` receive a `Value`, which has no `lower`/`upper`. They fail as written, and Unicode case mapping is not modelled.
- Interp.Arith: float values are exact reals, without IEEE rounding, overflow or NaN. Float `//` and `%` floor the exact quotient. A bool or string payload under a numeric tag is a host TypeError here, while Python would compute `True + 1` or `"a" + "b"`. Only hand-built trees reach that case: the validator never tags a bool or string constant with a number type.
- Python reprs of values and types inside messages (`{operand1_value}`, `{type(...)}`, `{param_type.param_type}`, `{field_type}`, `{variable_type}`) are dropped and leave an empty slot: "Invalid function parameter type. Expected , but got ". The fixed words around them are kept. Names, counts and operators, which are strings or integers, are kept in full.
- Interp.ApplyArithAsWritten: both operand checks report operand 1 as written, and so does Interp.ApplyArith. With the reprs dropped, the two messages are the same.
- Interp.ExecStatements: the host's recursion limit is a parameter, `depth`, counting nested user calls. The Python limit counts interpreter frames, so the exact depth at which it fires is not modelled.
- Validation.Typeifier.Statements: on failure the class methods promise only the error, not the partially annotated tree or stack left behind.
- Validation.ValidatePass: the in-place writes of `.type`, `param_type` and `return_type` are modelled as annotated copies. The driver rebuilds the program from them, so aliasing between nodes is not modelled.
- A struct access whose chain ends in a method call (`s.xs.append(1)`) never checks that method call (`xlang/validation_pass.py:330-359`). The model follows this as written.
- The argument list an `append` call mutates is not visible to the interpreter's caller. `Interp.ExecStatement` keeps only the outcome of a builtin call.
- The statement kinds the interpreter does not run (declarations, assignments, loops, ifs, returns, break and continue) raise "not implemented" as written. Variable access and calls inside expressions raise too, so the interpreter's scope stack is never read or written by a running program.

## Findings

The evaluator runs line 92 as written, so it rejects FLOAT + FLOAT. The corrected step and its guard are kept beside it with the intended property proved.

| source | as written | input that shows it | evidently intended | confidence | as-written member | corrected member |
|---|---|---|---|---|---|---|
| xlang/interpreter.py:92 | `p1 == FLOAT or p2 == FLOAT and p1 != p2`: `and` binds tighter, so any FLOAT left operand is rejected | two FLOAT operands, 1.0 + 2.0 | reject only a FLOAT mixed with another tag, as the message says | not executed; high | Interp.ApplyArithAsWritten (used by Interp.EvalExpr), Interp.FloatPlusFloatRejectedAsWritten | Interp.ApplyArith, Interp.FloatGuardRejectsExactlyTheMixes |
