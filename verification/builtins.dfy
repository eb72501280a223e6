/**
 * The builtin registry (xlang/xl_builtins.py): three tables of builtin
 * signatures filled at import time by the registration decorators, the
 * call wrapper each decorator installs, and the native behaviours of
 * `assert` and `append`.
 */
module Builtins {
  import opened Wrappers
  import opened Ast
  import opened Exceptions
  import opened Runtime

  /** The Python function behind a builtin's function_ptr. */
  datatype Native =
    | Prints | Printi | Printf | Printb
    | AssertTrue
    | Append
    | ToLowerCase | ToUpperCase

  /** BuiltinFunction (xl_ast.py:196-198): a signature and the wrapper
      around the native, which remembers the decorator's `context` flag. */
  datatype BuiltinFunction = BuiltinFunction(
    name: string,
    returnType: Option<VarType>,
    params: seq<Param>,
    native: Native,
    passContext: bool)

  /** prim (xl_builtins.py:106-115): a non-reference primitive parameter
      with the builtin context. */
  function Prim(paramName: string, p: PrimitiveType): (r: Param)
    ensures r.name == paramName && r.paramType == Primitive(p)
    ensures !r.reference && r.ctx.builtin
  {
    Param(paramName, Primitive(p), BuiltinContext(), false)
  }

  /** `BUILTIN_PRIMITIVE_METHODS[p]` on the defaultdict: a type with no
      registered method has an empty table. */
  function MethodTable(tables: map<PrimitiveType, map<string, BuiltinFunction>>, p: PrimitiveType): (r: map<string, BuiltinFunction>)
    ensures p !in tables ==> r == map[]
    ensures p in tables ==> r == tables[p]
  {
    if p in tables then tables[p] else map[]
  }

  /** The three module-level registries (xl_builtins.py:15-17) and the
      registration that each decorator performs (36-41, 63-69, 93-99). */
  class Registry {
    var functions: map<string, BuiltinFunction>
    var arrayMethods: map<string, BuiltinFunction>
    var primitiveMethods: map<PrimitiveType, map<string, BuiltinFunction>>

    /** Importing the module: empty tables, then the decorated definitions
        of xl_builtins.py:118-181 in the order they appear. */
    constructor()
      ensures functions == BuiltinFunctions()
      ensures arrayMethods == ArrayMethods()
      ensures primitiveMethods == PrimitiveMethods()
    {
      functions := map[];
      arrayMethods := map[];
      primitiveMethods := map[];
      new;
      RegisterFunction("prints", None, [Prim("value", STRING)], Prints, false);
      RegisterFunction("printi", None, [Prim("value", I64)], Printi, false);
      RegisterFunction("printf", None, [Prim("value", F32)], Printf, false);
      RegisterFunction("printb", None, [Prim("value", BOOL)], Printb, false);
      RegisterFunction("assert", None, [Prim("value", BOOL)], AssertTrue, true);
      RegisterArrayMethod("append", None, [AppendParam()], Append, false);
      RegisterPrimitiveMethod(STRING, "toLowerCase", Some(Primitive(STRING)), [], ToLowerCase, false);
      RegisterPrimitiveMethod(STRING, "toUpperCase", Some(Primitive(STRING)), [], ToUpperCase, false);
    }

    /** builtin_function (20-44): stored under its own name, replacing any
        earlier entry; the other tables are untouched. */
    method RegisterFunction(name: string, returnType: Option<VarType>, params: seq<Param>, native: Native, context: bool)
      modifies this
      ensures functions == old(functions)[name := BuiltinFunction(name, returnType, params, native, context)]
      ensures arrayMethods == old(arrayMethods) && primitiveMethods == old(primitiveMethods)
    {
      functions := functions[name := BuiltinFunction(name, returnType, params, native, context)];
    }

    /** builtin_method_array (47-73). */
    method RegisterArrayMethod(name: string, returnType: Option<VarType>, params: seq<Param>, native: Native, context: bool)
      modifies this
      ensures arrayMethods == old(arrayMethods)[name := BuiltinFunction(name, returnType, params, native, context)]
      ensures functions == old(functions) && primitiveMethods == old(primitiveMethods)
    {
      arrayMethods := arrayMethods[name := BuiltinFunction(name, returnType, params, native, context)];
    }

    /** builtin_method_primitive (76-103): `BUILTIN_PRIMITIVE_METHODS[p][name] = f`
        creates the table of `p` on first use. */
    method RegisterPrimitiveMethod(p: PrimitiveType, name: string, returnType: Option<VarType>, params: seq<Param>, native: Native, context: bool)
      modifies this
      ensures primitiveMethods ==
        old(primitiveMethods)[p := MethodTable(old(primitiveMethods), p)[name := BuiltinFunction(name, returnType, params, native, context)]]
      ensures functions == old(functions) && arrayMethods == old(arrayMethods)
    {
      primitiveMethods := primitiveMethods[p := MethodTable(primitiveMethods, p)[name := BuiltinFunction(name, returnType, params, native, context)]];
    }
  }

  /** The parameter of `append` (xl_builtins.py:148-153). */
  function AppendParam(): (r: Param)
    ensures r.paramType == BuiltinGeneric && !r.reference
  {
    Param("value", BuiltinGeneric, BuiltinContext(), false)
  }

  /** get_builtin_functions() after import. */
  function BuiltinFunctions(): map<string, BuiltinFunction>
  {
    map[
      "prints" := BuiltinFunction("prints", None, [Prim("value", STRING)], Prints, false),
      "printi" := BuiltinFunction("printi", None, [Prim("value", I64)], Printi, false),
      "printf" := BuiltinFunction("printf", None, [Prim("value", F32)], Printf, false),
      "printb" := BuiltinFunction("printb", None, [Prim("value", BOOL)], Printb, false),
      "assert" := BuiltinFunction("assert", None, [Prim("value", BOOL)], AssertTrue, true)
    ]
  }

  /** get_builtin_array_methods() after import. */
  function ArrayMethods(): map<string, BuiltinFunction>
  {
    map["append" := BuiltinFunction("append", None, [AppendParam()], Append, false)]
  }

  /** get_builtin_primitive_methods() after import. */
  function PrimitiveMethods(): map<PrimitiveType, map<string, BuiltinFunction>>
  {
    map[STRING := map[
      "toLowerCase" := BuiltinFunction("toLowerCase", Some(Primitive(STRING)), [], ToLowerCase, false),
      "toUpperCase" := BuiltinFunction("toUpperCase", Some(Primitive(STRING)), [], ToUpperCase, false)
    ]]
  }

  /** Every free builtin is stored under its own name, takes one
      non-reference primitive parameter (STRING, I64, F32, BOOL, BOOL) and
      returns nothing; only `assert` asks for the call context. */
  lemma FreeFunctionSignatures()
    ensures BuiltinFunctions().Keys == {"prints", "printi", "printf", "printb", "assert"}
    ensures forall n :: n in BuiltinFunctions() ==>
      var f := BuiltinFunctions()[n];
      && f.name == n && f.returnType.None?
      && |f.params| == 1 && !f.params[0].reference && f.params[0].paramType.Primitive?
      && (f.passContext <==> n == "assert")
    ensures BuiltinFunctions()["prints"].params[0].paramType == Primitive(STRING)
    ensures BuiltinFunctions()["printi"].params[0].paramType == Primitive(I64)
    ensures BuiltinFunctions()["printf"].params[0].paramType == Primitive(F32)
    ensures BuiltinFunctions()["printb"].params[0].paramType == Primitive(BOOL)
    ensures BuiltinFunctions()["assert"].params[0].paramType == Primitive(BOOL)
  {
  }

  /** `append` is the only array method; it takes one non-reference
      BUILTIN_GENERIC parameter and returns nothing. Only STRING has
      methods: toLowerCase and toUpperCase, without parameters, returning
      STRING; every other primitive has an empty table. */
  lemma MethodSignatures(p: PrimitiveType)
    ensures ArrayMethods().Keys == {"append"}
    ensures ArrayMethods()["append"].params == [AppendParam()] && ArrayMethods()["append"].returnType.None?
    ensures p != STRING ==> p !in PrimitiveMethods() && MethodTable(PrimitiveMethods(), p) == map[]
    ensures MethodTable(PrimitiveMethods(), STRING).Keys == {"toLowerCase", "toUpperCase"}
    ensures forall n :: n in MethodTable(PrimitiveMethods(), STRING) ==>
      var m := MethodTable(PrimitiveMethods(), STRING)[n];
      m.name == n && m.params == [] && m.returnType == Some(Primitive(STRING))
  {
  }

  /** The native Python arity of each builtin, not counting `context`. */
  function NativeArity(n: Native): nat
  {
    match n
    case Append => 2
    case _ => 1
  }

  /** builtin_assert (xl_builtins.py:138-141): `value.value is not True`
      holds for everything but the boolean True itself. */
  function BuiltinAssert(v: Value, ctx: ParseContext): (r: Outcome<Error>)
    ensures r.Pass? <==> v.payload == BoolV(true)
    ensures r.Fail? ==> r.error == AssertionFailure("assertion failed", ctx, None, None)
  {
    if v.payload == BoolV(true) then Pass
    else Fail(AssertionFailure("assertion failed", ctx, None, None))
  }

  /** builtin_append (xl_builtins.py:156-157) on the value of the array
      object: the list grows by `v` at its end and nothing else changes. A
      payload that is not a list has no `append` attribute. */
  function Appended(arr: Value, v: Value): (r: Result<Value, Error>)
    ensures r.Success? <==> arr.payload.ListV?
    ensures r.Success? ==>
      && r.value.payload.ListV?
      && |r.value.payload.items| == |arr.payload.items| + 1
      && r.value.payload.items[..|arr.payload.items|] == arr.payload.items
      && r.value.payload.items[|arr.payload.items|] == v
      && r.value.(payload := arr.payload) == arr
    ensures r.Failure? ==> r.error.Internal?
  {
    match arr.payload
    case ListV(items) => Success(arr.(payload := ListV(items + [v])))
    case _ => Failure(Internal("AttributeError: object has no attribute 'append'"))
  }

  /** A Python object holding a Value: the identity that `append` mutates. */
  class ValueCell {
    var value: Value

    constructor(v: Value)
      ensures value == v
    {
      value := v;
    }
  }

  /** builtin_append on the array object itself: it changes that object only. */
  method AppendInPlace(arr: ValueCell, v: Value) returns (r: Outcome<Error>)
    modifies arr
    ensures Appended(old(arr.value), v).Success? ==> r == Pass && arr.value == Appended(old(arr.value), v).value
    ensures Appended(old(arr.value), v).Failure? ==> r == Fail(Appended(old(arr.value), v).error) && arr.value == old(arr.value)
  {
    match arr.value.payload
    case ListV(items) =>
      arr.value := arr.value.(payload := ListV(items + [v]));
      return Pass;
    case _ =>
      return Fail(Internal("AttributeError: object has no attribute 'append'"));
  }

  /** `function_ptr(params, **kwargs)`, the wrapper of xl_builtins.py:29-34
      (56-61, 86-91): the argument list is spread positionally and the
      `context` keyword is read only for an entry registered with
      context=True. The result is the argument list after the call, since
      `append` mutates its first argument; no builtin returns a value the
      interpreter uses. A missing `context` keyword is a KeyError and a wrong
      argument count a TypeError of the host. The string case mappings
      receive a Value, which has no `lower`/`upper`, so they fail as written. */
  function Invoke(f: BuiltinFunction, args: seq<Value>, context: Option<ParseContext>): (r: Result<seq<Value>, Error>)
    ensures f.passContext && context.None? ==> r == Failure(Internal("KeyError: 'context'"))
    ensures !(f.passContext && context.None?) && |args| != NativeArity(f.native) ==> r.Failure? && r.error.Internal?
    ensures r.Success? ==> |r.value| == |args|
    ensures r.Success? && f.native != Append ==> r.value == args
  {
    if f.passContext && context.None? then Failure(Internal("KeyError: 'context'"))
    else if |args| != NativeArity(f.native) then Failure(Internal("TypeError: wrong number of arguments"))
    else
      match f.native
      case Prints => Success(args)
      case Printi => Success(args)
      case Printf => Success(args)
      case Printb => Success(args)
      case AssertTrue =>
        var ctx := if f.passContext then context.value else BuiltinContext();
        :- BuiltinAssert(args[0], ctx);
        Success(args)
      case Append =>
        var a :- Appended(args[0], args[1]);
        Success([a, args[1]])
      case ToLowerCase => Failure(Internal("AttributeError: 'Value' object has no attribute 'lower'"))
      case ToUpperCase => Failure(Internal("AttributeError: 'Value' object has no attribute 'upper'"))
  }

  /** Entries registered without `context` ignore whatever context the
      caller passes. */
  lemma ContextOnlyWhenRegistered(f: BuiltinFunction, args: seq<Value>, c1: Option<ParseContext>, c2: Option<ParseContext>)
    requires !f.passContext
    ensures Invoke(f, args, c1) == Invoke(f, args, c2)
  {
  }

  /** Calling the registered `assert` with a context fails, with an
      assertion failure at that context, iff its argument is not True. */
  lemma AssertFailsIffNotTrue(v: Value, ctx: ParseContext)
    ensures var r := Invoke(BuiltinFunctions()["assert"], [v], Some(ctx));
      && (r.Failure? <==> v.payload != BoolV(true))
      && (r.Failure? ==> r.error == AssertionFailure("assertion failed", ctx, None, None))
  {
  }

  /** Calling the registered `append` with an array and a value appends the
      value to the array's list and passes the value through unchanged. */
  lemma AppendThroughRegistry(arr: Value, v: Value)
    requires arr.payload.ListV?
    ensures var r := Invoke(ArrayMethods()["append"], [arr, v], None);
      && r.Success?
      && r.value[0].payload.items == arr.payload.items + [v]
      && r.value[1] == v
  {
    var a := Appended(arr, v).value;
    assert a.payload.items == arr.payload.items + [v];
  }
}
