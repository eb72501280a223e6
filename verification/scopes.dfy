/**
 * The validator's lexical scope stack (xlang/validation_pass.py:44-71):
 * frames of name => (type, const), innermost last.
 */
module Scopes {
  import opened Wrappers
  import opened Ast
  import opened Exceptions
  import opened Frames

  /** The `(variable_type, const)` pair stored for a name. */
  datatype Binding = Binding(varType: VarType, isConst: bool)

  type Scope = seq<map<string, Binding>>

  /** def_variable (48-53) on a given stack: a name already bound in the
      innermost frame is rejected; an empty stack has no `stack[-1]`. */
  function Define(frames: Scope, name: string, b: Binding, ctx: ParseContext): (r: Result<Scope, Error>)
    ensures r.Failure? <==> |frames| == 0 || name in frames[|frames| - 1]
    ensures |frames| > 0 && name in frames[|frames| - 1] ==>
      r == Failure(Context("Variable " + name + " already defined", ctx))
    ensures r.Success? ==> r.value == Bind(frames, name, b) && Lookup(r.value, name) == Some(b)
  {
    if |frames| == 0 then Failure(Internal("list index out of range"))
    else if name in frames[|frames| - 1] then Failure(Context("Variable " + name + " already defined", ctx))
    else
      LookupAfterBind(frames, name, b, name);
      Success(Bind(frames, name, b))
  }

  /** get_variable_type (55-59) on a given stack. */
  function TypeOfVariable(frames: Scope, name: string): (r: Option<VarType>)
    ensures r.Some? <==> Lookup(frames, name).Some?
    ensures r.Some? ==> r.value == Lookup(frames, name).value.varType
  {
    match Lookup(frames, name)
    case Some(b) => Some(b.varType)
    case None => None
  }

  /** is_const (61-65) on a given stack: None for an unbound name. */
  function ConstnessOf(frames: Scope, name: string): (r: Option<bool>)
    ensures r.Some? <==> Lookup(frames, name).Some?
    ensures r.Some? ==> r.value == Lookup(frames, name).value.isConst
  {
    match Lookup(frames, name)
    case Some(b) => Some(b.isConst)
    case None => None
  }

  /** `if self.scope_stack.is_const(name):` — only a binding that exists and
      is const is truthy. */
  predicate IsConstVariable(frames: Scope, name: string)
  {
    ConstnessOf(frames, name) == Some(true)
  }

  class ScopeStack {
    var stack: Scope

    constructor()
      ensures stack == [map[]]
    {
      stack := [map[]];
    }

    method DefVariable(name: string, t: VarType, isConst: bool, ctx: ParseContext) returns (r: Outcome<Error>)
      modifies this
      ensures Define(old(stack), name, Binding(t, isConst), ctx).Success? ==>
        r == Pass && stack == Define(old(stack), name, Binding(t, isConst), ctx).value
      ensures Define(old(stack), name, Binding(t, isConst), ctx).Failure? ==>
        r == Fail(Define(old(stack), name, Binding(t, isConst), ctx).error) && stack == old(stack)
    {
      if |stack| == 0 {
        return Fail(Internal("list index out of range"));
      }
      if name in stack[|stack| - 1] {
        return Fail(Context("Variable " + name + " already defined", ctx));
      }
      stack := Bind(stack, name, Binding(t, isConst));
      return Pass;
    }

    method GetVariableType(name: string) returns (r: Option<VarType>)
      ensures r == TypeOfVariable(stack, name)
    {
      var i := |stack|;
      while i > 0
        invariant 0 <= i <= |stack|
        invariant Lookup(stack[..i], name) == Lookup(stack, name)
      {
        LookupPrefix(stack, i, name);
        if name in stack[i - 1] {
          return Some(stack[i - 1][name].varType);
        }
        i := i - 1;
      }
      return None;
    }

    method IsConst(name: string) returns (r: Option<bool>)
      ensures r == ConstnessOf(stack, name)
    {
      var i := |stack|;
      while i > 0
        invariant 0 <= i <= |stack|
        invariant Lookup(stack[..i], name) == Lookup(stack, name)
      {
        LookupPrefix(stack, i, name);
        if name in stack[i - 1] {
          return Some(stack[i - 1][name].isConst);
        }
        i := i - 1;
      }
      return None;
    }

    method PushScope()
      modifies this
      ensures stack == old(stack) + [map[]]
    {
      stack := stack + [map[]];
    }

    /** An empty stack cannot be popped (an IndexError of the host). */
    method PopScope() returns (r: Outcome<Error>)
      modifies this
      ensures |old(stack)| == 0 ==> r.Fail? && r.error.Internal? && stack == old(stack)
      ensures |old(stack)| > 0 ==> r == Pass && stack == old(stack)[..|old(stack)| - 1]
    {
      if |stack| == 0 {
        return Fail(Internal("pop from empty list"));
      }
      stack := stack[..|stack| - 1];
      return Pass;
    }
  }

  /** A pushed frame lets a name be declared again, shadowing the outer
      binding; popping it makes the outer binding visible again. */
  lemma ShadowInPushedFrame(frames: Scope, name: string, b: Binding, ctx: ParseContext)
    ensures Define(frames + [map[]], name, b, ctx).Success?
    ensures var inner := Define(frames + [map[]], name, b, ctx).value;
      && TypeOfVariable(inner, name) == Some(b.varType)
      && ConstnessOf(inner, name) == Some(b.isConst)
      && inner[..|frames|] == frames
  {
    var inner := Define(frames + [map[]], name, b, ctx).value;
    assert inner[..|frames|] == (frames + [map[]])[..|frames|];
    assert (frames + [map[]])[..|frames|] == frames;
  }

  /** Defining one name changes the answers for no other name. */
  lemma DefineKeepsOthers(frames: Scope, name: string, b: Binding, ctx: ParseContext, other: string)
    requires Define(frames, name, b, ctx).Success?
    requires other != name
    ensures TypeOfVariable(Define(frames, name, b, ctx).value, other) == TypeOfVariable(frames, other)
    ensures ConstnessOf(Define(frames, name, b, ctx).value, other) == ConstnessOf(frames, other)
  {
    LookupAfterBind(frames, name, b, other);
  }
}
