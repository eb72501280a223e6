/**
 * Runtime values and the interpreter's scope stack
 * (xlang/interpreter_datatypes.py).
 */
module Runtime {
  import opened Wrappers
  import opened Ast
  import opened Exceptions
  import opened Frames

  /** ValueType (interpreter_datatypes.py:11-14). */
  datatype ValueType = PRIMITIVE | STRUCT | ENUM

  /** The untyped `value: Any` slot of a Value, restricted to the payloads
      the interpreter and the builtins create or inspect. */
  datatype Payload =
    | IntV(i: int)
    | FloatV(r: real)
    | StrV(s: string)
    | BoolV(b: bool)
    | CharV(c: char)
    | ListV(items: seq<Value>)
    | FieldsV(fields: map<string, Value>)
    | MemberV(member: string)
    | NoneV

  /** Value (interpreter_datatypes.py:17-22). */
  datatype Value = Value(
    kind: ValueType,
    payload: Payload,
    primitiveType: Option<PrimitiveType>,
    isArray: bool,
    typeName: Option<string>)

  /** `Value(type=..., value=...)` with every other field left at its default. */
  function NewValue(kind: ValueType, payload: Payload): (v: Value)
    ensures v.kind == kind && v.payload == payload
    ensures v.primitiveType.None? && !v.isArray && v.typeName.None?
  {
    Value(kind, payload, None, false, None)
  }

  /** get_variable's answer for a given stack: the innermost binding, or an
      internal compiler error for a name bound nowhere. */
  function GetVariableResult(frames: seq<map<string, Value>>, name: string): (r: Result<Value, Error>)
    ensures r.Success? <==> exists k :: 0 <= k < |frames| && name in frames[k]
    ensures r.Failure? ==> r.error == Internal("Unknown variable: " + name)
    ensures |frames| > 0 && name in frames[|frames| - 1] ==> r == Success(frames[|frames| - 1][name])
  {
    match Lookup(frames, name)
    case Some(v) => Success(v)
    case None => Failure(Internal("Unknown variable: " + name))
  }

  /** The interpreter's ScopeStack (interpreter_datatypes.py:25-43): frames
      of name => Value, innermost last. Unlike the validator's stack it has
      no duplicate check: set_variable overwrites. */
  class ScopeStack {
    var stack: seq<map<string, Value>>

    constructor()
      ensures stack == [map[]]
    {
      stack := [map[]];
    }

    /** set_variable (29-30). `self.stack[-1]` on an empty list is an
        IndexError of the host. */
    method SetVariable(name: string, v: Value) returns (r: Outcome<Error>)
      modifies this
      ensures |old(stack)| == 0 ==> r.Fail? && r.error.Internal? && stack == old(stack)
      ensures |old(stack)| > 0 ==> r == Pass && stack == Bind(old(stack), name, v)
    {
      if |stack| == 0 {
        return Fail(Internal("list index out of range"));
      }
      stack := Bind(stack, name, v);
      return Pass;
    }

    /** get_variable (32-37): the frames are searched from the innermost one. */
    method GetVariable(name: string) returns (r: Result<Value, Error>)
      ensures r == GetVariableResult(stack, name)
    {
      var i := |stack|;
      while i > 0
        invariant 0 <= i <= |stack|
        invariant Lookup(stack[..i], name) == Lookup(stack, name)
      {
        LookupPrefix(stack, i, name);
        if name in stack[i - 1] {
          return Success(stack[i - 1][name]);
        }
        i := i - 1;
      }
      return Failure(Internal("Unknown variable: " + name));
    }

    /** push_scope (39-40). */
    method PushScope()
      modifies this
      ensures stack == old(stack) + [map[]]
    {
      stack := stack + [map[]];
    }

    /** pop_scope (42-43). Popping an empty list is an IndexError of the host. */
    method PopScope() returns (r: Outcome<Error>)
      modifies this
      ensures |old(stack)| == 0 ==> r.Fail? && r.error.Internal? && stack == old(stack)
      ensures |old(stack)| > 0 ==> r == Pass && stack == old(stack)[..|old(stack)| - 1]
    {
      if |stack| == 0 {
        return Fail(Internal("pop from empty list"));
      }
      stack := stack[..|stack| - 1];
      return Pass;
    }
  }

  /** A value bound with set_variable is what get_variable returns next, and
      no other name's answer changes. */
  lemma GetAfterSet(frames: seq<map<string, Value>>, name: string, v: Value, other: string)
    requires |frames| > 0
    ensures GetVariableResult(Bind(frames, name, v), name) == Success(v)
    ensures other != name ==> GetVariableResult(Bind(frames, name, v), other) == GetVariableResult(frames, other)
  {
    LookupAfterBind(frames, name, v, other);
  }

  /** set_variable on a name that the innermost frame already binds
      replaces that binding: there is no duplicate check. */
  lemma SetOverwrites(frames: seq<map<string, Value>>, name: string, v: Value, w: Value)
    requires |frames| > 0
    ensures Bind(Bind(frames, name, v), name, w) == Bind(frames, name, w)
    ensures GetVariableResult(Bind(Bind(frames, name, v), name, w), name) == Success(w)
  {
    var last := frames[|frames| - 1];
    assert last[name := v][name := w] == last[name := w];
    assert Bind(frames, name, v)[..|frames| - 1] == frames[..|frames| - 1];
    LookupAfterBind(frames, name, w, name);
  }

  /** Push, bind a name that shadows an outer binding, pop: the new frame
      hides that name only, every other name still reads its outer binding,
      and popping gives back the old frames. */
  lemma PopUncoversShadowed(frames: seq<map<string, Value>>, name: string, v: Value)
    ensures var pushed := Bind(frames + [map[]], name, v);
      && GetVariableResult(pushed, name) == Success(v)
      && |pushed| == |frames| + 1
      && pushed[..|frames|] == frames
      && (forall other :: other != name ==> GetVariableResult(pushed, other) == GetVariableResult(frames, other))
  {
    var pushed := Bind(frames + [map[]], name, v);
    LookupAfterBind(frames + [map[]], name, v, name);
    assert (frames + [map[]])[..|frames|] == frames;
    forall other | other != name
      ensures GetVariableResult(pushed, other) == GetVariableResult(frames, other)
    {
      LookupAfterBind(frames + [map[]], name, v, other);
      LookupAfterPush(frames, other);
    }
  }
}
