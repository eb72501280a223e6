/**
 * The lookup discipline shared by the validator's and the interpreter's
 * scope stacks (validation_pass.py:55-65, interpreter_datatypes.py:32-37):
 * a list of name-keyed frames, innermost last, searched from the innermost
 * frame outwards.
 */
module Frames {
  import opened Wrappers

  /** The binding of `name` in the innermost frame that has it. */
  function Lookup<V>(frames: seq<map<string, V>>, name: string): (r: Option<V>)
    ensures r.Some? <==> exists k :: 0 <= k < |frames| && name in frames[k]
    ensures r.Some? ==>
      exists k :: 0 <= k < |frames| && name in frames[k] && r.value == frames[k][name]
        && forall j :: k < j < |frames| ==> name !in frames[j]
    decreases |frames|
  {
    if |frames| == 0 then None
    else if name in frames[|frames| - 1] then Some(frames[|frames| - 1][name])
    else
      var r := Lookup(frames[..|frames| - 1], name);
      assert forall k :: 0 <= k < |frames| - 1 ==> frames[..|frames| - 1][k] == frames[k];
      r
  }

  /** The search over the first i frames looks at frame i - 1 first. */
  lemma LookupPrefix<V>(frames: seq<map<string, V>>, i: nat, name: string)
    requires 0 < i <= |frames|
    ensures name in frames[i - 1] ==> Lookup(frames[..i], name) == Some(frames[i - 1][name])
    ensures name !in frames[i - 1] ==> Lookup(frames[..i], name) == Lookup(frames[..i - 1], name)
  {
    assert frames[..i][i - 1] == frames[i - 1];
    assert frames[..i][..i - 1] == frames[..i - 1];
  }

  /** A pushed frame hides nothing until something is bound in it. */
  lemma LookupAfterPush<V>(frames: seq<map<string, V>>, name: string)
    ensures Lookup(frames + [map[]], name) == Lookup(frames, name)
  {
    assert (frames + [map[]])[..|frames|] == frames;
  }

  /** An inner frame shadows the outer ones; once it is popped, the outer
      binding is visible again. */
  lemma LookupShadowing<V>(frames: seq<map<string, V>>, inner: map<string, V>, name: string)
    ensures Lookup(frames + [inner], name) == if name in inner then Some(inner[name]) else Lookup(frames, name)
    ensures (frames + [inner])[..|frames|] == frames
  {
    assert (frames + [inner])[..|frames|] == frames;
  }

  /** A binding held by the innermost frame is the visible one. */
  lemma InnermostLookup<V>(frames: seq<map<string, V>>, name: string, v: V)
    requires |frames| > 0 && (name, v) in frames[|frames| - 1].Items
    ensures Lookup(frames, name) == Some(v)
  {
    assert name in frames[|frames| - 1];
  }

  /** `stack[-1][name] = v`: the innermost frame gains (or overwrites) one
      entry; the outer frames are untouched. */
  function Bind<V>(frames: seq<map<string, V>>, name: string, v: V): (r: seq<map<string, V>>)
    requires |frames| > 0
    ensures |r| == |frames| && r[..|frames| - 1] == frames[..|frames| - 1]
    ensures name in r[|r| - 1] && r[|r| - 1][name] == v
    ensures r[|r| - 1] - {name} == frames[|frames| - 1] - {name}
  {
    frames[..|frames| - 1] + [frames[|frames| - 1][name := v]]
  }

  /** Binding a name in the innermost frame makes it the visible binding and
      leaves every other name as it was. */
  lemma LookupAfterBind<V>(frames: seq<map<string, V>>, name: string, v: V, other: string)
    requires |frames| > 0
    ensures Lookup(Bind(frames, name, v), name) == Some(v)
    ensures other != name ==> Lookup(Bind(frames, name, v), other) == Lookup(frames, other)
  {
    var outer := frames[..|frames| - 1];
    LookupShadowing(outer, frames[|frames| - 1][name := v], other);
    LookupShadowing(outer, frames[|frames| - 1], other);
    assert outer + [frames[|frames| - 1]] == frames;
  }
}
