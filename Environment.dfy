/**
 * Environments: a chain of frames, innermost first.  Lookup walks outward
 * and yields the Absent value, not a failure, for a name no frame binds.
 * Frames are built once, all names at a time, and never changed afterwards.
 */
module Environment {
  import opened Wrappers
  import opened Ast

  /** The value of a name: one some frame binds it to, or Absent. */
  function Lookup(env: Env, name: string): (v: Value)
    ensures env == [] ==> v == Absent
    ensures env != [] && name in env[0] ==> v == env[0][name]
  {
    if env == [] then Absent
    else if name in env[0] then env[0][name]
    else Lookup(env[1..], name)
  }

  /** The child environment whose innermost frame is `frame`; the parent chain is kept as it is. */
  function Extend(env: Env, frame: Frame): (e: Env)
    ensures |e| == |env| + 1 && e[0] == frame
    ensures forall i :: 0 <= i < |env| ==> e[i + 1] == env[i]
  {
    [frame] + env
  }

  /** The first frame, counting outward, that binds a name decides its value. */
  lemma {:induction false} LookupFindsInnermost(env: Env, name: string, i: nat)
    requires i < |env| && name in env[i]
    requires forall j :: 0 <= j < i ==> name !in env[j]
    ensures Lookup(env, name) == env[i][name]
  {
    if i > 0 {
      assert name !in env[0];
      LookupFindsInnermost(env[1..], name, i - 1);
    }
  }

  /** A value other than Absent is one that some frame binds the name to. */
  lemma {:induction false} LookupSource(env: Env, name: string)
    ensures Lookup(env, name) == Absent ||
            exists i :: 0 <= i < |env| && name in env[i] && env[i][name] == Lookup(env, name)
  {
    if env != [] && name !in env[0] {
      LookupSource(env[1..], name);
      if Lookup(env, name) != Absent {
        var i :| 0 <= i < |env[1..]| && name in env[1..][i] && env[1..][i][name] == Lookup(env[1..], name);
        assert env[i + 1] == env[1..][i];
      }
    }
  }

  /** A name bound by no frame looks up to Absent. */
  lemma {:induction false} LookupUnbound(env: Env, name: string)
    requires forall j :: 0 <= j < |env| ==> name !in env[j]
    ensures Lookup(env, name) == Absent
  {
    if env != [] {
      assert name !in env[0];
      LookupUnbound(env[1..], name);
    }
  }

  /** A binding in a child frame shadows the parent's; other names fall through to the parent. */
  lemma LookupExtend(env: Env, frame: Frame, name: string)
    ensures Lookup(Extend(env, frame), name) == if name in frame then frame[name] else Lookup(env, name)
  {
    assert Extend(env, frame)[1..] == env;
  }

  predicate Distinct(names: seq<string>)
  {
    forall i, j :: 0 <= i < j < |names| ==> names[i] != names[j]
  }

  /**
   * Builds one frame binding `names[i]` to `values[i]`: the wrong number of
   * values is an arity error, a name given twice a duplicate binding.
   */
  function BindFrame(names: seq<string>, values: seq<Value>): (r: Result<Frame>)
    ensures r.Ok? <==> |names| == |values| && Distinct(names)
    ensures r.Err? ==> r.error == if |names| != |values| then ArityMismatch else DuplicateBinding
    ensures r.Ok? ==> r.value.Keys == set x | x in names
    ensures r.Ok? ==> forall i :: 0 <= i < |names| ==> r.value[names[i]] == values[i]
  {
    if |names| != |values| then Err(ArityMismatch) else BindEach(names, values)
  }

  function BindEach(names: seq<string>, values: seq<Value>): (r: Result<Frame>)
    requires |names| == |values|
    ensures r.Ok? <==> Distinct(names)
    ensures r.Err? ==> r.error == DuplicateBinding
    ensures r.Ok? ==> r.value.Keys == set x | x in names
    ensures r.Ok? ==> forall i :: 0 <= i < |names| ==> r.value[names[i]] == values[i]
  {
    if names == [] then Ok(map[])
    else
      match BindEach(names[1..], values[1..])
      case Err(e) => Err(e)
      case Ok(frame) =>
        if names[0] in frame then Err(DuplicateBinding)
        else Ok(frame[names[0] := values[0]])
  }
}
