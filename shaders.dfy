/** Shader programs: the uniform names a program registers, the uniform calls its `send*` methods
  * issue, and the caching of the bound program. OpenGL is a log of the calls made to it; uniform
  * locations come from a function standing for `glGetUniformLocation`. */
module Shaders {
  import opened Java
  import opened JavaStrings

  // ---------------------------------------------------------------- uniform names

  /** `u + "[" + i + "]"`. */
  function ArrayName(u: string, i: int): string
  {
    u + "[" + IntToString(i) + "]"
  }

  /** `u + "." + c`. */
  function StructName(u: string, c: string): string
  {
    u + "." + c
  }

  /** The element names of an array of `length` uniforms (none for a negative length). */
  function ArrayNames(u: string, length: int): (ns: seq<string>)
    ensures |ns| == if length < 0 then 0 else length
    ensures forall i :: 0 <= i < |ns| ==> ns[i] == ArrayName(u, i)
  {
    if length <= 0 then [] else ArrayNames(u, length - 1) + [ArrayName(u, length - 1)]
  }

  /** The component names of a struct uniform. */
  function StructNames(u: string, comps: seq<string>): (ns: seq<string>)
    ensures |ns| == |comps|
    ensures forall k :: 0 <= k < |comps| ==> ns[k] == StructName(u, comps[k])
  {
    seq(|comps|, k requires 0 <= k < |comps| => StructName(u, comps[k]))
  }

  /** The component names of every element of a struct array, element by element. */
  function StructArrayNames(u: string, comps: seq<string>, length: int): seq<string>
  {
    if length <= 0 then [] else StructArrayNames(u, comps, length - 1) + StructNames(ArrayName(u, length - 1), comps)
  }

  /** The locations registered for a list of names. */
  function Locations(names: seq<string>, location: string -> int): (m: map<string, int>)
    ensures forall n :: n in m <==> n in names
    ensures forall n :: n in m ==> m[n] == location(n)
  {
    map n | n in names :: location(n)
  }

  lemma LocationsSnoc(names: seq<string>, n: string, location: string -> int)
    ensures Locations(names + [n], location) == Locations(names, location)[n := location(n)]
  {
  }

  lemma UpdateUnion(a: map<string, int>, b: map<string, int>, k: string, v: int)
    ensures (a + b)[k := v] == a + b[k := v]
  {
  }

  /** Registering two lists in turn is registering their concatenation. */
  lemma RegisteredStep(base: map<string, int>, current: map<string, int>, a: seq<string>, b: seq<string>, location: string -> int)
    requires current == base + Locations(a, location)
    ensures current + Locations(b, location) == base + Locations(a + b, location)
  {
  }

  /** Registering element `i` of a struct array extends the registration of the elements before it. */
  lemma StructArrayStep(base: map<string, int>, current: map<string, int>, u: string, comps: seq<string>, i: nat, location: string -> int)
    requires current == base + Locations(StructArrayNames(u, comps, i), location)
    ensures current + Locations(StructNames(ArrayName(u, i), comps), location) == base + Locations(StructArrayNames(u, comps, i + 1), location)
  {
    RegisteredStep(base, current, StructArrayNames(u, comps, i), StructNames(ArrayName(u, i), comps), location);
  }

  /** A struct array registers `u[i].c` exactly for the elements below its length and its components. */
  lemma {:induction false} StructArrayNamesExact(u: string, comps: seq<string>, length: int, i: int, c: string)
    requires 0 <= i < length && c in comps
    ensures StructName(ArrayName(u, i), c) in StructArrayNames(u, comps, length)
  {
    var k :| 0 <= k < |comps| && comps[k] == c;
    if i < length - 1 {
      StructArrayNamesExact(u, comps, length - 1, i, c);
    } else {
      assert StructNames(ArrayName(u, i), comps)[k] == StructName(ArrayName(u, i), c);
    }
  }

  /** Every name a struct array registers is some `u[i].c` with `i` below the length and `c` a component. */
  lemma {:induction false} StructArrayNamesOnly(u: string, comps: seq<string>, length: int, n: string)
    requires n in StructArrayNames(u, comps, length)
    ensures exists i, k :: 0 <= i < length && 0 <= k < |comps| && n == StructName(ArrayName(u, i), comps[k])
  {
    if length > 0 {
      var prev := StructArrayNames(u, comps, length - 1);
      if n in prev {
        StructArrayNamesOnly(u, comps, length - 1, n);
      } else {
        var ns := StructNames(ArrayName(u, length - 1), comps);
        assert n in ns;
        var k :| 0 <= k < |ns| && ns[k] == n;
        assert n == StructName(ArrayName(u, length - 1), comps[k]);
      }
    }
  }

  lemma IntToStringNoBracket(n: int)
    ensures '[' !in IntToString(n) && ']' !in IntToString(n)
  {
    var s := IntToString(n);
    assert forall k :: 0 <= k < |s| ==> s[k] != '[' && s[k] != ']';
  }

  lemma BracketAt(u: string, d: string)
    ensures (u + "[" + d + "]")[|u|] == '['
  {
  }

  lemma IndexTextAt(u: string, d: string, p: int)
    requires |u| < p <= |u| + |d|
    ensures (u + "[" + d + "]")[p] == d[p - |u| - 1]
  {
  }

  /** Two names `u + "[" + d + "]"` that are equal have index texts of the same length when
    * neither holds a `[`. */
  lemma SuffixLengths(u1: string, d1: string, u2: string, d2: string)
    requires u1 + "[" + d1 + "]" == u2 + "[" + d2 + "]"
    requires '[' !in d1 && '[' !in d2
    ensures |d1| == |d2|
  {
    if |d1| < |d2| {
      BracketAt(u1, d1);
      IndexTextAt(u2, d2, |u1|);
      assert false;
    } else if |d2| < |d1| {
      BracketAt(u2, d2);
      IndexTextAt(u1, d1, |u2|);
      assert false;
    }
  }

  /** An element name determines both the array and the index: the index's digits hold no `[`. */
  lemma ArrayNameInjective(u1: string, i1: int, u2: string, i2: int)
    requires ArrayName(u1, i1) == ArrayName(u2, i2)
    ensures u1 == u2 && i1 == i2
  {
    var d1, d2 := IntToString(i1), IntToString(i2);
    var n := ArrayName(u1, i1);
    IntToStringNoBracket(i1);
    IntToStringNoBracket(i2);
    SuffixLengths(u1, d1, u2, d2);
    assert |u1| == |u2|;
    assert u1 == n[..|u1|] == u2;
    assert d1 == n[|u1| + 1..|n| - 1] == d2;
    IntToStringInjective(i1, i2);
  }

  /** The elements of an array get pairwise different names. */
  lemma ArrayNamesDistinct(u: string, length: int)
    ensures var ns := ArrayNames(u, length); forall i, j :: 0 <= i < j < |ns| ==> ns[i] != ns[j]
  {
    var ns := ArrayNames(u, length);
    forall i, j | 0 <= i < j < |ns|
      ensures ns[i] != ns[j]
    {
      if ns[i] == ns[j] {
        ArrayNameInjective(u, i, u, j);
      }
    }
  }

  // ---------------------------------------------------------------- the GL state

  /** The variants of `glUniform*` the program calls. */
  datatype UniformKind = Int1 | Float1 | Float2 | Float3 | Float4 | Matrix4

  datatype Call = UseProgram(program: int) | Uniform(kind: UniformKind, location: int, values: seq<real>)

  /** The bound program and every call made so far. */
  datatype GL = GL(current: int, calls: seq<Call>)

  /** The `glUseProgram` call `bind` makes: none when the program is already bound. */
  function BindCalls(gl: GL, id: int): (cs: seq<Call>)
    ensures cs == [] <==> gl.current == id
  {
    if gl.current == id then [] else [UseProgram(id)]
  }

  function Bound(gl: GL, id: int): (r: GL)
    ensures r.current == id && r.calls == gl.calls + BindCalls(gl, id)
  {
    if gl.current == id then gl else GL(id, gl.calls + [UseProgram(id)])
  }

  /** Binding twice in a row is binding once: the second `bind` issues no call. */
  lemma BindIdempotent(gl: GL, id: int)
    ensures Bound(Bound(gl, id), id) == Bound(gl, id)
  {
  }

  /** One `send*`: bind, then the uniform call at the target's registered location; an unregistered
    * target unboxes `null` and throws after the bind. */
  function SendStep(gl: GL, id: int, ul: map<string, int>, target: string, kind: UniformKind, values: seq<real>): (r: (GL, Outcome))
    ensures r.0.current == id
    ensures target in ul ==> r.1 == Normal && r.0.calls == gl.calls + BindCalls(gl, id) + [Uniform(kind, ul[target], values)]
    ensures target !in ul ==> r.1 == Thrown(NullPointer) && r.0.calls == gl.calls + BindCalls(gl, id)
  {
    var bound := Bound(gl, id);
    if target !in ul then (bound, Thrown(NullPointer))
    else (GL(bound.current, bound.calls + [Uniform(kind, ul[target], values)]), Normal)
  }

  /** `send*Array`: element `i` sent to `target[i]`, in order, until one throws. */
  function SendAll(gl: GL, id: int, ul: map<string, int>, targets: seq<string>, kind: UniformKind, data: seq<seq<real>>): (GL, Outcome)
    requires |targets| == |data|
    decreases |targets|
  {
    if targets == [] then (gl, Normal)
    else
      var r := SendStep(gl, id, ul, targets[0], kind, data[0]);
      if r.1.Thrown? then r else SendAll(r.0, id, ul, targets[1..], kind, data[1..])
  }

  /** The index of the first target with no location, or the number of targets if all have one. */
  function FirstMissing(ul: map<string, int>, targets: seq<string>): (k: nat)
    ensures k <= |targets|
    ensures forall j :: 0 <= j < k ==> targets[j] in ul
    ensures k < |targets| ==> targets[k] !in ul
  {
    if targets == [] then 0
    else if targets[0] !in ul then 0
    else 1 + FirstMissing(ul, targets[1..])
  }

  /** The uniform calls an array send makes: one per element, up to the first unregistered target. */
  function SentCalls(ul: map<string, int>, targets: seq<string>, kind: UniformKind, data: seq<seq<real>>): (cs: seq<Call>)
    requires |targets| == |data|
    ensures |cs| == FirstMissing(ul, targets)
  {
    if targets == [] || targets[0] !in ul then []
    else [Uniform(kind, ul[targets[0]], data[0])] + SentCalls(ul, targets[1..], kind, data[1..])
  }

  /** Call `j` of an array send goes to target `j` with element `j`. */
  lemma {:induction false} SentCallsAt(ul: map<string, int>, targets: seq<string>, kind: UniformKind, data: seq<seq<real>>, j: nat)
    requires |targets| == |data| && j < FirstMissing(ul, targets)
    ensures SentCalls(ul, targets, kind, data)[j] == Uniform(kind, ul[targets[j]], data[j])
  {
    if j > 0 {
      SentCallsAt(ul, targets[1..], kind, data[1..], j - 1);
    }
  }

  /** An array send succeeds exactly when every target is registered; otherwise it throws. */
  lemma {:induction false} SendAllOutcome(gl: GL, id: int, ul: map<string, int>, targets: seq<string>, kind: UniformKind, data: seq<seq<real>>)
    requires |targets| == |data|
    ensures var r := SendAll(gl, id, ul, targets, kind, data);
      (r.1 == Normal <==> FirstMissing(ul, targets) == |targets|) &&
      (r.1.Thrown? ==> r.1.ex == NullPointer) &&
      (targets != [] ==> r.0.current == id)
    decreases |targets|
  {
    if targets != [] && targets[0] in ul {
      var r := SendStep(gl, id, ul, targets[0], kind, data[0]);
      SendAllOutcome(r.0, id, ul, targets[1..], kind, data[1..]);
    }
  }

  /** An array send binds (if there is anything to send), then makes the calls of `SentCalls`. */
  lemma {:induction false} SendAllLog(gl: GL, id: int, ul: map<string, int>, targets: seq<string>, kind: UniformKind, data: seq<seq<real>>)
    requires |targets| == |data|
    ensures SendAll(gl, id, ul, targets, kind, data).0.calls ==
      gl.calls + (if targets == [] then [] else BindCalls(gl, id)) + SentCalls(ul, targets, kind, data)
    decreases |targets|
  {
    if targets != [] && targets[0] in ul {
      var r := SendStep(gl, id, ul, targets[0], kind, data[0]);
      var u0 := Uniform(kind, ul[targets[0]], data[0]);
      var tail := SentCalls(ul, targets[1..], kind, data[1..]);
      SendAllLog(r.0, id, ul, targets[1..], kind, data[1..]);
      assert BindCalls(r.0, id) == [];
      calc {
        SendAll(gl, id, ul, targets, kind, data).0.calls;
        SendAll(r.0, id, ul, targets[1..], kind, data[1..]).0.calls;
        (gl.calls + BindCalls(gl, id) + [u0]) + tail;
        gl.calls + BindCalls(gl, id) + ([u0] + tail);
      }
    }
  }

  // ---------------------------------------------------------------- structs

  /** `GLSLType`, with its `LENGTH`. */
  datatype GLSLType = FLOAT | INT | DOUBLE | VEC2 | VEC3 | VEC4 | MAT4

  function Length(t: GLSLType): (n: nat)
    ensures n >= 1
  {
    match t
    case FLOAT => 1
    case INT => 1
    case DOUBLE => 1
    case VEC2 => 2
    case VEC3 => 3
    case VEC4 => 4
    case MAT4 => 16
  }

  /** What a `StructDefiner` supplies: component types, component names and the flat data. */
  datatype Struct = Struct(structure: seq<GLSLType>, names: seq<string>, data: seq<real>)

  /** The offset of component `i` in the data: the lengths of the components before it. */
  function Offset(structure: seq<GLSLType>, i: nat): nat
    requires i <= |structure|
  {
    if i == 0 then 0 else Offset(structure, i - 1) + Length(structure[i - 1])
  }

  /** `Arrays.copyOfRange(data, from, to)` for `from <= to`: out of bounds past the end, padded
    * with zeros beyond it. */
  function CopyOfRange(data: seq<real>, from: nat, to: nat): (r: Result<seq<real>>)
    requires from <= to
    ensures r.Throws? <==> from > |data|
    ensures r.Throws? ==> r.ex == IndexOutOfBounds
    ensures r.Ok? ==> |r.value| == to - from
    ensures r.Ok? ==> forall k :: 0 <= k < to - from ==> r.value[k] == if from + k < |data| then data[from + k] else 0.0
  {
    if from > |data| then Throws(IndexOutOfBounds)
    else if to <= |data| then Ok(data[from..to])
    else Ok(data[from..] + seq(to - |data|, _ => 0.0))
  }

  /** The reads `data[offset] …` of a vector component. */
  function Reads(data: seq<real>, offset: nat, n: nat): Result<seq<real>>
  {
    if offset + n <= |data| then Ok(data[offset..offset + n]) else Throws(IndexOutOfBounds)
  }

  /** The call for one component: its location is looked up (and unboxed) before the data is read. */
  function ComponentCall(ul: map<string, int>, location: string, t: GLSLType, data: seq<real>, offset: nat): (r: Result<Call>)
    ensures r.Throws? ==> r.ex in {NullPointer, IndexOutOfBounds}
    ensures location !in ul ==> r == Throws(NullPointer)
    ensures r.Ok? ==> r.value.Uniform? && r.value.location == ul[location]
  {
    if location !in ul then Throws(NullPointer)
    else
      var read := match t
        case FLOAT => Reads(data, offset, 1)
        case INT => Reads(data, offset, 1)
        case DOUBLE => Reads(data, offset, 1)
        case VEC2 => Reads(data, offset, 2)
        case VEC3 => Reads(data, offset, 3)
        case VEC4 => Reads(data, offset, 4)
        case MAT4 => CopyOfRange(data, offset, offset + Length(MAT4) - 1);
      var kind := match t
        case VEC2 => Float2
        case VEC3 => Float3
        case VEC4 => Float4
        case MAT4 => Matrix4
        case _ => Float1;
      if read.Throws? then Throws(read.ex) else Ok(Uniform(kind, ul[location], read.value))
  }

  /** The walk of `sendStruct` from component `i`, with the data offset at `offset` and the calls
    * made so far in `sent`; the first failure ends it. */
  datatype Pass = Pass(calls: seq<Call>, failure: Option<Exception>)

  function StructWalk(ul: map<string, int>, target: string, s: Struct, i: nat, offset: nat, sent: seq<Call>): (p: Pass)
    requires i <= |s.structure|
    decreases |s.structure| - i
  {
    if i == |s.structure| then Pass(sent, None)
    else if i >= |s.names| then Pass(sent, Some(IndexOutOfBounds))
    else
      var c := ComponentCall(ul, StructName(target, s.names[i]), s.structure[i], s.data, offset);
      if c.Throws? then Pass(sent, Some(c.ex))
      else StructWalk(ul, target, s, i + 1, offset + Length(s.structure[i]), sent + [c.value])
  }

  /** The walk only appends to the calls made before it, at most one per component. */
  lemma {:induction false} StructWalkAppends(ul: map<string, int>, target: string, s: Struct, i: nat, offset: nat, sent: seq<Call>)
    requires i <= |s.structure|
    ensures var p := StructWalk(ul, target, s, i, offset, sent);
      |sent| <= |p.calls| <= |sent| + |s.structure| - i && p.calls[..|sent|] == sent
    decreases |s.structure| - i
  {
    if i < |s.structure| && i < |s.names| {
      var c := ComponentCall(ul, StructName(target, s.names[i]), s.structure[i], s.data, offset);
      if c.Ok? {
        StructWalkAppends(ul, target, s, i + 1, offset + Length(s.structure[i]), sent + [c.value]);
        assert (sent + [c.value])[..|sent|] == sent;
      }
    }
  }

  /** Among the calls a walk from component `i` adds, the one for component `j` is component `j`'s,
    * read at the offset after all components before it, at `target.name`. */
  lemma {:induction false} StructWalkOffsets(ul: map<string, int>, target: string, s: Struct, i: nat, sent: seq<Call>, j: nat)
    requires i <= j && i <= |s.structure|
    requires |sent| + (j - i) < |StructWalk(ul, target, s, i, Offset(s.structure, i), sent).calls|
    ensures j < |s.structure| && j < |s.names|
    ensures var c := ComponentCall(ul, StructName(target, s.names[j]), s.structure[j], s.data, Offset(s.structure, j));
      c.Ok? && StructWalk(ul, target, s, i, Offset(s.structure, i), sent).calls[|sent| + (j - i)] == c.value
    decreases |s.structure| - i
  {
    var p := StructWalk(ul, target, s, i, Offset(s.structure, i), sent);
    if i == |s.structure| || i >= |s.names| {
      assert false;
    }
    var c := ComponentCall(ul, StructName(target, s.names[i]), s.structure[i], s.data, Offset(s.structure, i));
    if c.Throws? {
      assert false;
    }
    var next := sent + [c.value];
    assert p == StructWalk(ul, target, s, i + 1, Offset(s.structure, i + 1), next);
    StructWalkAppends(ul, target, s, i + 1, Offset(s.structure, i + 1), next);
    if i < j {
      StructWalkOffsets(ul, target, s, i + 1, next, j);
    } else {
      assert p.calls[|sent|] == next[|sent|];
    }
  }

  /** Components read disjoint ranges of the data, in order. */
  lemma {:induction false} OffsetsIncrease(structure: seq<GLSLType>, i: nat, j: nat)
    requires i < j <= |structure|
    ensures Offset(structure, i) + Length(structure[i]) <= Offset(structure, j)
  {
    if i < j - 1 {
      OffsetsIncrease(structure, i, j - 1);
    }
  }

  /** The data a struct needs: the lengths of all its components. */
  function DataLength(structure: seq<GLSLType>): nat
  {
    Offset(structure, |structure|)
  }

  /** A struct whose names, registrations and data cover every component is sent without failure,
    * one call per component. */
  lemma {:induction false} WellFormedStructSent(ul: map<string, int>, target: string, s: Struct, i: nat, sent: seq<Call>)
    requires i <= |s.structure| <= |s.names| && |s.data| >= DataLength(s.structure)
    requires forall k :: 0 <= k < |s.structure| ==> StructName(target, s.names[k]) in ul
    ensures var p := StructWalk(ul, target, s, i, Offset(s.structure, i), sent);
      p.failure == None && |p.calls| == |sent| + |s.structure| - i
    decreases |s.structure| - i
  {
    if i < |s.structure| {
      OffsetsIncrease(s.structure, i, |s.structure|);
      var c := ComponentCall(ul, StructName(target, s.names[i]), s.structure[i], s.data, Offset(s.structure, i));
      WellFormedStructSent(ul, target, s, i + 1, sent + [c.value]);
    }
  }

  /** A `MAT4` component sends the 15 values from its offset on, zero-padded past the data's end:
    * its 16th value is never sent. */
  lemma Mat4SendsFifteen(ul: map<string, int>, location: string, data: seq<real>, offset: nat)
    requires location in ul && offset <= |data|
    ensures var c := ComponentCall(ul, location, MAT4, data, offset);
      c.Ok? && c.value.kind == Matrix4 && |c.value.values| == 15 &&
      (offset + 16 <= |data| ==> c.value.values == data[offset..offset + 15])
  {
  }

  // ---------------------------------------------------------------- the program

  /** The OpenGL context: the program bound by the last `bind` (the static `currentProgram`, 0 at
    * start) and the calls made so far. */
  class GLContext {
    var current: int
    var calls: seq<Call>

    constructor ()
      ensures current == 0 && calls == []
    {
      current, calls := 0, [];
    }

    function State(): GL
      reads this
    {
      GL(current, calls)
    }
  }

  class ShaderProgram {
    const id: int
    var ul: map<string, int>

    /** A linked program with no uniform registered yet; compiling and linking are left out. */
    constructor (id: int)
      ensures this.id == id && ul == map[]
    {
      this.id := id;
      ul := map[];
    }

    method Bind(gl: GLContext)
      modifies gl
      ensures gl.State() == Bound(old(gl.State()), id)
    {
      if id == gl.current {
        return;
      }
      gl.calls := gl.calls + [UseProgram(id)];
      gl.current := id;
    }

    method RegisterUniformLocation(uniform: string, location: string -> int)
      modifies this`ul
      ensures ul == old(ul)[uniform := location(uniform)]
    {
      ul := ul[uniform := location(uniform)];
    }

    method RegisterUniformArrayLocations(uniform: string, length: int, location: string -> int)
      modifies this`ul
      ensures ul == old(ul) + Locations(ArrayNames(uniform, length), location)
    {
      var i := 0;
      while i < length
        invariant 0 <= i <= (if length < 0 then 0 else length)
        invariant ul == old(ul) + Locations(ArrayNames(uniform, i), location)
      {
        var names := ArrayNames(uniform, i);
        assert ArrayNames(uniform, i + 1) == names + [ArrayName(uniform, i)];
        LocationsSnoc(names, ArrayName(uniform, i), location);
        UpdateUnion(old(ul), Locations(names, location), ArrayName(uniform, i), location(ArrayName(uniform, i)));
        RegisterUniformLocation(ArrayName(uniform, i), location);
        i := i + 1;
      }
      assert ArrayNames(uniform, i) == ArrayNames(uniform, length) by {
        if length >= 0 {
          assert i == length;
        }
      }
    }

    method RegisterUniformStructLocation(uniform: string, comps: seq<string>, location: string -> int)
      modifies this`ul
      ensures ul == old(ul) + Locations(StructNames(uniform, comps), location)
    {
      var k := 0;
      while k < |comps|
        invariant 0 <= k <= |comps|
        invariant ul == old(ul) + Locations(StructNames(uniform, comps[..k]), location)
      {
        assert StructNames(uniform, comps[..k + 1]) == StructNames(uniform, comps[..k]) + [StructName(uniform, comps[k])];
        LocationsSnoc(StructNames(uniform, comps[..k]), StructName(uniform, comps[k]), location);
        UpdateUnion(old(ul), Locations(StructNames(uniform, comps[..k]), location), StructName(uniform, comps[k]), location(StructName(uniform, comps[k])));
        RegisterUniformLocation(StructName(uniform, comps[k]), location);
        k := k + 1;
      }
      assert comps[..k] == comps;
    }

    method RegisterUniformStructArrayLocations(uniform: string, comps: seq<string>, length: int, location: string -> int)
      modifies this`ul
      ensures ul == old(ul) + Locations(StructArrayNames(uniform, comps, length), location)
    {
      var i := 0;
      while i < length
        invariant 0 <= i <= (if length < 0 then 0 else length)
        invariant ul == old(ul) + Locations(StructArrayNames(uniform, comps, i), location)
      {
        ghost var before := ul;
        RegisterUniformStructLocation(ArrayName(uniform, i), comps, location);
        StructArrayStep(old(ul), before, uniform, comps, i, location);
        i := i + 1;
      }
      assert StructArrayNames(uniform, comps, i) == StructArrayNames(uniform, comps, length) by {
        if length >= 0 {
          assert i == length;
        }
      }
    }

    /** `sendMatrix`, `sendInt`, `sendFloat`, `sendVec2`, `sendVec3`, `sendVec4`: bind, then one uniform call. */
    method Send(gl: GLContext, target: string, kind: UniformKind, values: seq<real>) returns (o: Outcome)
      modifies gl
      ensures (gl.State(), o) == SendStep(old(gl.State()), id, ul, target, kind, values)
    {
      Bind(gl);
      if target !in ul {
        return Thrown(NullPointer);
      }
      gl.calls := gl.calls + [Uniform(kind, ul[target], values)];
      o := Normal;
    }

    method SendInt(gl: GLContext, target: string, i: int) returns (o: Outcome)
      modifies gl
      ensures (gl.State(), o) == SendStep(old(gl.State()), id, ul, target, Int1, [i as real])
    {
      o := Send(gl, target, Int1, [i as real]);
    }

    /** `true` is sent as `GL_TRUE` (1), `false` as `GL_FALSE` (0). */
    method SendBoolean(gl: GLContext, target: string, b: bool) returns (o: Outcome)
      modifies gl
      ensures (gl.State(), o) == SendStep(old(gl.State()), id, ul, target, Int1, [if b then 1.0 else 0.0])
    {
      o := Send(gl, target, Int1, [if b then 1.0 else 0.0]);
    }

    /** Every `send*Array`: element `i` goes to `target[i]`. */
    method SendArray(gl: GLContext, target: string, kind: UniformKind, data: seq<seq<real>>) returns (o: Outcome)
      modifies gl
      ensures (gl.State(), o) == SendAll(old(gl.State()), id, ul, ArrayNames(target, |data|), kind, data)
    {
      var targets := ArrayNames(target, |data|);
      var i := 0;
      while i < |data|
        invariant 0 <= i <= |data|
        invariant SendAll(old(gl.State()), id, ul, targets, kind, data) == SendAll(gl.State(), id, ul, targets[i..], kind, data[i..])
      {
        assert targets[i..][0] == ArrayName(target, i) && targets[i..][1..] == targets[i + 1..];
        assert data[i..][0] == data[i] && data[i..][1..] == data[i + 1..];
        o := Send(gl, ArrayName(target, i), kind, data[i]);
        if o.Thrown? {
          return;
        }
        i := i + 1;
      }
      o := Normal;
    }

    method SendIntArray(gl: GLContext, target: string, data: seq<int>) returns (o: Outcome)
      modifies gl
      ensures (gl.State(), o) == SendAll(old(gl.State()), id, ul, ArrayNames(target, |data|), Int1, seq(|data|, k requires 0 <= k < |data| => [data[k] as real]))
    {
      o := SendArray(gl, target, Int1, seq(|data|, k requires 0 <= k < |data| => [data[k] as real]));
    }

    method SendBooleanArray(gl: GLContext, target: string, data: seq<bool>) returns (o: Outcome)
      modifies gl
      ensures (gl.State(), o) == SendAll(old(gl.State()), id, ul, ArrayNames(target, |data|), Int1, seq(|data|, k requires 0 <= k < |data| => [if data[k] then 1.0 else 0.0]))
    {
      o := SendArray(gl, target, Int1, seq(|data|, k requires 0 <= k < |data| => [if data[k] then 1.0 else 0.0]));
    }

    /** `sendStruct`: bind, then one call per component, walking the data offset. */
    method SendStruct(gl: GLContext, target: string, s: Struct) returns (o: Outcome)
      modifies gl
      ensures var p := StructWalk(ul, target, s, 0, 0, old(gl.calls) + BindCalls(old(gl.State()), id));
        gl.current == id && gl.calls == p.calls && o == (if p.failure.Some? then Thrown(p.failure.value) else Normal)
    {
      Bind(gl);
      var offset: nat := 0;
      var i := 0;
      while i < |s.structure|
        invariant 0 <= i <= |s.structure| && gl.current == id
        invariant StructWalk(ul, target, s, 0, 0, old(gl.calls) + BindCalls(old(gl.State()), id)) == StructWalk(ul, target, s, i, offset, gl.calls)
      {
        if i >= |s.names| {
          return Thrown(IndexOutOfBounds);
        }
        var c := ComponentCall(ul, StructName(target, s.names[i]), s.structure[i], s.data, offset);
        if c.Throws? {
          return Thrown(c.ex);
        }
        gl.calls := gl.calls + [c.value];
        offset := offset + Length(s.structure[i]);
        i := i + 1;
      }
      o := Normal;
    }

    /** `sendStructArray`: element `i` goes to `target[i]`. */
    method SendStructArray(gl: GLContext, target: string, structs: seq<Struct>) returns (o: Outcome)
      modifies gl
      ensures (gl.State(), o) == StructArrayPass(old(gl.State()), id, ul, target, structs, 0)
    {
      var i := 0;
      while i < |structs|
        invariant 0 <= i <= |structs|
        invariant StructArrayPass(old(gl.State()), id, ul, target, structs, 0) == StructArrayPass(gl.State(), id, ul, target, structs, i)
      {
        o := SendStruct(gl, ArrayName(target, i), structs[i]);
        if o.Thrown? {
          return;
        }
        i := i + 1;
      }
      o := Normal;
    }
  }

  /** One `sendStruct` as a transition of the GL state. */
  function SendStructStep(gl: GL, id: int, ul: map<string, int>, target: string, s: Struct): (r: (GL, Outcome))
    ensures r.0.current == id
  {
    var p := StructWalk(ul, target, s, 0, 0, gl.calls + BindCalls(gl, id));
    (GL(id, p.calls), if p.failure.Some? then Thrown(p.failure.value) else Normal)
  }

  /** `sendStructArray` from element `i` on. */
  function StructArrayPass(gl: GL, id: int, ul: map<string, int>, target: string, structs: seq<Struct>, i: nat): (GL, Outcome)
    requires i <= |structs|
    decreases |structs| - i
  {
    if i == |structs| then (gl, Normal)
    else
      var r := SendStructStep(gl, id, ul, ArrayName(target, i), structs[i]);
      if r.1.Thrown? then r else StructArrayPass(r.0, id, ul, target, structs, i + 1)
  }
}
