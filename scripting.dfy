/** Level and asset scripts. A script is read line by line: tabs are dropped, blank and `#` lines
  * are skipped, and every other line is `name> args` and calls the script-environment method of that
  * name whose arity equals the number of space-separated arguments: `make` (5), `log` (1) or
  * `define` (2). A level's environment acts on the level; an asset's acts on the asset being
  * loaded and on its level. `make` builds an asset by running the asset's own script, so scripts
  * nest; the nesting depth is bounded by `fuel`.
  *
  * The state the scripts act on is the `World`: the level's name, its assets by unique id, its
  * physics engine, the table of physics bodies, and what has been printed. Everything the Java
  * program would do with floats (positions, sizes, gravity, mass) is kept as the text it would
  * parse. The value-level functions here specify the methods of `Level`, which run the same steps
  * in place. */
module Scripting {
  import opened Java
  import opened JavaStrings

  const TYPE_LEVEL: int := 0
  const TYPE_ASSET: int := 1

  // ---------------------------------------------------------------- state

  /** What a stack trace reports. */
  datatype Problem =
    | Raised(ex: Exception)                  // an exception from an invoked script method
    | NoSuchMethod(name: string, arity: nat) // no environment method of that name and arity
    | FileNotFound(path: string)
    | TooDeep(path: string)                  // an asset script nested deeper than the fuel allows

  /** A line on standard output, on standard error, or a printed stack trace. */
  datatype Printed = Out(text: string) | Err(text: string) | Trace(problem: Problem)

  /** A physics body: its width and height, whether it was made absolute (`static`), the trigger flag
    * it was given (`body`), and the mass, friction and bounce set on it. */
  datatype Body = Body(width: string, height: string, absolute: bool, trigger: Option<bool>,
                       mass: Option<string>, friction: Option<string>, epsilon: Option<string>)

  /** A quad renderer: its size and the texture path set on it (`None`: the default texture). */
  datatype Renderer = Renderer(width: string, height: string, texture: Option<string>)

  /** An asset: its unique id, its name (`null` until defined), its params, its position, its
    * renderer and its body (an index into the body table). */
  datatype Asset = Asset(uniqueID: string, name: Option<string>, params: seq<string>,
                         position: Option<(string, string)>, renderer: Option<Renderer>, body: Option<nat>)

  /** The physics engine: the gravity set on it and the bodies added to it. */
  datatype Engine = Engine(gravity: Option<(string, string)>, bodies: seq<nat>)

  /** A new engine. */
  const NEW_ENGINE := Engine(None, [])

  datatype World = World(name: Option<string>, assets: map<string, Asset>, engine: Engine,
                         bodies: seq<Body>, out: seq<Printed>)

  /** A script environment: the level's own, or an asset's, holding the asset being loaded. */
  datatype Env = LevelEnv | AssetEnv(asset: Asset)
  {
    function TYPE(): (t: int)
      ensures t == TYPE_LEVEL <==> this.LevelEnv?
      ensures t == TYPE_ASSET <==> this.AssetEnv?
    {
      if LevelEnv? then TYPE_LEVEL else TYPE_ASSET
    }
  }

  function Print(w: World, p: Printed): World
  {
    w.(out := w.out + [p])
  }

  // ---------------------------------------------------------------- lines

  datatype Command = Command(name: string, args: seq<string>)

  /** A line that is empty once its spaces are removed, or a comment. */
  predicate Skipped(line: string)
  {
    RemoveChar(line, ' ') == [] || StartsWith(line, "#")
  }

  /** One script line: skipped, or the text before the first `>` followed by spaces and the rest
    * split on runs of spaces; a line without that separator throws. */
  function ParseLine(raw: string): (r: Result<Option<Command>>)
    ensures r.Throws? ==> r.ex == IndexOutOfBounds
    ensures r == Ok(None) <==> Skipped(RemoveChar(raw, '\t'))
  {
    var line := RemoveChar(raw, '\t');
    if Skipped(line) then Ok(None)
    else
      var data := Split(GtRun, line);
      if |data| < 2 then Throws(IndexOutOfBounds)
      else Ok(Some(Command(data[0], Split(Run(' '), data[1]))))
  }

  /** Tabs never matter: a line parses as it does with its tabs removed. */
  lemma ParseLineIgnoresTabs(raw: string)
    ensures ParseLine(raw) == ParseLine(RemoveChar(raw, '\t'))
  {
    RemoveCharIdempotent(raw, '\t');
  }

  /** Joining pieces that avoid a character, with a separator that avoids it, avoids it. */
  lemma {:induction false} JoinAvoids(ts: seq<string>, sep: string, c: char)
    requires c !in sep && forall k :: 0 <= k < |ts| ==> c !in ts[k]
    ensures c !in Join(ts, sep)
  {
    if |ts| > 1 {
      JoinAvoids(ts[1..], sep, c);
    }
  }

  /** A line that is not skipped and has no `>` followed by a space throws. */
  lemma NoSeparatorThrows(raw: string)
    requires !Skipped(RemoveChar(raw, '\t'))
    requires var line := RemoveChar(raw, '\t');
      forall k :: 0 <= k < |line| - 1 ==> !(line[k] == '>' && line[k + 1] == ' ')
    ensures ParseLine(raw) == Throws(IndexOutOfBounds)
  {
    var line := RemoveChar(raw, '\t');
    forall k | 0 <= k < |line| ensures MatchLen(GtRun, line, k) == 0 {
    }
    PiecesSkip(GtRun, line, 0, 0, |line|);
    assert line[0..] == line;
  }

  /** The line a command is written as: `name> a1 a2 ...`. */
  function CommandLine(name: string, args: seq<string>): string
  {
    Join([name, Join(args, " ")], Sep(GtRun))
  }

  /** A command name and arguments that `name> a1 a2 ...` writes down unambiguously: the name
    * starts with neither a space nor `#` and has no `>`, and the arguments are non-empty and have
    * no space or `>`; neither has tabs. */
  predicate WellFormedCommand(name: string, args: seq<string>)
  {
    Clean(GtRun, name) && '\t' !in name && name[0] != '#' &&
    |args| >= 1 && forall k :: 0 <= k < |args| ==> Clean(Run(' '), args[k]) && '>' !in args[k] && '\t' !in args[k]
  }

  lemma CommandLineNoTab(name: string, args: seq<string>)
    requires WellFormedCommand(name, args)
    ensures RemoveChar(CommandLine(name, args), '\t') == CommandLine(name, args)
  {
    JoinAvoids(args, " ", '\t');
    JoinAvoids([name, Join(args, " ")], Sep(GtRun), '\t');
  }

  lemma CommandLineNotSkipped(name: string, args: seq<string>)
    requires WellFormedCommand(name, args)
    ensures !Skipped(CommandLine(name, args))
  {
    var line := CommandLine(name, args);
    JoinPair(name, Join(args, " "), Sep(GtRun));
    assert line[0] == name[0];
    assert !StartsWith(line, "#") by {
      assert line[..1][0] == line[0];
    }
    assert RemoveChar(line, ' ') != [] by {
      RemoveCharEmpty(line, ' ');
    }
  }

  lemma CommandLineSplits(name: string, args: seq<string>)
    requires WellFormedCommand(name, args)
    ensures Split(GtRun, CommandLine(name, args)) == [name, Join(args, " ")]
  {
    var joined := Join(args, " ");
    JoinAvoids(args, " ", '>');
    JoinStarts(args, " ");
    assert Clean(GtRun, joined) by {
      assert ' ' !in args[0];
    }
    SplitJoin(GtRun, [name, joined]);
  }

  /** A command written as `name> a1 a2 ...` parses back to itself, provided the name starts with
    * neither a space nor `#` and contains no `>`, and the arguments are non-empty and contain no
    * space, `>` or tab. */
  lemma ParseLineRoundTrip(name: string, args: seq<string>)
    requires WellFormedCommand(name, args)
    ensures ParseLine(CommandLine(name, args)) == Ok(Some(Command(name, args)))
  {
    CommandLineNoTab(name, args);
    CommandLineNotSkipped(name, args);
    CommandLineSplits(name, args);
    SplitJoin(Run(' '), args);
  }

  // ---------------------------------------------------------------- dispatch

  /** A resolved call of a public method of the script environment. */
  datatype Invocation =
    | MakeCall(path: string, uniqueID: string, x: string, y: string, params: string)
    | LogCall(text: string)
    | DefineCall(kind: string, params: string)

  /** Reflective lookup by name and number of `String` parameters. */
  function Resolve(c: Command): (r: Option<Invocation>)
    ensures r.Some? <==> (c.name, |c.args|) in {("make", 5), ("log", 1), ("define", 2)}
    ensures r.Some? && c.name == "make" ==> r.value == MakeCall(c.args[0], c.args[1], c.args[2], c.args[3], c.args[4])
    ensures r.Some? && c.name == "log" ==> r.value == LogCall(c.args[0])
    ensures r.Some? && c.name == "define" ==> r.value == DefineCall(c.args[0], c.args[1])
  {
    if c.name == "make" && |c.args| == 5 then Some(MakeCall(c.args[0], c.args[1], c.args[2], c.args[3], c.args[4]))
    else if c.name == "log" && |c.args| == 1 then Some(LogCall(c.args[0]))
    else if c.name == "define" && |c.args| == 2 then Some(DefineCall(c.args[0], c.args[1]))
    else None
  }

  // ---------------------------------------------------------------- log

  /** Each piece followed by a space, as the string builder of `log` collects them. */
  function Spaced(ps: seq<string>): (s: string)
    ensures |s| >= |ps|
  {
    if ps == [] then "" else Spaced(ps[..|ps| - 1]) + ps[|ps| - 1] + " "
  }

  /** Joining one more piece puts the separator before it. */
  lemma {:induction false} JoinSnoc(ps: seq<string>, t: string, sep: string)
    requires ps != []
    ensures Join(ps + [t], sep) == Join(ps, sep) + sep + t
  {
    if |ps| > 1 {
      assert (ps + [t])[1..] == ps[1..] + [t];
      JoinSnoc(ps[1..], t, sep);
    }
  }

  /** The builder holds the pieces joined with single spaces, plus one trailing space. */
  lemma {:induction false} SpacedJoin(ps: seq<string>)
    requires ps != []
    ensures Spaced(ps) == Join(ps, " ") + " "
  {
    var init := ps[..|ps| - 1];
    if init == [] {
      assert ps == [ps[0]];
    } else {
      SpacedJoin(init);
      JoinSnoc(init, ps[|ps| - 1], " ");
      assert init + [ps[|ps| - 1]] == ps;
    }
  }

  /** The text `log` prints: the pieces between runs of `|`, joined with single spaces; the builder
    * is cut before its last character, which throws when it is empty. */
  function LogText(text: string): (r: Result<string>)
    ensures r.Throws? ==> r.ex == IndexOutOfBounds
  {
    var s := Spaced(Split(Run('|'), text));
    if |s| == 0 then Throws(IndexOutOfBounds) else Ok(s[..|s| - 1])
  }

  /** `log` writes `|`-separated words with spaces. */
  lemma LogTextJoins(ts: seq<string>)
    requires |ts| >= 1 && forall k :: 0 <= k < |ts| ==> Clean(Run('|'), ts[k])
    ensures LogText(Join(ts, "|")) == Ok(Join(ts, " "))
  {
    SplitJoin(Run('|'), ts);
    SpacedJoin(ts);
  }

  /** `log` throws exactly on a text made only of `|`. */
  lemma LogTextThrows(text: string)
    ensures LogText(text).Throws? <==> text != [] && forall j :: 0 <= j < |text| ==> text[j] == '|'
    ensures LogText(text).Throws? ==> LogText(text).ex == IndexOutOfBounds
  {
    SplitRunEmpty('|', text);
    if Split(Run('|'), text) != [] {
      SpacedJoin(Split(Run('|'), text));
    }
  }

  /** How `null` prints. */
  function NameText(n: Option<string>): string
  {
    if n.None? then "null" else n.value
  }

  /** The prefix of a log line: `[level.name]: `, or `[asset.name|uniqueID]: `. */
  function LogPrefix(env: Env, w: World): string
  {
    match env
    case LevelEnv => "[" + NameText(w.name) + "]: "
    case AssetEnv(a) => "[" + NameText(a.name) + "|" + a.uniqueID + "]: "
  }

  /** `log(text)`: one line on standard output, and nothing else. */
  function LogF(env: Env, w: World, text: string): (r: (World, Outcome))
    ensures r.1.Normal? ==> LogText(text).Ok? && r.0 == Print(w, Out(LogPrefix(env, w) + LogText(text).value))
    ensures r.1.Thrown? ==> r.0 == w && LogText(text).Throws?
  {
    match LogText(text)
    case Throws(e) => (w, Thrown(e))
    case Ok(t) => (Print(w, Out(LogPrefix(env, w) + t)), Normal)
  }

  // ---------------------------------------------------------------- define

  /** A param written `p` and decimal digits: a reference to an asset param. */
  predicate IsParamRef(s: string)
  {
    |s| >= 2 && s[0] == 'p' && AllDigits(s[1..])
  }

  /** One define param in an asset environment: a reference is replaced by the asset param it
    * names; a number too large for an `int`, or past the params, throws. */
  function SubstituteOne(s: string, params: seq<string>): (r: Result<string>)
    ensures !IsParamRef(s) ==> r == Ok(s)
    ensures r.Throws? ==> r.ex in {NumberFormat, IndexOutOfBounds}
  {
    if !IsParamRef(s) then Ok(s)
    else match ParseInt(s[1..])
      case Throws(e) => Throws(e)
      case Ok(n) => if 0 <= n < |params| then Ok(params[n]) else Throws(IndexOutOfBounds)
  }

  /** All define params substituted in order; the first failure throws. */
  function Substitute(ps: seq<string>, params: seq<string>): (r: Result<seq<string>>)
    ensures r.Ok? ==> |r.value| == |ps|
  {
    if ps == [] then Ok([])
    else match SubstituteOne(ps[0], params)
      case Throws(e) => Throws(e)
      case Ok(s) =>
        match Substitute(ps[1..], params)
        case Throws(e) => Throws(e)
        case Ok(rest) => Ok([s] + rest)
  }

  /** Substitution succeeds with the values of its elements when each succeeds. */
  lemma {:induction false} SubstituteAllOk(ps: seq<string>, params: seq<string>, vs: seq<string>)
    requires |ps| == |vs| && forall k :: 0 <= k < |ps| ==> SubstituteOne(ps[k], params) == Ok(vs[k])
    ensures Substitute(ps, params) == Ok(vs)
  {
    if ps != [] {
      SubstituteAllOk(ps[1..], params, vs[1..]);
      assert [vs[0]] + vs[1..] == vs;
    }
  }

  /** Substitution throws what the first failing element throws. */
  lemma {:induction false} SubstituteFirstFailure(ps: seq<string>, params: seq<string>, i: nat)
    requires i < |ps| && SubstituteOne(ps[i], params).Throws?
    requires forall k :: 0 <= k < i ==> SubstituteOne(ps[k], params).Ok?
    ensures Substitute(ps, params) == Throws(SubstituteOne(ps[i], params).ex)
  {
    if i > 0 {
      SubstituteFirstFailure(ps[1..], params, i - 1);
    }
  }

  /** `p` followed by the decimal of an index into the params stands for that param. */
  lemma ParamRefResolves(n: nat, params: seq<string>)
    requires n < |params| && n <= INT_MAX
    ensures IsParamRef("p" + IntToString(n)) && SubstituteOne("p" + IntToString(n), params) == Ok(params[n])
  {
    var s := "p" + IntToString(n);
    assert s[1..] == IntToString(n);
    ParseIntToString(n);
  }

  /** The exception, if any, from evaluating `Float.parseFloat(p[i])` ... `Float.parseFloat(p[n - 1])`
    * left to right: an index past the params, or a text that is not a float. */
  function FloatArgsFrom(ps: seq<string>, i: nat, n: nat): (r: Option<Exception>)
    ensures r.Some? ==> r.value in {IndexOutOfBounds, NumberFormat}
    decreases n - i
  {
    if i >= n then None
    else if i >= |ps| then Some(IndexOutOfBounds)
    else if ParseFloat(ps[i]).Throws? then Some(NumberFormat)
    else FloatArgsFrom(ps, i + 1, n)
  }

  function FloatArgs(ps: seq<string>, n: nat): Option<Exception>
  {
    FloatArgsFrom(ps, 0, n)
  }

  /** When there are enough params, the float arguments are fine exactly when each is a float. */
  lemma {:induction false} FloatArgsFromNone(ps: seq<string>, i: nat, n: nat)
    requires i <= n <= |ps|
    ensures FloatArgsFrom(ps, i, n) == None <==> forall k :: i <= k < n ==> ParseFloat(ps[k]).Ok?
    decreases n - i
  {
    if i < n && ParseFloat(ps[i]).Ok? {
      FloatArgsFromNone(ps, i + 1, n);
    }
  }

  /** The first argument that is missing or not a float decides the exception. */
  lemma {:induction false} FloatArgsFromFirst(ps: seq<string>, i: nat, n: nat, j: nat)
    requires i <= j < n && j <= |ps| && forall k :: i <= k < j ==> ParseFloat(ps[k]).Ok?
    requires j == |ps| || ParseFloat(ps[j]).Throws?
    ensures FloatArgsFrom(ps, i, n) == Some(if j >= |ps| then IndexOutOfBounds else NumberFormat)
    decreases j - i
  {
    if i < j {
      FloatArgsFromFirst(ps, i + 1, n, j);
    }
  }

  /** The error printed for a definer used in a level that only assets have. */
  function LevelRefusal(kind: string): Option<string>
  {
    if kind == "renderer" || kind == "texture" then Some("Cannot define renderer for a level")
    else if kind == "static" then Some("Cannot define static for a level")
    else if kind == "body" then Some("Cannot define body for a level")
    else if kind == "mass" then Some("Cannot define mass for a level")
    else if kind == "friction" then Some("Cannot define friction for a level")
    else if kind == "bounce" then Some("Cannot define bounce for a level")
    else None
  }

  function Undefined(kind: string): string
  {
    "Undefined: \"" + kind + "\""
  }

  /** The definers the switch knows. */
  predicate Known(kind: string)
  {
    kind in {"name", "gravity", "renderer", "texture", "static", "body", "mass", "friction", "bounce"}
  }

  /** `define` in the level's environment, on the split params. */
  function LevelDefine(w: World, kind: string, ps: seq<string>): (r: (World, Outcome))
    ensures r.1.Thrown? <==> (kind == "name" && |ps| < 1) || (kind == "gravity" && FloatArgs(ps, 2).Some?)
    ensures r.1.Thrown? ==> r.0 == w && r.1.ex in {IndexOutOfBounds, NumberFormat}
    ensures r.0.assets == w.assets && r.0.bodies == w.bodies && r.0.engine.bodies == w.engine.bodies
    ensures r.1.Normal? ==> r.0.name == (if kind == "name" then Some(ps[0]) else w.name)
    ensures r.1.Normal? ==> r.0.engine.gravity == (if kind == "gravity" then Some((ps[0], ps[1])) else w.engine.gravity)
  {
    if kind == "name" then
      if |ps| < 1 then (w, Thrown(IndexOutOfBounds)) else (w.(name := Some(ps[0])), Normal)
    else if kind == "gravity" then
      if FloatArgs(ps, 2).Some? then (w, Thrown(FloatArgs(ps, 2).value))
      else (w.(engine := w.engine.(gravity := Some((ps[0], ps[1])))), Normal)
    else if LevelRefusal(kind).Some? then (Print(w, Err(LevelRefusal(kind).value)), Normal)
    else (Print(w, Err(Undefined(kind))), Normal)
  }

  /** `Boolean.parseBoolean`: `true` in any letter case. */
  function ParseBoolean(s: string): (b: bool)
    ensures b <==> |s| == 4 && forall i :: 0 <= i < 4 ==> s[i] == "true"[i] || s[i] == "TRUE"[i]
  {
    |s| == 4 && s[0] in "tT" && s[1] in "rR" && s[2] in "uU" && s[3] in "eE"
  }

  /** A body setter applied to the asset's body; `getBody()` is `null` without one. */
  function SetOnBody(w: World, a: Asset, kind: string, v: string): (r: (World, Outcome))
    ensures r.1.Thrown? <==> a.body.None?
    ensures r.1.Thrown? ==> r.1.ex == NullPointer && r.0 == w
    ensures r.0.name == w.name && r.0.assets == w.assets && r.0.engine == w.engine && r.0.out == w.out
    ensures |r.0.bodies| == |w.bodies|
    ensures forall i :: 0 <= i < |w.bodies| && a.body != Some(i) ==> r.0.bodies[i] == w.bodies[i]
    ensures a.body.Some? && a.body.value < |w.bodies| ==>
      var (b, b') := (w.bodies[a.body.value], r.0.bodies[a.body.value]);
      b'.width == b.width && b'.height == b.height && b'.absolute == b.absolute && b'.trigger == b.trigger &&
      b'.mass == (if kind == "mass" then Some(v) else b.mass) &&
      b'.friction == (if kind == "friction" then Some(v) else b.friction) &&
      b'.epsilon == (if kind != "mass" && kind != "friction" then Some(v) else b.epsilon)
  {
    if a.body.None? then (w, Thrown(NullPointer))
    else if a.body.value >= |w.bodies| then (w, Normal)
    else
      var b := w.bodies[a.body.value];
      var b' := if kind == "mass" then b.(mass := Some(v))
        else if kind == "friction" then b.(friction := Some(v))
        else b.(epsilon := Some(v));
      (w.(bodies := w.bodies[a.body.value := b']), Normal)
  }

  /** A new body given to the asset and added to the level's engine. */
  function AddBody(w: World, a: Asset, b: Body): (r: (World, Asset))
  {
    var i := |w.bodies|;
    (w.(bodies := w.bodies + [b], engine := w.engine.(bodies := w.engine.bodies + [i])), a.(body := Some(i)))
  }

  /** `define` in an asset's environment, on the substituted params. Each argument is read and
    * parsed before the next, and all of them before the `null` renderer or body they are passed to is
    * dereferenced. */
  function AssetDefine(w: World, a: Asset, kind: string, ps: seq<string>): (r: (World, Asset, Outcome))
    ensures r.2.Thrown? ==> r.0 == w && r.1 == a && r.2.ex in {IndexOutOfBounds, NumberFormat, NullPointer}
    ensures r.1.uniqueID == a.uniqueID && r.1.params == a.params && r.1.position == a.position
    ensures r.0.name == w.name && r.0.assets == w.assets && r.0.engine.gravity == w.engine.gravity
    ensures kind == "texture" && |ps| >= 1 && a.renderer.None? ==> r.2 == Thrown(NullPointer)
    ensures (kind == "static" || kind == "body") && r.2.Normal? ==>
      r.1.body == Some(|w.bodies|) && |r.0.bodies| == |w.bodies| + 1 && r.0.bodies[..|w.bodies|] == w.bodies &&
      r.0.bodies[|w.bodies|].absolute == (kind == "static") && r.0.engine.bodies == w.engine.bodies + [|w.bodies|]
    ensures r.2.Thrown? <==>
      (kind == "name" && |ps| < 1) ||
      ((kind == "renderer" || kind == "static") && FloatArgs(ps, 2).Some?) ||
      (kind == "texture" && (|ps| < 1 || a.renderer.None?)) ||
      (kind == "body" && (FloatArgs(ps, 2).Some? || |ps| < 3)) ||
      ((kind == "mass" || kind == "friction" || kind == "bounce") && (FloatArgs(ps, 1).Some? || a.body.None?))
    ensures kind == "name" && r.2.Normal? ==>
      r.0 == w && r.1.name == Some(ps[0]) && r.1.renderer == a.renderer && r.1.body == a.body
    ensures kind == "renderer" && r.2.Normal? ==>
      r.0 == w && r.1.renderer == Some(Renderer(ps[0], ps[1], None)) && r.1.name == a.name && r.1.body == a.body
    ensures kind == "texture" && r.2.Normal? ==>
      r.0 == w && r.1.name == a.name && r.1.body == a.body && r.1.renderer.Some? &&
      r.1.renderer.value.texture == Some(ps[0]) &&
      r.1.renderer.value.width == a.renderer.value.width && r.1.renderer.value.height == a.renderer.value.height
    ensures (kind == "static" || kind == "body") && r.2.Normal? ==>
      r.1.name == a.name && r.1.renderer == a.renderer && r.0.out == w.out &&
      var b := r.0.bodies[|w.bodies|];
      b.width == ps[0] && b.height == ps[1] && b.mass.None? && b.friction.None? && b.epsilon.None? &&
      b.trigger == (if kind == "body" then Some(ParseBoolean(ps[2])) else None)
    ensures (kind == "mass" || kind == "friction" || kind == "bounce") && FloatArgs(ps, 1).None? ==>
      r.1 == a && (r.0, r.2) == SetOnBody(w, a, kind, ps[0])
    ensures kind == "gravity" ==> r == (Print(w, Err("Cannot define gravity for an asset")), a, Normal)
    ensures !Known(kind) ==> r == (Print(w, Err(Undefined(kind))), a, Normal)
  {
    if kind == "name" then
      if |ps| < 1 then (w, a, Thrown(IndexOutOfBounds)) else (w, a.(name := Some(ps[0])), Normal)
    else if kind == "gravity" then (Print(w, Err("Cannot define gravity for an asset")), a, Normal)
    else if kind == "renderer" then
      if FloatArgs(ps, 2).Some? then (w, a, Thrown(FloatArgs(ps, 2).value))
      else (w, a.(renderer := Some(Renderer(ps[0], ps[1], None))), Normal)
    else if kind == "texture" then
      if |ps| < 1 then (w, a, Thrown(IndexOutOfBounds))
      else if a.renderer.None? then (w, a, Thrown(NullPointer))
      else (w, a.(renderer := Some(a.renderer.value.(texture := Some(ps[0])))), Normal)
    else if kind == "static" then
      if FloatArgs(ps, 2).Some? then (w, a, Thrown(FloatArgs(ps, 2).value))
      else var r := AddBody(w, a, Body(ps[0], ps[1], true, None, None, None, None)); (r.0, r.1, Normal)
    else if kind == "body" then
      if FloatArgs(ps, 2).Some? then (w, a, Thrown(FloatArgs(ps, 2).value))
      else if |ps| < 3 then (w, a, Thrown(IndexOutOfBounds))
      else var r := AddBody(w, a, Body(ps[0], ps[1], false, Some(ParseBoolean(ps[2])), None, None, None)); (r.0, r.1, Normal)
    else if kind == "mass" || kind == "friction" || kind == "bounce" then
      if FloatArgs(ps, 1).Some? then (w, a, Thrown(FloatArgs(ps, 1).value))
      else var r := SetOnBody(w, a, kind, ps[0]); (r.0, a, r.1)
    else (Print(w, Err(Undefined(kind))), a, Normal)
  }

  /** `define(kind, params)`: the params split on runs of `|`, substituted in an asset environment,
    * then the definer. */
  function DefineF(env: Env, w: World, kind: string, params: string): (r: (World, Env, Outcome))
    ensures r.1.LevelEnv? <==> env.LevelEnv?
    ensures r.1.AssetEnv? ==> r.1.asset.uniqueID == env.asset.uniqueID && r.1.asset.params == env.asset.params
  {
    var ps := Split(Run('|'), params);
    match env
    case LevelEnv => var r := LevelDefine(w, kind, ps); (r.0, env, r.1)
    case AssetEnv(a) =>
      match Substitute(ps, a.params)
      case Throws(e) => (w, env, Thrown(e))
      case Ok(qs) => var r := AssetDefine(w, a, kind, qs); (r.0, AssetEnv(r.1), r.2)
  }

  // ---------------------------------------------------------------- scripts

  /** `make(path, uniqueID, x, y, params)`: a new asset of the level runs the script at `path`
    * (a missing file prints its trace and leaves the script empty), is placed at `(x, y)` and is
    * stored under `uniqueID`. An exception from the script, or a position that is not a float,
    * leaves it unstored. */
  function MakeF(w: World, path: string, uniqueID: string, x: string, y: string, params: string,
                 files: map<string, seq<string>>, fuel: nat): (r: (World, Outcome))
    ensures r.1.Thrown? ==> r.1.ex in {IndexOutOfBounds, NumberFormat}
    ensures fuel > 0 && r.1.Normal? ==>
      uniqueID in r.0.assets && r.0.assets[uniqueID].uniqueID == uniqueID &&
      r.0.assets[uniqueID].params == Split(Run('|'), params) && r.0.assets[uniqueID].position == Some((x, y))
    decreases fuel, 0, 0
  {
    if fuel == 0 then (Print(w, Trace(TooDeep(path))), Normal)
    else
      var a := Asset(uniqueID, None, Split(Run('|'), params), None, None, None);
      var r := if path !in files then (Print(w, Trace(FileNotFound(path))), AssetEnv(a), Normal)
        else RunLinesF(AssetEnv(a), w, files[path], files, fuel - 1);
      if r.2.Thrown? then (r.0, r.2)
      else if FloatArgs([x, y], 2).Some? then (r.0, Thrown(FloatArgs([x, y], 2).value))
      else (r.0.(assets := r.0.assets[uniqueID := r.1.asset.(position := Some((x, y)))]), Normal)
  }

  /** A resolved call, in an environment. */
  function InvokeF(env: Env, w: World, inv: Invocation, files: map<string, seq<string>>, fuel: nat): (r: (World, Env, Outcome))
    ensures r.1.LevelEnv? <==> env.LevelEnv?
    ensures r.1.AssetEnv? ==> r.1.asset.uniqueID == env.asset.uniqueID && r.1.asset.params == env.asset.params
    decreases fuel, 1, 0
  {
    match inv
    case MakeCall(p, u, x, y, ps) => var r := MakeF(w, p, u, x, y, ps, files, fuel); (r.0, env, r.1)
    case LogCall(t) => var r := LogF(env, w, t); (r.0, env, r.1)
    case DefineCall(k, ps) => DefineF(env, w, k, ps)
  }

  /** The world after one resolved line: its exception, if any, is printed. */
  function AfterCall(r: (World, Env, Outcome)): World
  {
    if r.2.Thrown? then Print(r.0, Trace(Raised(r.2.ex))) else r.0
  }

  /** The lines of a script in order. A line that does not parse ends the script with its
    * exception; a method that is not found, or that throws, is printed and the next line runs. */
  function RunLinesF(env: Env, w: World, lines: seq<string>, files: map<string, seq<string>>, fuel: nat): (r: (World, Env, Outcome))
    ensures r.1.LevelEnv? <==> env.LevelEnv?
    ensures r.1.AssetEnv? ==> r.1.asset.uniqueID == env.asset.uniqueID && r.1.asset.params == env.asset.params
    ensures r.2.Thrown? ==> r.2.ex == IndexOutOfBounds
    decreases fuel, 2, |lines|
  {
    if lines == [] then (w, env, Normal)
    else match ParseLine(lines[0])
      case Throws(e) => (w, env, Thrown(e))
      case Ok(None) => RunLinesF(env, w, lines[1..], files, fuel)
      case Ok(Some(c)) =>
        match Resolve(c)
        case None => RunLinesF(env, Print(w, Trace(NoSuchMethod(c.name, |c.args|))), lines[1..], files, fuel)
        case Some(inv) =>
          var r := InvokeF(env, w, inv, files, fuel);
          RunLinesF(r.1, AfterCall(r), lines[1..], files, fuel)
  }

  /** `loadLevel(path)`: a new asset manager and physics engine, then the level's script. The
    * level's name is kept. */
  function LoadLevelF(w: World, path: string, files: map<string, seq<string>>, fuel: nat): (r: (World, Outcome))
    ensures r.1.Thrown? ==> r.1.ex == IndexOutOfBounds
    ensures path !in files ==> r.1 == Normal && r.0.assets == map[] && r.0.engine == NEW_ENGINE && r.0.name == w.name
  {
    var w1 := w.(assets := map[], engine := NEW_ENGINE);
    if path !in files then (Print(w1, Trace(FileNotFound(path))), Normal)
    else var r := RunLinesF(LevelEnv, w1, files[path], files, fuel); (r.0, r.2)
  }

  // ---------------------------------------------------------------- properties

  /** Skipped lines do nothing. */
  lemma SkippedLineDoesNothing(env: Env, w: World, line: string, rest: seq<string>, files: map<string, seq<string>>, fuel: nat)
    requires Skipped(RemoveChar(line, '\t'))
    ensures RunLinesF(env, w, [line] + rest, files, fuel) == RunLinesF(env, w, rest, files, fuel)
  {
    assert ([line] + rest)[1..] == rest;
  }

  /** A line that does not parse ends the script there, with nothing changed by it. */
  lemma BadLineStops(env: Env, w: World, line: string, rest: seq<string>, files: map<string, seq<string>>, fuel: nat)
    requires ParseLine(line).Throws?
    ensures RunLinesF(env, w, [line] + rest, files, fuel) == (w, env, Thrown(IndexOutOfBounds))
  {
  }

  /** A command with no matching method is printed and the script goes on. */
  lemma MissingMethodContinues(env: Env, w: World, line: string, rest: seq<string>, files: map<string, seq<string>>, fuel: nat)
    requires ParseLine(line).Ok? && ParseLine(line).value.Some? && Resolve(ParseLine(line).value.value).None?
    ensures var c := ParseLine(line).value.value;
      RunLinesF(env, w, [line] + rest, files, fuel) == RunLinesF(env, Print(w, Trace(NoSuchMethod(c.name, |c.args|))), rest, files, fuel)
  {
    assert ([line] + rest)[1..] == rest;
  }

  /** A method that throws is printed and the script goes on from what it left. */
  lemma FailedCallContinues(env: Env, w: World, line: string, rest: seq<string>, files: map<string, seq<string>>, fuel: nat)
    requires ParseLine(line).Ok? && ParseLine(line).value.Some? && Resolve(ParseLine(line).value.value).Some?
    requires InvokeF(env, w, Resolve(ParseLine(line).value.value).value, files, fuel).2.Thrown?
    ensures var r := InvokeF(env, w, Resolve(ParseLine(line).value.value).value, files, fuel);
      RunLinesF(env, w, [line] + rest, files, fuel) == RunLinesF(r.1, Print(r.0, Trace(Raised(r.2.ex))), rest, files, fuel)
  {
    assert ([line] + rest)[1..] == rest;
  }

  /** Only a line that does not parse lets an exception out of a script. */
  lemma {:induction false} ScriptThrowsOnlyOnBadLine(env: Env, w: World, lines: seq<string>, files: map<string, seq<string>>, fuel: nat)
    requires forall k :: 0 <= k < |lines| ==> ParseLine(lines[k]).Ok?
    ensures RunLinesF(env, w, lines, files, fuel).2 == Normal
    decreases |lines|
  {
    if lines != [] {
      assert ParseLine(lines[0]).Ok?;
      var rest := lines[1..];
      assert forall k :: 0 <= k < |rest| ==> ParseLine(rest[k]).Ok? by {
        forall k | 0 <= k < |rest| ensures ParseLine(rest[k]).Ok? {
          assert rest[k] == lines[k + 1];
        }
      }
      match ParseLine(lines[0]).value
      case None => ScriptThrowsOnlyOnBadLine(env, w, rest, files, fuel);
      case Some(c) =>
        match Resolve(c)
        case None => ScriptThrowsOnlyOnBadLine(env, Print(w, Trace(NoSuchMethod(c.name, |c.args|))), rest, files, fuel);
        case Some(inv) =>
          var r := InvokeF(env, w, inv, files, fuel);
          ScriptThrowsOnlyOnBadLine(r.1, AfterCall(r), rest, files, fuel);
    }
  }

  /** A level environment does not substitute: `define name p0` names the level `p0`. */
  lemma LevelKeepsParamRefs(w: World, params: string)
    requires params != [] && '|' !in params
    ensures DefineF(LevelEnv, w, "name", params) == (w.(name := Some(params)), LevelEnv, Normal)
  {
    SplitJoin(Run('|'), [params]);
  }

  /** An asset environment substitutes: `define name pN` names the asset after its param `N`. */
  lemma AssetSubstitutesName(w: World, a: Asset, n: nat)
    requires n < |a.params| && n <= INT_MAX
    ensures DefineF(AssetEnv(a), w, "name", "p" + IntToString(n)) == (w, AssetEnv(a.(name := Some(a.params[n]))), Normal)
  {
    var s := "p" + IntToString(n);
    assert '|' !in s by {
      assert forall j :: 1 <= j < |s| ==> s[j] == IntToString(n)[j - 1];
    }
    SplitJoin(Run('|'), [s]);
    ParamRefResolves(n, a.params);
    SubstituteAllOk([s], a.params, [a.params[n]]);
  }

  /** An asset environment keeps a literal: `define name Door` names the asset `Door`. */
  lemma AssetKeepsLiteralName(w: World, a: Asset, name: string)
    requires name != [] && '|' !in name && !IsParamRef(name)
    ensures DefineF(AssetEnv(a), w, "name", name) == (w, AssetEnv(a.(name := Some(name))), Normal)
  {
    SplitJoin(Run('|'), [name]);
    SubstituteAllOk([name], a.params, [name]);
  }

  /** A definer used in the wrong environment prints an error and changes nothing else. */
  lemma WrongEnvironmentRefused(w: World, a: Asset, kind: string, params: string)
    requires Substitute(Split(Run('|'), params), a.params).Ok?
    ensures LevelRefusal(kind).Some? ==>
      DefineF(LevelEnv, w, kind, params) == (Print(w, Err(LevelRefusal(kind).value)), LevelEnv, Normal)
    ensures kind == "gravity" ==>
      DefineF(AssetEnv(a), w, kind, params) == (Print(w, Err("Cannot define gravity for an asset")), AssetEnv(a), Normal)
  {
  }

  /** An unknown definer prints `Undefined` and changes nothing else. */
  lemma UnknownDefinerRefused(w: World, a: Asset, kind: string, params: string)
    requires !Known(kind)
    ensures DefineF(LevelEnv, w, kind, params) == (Print(w, Err(Undefined(kind))), LevelEnv, Normal)
    ensures Substitute(Split(Run('|'), params), a.params).Ok? ==>
      DefineF(AssetEnv(a), w, kind, params) == (Print(w, Err(Undefined(kind))), AssetEnv(a), Normal)
  {
  }

  /** A made asset whose script ran is stored under its id, with its params and position. */
  lemma MadeAssetStored(w: World, path: string, uniqueID: string, x: string, y: string, params: string,
                        files: map<string, seq<string>>, fuel: nat)
    requires fuel > 0 && ParseFloat(x).Ok? && ParseFloat(y).Ok?
    requires path in files ==> forall k :: 0 <= k < |files[path]| ==> ParseLine(files[path][k]).Ok?
    ensures var r := MakeF(w, path, uniqueID, x, y, params, files, fuel);
      r.1 == Normal && uniqueID in r.0.assets && r.0.assets[uniqueID].uniqueID == uniqueID &&
      r.0.assets[uniqueID].params == Split(Run('|'), params) && r.0.assets[uniqueID].position == Some((x, y))
  {
    if path in files {
      var a := Asset(uniqueID, None, Split(Run('|'), params), None, None, None);
      ScriptThrowsOnlyOnBadLine(AssetEnv(a), w, files[path], files, fuel - 1);
    }
    FloatArgsFromNone([x, y], 0, 2);
  }

  /** A body added by `static` or `body` is the asset's body and is in the engine. */
  lemma AddedBodyShared(w: World, a: Asset, b: Body)
    ensures var r := AddBody(w, a, b);
      r.1.body == Some(|w.bodies|) && r.0.bodies[|w.bodies|] == b &&
      r.0.engine.bodies == w.engine.bodies + [|w.bodies|] && r.0.bodies[..|w.bodies|] == w.bodies
  {
  }

  // ---------------------------------------------------------------- the level

  /** Standard output and standard error, in print order. */
  class Console {
    var out: seq<Printed>

    constructor ()
      ensures out == []
    {
      out := [];
    }

    method Print(p: Printed)
      modifies this
      ensures out == old(out) + [p]
    {
      out := out + [p];
    }
  }

  class Level {
    var name: Option<string>
    /** The asset manager's entities: the assets by unique id. */
    var assets: map<string, Asset>
    var engine: Engine
    /** Every physics body created, by creation order. */
    var bodies: seq<Body>

    function State(console: Console): World
      reads this, console
    {
      World(name, assets, engine, bodies, console.out)
    }

    /** A level before its first load: no name, assets, bodies or engine settings. */
    constructor Empty()
      ensures name == None && assets == map[] && engine == NEW_ENGINE && bodies == []
    {
      name, assets, engine, bodies := None, map[], NEW_ENGINE, [];
    }

    /** `new Level(path)`: a level loaded from `path`; an exception out of the load is the
      * constructor's. */
    static method Open(path: string, files: map<string, seq<string>>, console: Console, fuel: nat) returns (r: Result<Level>)
      modifies console
      ensures var w := LoadLevelF(World(None, map[], NEW_ENGINE, [], old(console.out)), path, files, fuel);
        (r.Ok? <==> w.1 == Normal) && (r.Ok? ==> fresh(r.value) && r.value.State(console) == w.0) &&
        (r.Throws? ==> console.out == w.0.out && r.ex == w.1.ex)
    {
      var l := new Level.Empty();
      var o := l.LoadLevel(path, files, console, fuel);
      if o.Thrown? {
        return Throws(o.ex);
      }
      r := Ok(l);
    }

    function GetName(): (n: Option<string>)
      reads this
      ensures n == name
    {
      name
    }

    function GetAsset(uniqueID: string): (r: Option<Asset>)
      reads this
      ensures r.Some? <==> uniqueID in assets
      ensures r.Some? ==> r.value == assets[uniqueID]
    {
      if uniqueID in assets then Some(assets[uniqueID]) else None
    }

    /** `loadLevel(path)`. */
    method LoadLevel(path: string, files: map<string, seq<string>>, console: Console, fuel: nat) returns (o: Outcome)
      modifies this, console
      ensures (State(console), o) == LoadLevelF(old(State(console)), path, files, fuel)
    {
      assets := map[];
      engine := NEW_ENGINE;
      if path !in files {
        console.Print(Trace(FileNotFound(path)));
        return Normal;
      }
      var env;
      env, o := RunLines(LevelEnv, files[path], files, console, fuel);
    }

    /** The Scanner loop of `loadLevel` and `loadAsset`. */
    method RunLines(env: Env, lines: seq<string>, files: map<string, seq<string>>, console: Console, fuel: nat)
      returns (env': Env, o: Outcome)
      modifies this, console
      ensures (State(console), env', o) == RunLinesF(env, old(State(console)), lines, files, fuel)
      decreases fuel, 2
    {
      env' := env;
      var i := 0;
      while i < |lines|
        invariant 0 <= i <= |lines|
        invariant RunLinesF(env, old(State(console)), lines, files, fuel) == RunLinesF(env', State(console), lines[i..], files, fuel)
      {
        var rest := lines[i + 1..];
        assert lines[i..][1..] == rest;
        var parsed := ParseLine(lines[i]);
        if parsed.Throws? {
          return env', Thrown(parsed.ex);
        }
        if parsed.value.Some? {
          var c := parsed.value.value;
          var inv := Resolve(c);
          if inv.None? {
            console.Print(Trace(NoSuchMethod(c.name, |c.args|)));
          } else {
            var call;
            env', call := Invoke(env', inv.value, files, console, fuel);
            if call.Thrown? {
              console.Print(Trace(Raised(call.ex)));
            }
          }
        }
        i := i + 1;
      }
      o := Normal;
    }

    /** `m.invoke(scriptEnvironment, params)`. */
    method Invoke(env: Env, inv: Invocation, files: map<string, seq<string>>, console: Console, fuel: nat)
      returns (env': Env, o: Outcome)
      modifies this, console
      ensures (State(console), env', o) == InvokeF(env, old(State(console)), inv, files, fuel)
      decreases fuel, 1
    {
      env' := env;
      match inv
      case MakeCall(p, u, x, y, ps) => o := Make(p, u, x, y, ps, files, console, fuel);
      case LogCall(t) => o := Log(env, t, console);
      case DefineCall(k, ps) => env', o := Define(env, k, ps, console);
    }

    /** `make`. */
    method Make(path: string, uniqueID: string, x: string, y: string, params: string,
                files: map<string, seq<string>>, console: Console, fuel: nat) returns (o: Outcome)
      modifies this, console
      ensures (State(console), o) == MakeF(old(State(console)), path, uniqueID, x, y, params, files, fuel)
      decreases fuel, 0
    {
      if fuel == 0 {
        console.Print(Trace(TooDeep(path)));
        return Normal;
      }
      var a := Asset(uniqueID, None, Split(Run('|'), params), None, None, None);
      var env := AssetEnv(a);
      if path !in files {
        console.Print(Trace(FileNotFound(path)));
      } else {
        env, o := RunLines(env, files[path], files, console, fuel - 1);
        if o.Thrown? {
          return;
        }
      }
      var bad := FloatArgs([x, y], 2);
      if bad.Some? {
        return Thrown(bad.value);
      }
      assets := assets[uniqueID := env.asset.(position := Some((x, y)))];
      o := Normal;
    }

    /** `log`. */
    method Log(env: Env, text: string, console: Console) returns (o: Outcome)
      modifies console
      ensures (State(console), o) == LogF(env, old(State(console)), text)
    {
      var t := BuildLogText(text);
      if t.Throws? {
        return Thrown(t.ex);
      }
      console.Print(Out(LogPrefix(env, State(console)) + t.value));
      o := Normal;
    }

    /** `define`. */
    method Define(env: Env, kind: string, params: string, console: Console) returns (env': Env, o: Outcome)
      modifies this, console
      ensures (State(console), env', o) == DefineF(env, old(State(console)), kind, params)
    {
      var ps := Split(Run('|'), params);
      env' := env;
      if env.LevelEnv? {
        o := DefineForLevel(kind, ps, console);
        return;
      }
      var qs := SubstituteParams(ps, env.asset.params);
      if qs.Throws? {
        return env, Thrown(qs.ex);
      }
      var a;
      a, o := DefineForAsset(env.asset, kind, qs.value, console);
      env' := AssetEnv(a);
    }

    method DefineForLevel(kind: string, ps: seq<string>, console: Console) returns (o: Outcome)
      modifies this, console
      ensures (State(console), o) == LevelDefine(old(State(console)), kind, ps)
    {
      o := Normal;
      if kind == "name" {
        if |ps| < 1 {
          return Thrown(IndexOutOfBounds);
        }
        name := Some(ps[0]);
      } else if kind == "gravity" {
        var bad := FloatArgs(ps, 2);
        if bad.Some? {
          return Thrown(bad.value);
        }
        engine := engine.(gravity := Some((ps[0], ps[1])));
      } else if LevelRefusal(kind).Some? {
        console.Print(Err(LevelRefusal(kind).value));
      } else {
        console.Print(Err(Undefined(kind)));
      }
    }

    /** Creates a body, gives it to the asset and adds it to the engine. */
    method NewBody(a: Asset, b: Body, console: Console) returns (a': Asset)
      modifies this
      ensures (State(console), a') == AddBody(old(State(console)), a, b)
    {
      var i := |bodies|;
      bodies := bodies + [b];
      engine := engine.(bodies := engine.bodies + [i]);
      a' := a.(body := Some(i));
    }

    method DefineForAsset(a: Asset, kind: string, ps: seq<string>, console: Console) returns (a': Asset, o: Outcome)
      modifies this, console
      ensures (State(console), a', o) == AssetDefine(old(State(console)), a, kind, ps)
    {
      a', o := a, Normal;
      if kind == "name" {
        if |ps| < 1 {
          return a, Thrown(IndexOutOfBounds);
        }
        a' := a.(name := Some(ps[0]));
      } else if kind == "gravity" {
        console.Print(Err("Cannot define gravity for an asset"));
      } else if kind == "renderer" {
        var bad := FloatArgs(ps, 2);
        if bad.Some? {
          return a, Thrown(bad.value);
        }
        a' := a.(renderer := Some(Renderer(ps[0], ps[1], None)));
      } else if kind == "texture" {
        if |ps| < 1 {
          return a, Thrown(IndexOutOfBounds);
        }
        if a.renderer.None? {
          return a, Thrown(NullPointer);
        }
        a' := a.(renderer := Some(a.renderer.value.(texture := Some(ps[0]))));
      } else if kind == "static" {
        var bad := FloatArgs(ps, 2);
        if bad.Some? {
          return a, Thrown(bad.value);
        }
        a' := NewBody(a, Body(ps[0], ps[1], true, None, None, None, None), console);
      } else if kind == "body" {
        var bad := FloatArgs(ps, 2);
        if bad.Some? {
          return a, Thrown(bad.value);
        }
        if |ps| < 3 {
          return a, Thrown(IndexOutOfBounds);
        }
        a' := NewBody(a, Body(ps[0], ps[1], false, Some(ParseBoolean(ps[2])), None, None, None), console);
      } else if kind == "mass" || kind == "friction" || kind == "bounce" {
        var bad := FloatArgs(ps, 1);
        if bad.Some? {
          return a, Thrown(bad.value);
        }
        o := SetBodyField(a, kind, ps[0], console);
      } else {
        console.Print(Err(Undefined(kind)));
      }
    }

    /** `getBody().setMass`, `setFriction` or `setEpsilon`. */
    method SetBodyField(a: Asset, kind: string, v: string, console: Console) returns (o: Outcome)
      modifies this
      ensures (State(console), o) == SetOnBody(old(State(console)), a, kind, v)
    {
      if a.body.None? {
        return Thrown(NullPointer);
      }
      o := Normal;
      var i := a.body.value;
      if i >= |bodies| {
        return;
      }
      var b := bodies[i];
      if kind == "mass" {
        b := b.(mass := Some(v));
      } else if kind == "friction" {
        b := b.(friction := Some(v));
      } else {
        b := b.(epsilon := Some(v));
      }
      bodies := bodies[i := b];
    }
  }

  /** The string builder of `log`. */
  method BuildLogText(text: string) returns (r: Result<string>)
    ensures r == LogText(text)
  {
    var pieces := Split(Run('|'), text);
    var sb := "";
    var i := 0;
    while i < |pieces|
      invariant 0 <= i <= |pieces| && sb == Spaced(pieces[..i])
    {
      assert pieces[..i + 1][..i] == pieces[..i];
      sb := sb + pieces[i] + " ";
      i := i + 1;
    }
    assert pieces[..i] == pieces;
    if |sb| == 0 {
      return Throws(IndexOutOfBounds);
    }
    r := Ok(sb[..|sb| - 1]);
  }

  /** The substitution loop of `define`, rewriting the split params in place. */
  method SubstituteParams(ps: seq<string>, params: seq<string>) returns (r: Result<seq<string>>)
    ensures r == Substitute(ps, params)
  {
    var p := new string[|ps|](k requires 0 <= k < |ps| => ps[k]);
    var i := 0;
    while i < p.Length
      invariant 0 <= i <= p.Length == |ps|
      invariant forall k :: 0 <= k < i ==> SubstituteOne(ps[k], params) == Ok(p[k])
      invariant forall k :: i <= k < |ps| ==> p[k] == ps[k]
    {
      if IsParamRef(p[i]) {
        var n := ParseInt(p[i][1..]);
        if n.Throws? {
          SubstituteFirstFailure(ps, params, i);
          return Throws(n.ex);
        }
        if !(0 <= n.value < |params|) {
          SubstituteFirstFailure(ps, params, i);
          return Throws(IndexOutOfBounds);
        }
        p[i] := params[n.value];
      }
      i := i + 1;
    }
    SubstituteAllOk(ps, params, p[..]);
    r := Ok(p[..]);
  }
}
