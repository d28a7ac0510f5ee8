/** The ping-pong compute scheduler (`GPUComputationRenderer`): each
    variable owns two render targets; `init` fills both from the variable's
    initial texture and declares one sampler uniform per dependency, and
    every `compute` renders each variable into the target it did not read,
    binding its dependencies to the targets of the previous pass, then
    flips the current index. The WebGL renderer is modelled only by the
    state `doRenderTarget` saves and restores and by a log of the renders
    it performs: each render records the material, the target written and
    the inputs bound at that moment. */
module Gpu {
  import opened Numeric

  /** `variables[owner].renderTargets[slot]`. */
  datatype TargetRef = TargetRef(owner: nat, slot: nat)

  /** The pass-through copy shader, or the compute shader of a variable. */
  datatype Material = PassThruMaterial | ComputeMaterial(variable: nat)

  /** One `renderer.render` call: the mesh's material, the renderer's
      current target, the pass-through input texture, the dependency
      samplers of the material, and the renderer's XR and shadow flags. */
  datatype RenderEvent = RenderEvent(material: Material, output: Option<TargetRef>, passThruInput: Option<nat>,
                                     inputs: map<string, Option<TargetRef>>, xrEnabled: bool, shadowAutoUpdate: bool)

  /** A compute variable: its name, fragment shader text, initial texture
      (an abstract texture id), dependencies (indices of variables; `None`
      until set), render targets and dependency sampler uniforms
      (`None` is the uniform value `null`). */
  datatype Variable = Variable(name: string, fragmentShader: string, initialTexture: nat,
                               dependencies: Option<seq<nat>>, renderTargets: seq<TargetRef>,
                               uniforms: map<string, Option<TargetRef>>)

  /** The scheduler's state together with the renderer state it touches. */
  datatype GpuState = GpuState(variables: seq<Variable>, index: nat, passThru: Option<nat>, meshMaterial: Material,
                               target: Option<TargetRef>, xrEnabled: bool, shadowAutoUpdate: bool, log: seq<RenderEvent>)

  const NoFloatTextures: string := "No float texture support"
  const NoVertexTextures: string := "No vertex shader texture support"

  /** The dependencies a variable has, `[]` while they are `null`. */
  function DepsOf(v: Variable): seq<nat>
  {
    if v.dependencies.Some? then v.dependencies.value else []
  }

  /** Every dependency names a variable of the same scheduler. */
  predicate DepsInRange(vars: seq<Variable>)
  {
    forall i, j :: 0 <= i < |vars| && 0 <= j < |DepsOf(vars[i])| ==> DepsOf(vars[i])[j] < |vars|
  }

  /** After `init`: variable `i` owns exactly the targets `(i, 0)` and `(i, 1)`. */
  predicate Initialised(vars: seq<Variable>)
  {
    forall i :: 0 <= i < |vars| ==> vars[i].renderTargets == [TargetRef(i, 0), TargetRef(i, 1)]
  }

  /** Two variable sequences that differ at most in uniforms and shader
      text: the same names, textures, dependencies and targets. */
  predicate SameShape(a: seq<Variable>, b: seq<Variable>)
  {
    |a| == |b|
    && forall i :: 0 <= i < |a| ==>
         a[i].name == b[i].name && a[i].initialTexture == b[i].initialTexture
         && a[i].dependencies == b[i].dependencies && a[i].renderTargets == b[i].renderTargets
  }

  /** The uniforms the renderer sees for a material. */
  function MaterialInputs(vars: seq<Variable>, m: Material): map<string, Option<TargetRef>>
  {
    match m
    case PassThruMaterial => map[]
    case ComputeMaterial(i) => if i < |vars| then vars[i].uniforms else map[]
  }

  /** `doRenderTarget(material, output)`: one render into `output` with
      XR and shadow updates off, after which the renderer's target, XR and
      shadow flags are restored and the mesh shows the pass-through shader
      again. */
  function RenderState(s: GpuState, m: Material, output: TargetRef): GpuState
  {
    s.(meshMaterial := PassThruMaterial,
       log := s.log + [RenderEvent(m, Some(output), s.passThru, MaterialInputs(s.variables, m), false, false)])
  }

  /** `renderTexture(input, output)`: a pass-through copy of `input` into
      `output`; the pass-through input is `null` again afterwards. */
  function RenderTextureState(s: GpuState, input: nat, output: TargetRef): GpuState
  {
    RenderState(s.(passThru := Some(input)), PassThruMaterial, output).(passThru := None)
  }

  /** A render restores everything it saved and logs exactly one render of
      the material into the output, made with XR and shadow updates off. */
  lemma RenderRestores(s: GpuState, m: Material, output: TargetRef, input: nat)
    ensures var t := RenderState(s, m, output);
      t.target == s.target && t.xrEnabled == s.xrEnabled && t.shadowAutoUpdate == s.shadowAutoUpdate
      && t.meshMaterial == PassThruMaterial && t.variables == s.variables && t.index == s.index
      && |t.log| == |s.log| + 1 && t.log[..|s.log|] == s.log
      && t.log[|s.log|].material == m && t.log[|s.log|].output == Some(output)
      && !t.log[|s.log|].xrEnabled && !t.log[|s.log|].shadowAutoUpdate
    ensures var u := RenderTextureState(s, input, output);
      u.passThru == None && u.log[|s.log|].passThruInput == Some(input) && u.log[|s.log|].material == PassThruMaterial
      && u.target == s.target && u.xrEnabled == s.xrEnabled && u.shadowAutoUpdate == s.shadowAutoUpdate
  {
    var t := RenderState(s, m, output);
    assert t.log[..|s.log|] == s.log;
  }

  /** The sampler declaration `init` prepends for a dependency. */
  function Declaration(name: string): string
  {
    "uniform sampler2D " + name + ";\n"
  }

  /** The dependency names, in dependency order. */
  function DepNames(vars: seq<Variable>, deps: seq<nat>): (names: seq<string>)
    requires forall j :: 0 <= j < |deps| ==> deps[j] < |vars|
    ensures |names| == |deps|
    ensures forall j :: 0 <= j < |deps| ==> names[j] == vars[deps[j]].name
  {
    if deps == [] then [] else DepNames(vars, deps[..|deps| - 1]) + [vars[deps[|deps| - 1]].name]
  }

  /** The dependency loop of `init` over names `names`: each name gets a
      `null` uniform and its declaration put in front of the shader text. */
  function Declare(v: Variable, names: seq<string>): (r: Variable)
    ensures r.name == v.name && r.initialTexture == v.initialTexture
    ensures r.dependencies == v.dependencies && r.renderTargets == v.renderTargets
  {
    if names == [] then v
    else
      var w := Declare(v, names[..|names| - 1]);
      var n := names[|names| - 1];
      w.(uniforms := w.uniforms[n := None], fragmentShader := Declaration(n) + w.fragmentShader)
  }

  /** The declarations for `names`, concatenated in the given order. */
  function Declarations(names: seq<string>): string
  {
    if names == [] then "" else Declaration(names[0]) + Declarations(names[1..])
  }

  function Reverse<T>(s: seq<T>): (r: seq<T>)
    ensures |r| == |s|
  {
    if s == [] then [] else Reverse(s[1..]) + [s[0]]
  }

  lemma {:induction false} ReverseSnoc<T>(s: seq<T>, x: T)
    ensures Reverse(s + [x]) == [x] + Reverse(s)
  {
    if s == [] {
      assert Reverse([x]) == Reverse([x][1..]) + [x];
    } else {
      assert (s + [x])[1..] == s[1..] + [x];
      ReverseSnoc(s[1..], x);
    }
  }

  /** After the dependency loop the shader text is the declarations of the
      dependencies in reverse order followed by the original text, and
      every dependency has a `null` sampler uniform while the other
      uniforms are as they were. */
  lemma {:induction false} DeclareEffects(v: Variable, names: seq<string>)
    ensures Declare(v, names).fragmentShader == Declarations(Reverse(names)) + v.fragmentShader
    ensures forall n :: n in names ==> n in Declare(v, names).uniforms && Declare(v, names).uniforms[n] == None
    ensures forall n :: n !in names && n in v.uniforms ==> n in Declare(v, names).uniforms && Declare(v, names).uniforms[n] == v.uniforms[n]
    ensures forall n :: n !in names && n !in v.uniforms ==> n !in Declare(v, names).uniforms
  {
    if names != [] {
      var p := names[..|names| - 1];
      var n := names[|names| - 1];
      DeclareEffects(v, p);
      assert names == p + [n];
      ReverseSnoc(p, n);
      assert Reverse(names) == [n] + Reverse(p);
      assert Declarations([n] + Reverse(p)) == Declaration(n) + Declarations(Reverse(p)) by {
        assert ([n] + Reverse(p))[1..] == Reverse(p);
      }
      forall m | m in names ensures m == n || m in p {
      }
    }
  }

  /** Dependency names depend only on the variables' names. */
  lemma DepNamesByName(a: seq<Variable>, b: seq<Variable>, deps: seq<nat>)
    requires |a| == |b| && forall j :: 0 <= j < |a| ==> a[j].name == b[j].name
    requires forall j :: 0 <= j < |deps| ==> deps[j] < |a|
    ensures DepNames(a, deps) == DepNames(b, deps)
  {
  }

  /** Variable `j` as `init` leaves it: its two targets, a `null` sampler
      and a declaration for every dependency. */
  function SetUp(vars: seq<Variable>, j: nat): Variable
    requires j < |vars| && DepsInRange(vars)
  {
    Declare(vars[j].(renderTargets := [TargetRef(j, 0), TargetRef(j, 1)]), DepNames(vars, DepsOf(vars[j])))
  }

  /** `init` gives every dependency of a variable a `null` sampler uniform
      and puts the dependency declarations, in reverse order, in front of
      the variable's shader text; it keeps the variable's name, texture and
      dependencies and other uniforms. */
  lemma SetUpDeclares(vars: seq<Variable>, i: nat)
    requires i < |vars| && DepsInRange(vars)
    ensures var names := DepNames(vars, DepsOf(vars[i]));
      var v := SetUp(vars, i);
      v.fragmentShader == Declarations(Reverse(names)) + vars[i].fragmentShader
      && (forall n :: n in names ==> n in v.uniforms && v.uniforms[n] == None)
      && (forall n :: n !in names && n in vars[i].uniforms ==> n in v.uniforms && v.uniforms[n] == vars[i].uniforms[n])
      && (forall n :: n !in names && n !in vars[i].uniforms ==> n !in v.uniforms)
      && v.renderTargets == [TargetRef(i, 0), TargetRef(i, 1)]
      && v.name == vars[i].name && v.dependencies == vars[i].dependencies
  {
    var names := DepNames(vars, DepsOf(vars[i]));
    DeclareEffects(vars[i].(renderTargets := [TargetRef(i, 0), TargetRef(i, 1)]), names);
  }

  /** The variables as a successful `init` leaves them. */
  function InitVariables(vars: seq<Variable>): seq<Variable>
    requires DepsInRange(vars)
  {
    seq(|vars|, j requires 0 <= j < |vars| => SetUp(vars, j))
  }

  /** The pass-through copy of texture `tex` into `out` that `init` logs. */
  function CopyEvent(tex: nat, out: TargetRef): RenderEvent
  {
    RenderEvent(PassThruMaterial, Some(out), Some(tex), map[], false, false)
  }

  /** The renders `init` logs for the first `k` variables: two copies of
      each initial texture, into slot 0 and then slot 1. */
  function InitLog(vars: seq<Variable>, k: nat): (log: seq<RenderEvent>)
    requires k <= |vars|
    ensures |log| == 2 * k
  {
    if k == 0 then []
    else InitLog(vars, k - 1) + [CopyEvent(vars[k - 1].initialTexture, TargetRef(k - 1, 0)),
                                 CopyEvent(vars[k - 1].initialTexture, TargetRef(k - 1, 1))]
  }

  /** The copies for variable `j` are renders `2j` and `2j + 1`: its
      initial texture into slot 0, then into slot 1. */
  lemma {:induction false} InitLogContents(vars: seq<Variable>, k: nat, j: nat)
    requires j < k <= |vars|
    ensures InitLog(vars, k)[2 * j] == CopyEvent(vars[j].initialTexture, TargetRef(j, 0))
    ensures InitLog(vars, k)[2 * j + 1] == CopyEvent(vars[j].initialTexture, TargetRef(j, 1))
  {
    if j < k - 1 {
      InitLogContents(vars, k - 1, j);
    }
  }

  /** `init` on a renderer with the given capabilities: the float-texture
      check comes first, then the vertex-texture check; a renderer that
      passes both gets every variable set up, the copies logged, the
      renderer state restored and the index reset to 0, and the result is
      `null`. */
  function InitOutcome(s: GpuState, isWebGL2: bool, hasFloatTextures: bool, maxVertexTextures: int): (Option<string>, GpuState)
    requires DepsInRange(s.variables)
  {
    if !isWebGL2 && !hasFloatTextures then (Some(NoFloatTextures), s)
    else if maxVertexTextures == 0 then (Some(NoVertexTextures), s)
    else
      var n := |s.variables|;
      (None, s.(variables := InitVariables(s.variables), log := s.log + InitLog(s.variables, n), index := 0,
                passThru := if n > 0 then None else s.passThru,
                meshMaterial := if n > 0 then PassThruMaterial else s.meshMaterial))
  }

  /** One pass of `init`'s loop over variable `i` of `orig`. */
  function SetUpStep(s: GpuState, orig: seq<Variable>, i: nat): GpuState
    requires DepsInRange(orig) && i < |orig| && i < |s.variables|
  {
    s.(variables := s.variables[i := SetUp(orig, i)],
       log := s.log + [CopyEvent(orig[i].initialTexture, TargetRef(i, 0)), CopyEvent(orig[i].initialTexture, TargetRef(i, 1))],
       passThru := None, meshMaterial := PassThruMaterial)
  }

  /** The state after `init`'s loop has set up the first `i` variables. */
  function InitProgress(s: GpuState, i: nat): GpuState
    requires DepsInRange(s.variables) && i <= |s.variables|
  {
    s.(variables := InitVariables(s.variables)[..i] + s.variables[i..],
       log := s.log + InitLog(s.variables, i),
       passThru := if i > 0 then None else s.passThru,
       meshMaterial := if i > 0 then PassThruMaterial else s.meshMaterial)
  }

  /** Before pass `i` the variables still to set up are as they were and
      every name is kept. */
  lemma InitProgressKeeps(s: GpuState, i: nat)
    requires DepsInRange(s.variables) && i < |s.variables|
    ensures var p := InitProgress(s, i);
      |p.variables| == |s.variables| && p.variables[i] == s.variables[i]
      && (forall j :: 0 <= j < |s.variables| ==> p.variables[j].name == s.variables[j].name)
  {
    var vars := s.variables;
    var p := InitProgress(s, i);
    forall j | 0 <= j < |vars|
      ensures p.variables[j].name == vars[j].name
    {
      if j < i {
        assert p.variables[j] == SetUp(vars, j);
      } else {
        assert p.variables[j] == vars[j];
      }
    }
  }

  /** Pass `i` leads to the progress state for `i + 1`. */
  lemma InitProgressStep(s: GpuState, i: nat)
    requires DepsInRange(s.variables) && i < |s.variables|
    ensures InitProgress(s, i + 1) == SetUpStep(InitProgress(s, i), s.variables, i)
  {
    var vars := s.variables;
    var p := InitProgress(s, i);
    var copies := [CopyEvent(vars[i].initialTexture, TargetRef(i, 0)), CopyEvent(vars[i].initialTexture, TargetRef(i, 1))];
    assert InitVariables(vars)[..i + 1] + vars[i + 1..] == p.variables[i := SetUp(vars, i)];
    assert InitLog(vars, i + 1) == InitLog(vars, i) + copies;
    assert s.log + InitLog(vars, i + 1) == p.log + copies;
  }

  /** Once every variable is set up, resetting the index gives `init`'s
      outcome. */
  lemma InitProgressDone(s: GpuState, isWebGL2: bool, hasFloatTextures: bool, maxVertexTextures: int)
    requires DepsInRange(s.variables)
    requires (isWebGL2 || hasFloatTextures) && maxVertexTextures != 0
    ensures InitOutcome(s, isWebGL2, hasFloatTextures, maxVertexTextures) == (None, InitProgress(s, |s.variables|).(index := 0))
  {
    assert InitVariables(s.variables)[..|s.variables|] + s.variables[|s.variables|..] == InitVariables(s.variables);
  }

  /** `init`'s errors: `'No float texture support'` exactly when neither
      WebGL 2 nor `OES_texture_float` is there (checked first), otherwise
      `'No vertex shader texture support'` exactly when no vertex textures
      are available; an error leaves everything as it was. */
  lemma InitErrors(s: GpuState, isWebGL2: bool, hasFloatTextures: bool, maxVertexTextures: int)
    requires DepsInRange(s.variables)
    ensures var r := InitOutcome(s, isWebGL2, hasFloatTextures, maxVertexTextures);
      (r.0 == Some(NoFloatTextures) <==> !isWebGL2 && !hasFloatTextures)
      && (r.0 == Some(NoVertexTextures) <==> (isWebGL2 || hasFloatTextures) && maxVertexTextures == 0)
      && (r.0 == None <==> (isWebGL2 || hasFloatTextures) && maxVertexTextures != 0)
      && (r.0 != None ==> r.1 == s)
  {
    assert NoFloatTextures != NoVertexTextures by {
      assert NoFloatTextures[3] != NoVertexTextures[3];
    }
  }

  /** A successful `init` leaves every variable with exactly two targets
      and its dependencies in range, the current index 0, and the
      renderer's target, XR and shadow flags as they were; the log grows by
      two copies per variable. */
  lemma InitSetsUp(s: GpuState, isWebGL2: bool, hasFloatTextures: bool, maxVertexTextures: int)
    requires DepsInRange(s.variables)
    requires (isWebGL2 || hasFloatTextures) && maxVertexTextures != 0
    ensures var t := InitOutcome(s, isWebGL2, hasFloatTextures, maxVertexTextures).1;
      Initialised(t.variables) && DepsInRange(t.variables) && t.index == 0
      && |t.variables| == |s.variables| && |t.log| == |s.log| + 2 * |s.variables|
      && t.target == s.target && t.xrEnabled == s.xrEnabled && t.shadowAutoUpdate == s.shadowAutoUpdate
  {
    var t := InitOutcome(s, isWebGL2, hasFloatTextures, maxVertexTextures).1;
    forall i | 0 <= i < |s.variables|
      ensures t.variables[i].renderTargets == [TargetRef(i, 0), TargetRef(i, 1)]
      ensures t.variables[i].dependencies == s.variables[i].dependencies
    {
      SetUpDeclares(s.variables, i);
    }
  }

  /** The render target `getCurrentRenderTarget(v)` returns (`None` for
      `undefined`, before `init`). */
  function CurrentTarget(s: GpuState, v: nat): Option<TargetRef>
    requires v < |s.variables|
  {
    if s.index < |s.variables[v].renderTargets| then Some(s.variables[v].renderTargets[s.index]) else None
  }

  /** Right after a successful `init` every variable's current target is
      its slot 0, which holds a copy of its initial texture. */
  lemma CurrentTargetAfterInit(s: GpuState, isWebGL2: bool, hasFloatTextures: bool, maxVertexTextures: int, v: nat)
    requires DepsInRange(s.variables) && v < |s.variables|
    requires (isWebGL2 || hasFloatTextures) && maxVertexTextures != 0
    ensures var t := InitOutcome(s, isWebGL2, hasFloatTextures, maxVertexTextures).1;
      v < |t.variables| && CurrentTarget(t, v) == Some(TargetRef(v, 0))
      && t.log[|s.log| + 2 * v] == CopyEvent(s.variables[v].initialTexture, TargetRef(v, 0))
  {
    InitSetsUp(s, isWebGL2, hasFloatTextures, maxVertexTextures);
    InitLogContents(s.variables, |s.variables|, v);
  }

  /** Every dependency's target on slot `cur` exists. */
  predicate Bindable(vars: seq<Variable>, deps: seq<nat>, cur: nat)
  {
    forall j :: 0 <= j < |deps| ==> deps[j] < |vars| && cur < |vars[deps[j]].renderTargets|
  }

  /** `compute`'s dependency loop for one variable: each dependency's
      sampler is bound to that dependency's target on slot `cur`. */
  function BindInputs(u: map<string, Option<TargetRef>>, vars: seq<Variable>, deps: seq<nat>, cur: nat): map<string, Option<TargetRef>>
    requires Bindable(vars, deps, cur)
  {
    if deps == [] then u
    else
      var d := deps[|deps| - 1];
      BindInputs(u, vars, deps[..|deps| - 1], cur)[vars[d].name := Some(vars[d].renderTargets[cur])]
  }

  /** After binding, every dependency name's sampler refers to the
      slot-`cur` target of a dependency of that name (the last one, if two
      share a name); uniforms of other names are untouched. */
  lemma {:induction false} BindInputsEffects(u: map<string, Option<TargetRef>>, vars: seq<Variable>, deps: seq<nat>, cur: nat)
    requires Bindable(vars, deps, cur) && Initialised(vars)
    ensures var r := BindInputs(u, vars, deps, cur);
      forall n :: n in DepNames(vars, deps) ==>
        n in r && r[n].Some? && r[n].value.slot == cur && r[n].value.owner in deps && vars[r[n].value.owner].name == n
    ensures var r := BindInputs(u, vars, deps, cur);
      forall n :: n !in DepNames(vars, deps) ==> (n in r <==> n in u) && (n in u ==> r[n] == u[n])
  {
    if deps != [] {
      var p := deps[..|deps| - 1];
      var d := deps[|deps| - 1];
      assert Bindable(vars, p, cur);
      BindInputsEffects(u, vars, p, cur);
      assert vars[d].renderTargets[cur] == TargetRef(d, cur);
      assert DepNames(vars, deps) == DepNames(vars, p) + [vars[d].name];
      assert forall x :: x in p ==> x in deps;
    }
  }

  /** Binding depends only on the variables' names and targets. */
  lemma {:induction false} BindInputsByShape(u: map<string, Option<TargetRef>>, a: seq<Variable>, b: seq<Variable>, deps: seq<nat>, cur: nat)
    requires SameShape(a, b) && Bindable(a, deps, cur)
    ensures Bindable(b, deps, cur) && BindInputs(u, a, deps, cur) == BindInputs(u, b, deps, cur)
  {
    if deps != [] {
      BindInputsByShape(u, a, b, deps[..|deps| - 1], cur);
    }
  }

  /** The other slot: `cur === 0 ? 1 : 0`. */
  function Other(cur: nat): nat
  {
    if cur == 0 then 1 else 0
  }

  /** Variable `j` with its dependency samplers bound to slot `cur`. */
  function Bound(vars: seq<Variable>, j: nat, cur: nat): Variable
    requires j < |vars| && DepsInRange(vars) && Initialised(vars) && cur <= 1
  {
    assert Bindable(vars, DepsOf(vars[j]), cur);
    vars[j].(uniforms := BindInputs(vars[j].uniforms, vars, DepsOf(vars[j]), cur))
  }

  /** The variables after a `compute` that read slot `cur`. */
  function ComputedVariables(vars: seq<Variable>, cur: nat): seq<Variable>
    requires DepsInRange(vars) && Initialised(vars) && cur <= 1
  {
    seq(|vars|, j requires 0 <= j < |vars| => Bound(vars, j, cur))
  }

  /** The render `compute` makes for variable `j`: its own material into
      its slot-`Other(cur)` target with its samplers bound to slot `cur`. */
  function ComputeEvent(vars: seq<Variable>, j: nat, cur: nat, passThru: Option<nat>): RenderEvent
    requires j < |vars| && DepsInRange(vars) && Initialised(vars) && cur <= 1
  {
    RenderEvent(ComputeMaterial(j), Some(vars[j].renderTargets[Other(cur)]), passThru, Bound(vars, j, cur).uniforms, false, false)
  }

  /** The renders one `compute` logs, one per variable in order. */
  function ComputeLog(vars: seq<Variable>, cur: nat, passThru: Option<nat>): seq<RenderEvent>
    requires DepsInRange(vars) && Initialised(vars) && cur <= 1
  {
    seq(|vars|, j requires 0 <= j < |vars| => ComputeEvent(vars, j, cur, passThru))
  }

  /** `compute`: every variable in order reads slot `cur` and writes the
      other slot, then the index flips. */
  function ComputeState(s: GpuState): GpuState
    requires DepsInRange(s.variables) && Initialised(s.variables) && s.index <= 1
  {
    var n := |s.variables|;
    s.(variables := ComputedVariables(s.variables, s.index),
       log := s.log + ComputeLog(s.variables, s.index, s.passThru),
       index := Other(s.index),
       meshMaterial := if n > 0 then PassThruMaterial else s.meshMaterial)
  }

  /** One pass of `compute`'s loop over variable `i` of `orig`, reading
      slot `cur`. */
  function ComputeStep(s: GpuState, orig: seq<Variable>, cur: nat, i: nat): GpuState
    requires DepsInRange(orig) && Initialised(orig) && cur <= 1 && i < |orig| && i < |s.variables|
  {
    s.(variables := s.variables[i := Bound(orig, i, cur)],
       log := s.log + [ComputeEvent(orig, i, cur, s.passThru)],
       meshMaterial := PassThruMaterial)
  }

  /** The state after `compute`'s loop has run the first `i` variables. */
  function ComputeProgress(s: GpuState, i: nat): GpuState
    requires DepsInRange(s.variables) && Initialised(s.variables) && s.index <= 1 && i <= |s.variables|
  {
    s.(variables := ComputedVariables(s.variables, s.index)[..i] + s.variables[i..],
       log := s.log + ComputeLog(s.variables, s.index, s.passThru)[..i],
       meshMaterial := if i > 0 then PassThruMaterial else s.meshMaterial)
  }

  /** Before pass `i` the variables are in shape and variable `i` is as it
      was; pass `i` leads to the progress state for `i + 1`. */
  lemma ComputeProgressStep(s: GpuState, i: nat)
    requires DepsInRange(s.variables) && Initialised(s.variables) && s.index <= 1 && i < |s.variables|
    ensures var p := ComputeProgress(s, i);
      SameShape(p.variables, s.variables) && p.variables[i] == s.variables[i]
      && p.index == s.index && p.passThru == s.passThru
    ensures ComputeProgress(s, i + 1) == ComputeStep(ComputeProgress(s, i), s.variables, s.index, i)
  {
    var vars := s.variables;
    var p := ComputeProgress(s, i);
    var c := ComputeLog(vars, s.index, s.passThru);
    assert ComputedVariables(vars, s.index)[..i + 1] + vars[i + 1..] == p.variables[i := Bound(vars, i, s.index)];
    assert c[..i + 1] == c[..i] + [c[i]];
    assert s.log + c[..i + 1] == p.log + [c[i]];
  }

  /** Once every variable is computed, flipping the index gives
      `compute`'s outcome. */
  lemma ComputeProgressDone(s: GpuState)
    requires DepsInRange(s.variables) && Initialised(s.variables) && s.index <= 1
    ensures ComputeState(s) == ComputeProgress(s, |s.variables|).(index := Other(s.index))
  {
    assert ComputedVariables(s.variables, s.index)[..|s.variables|] + s.variables[|s.variables|..] == ComputedVariables(s.variables, s.index);
    assert ComputeLog(s.variables, s.index, s.passThru)[..|s.variables|] == ComputeLog(s.variables, s.index, s.passThru);
  }

  /** `compute` flips the index between 0 and 1 and keeps every variable's
      name, dependencies and targets, so the scheduler stays initialised;
      the renderer's target, XR and shadow flags are as they were. */
  lemma ComputeFlips(s: GpuState)
    requires DepsInRange(s.variables) && Initialised(s.variables) && s.index <= 1
    ensures var t := ComputeState(s);
      t.index <= 1 && t.index != s.index && SameShape(t.variables, s.variables)
      && Initialised(t.variables) && DepsInRange(t.variables)
      && t.target == s.target && t.xrEnabled == s.xrEnabled && t.shadowAutoUpdate == s.shadowAutoUpdate
    ensures var t := ComputeState(s);
      ComputeState(t).index == s.index
  {
    var t := ComputeState(s);
    assert SameShape(t.variables, s.variables);
  }

  /** In one `compute` variable `j` writes its slot-`next` target, and the
      sampler of each of its dependencies refers to a slot-`cur` target of
      a dependency of that name: no render reads a target that the same
      pass writes. */
  lemma ComputeReadsPrevious(s: GpuState, j: nat)
    requires DepsInRange(s.variables) && Initialised(s.variables) && s.index <= 1 && j < |s.variables|
    ensures var t := ComputeState(s);
      var e := t.log[|s.log| + j];
      |t.log| == |s.log| + |s.variables|
      && e.material == ComputeMaterial(j) && e.output == Some(TargetRef(j, t.index))
      && forall n :: n in DepNames(s.variables, DepsOf(s.variables[j])) ==>
           n in e.inputs && e.inputs[n].Some? && e.inputs[n].value.slot == s.index
           && e.inputs[n].value.owner in DepsOf(s.variables[j]) && s.variables[e.inputs[n].value.owner].name == n
    ensures ComputeState(s).index != s.index
  {
    var deps := DepsOf(s.variables[j]);
    assert Bindable(s.variables, deps, s.index);
    BindInputsEffects(s.variables[j].uniforms, s.variables, deps, s.index);
  }

  /** After a `compute`, `getCurrentRenderTarget(v)` is the target `v`
      wrote in that pass. */
  lemma CurrentTargetAfterCompute(s: GpuState, v: nat)
    requires DepsInRange(s.variables) && Initialised(s.variables) && s.index <= 1 && v < |s.variables|
    ensures var t := ComputeState(s);
      v < |t.variables| && CurrentTarget(t, v) == t.log[|s.log| + v].output
  {
  }

  /** The part of the WebGL renderer the scheduler uses: its capabilities,
      its current render target, XR and shadow-map flags, and the renders
      it has made. */
  class Gl {
    const isWebGL2: bool
    const hasFloatTextures: bool
    const maxVertexTextures: int
    var renderTarget: Option<TargetRef>
    var xrEnabled: bool
    var shadowAutoUpdate: bool
    var log: seq<RenderEvent>

    constructor(isWebGL2: bool, hasFloatTextures: bool, maxVertexTextures: int)
      ensures this.isWebGL2 == isWebGL2 && this.hasFloatTextures == hasFloatTextures
      ensures this.maxVertexTextures == maxVertexTextures
      ensures renderTarget == None && !xrEnabled && shadowAutoUpdate && log == []
    {
      this.isWebGL2 := isWebGL2;
      this.hasFloatTextures := hasFloatTextures;
      this.maxVertexTextures := maxVertexTextures;
      renderTarget := None;
      xrEnabled := false;
      shadowAutoUpdate := true;
      log := [];
    }

    /** `renderer.render(scene, camera)` with the mesh showing `material`:
        one render into the current target, logged with the inputs the
        material has bound. */
    method Render(material: Material, passThruInput: Option<nat>, inputs: map<string, Option<TargetRef>>)
      modifies this
      ensures log == old(log) + [RenderEvent(material, renderTarget, passThruInput, inputs, xrEnabled, shadowAutoUpdate)]
      ensures renderTarget == old(renderTarget) && xrEnabled == old(xrEnabled) && shadowAutoUpdate == old(shadowAutoUpdate)
    {
      log := log + [RenderEvent(material, renderTarget, passThruInput, inputs, xrEnabled, shadowAutoUpdate)];
    }
  }

  /** `GPUComputationRenderer`: the variables, the current texture index,
      the pass-through shader's input and the mesh's material, over a
      renderer. Texture sizes and formats are kept only as the two sizes. */
  class ComputeRenderer {
    const sizeX: nat
    const sizeY: nat
    const renderer: Gl
    var variables: seq<Variable>
    var currentTextureIndex: nat
    var passThruTexture: Option<nat>
    var meshMaterial: Material

    function State(): GpuState
      reads this, renderer
    {
      GpuState(variables, currentTextureIndex, passThruTexture, meshMaterial,
               renderer.renderTarget, renderer.xrEnabled, renderer.shadowAutoUpdate, renderer.log)
    }

    /** The index is a slot and every dependency names a variable. */
    predicate Valid()
      reads this
    {
      currentTextureIndex <= 1 && DepsInRange(variables)
    }

    /** No variables, index 0, the mesh on the pass-through shader with a
        `null` input. */
    constructor(sizeX: nat, sizeY: nat, renderer: Gl)
      ensures this.sizeX == sizeX && this.sizeY == sizeY && this.renderer == renderer
      ensures variables == [] && currentTextureIndex == 0 && passThruTexture == None
      ensures meshMaterial == PassThruMaterial && Valid()
    {
      this.sizeX := sizeX;
      this.sizeY := sizeY;
      this.renderer := renderer;
      variables := [];
      currentTextureIndex := 0;
      passThruTexture := None;
      meshMaterial := PassThruMaterial;
    }

    /** `addVariable`: a new variable with no dependencies, no targets and
        no dependency uniforms; its index is returned. */
    method AddVariable(name: string, computeFragmentShader: string, initialValueTexture: nat) returns (v: nat)
      requires Valid()
      modifies this
      ensures Valid() && v == |old(variables)|
      ensures State() == old(State()).(variables := old(variables)
        + [Variable(name, computeFragmentShader, initialValueTexture, None, [], map[])])
    {
      v := |variables|;
      variables := variables + [Variable(name, computeFragmentShader, initialValueTexture, None, [], map[])];
      assert forall i :: 0 <= i < v ==> variables[i] == old(variables)[i];
    }

    /** `setVariableDependencies`: the dependencies of variable `v`
        become `deps`. */
    method SetVariableDependencies(v: nat, deps: seq<nat>)
      requires Valid() && v < |variables| && forall j :: 0 <= j < |deps| ==> deps[j] < |variables|
      modifies this
      ensures Valid()
      ensures State() == old(State()).(variables := old(variables)[v := old(variables)[v].(dependencies := Some(deps))])
    {
      variables := variables[v := variables[v].(dependencies := Some(deps))];
    }

    /** `doRenderTarget`: saves the renderer's target and flags, renders
        `material` into `output` with XR and shadow updates off, then puts
        the pass-through shader back on the mesh and restores the
        renderer. */
    method DoRenderTarget(material: Material, output: TargetRef)
      modifies this, renderer
      ensures State() == RenderState(old(State()), material, output)
    {
      var currentRT := renderer.renderTarget;
      var currentXr := renderer.xrEnabled;
      var currentShadow := renderer.shadowAutoUpdate;
      renderer.xrEnabled := false;
      renderer.shadowAutoUpdate := false;
      meshMaterial := material;
      renderer.renderTarget := Some(output);
      renderer.Render(meshMaterial, passThruTexture, MaterialInputs(variables, meshMaterial));
      meshMaterial := PassThruMaterial;
      renderer.xrEnabled := currentXr;
      renderer.shadowAutoUpdate := currentShadow;
      renderer.renderTarget := currentRT;
    }

    /** `renderTexture`: a pass-through copy of `input` into `output`; the
        pass-through input is `null` again afterwards. */
    method RenderTexture(input: nat, output: TargetRef)
      modifies this, renderer
      ensures State() == RenderTextureState(old(State()), input, output)
    {
      passThruTexture := Some(input);
      DoRenderTarget(PassThruMaterial, output);
      passThruTexture := None;
    }

    /** `init`: the capability checks, then for every variable two targets
        filled from its initial texture and the dependency declarations;
        the index is reset to 0. */
    method Init() returns (err: Option<string>)
      requires Valid()
      modifies this, renderer
      ensures (err, State()) == InitOutcome(old(State()), renderer.isWebGL2, renderer.hasFloatTextures, renderer.maxVertexTextures)
      ensures Valid()
    {
      if !renderer.isWebGL2 && !renderer.hasFloatTextures {
        return Some(NoFloatTextures);
      }
      if renderer.maxVertexTextures == 0 {
        return Some(NoVertexTextures);
      }
      ghost var s0 := State();
      SetUpVariables();
      currentTextureIndex := 0;
      InitProgressDone(s0, renderer.isWebGL2, renderer.hasFloatTextures, renderer.maxVertexTextures);
      InitSetsUp(s0, renderer.isWebGL2, renderer.hasFloatTextures, renderer.maxVertexTextures);
      return None;
    }

    /** `init`'s loop: every variable set up, in order. */
    method SetUpVariables()
      requires DepsInRange(variables)
      modifies this, renderer
      ensures State() == InitProgress(old(State()), |old(variables)|)
    {
      ghost var s0 := State();
      var i, n := 0, |variables|;
      while i < n
        invariant n == |s0.variables| && 0 <= i <= n && State() == InitProgress(s0, i)
      {
        InitProgressKeeps(s0, i);
        SetUpVariable(i, s0.variables);
        InitProgressStep(s0, i);
        i := i + 1;
      }
    }

    /** One pass of `init`'s loop: variable `i` (still as in `orig`, whose
        names every variable keeps) gets its two targets, both filled from
        its initial texture, then its dependency declarations. */
    method SetUpVariable(i: nat, ghost orig: seq<Variable>)
      requires DepsInRange(orig) && i < |orig| == |variables| && variables[i] == orig[i]
      requires forall j :: 0 <= j < |orig| ==> variables[j].name == orig[j].name
      modifies this, renderer
      ensures State() == SetUpStep(old(State()), orig, i)
    {
      var v := variables[i];
      variables := variables[i := v.(renderTargets := [TargetRef(i, 0), TargetRef(i, 1)])];
      RenderTexture(v.initialTexture, TargetRef(i, 0));
      RenderTexture(v.initialTexture, TargetRef(i, 1));
      assert variables == old(variables)[i := v.(renderTargets := [TargetRef(i, 0), TargetRef(i, 1)])];
      var w := variables[i];
      if v.dependencies.Some? {
        var deps := v.dependencies.value;
        assert deps == DepsOf(orig[i]);
        w := DeclareDependencies(w, deps, orig);
      }
      variables := variables[i := w];
    }

    /** `init`'s dependency loop over a variable `w`: a `null` sampler
        uniform and a declaration in front of the shader text per
        dependency, named as in `orig`. */
    method DeclareDependencies(w0: Variable, deps: seq<nat>, ghost orig: seq<Variable>) returns (w: Variable)
      requires |orig| == |variables| && forall j :: 0 <= j < |deps| ==> deps[j] < |orig|
      requires forall j :: 0 <= j < |orig| ==> variables[j].name == orig[j].name
      ensures w == Declare(w0, DepNames(orig, deps))
    {
      w := w0;
      var d := 0;
      while d < |deps|
        invariant 0 <= d <= |deps|
        invariant w == Declare(w0, DepNames(orig, deps[..d]))
      {
        var name := variables[deps[d]].name;
        assert deps[..d + 1][..d] == deps[..d];
        w := w.(uniforms := w.uniforms[name := None], fragmentShader := Declaration(name) + w.fragmentShader);
        d := d + 1;
      }
      assert deps[..|deps|] == deps;
    }

    /** `compute`: each variable in order has its dependency samplers bound
        to slot `cur` and renders into its slot-`next` target; then the
        index becomes `next`. */
    method Compute()
      requires Valid() && Initialised(variables)
      modifies this, renderer
      ensures State() == ComputeState(old(State()))
      ensures Valid() && Initialised(variables)
    {
      var cur := currentTextureIndex;
      var next := if cur == 0 then 1 else 0;
      ghost var s0 := State();
      ComputeVariables();
      currentTextureIndex := next;
      ComputeProgressDone(s0);
      ComputeFlips(s0);
    }

    /** `compute`'s loop: every variable computed, in order. */
    method ComputeVariables()
      requires Valid() && Initialised(variables)
      modifies this, renderer
      ensures State() == ComputeProgress(old(State()), |old(variables)|)
    {
      ghost var s0 := State();
      var i, n := 0, |variables|;
      while i < n
        invariant n == |s0.variables| && 0 <= i <= n && State() == ComputeProgress(s0, i)
      {
        ComputeProgressStep(s0, i);
        ComputeVariable(i, currentTextureIndex, s0.variables);
        i := i + 1;
      }
    }

    /** One pass of `compute`'s loop: variable `i` (still as in `orig`,
        whose shape every variable keeps) has its samplers bound to slot
        `cur` and renders into its other target. */
    method ComputeVariable(i: nat, cur: nat, ghost orig: seq<Variable>)
      requires DepsInRange(orig) && Initialised(orig) && cur <= 1
      requires i < |orig| && SameShape(variables, orig) && variables[i] == orig[i]
      modifies this, renderer
      ensures State() == ComputeStep(old(State()), orig, cur, i)
    {
      var w := variables[i];
      if w.dependencies.Some? {
        assert w.dependencies.value == DepsOf(orig[i]);
        w := BindDependencies(w, w.dependencies.value, cur, orig);
      } else {
        assert BindInputs(w.uniforms, orig, DepsOf(orig[i]), cur) == w.uniforms;
      }
      variables := variables[i := w];
      DoRenderTarget(ComputeMaterial(i), variables[i].renderTargets[if cur == 0 then 1 else 0]);
    }

    /** `compute`'s dependency loop over a variable `w`: each dependency's
        sampler takes that dependency's slot-`cur` target. */
    method BindDependencies(w0: Variable, deps: seq<nat>, cur: nat, ghost orig: seq<Variable>) returns (w: Variable)
      requires Initialised(orig) && cur <= 1 && SameShape(variables, orig)
      requires forall j :: 0 <= j < |deps| ==> deps[j] < |orig|
      ensures Bindable(orig, deps, cur)
      ensures w == w0.(uniforms := BindInputs(w0.uniforms, orig, deps, cur))
    {
      w := w0;
      var d := 0;
      while d < |deps|
        invariant 0 <= d <= |deps|
        invariant Bindable(orig, deps[..d], cur)
        invariant w == w0.(uniforms := BindInputs(w0.uniforms, orig, deps[..d], cur))
      {
        var dep := deps[d];
        assert deps[..d + 1][..d] == deps[..d];
        w := w.(uniforms := w.uniforms[variables[dep].name := Some(variables[dep].renderTargets[cur])]);
        d := d + 1;
      }
      assert deps[..|deps|] == deps;
    }

    /** `getCurrentRenderTarget(v)`. */
    function GetCurrentRenderTarget(v: nat): Option<TargetRef>
      requires v < |variables|
      reads this, renderer
    {
      CurrentTarget(State(), v)
    }
  }
}
