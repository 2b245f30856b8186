/**
 * The catalog of fragment-shader effects the portfolio shows: each entry
 * names its uniforms with their type tags and initial values, and the
 * range controls offered next to it.
 */
module Shaders {
  import opened Gl
  import Uniforms

  /** An entry of a definition's `uniforms` object: the type tag for `setUniform` and the initial value. */
  datatype UniformDecl = UniformDecl(tag: string, value: JsValue)

  /** A slider (`caption` is its `label`): `uniform` is null in every definition (it is bound at run time). */
  datatype Control = Control(name: string, caption: string, kind: string,
                             min: real, max: real, step: real, defaultValue: real,
                             uniform: Option<string>)

  datatype ShaderDefinition = ShaderDefinition(
    id: string,
    name: string,
    description: string,
    tags: seq<string>,
    thumbnail: Option<string>,
    /** The GLSL text, kept as an opaque key for the compile oracle. */
    fragmentShader: string,
    /** The uniforms the GLSL text declares. */
    declaredUniforms: set<string>,
    uniforms: map<string, UniformDecl>,
    controls: seq<Control>)

  const GradientWave := ShaderDefinition(
    "gradient-wave", "Gradient Wave", "カラフルなグラデーションの波のアニメーション",
    ["gradient", "animation", "wave"], None,
    "gradient-wave.frag", {"u_resolution", "u_time"},
    map["u_time" := UniformDecl("1f", Num(0.0)),
        "u_resolution" := UniformDecl("2f", Arr([0.0, 0.0])),
        "u_mouse" := UniformDecl("2f", Arr([0.0, 0.0]))],
    [Control("speed", "Speed", "range", 0.1, 2.0, 0.1, 1.0, None)])

  const FractalJulia := ShaderDefinition(
    "fractal-julia", "Julia Fractal", "インタラクティブなジュリア集合フラクタル",
    ["fractal", "mathematics", "complex"], None,
    "fractal-julia.frag", {"u_resolution", "u_time", "u_mouse"},
    map["u_time" := UniformDecl("1f", Num(0.0)),
        "u_resolution" := UniformDecl("2f", Arr([0.0, 0.0])),
        "u_mouse" := UniformDecl("2f", Arr([0.0, 0.0]))],
    [Control("iterations", "Iterations", "range", 10.0, 200.0, 10.0, 100.0, None),
     Control("zoom", "Zoom", "range", 0.5, 3.0, 0.1, 1.5, None)])

  const NoiseFlow := ShaderDefinition(
    "noise-flow", "Noise Flow", "パーリンノイズを使用した流体のようなアニメーション",
    ["noise", "flow", "animation"], None,
    "noise-flow.frag", {"u_resolution", "u_time"},
    map["u_time" := UniformDecl("1f", Num(0.0)),
        "u_resolution" := UniformDecl("2f", Arr([0.0, 0.0]))],
    [Control("scale", "Scale", "range", 1.0, 10.0, 0.5, 3.0, None),
     Control("speed", "Speed", "range", 0.1, 1.0, 0.05, 0.2, None)])

  /** `Shaders.collection`, in its declared order. */
  const Collection: seq<ShaderDefinition> := [GradientWave, FractalJulia, NoiseFlow]

  /** No two definitions share an id. */
  predicate DistinctIds(s: seq<ShaderDefinition>) {
    forall i, j :: 0 <= i < j < |s| ==> s[i].id != s[j].id
  }

  /** `Array.prototype.find` on the id: the first definition with that id, or undefined. */
  function Find(s: seq<ShaderDefinition>, id: string): (r: Option<ShaderDefinition>)
    ensures r.None? <==> forall i :: 0 <= i < |s| ==> s[i].id != id
    ensures r.Some? ==> exists k :: 0 <= k < |s| && s[k] == r.value && r.value.id == id &&
                                    forall i :: 0 <= i < k ==> s[i].id != id
  {
    if s == [] then None
    else if s[0].id == id then Some(s[0])
    else
      var r := Find(s[1..], id);
      assert forall i :: 1 <= i < |s| ==> s[i] == s[1..][i - 1];
      r
  }

  /** `Shaders.getById(id)`. */
  function GetById(id: string): (r: Option<ShaderDefinition>)
    ensures r.Some? <==> id in {"gradient-wave", "fractal-julia", "noise-flow"}
    ensures r.Some? ==> r.value.id == id && r.value in Collection
  {
    assert Collection[0].id == "gradient-wave" && Collection[1].id == "fractal-julia" && Collection[2].id == "noise-flow";
    Find(Collection, id)
  }

  /** `Shaders.getFeatured()`: the first definition of the collection. */
  function GetFeatured(): (r: ShaderDefinition)
    ensures r == Collection[0] && r.id == "gradient-wave"
    ensures GetById(r.id) == Some(r)
  {
    Collection[0]
  }

  /** In a collection without repeated ids, looking an entry's id up answers that very entry. */
  lemma FindDistinct(s: seq<ShaderDefinition>, k: nat)
    requires DistinctIds(s) && k < |s|
    ensures Find(s, s[k].id) == Some(s[k])
  {
  }

  /** Every definition of the catalog is reached by `getById` with its own id, and only by it. */
  lemma GetByIdFindsEveryEntry()
    ensures DistinctIds(Collection)
    ensures forall k :: 0 <= k < |Collection| ==> GetById(Collection[k].id) == Some(Collection[k])
  {
  }

  /** Every control starts inside its own range and steps forward. */
  lemma ControlsInRange()
    ensures forall d, c :: d in Collection && c in d.controls ==> 0.0 < c.step && c.min <= c.defaultValue <= c.max
    ensures forall d, c :: d in Collection && c in d.controls ==> c.kind == "range" && c.uniform.None?
  {
  }

  /**
   * Every declared uniform carries a type tag `setUniform` dispatches on, and
   * its initial value fills every argument of that entry point (no
   * component reads as `undefined`).
   */
  lemma DeclaredUniformsUpload()
    ensures forall d, u :: d in Collection && u in d.uniforms.Values ==> u.tag in Uniforms.UniformTags
    ensures forall d, u :: d in Collection && u in d.uniforms.Values ==>
              var fn := Uniforms.Dispatch(u.tag).value;
              forall a :: a in Uniforms.UploadArgs(fn, u.value) ==> a != Undefined
  {
  }

  /**
   * The uniforms each definition declares to the manager that its GLSL text
   * does not declare: `u_mouse` of the gradient wave is the only one.
   */
  lemma UndeclaredInGlsl()
    ensures forall d :: d in Collection ==> d.declaredUniforms <= d.uniforms.Keys
    ensures forall d :: d in Collection && d != GradientWave ==> d.declaredUniforms == d.uniforms.Keys
    ensures GradientWave.uniforms.Keys - GradientWave.declaredUniforms == {"u_mouse"}
  {
  }
}
