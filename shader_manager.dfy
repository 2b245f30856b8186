/**
 * The per-context program registry: a table from a logical name to a linked
 * program with its lazily filled location caches, and a pointer to the
 * program currently in use.
 */
module Manager {
  import opened Gl
  import opened Registry
  import Uniforms
  import WebGLUtils

  /** The vertex shader every fragment-shader effect is paired with: it passes the quad through. */
  const DefaultVertexShader: string :=
    "\n            attribute vec2 a_position;\n            attribute vec2 a_texCoord;\n            \n" +
    "            varying vec2 v_texCoord;\n            \n            void main() {\n" +
    "                gl_Position = vec4(a_position, 0.0, 1.0);\n                v_texCoord = a_texCoord;\n" +
    "            }\n        "

  /**
   * The calls `setupQuadAttributes` makes for one attribute: none when the
   * program has no such attribute, else bind the buffer, enable the array
   * and describe its layout.
   */
  function PointerCalls(location: AttribIndex, layout: WebGLUtils.AttributeLayout): (calls: seq<Event>)
    ensures calls == [] <==> location == -1
    ensures calls != [] ==>
              calls == [BufferBound(ARRAY_BUFFER, layout.buffer), AttribArrayEnabled(location),
                        AttribPointerSet(location, layout.size, layout.componentType, layout.normalized,
                                         layout.stride, layout.offset)]
  {
    if location == -1 then []
    else [BufferBound(ARRAY_BUFFER, layout.buffer), AttribArrayEnabled(location),
          AttribPointerSet(location, layout.size, layout.componentType, layout.normalized, layout.stride, layout.offset)]
  }

  /** The calls `createShader` makes for one stage: compile and query, then read the log and delete the object if that failed. */
  function StageCalls(h: Handle, stage: Stage, source: string, compiled: bool): seq<Event> {
    WebGLUtils.CompileCalls(h, stage, source) + (if compiled then [] else WebGLUtils.CompileFailureCalls(h))
  }

  /**
   * The driver calls of `createProgram(name, vertexSource, fragmentSource)`
   * when the context hands out `h` next: the vertex shader takes `h`, the
   * fragment shader `h + 1` and the program `h + 2`. A compiled shader is
   * never deleted, whatever happens after it; the program is only created
   * when both stages compiled, and deleted again when linking fails.
   */
  function CreateProgramCalls(gl: Context, h: Handle, vertexSource: string, fragmentSource: string): seq<Event>
  {
    var compiled := gl.compiles(VertexShader, vertexSource) && gl.compiles(FragmentShader, fragmentSource);
    StageCalls(h, VertexShader, vertexSource, gl.compiles(VertexShader, vertexSource)) +
    StageCalls(h + 1, FragmentShader, fragmentSource, gl.compiles(FragmentShader, fragmentSource)) +
    (if compiled
     then WebGLUtils.LinkCalls(h + 2, h, h + 1) + (if gl.links(vertexSource, fragmentSource) then [] else WebGLUtils.LinkFailureCalls(h + 2))
     else [])
  }

  /**
   * The object table after both `createShader` calls when the context hands
   * out `h` next: each stage that compiled is a new compiled shader.
   */
  function CompiledStages(gl: Context, objects: map<Handle, GlObject>, h: Handle,
                          vertexSource: string, fragmentSource: string): map<Handle, GlObject>
  {
    var withVertex := if gl.compiles(VertexShader, vertexSource)
                      then objects[h := Shader(VertexShader, vertexSource, true)] else objects;
    if gl.compiles(FragmentShader, fragmentSource)
    then withVertex[h + 1 := Shader(FragmentShader, fragmentSource, true)] else withVertex
  }

  /**
   * The object table after `createProgram` when the context hands out `h`
   * next: every compiled stage stays allocated, and the linked program is
   * added only when both stages compiled and linked. Nothing already in the
   * table is touched, so a program the name was bound to before stays.
   */
  function CreateProgramObjects(gl: Context, objects: map<Handle, GlObject>, h: Handle,
                                vertexSource: string, fragmentSource: string): map<Handle, GlObject>
  {
    var compiled := CompiledStages(gl, objects, h, vertexSource, fragmentSource);
    if gl.compiles(VertexShader, vertexSource) && gl.compiles(FragmentShader, fragmentSource) &&
       gl.links(vertexSource, fragmentSource)
    then compiled[h + 2 := Program(Some(h), Some(h + 1), true)]
    else compiled
  }

  /** In the calls of `createProgram`, a shader is deleted again exactly when its stage fails to compile. */
  lemma CreateProgramCallsDeletes(gl: Context, h: Handle, vertexSource: string, fragmentSource: string)
    ensures var calls := CreateProgramCalls(gl, h, vertexSource, fragmentSource);
            && (ShaderDeleted(h) in calls <==> !gl.compiles(VertexShader, vertexSource))
            && (ShaderDeleted(h + 1) in calls <==> !gl.compiles(FragmentShader, fragmentSource))
  {
  }

  /**
   * In the calls of `createProgram`, the program is linked exactly when both
   * stages compiled, and deleted again exactly when that link fails.
   */
  lemma CreateProgramCallsLinks(gl: Context, h: Handle, vertexSource: string, fragmentSource: string)
    ensures var calls := CreateProgramCalls(gl, h, vertexSource, fragmentSource);
            && (ProgramLinked(h + 2) in calls <==>
                  gl.compiles(VertexShader, vertexSource) && gl.compiles(FragmentShader, fragmentSource))
            && (ProgramDeleted(h + 2) in calls <==>
                  gl.compiles(VertexShader, vertexSource) && gl.compiles(FragmentShader, fragmentSource) &&
                  !gl.links(vertexSource, fragmentSource))
  {
  }

  /**
   * `createProgram` leaves every object it found untouched (a program the
   * name was bound to before is not deleted), keeps each compiled stage
   * allocated, and adds the program only when both stages compiled and linked.
   */
  lemma CreateProgramObjectsKeeps(gl: Context, objects: map<Handle, GlObject>, h: Handle,
                                  vertexSource: string, fragmentSource: string)
    requires forall k :: k in objects ==> k < h
    ensures var r := CreateProgramObjects(gl, objects, h, vertexSource, fragmentSource);
            && (forall k :: k in objects ==> k in r && r[k] == objects[k])
            && r.Keys <= objects.Keys + {h, h + 1, h + 2}
            && (h in r <==> gl.compiles(VertexShader, vertexSource))
            && (h + 1 in r <==> gl.compiles(FragmentShader, fragmentSource))
            && (h + 2 in r <==> gl.compiles(VertexShader, vertexSource) &&
                                gl.compiles(FragmentShader, fragmentSource) && gl.links(vertexSource, fragmentSource))
  {
  }

  /** Both `createShader` calls of `createProgram`, vertex stage first. */
  method CompileStages(gl: Context, vertexSource: string, fragmentSource: string)
    returns (vertexShader: Option<Handle>, fragmentShader: Option<Handle>)
    requires gl.Valid()
    modifies gl
    ensures gl.Valid() && gl.nextHandle == old(gl.nextHandle) + 2
    ensures vertexShader.Some? <==> gl.compiles(VertexShader, vertexSource)
    ensures fragmentShader.Some? <==> gl.compiles(FragmentShader, fragmentSource)
    ensures vertexShader.Some? ==> vertexShader.value == old(gl.nextHandle)
    ensures fragmentShader.Some? ==> fragmentShader.value == old(gl.nextHandle) + 1
    ensures gl.objects == CompiledStages(gl, old(gl.objects), old(gl.nextHandle), vertexSource, fragmentSource)
    ensures gl.trace == old(gl.trace) + StageCalls(old(gl.nextHandle), VertexShader, vertexSource, vertexShader.Some?)
                        + StageCalls(old(gl.nextHandle) + 1, FragmentShader, fragmentSource, fragmentShader.Some?)
  {
    vertexShader := WebGLUtils.CreateShader(gl, vertexSource, VertexShader);
    fragmentShader := WebGLUtils.CreateShader(gl, fragmentSource, FragmentShader);
  }

  /**
   * The driver half of `createProgram`: compiles both stages and links them,
   * answering the linked program, which the context hands out two handles
   * after the vertex shader.
   */
  method BuildProgram(gl: Context, vertexSource: string, fragmentSource: string) returns (program: Option<Handle>)
    requires gl.Valid()
    modifies gl
    ensures gl.Valid()
    ensures program.Some? <==> gl.compiles(VertexShader, vertexSource) && gl.compiles(FragmentShader, fragmentSource) &&
                               gl.links(vertexSource, fragmentSource)
    ensures program.Some? ==> program.value == old(gl.nextHandle) + 2 && gl.LinkStatus(program.value)
    ensures gl.objects == CreateProgramObjects(gl, old(gl.objects), old(gl.nextHandle), vertexSource, fragmentSource)
    ensures gl.trace == old(gl.trace) + CreateProgramCalls(gl, old(gl.nextHandle), vertexSource, fragmentSource)
  {
    ghost var h := gl.nextHandle;
    ghost var trace0 := gl.trace;
    var vertexShader, fragmentShader := CompileStages(gl, vertexSource, fragmentSource);
    if vertexShader.None? || fragmentShader.None? {
      assert gl.trace == trace0 + CreateProgramCalls(gl, h, vertexSource, fragmentSource);
      return None;
    }
    ghost var compiled := gl.objects;
    assert WebGLUtils.Assembled(compiled, h, h + 1) == Program(Some(h), Some(h + 1), false);
    ghost var trace1 := gl.trace;
    program := WebGLUtils.CreateProgram(gl, vertexShader.value, fragmentShader.value);
    LinkedCalls(gl, h, vertexSource, fragmentSource, trace0);
    assert gl.trace == trace1 + WebGLUtils.LinkCalls(h + 2, h, h + 1)
                       + (if program.Some? then [] else WebGLUtils.LinkFailureCalls(h + 2));
  }

  /** When both stages compile, `createProgram` continues with the link calls right after both compile calls. */
  lemma LinkedCalls(gl: Context, h: Handle, vertexSource: string, fragmentSource: string, before: seq<Event>)
    requires gl.compiles(VertexShader, vertexSource) && gl.compiles(FragmentShader, fragmentSource)
    ensures before + CreateProgramCalls(gl, h, vertexSource, fragmentSource)
         == before + StageCalls(h, VertexShader, vertexSource, true) + StageCalls(h + 1, FragmentShader, fragmentSource, true)
            + WebGLUtils.LinkCalls(h + 2, h, h + 1)
            + (if gl.links(vertexSource, fragmentSource) then [] else WebGLUtils.LinkFailureCalls(h + 2))
  {
  }

  class ShaderManager {
    const gl: Context
    /** The JavaScript Map from logical name to program record. */
    var programs: Programs
    /** The keys of `programs` in the Map's insertion order. */
    var names: seq<string>
    /** The name last passed to a successful `useProgram`, or null. */
    var currentProgram: Option<string>

    ghost predicate Valid()
      reads this, gl
    {
      gl.Valid() && Ordered(programs, names) && CurrentRegistered(programs, currentProgram)
    }

    constructor (gl: Context)
      requires gl.Valid()
      ensures Valid() && this.gl == gl
      ensures programs == map[] && names == [] && currentProgram == None
    {
      this.gl := gl;
      programs := map[];
      names := [];
      currentProgram := None;
    }

    /**
     * `createProgram(name, vertexSource, fragmentSource)` as a relation
     * between the state before and after it: the program is answered exactly
     * when both stages compile and the pair links; only then is `name`
     * (re)bound to a fresh entry with empty caches, and nothing is
     * registered on failure.
     */
    twostate predicate Created(name: string, vertexSource: string, fragmentSource: string, new program: Option<Handle>)
      reads this, gl
    {
      && (program.Some? <==> gl.compiles(VertexShader, vertexSource) && gl.compiles(FragmentShader, fragmentSource) &&
                             gl.links(vertexSource, fragmentSource))
      && (program.None? ==> programs == old(programs) && names == old(names))
      && (program.Some? ==>
            && programs == old(programs)[name := ProgramInfo(program.value, map[], map[], vertexSource, fragmentSource)]
            && names == Enrolled(old(names), name)
            && old(gl.nextHandle) <= program.value && gl.LinkStatus(program.value))
      && currentProgram == old(currentProgram)
      && (program.Some? ==> program.value == old(gl.nextHandle) + 2)
      && gl.objects == CreateProgramObjects(gl, old(gl.objects), old(gl.nextHandle), vertexSource, fragmentSource)
      && gl.trace == old(gl.trace) + CreateProgramCalls(gl, old(gl.nextHandle), vertexSource, fragmentSource)
    }

    /** Compiles both stages, links them and registers the program under `name`. */
    method CreateProgram(name: string, vertexSource: string, fragmentSource: string) returns (program: Option<Handle>)
      requires Valid()
      modifies this`programs, this`names, gl
      ensures Valid()
      ensures Created(name, vertexSource, fragmentSource, program)
    {
      program := BuildProgram(gl, vertexSource, fragmentSource);
      if program.None? {
        return None;
      }
      programs := programs[name := ProgramInfo(program.value, map[], map[], vertexSource, fragmentSource)];
      names := Enrolled(names, name);
    }

    /** Exactly `CreateProgram(name, DefaultVertexShader, fragmentSource)`. */
    method CreateFragmentShaderProgram(name: string, fragmentSource: string) returns (program: Option<Handle>)
      requires Valid()
      modifies this`programs, this`names, gl
      ensures Valid()
      ensures Created(name, DefaultVertexShader, fragmentSource, program)
    {
      program := CreateProgram(name, DefaultVertexShader, fragmentSource);
    }

    /** `programs.get(name)`: the record, or `None` for undefined. */
    function GetProgram(name: string): (info: Option<ProgramInfo>)
      reads this
      ensures info.Some? <==> name in programs
      ensures info.Some? ==> info.value == programs[name]
    {
      if name in programs then Some(programs[name]) else None
    }

    /** Makes the program registered under `name` the context's current program. */
    method UseProgram(name: string) returns (ok: bool)
      requires Valid()
      modifies this`currentProgram, gl`trace
      ensures Valid()
      ensures ok <==> name in programs
      ensures ok ==> currentProgram == Some(name) && gl.trace == old(gl.trace) + [ProgramUsed(programs[name].program)]
      ensures ok && name != "" ==> GetCurrentProgram() == GetProgram(name)
      ensures !ok ==> currentProgram == old(currentProgram) && gl.trace == old(gl.trace)
    {
      if name !in programs {
        return false;
      }
      gl.UseProgram(programs[name].program);
      currentProgram := Some(name);
      return true;
    }

    /**
     * The record of the current program. The test is JavaScript falsiness,
     * so the empty name counts as no current program.
     */
    function GetCurrentProgram(): (info: Option<ProgramInfo>)
      reads this
      ensures info.Some? ==> currentProgram.Some? && currentProgram.value != "" &&
                             currentProgram.value in programs && info.value == programs[currentProgram.value]
      ensures CurrentRegistered(programs, currentProgram) ==>
                (info.None? <==> currentProgram.None? || currentProgram.value == "")
    {
      if currentProgram.None? || currentProgram.value == "" then None
      else if currentProgram.value in programs then Some(programs[currentProgram.value])
      else None
    }

    /** The attribute location of a program, asking the driver only on the first lookup. */
    method GetAttribLocation(programName: string, attributeName: string) returns (location: AttribIndex)
      requires Valid()
      modifies this`programs, gl`trace
      ensures Valid()
      ensures var c := AttribLookup(old(programs), programName, attributeName, gl.attribLocation);
              location == c.location && programs == c.programs && gl.trace == old(gl.trace) + c.queries
    {
      if programName !in programs {
        return -1;
      }
      var info := programs[programName];
      if attributeName !in info.attributes {
        var fetched := WebGLUtils.GetAttribLocation(gl, info.program, attributeName);
        info := info.(attributes := info.attributes[attributeName := fetched]);
        programs := programs[programName := info];
      }
      location := info.attributes[attributeName];
    }

    /** The uniform location of a program, asking the driver only on the first lookup. */
    method GetUniformLocation(programName: string, uniformName: string) returns (location: Option<Location>)
      requires Valid()
      modifies this`programs, gl`trace
      ensures Valid()
      ensures var c := UniformLookup(old(programs), programName, uniformName, gl.uniformLocation);
              location == c.location && programs == c.programs && gl.trace == old(gl.trace) + c.queries
    {
      if programName !in programs {
        return None;
      }
      var info := programs[programName];
      if uniformName !in info.uniforms {
        var fetched := WebGLUtils.GetUniformLocation(gl, info.program, uniformName);
        info := info.(uniforms := info.uniforms[uniformName := fetched]);
        programs := programs[programName := info];
      }
      location := info.uniforms[uniformName];
    }

    /** Binds the buffer and describes its layout for one attribute, unless the program lacks it. */
    method PointAttribute(location: AttribIndex, layout: WebGLUtils.AttributeLayout)
      modifies gl`trace
      ensures gl.trace == old(gl.trace) + PointerCalls(location, layout)
    {
      if location != -1 {
        gl.BindBuffer(ARRAY_BUFFER, layout.buffer);
        gl.EnableVertexAttribArray(location);
        gl.VertexAttribPointer(location, layout.size, layout.componentType, layout.normalized, layout.stride, layout.offset);
      }
    }

    /** Points `a_position` and `a_texCoord`, where the program has them, at the quad's buffers. */
    method SetupQuadAttributes(programName: string, quad: WebGLUtils.Quad)
      requires Valid()
      modifies this`programs, gl`trace
      ensures Valid()
      ensures var position := AttribLookup(old(programs), programName, "a_position", gl.attribLocation);
              var texCoord := AttribLookup(position.programs, programName, "a_texCoord", gl.attribLocation);
              && programs == texCoord.programs
              && gl.trace == old(gl.trace) + position.queries + PointerCalls(position.location, quad.position)
                                           + texCoord.queries + PointerCalls(texCoord.location, quad.texCoord)
    {
      var positionLocation := GetAttribLocation(programName, "a_position");
      PointAttribute(positionLocation, quad.position);
      var texCoordLocation := GetAttribLocation(programName, "a_texCoord");
      PointAttribute(texCoordLocation, quad.texCoord);
    }

    /**
     * Uploads `value` to a uniform of a program through the entry point its
     * type tag names; uploads nothing for a null location or an unknown tag.
     * `thrown` stands for the `TypeError` a vector tag raises on an
     * `undefined` value: the location is cached by then, and nothing is
     * uploaded.
     */
    method SetUniform(programName: string, uniformName: string, tag: string, value: JsValue) returns (thrown: bool)
      requires Valid()
      modifies this`programs, gl`trace
      ensures Valid()
      ensures var c := UniformLookup(old(programs), programName, uniformName, gl.uniformLocation);
              && programs == c.programs && gl.trace == old(gl.trace) + c.queries + Uniforms.UploadCalls(tag, c.location, value)
              && (thrown <==> Uniforms.UploadThrows(tag, c.location, value))
    {
      thrown := false;
      var location := GetUniformLocation(programName, uniformName);
      if location.None? {
        return;
      }
      match Uniforms.Dispatch(tag)
      case None =>
      case Some(fn) =>
        if Uniforms.Throws(fn, value) {
          thrown := true;
        } else {
          gl.Uniform(fn, location.value, Uniforms.UploadArgs(fn, value));
        }
    }

    /** Deletes the program registered under `name`, if any, and forgets it. */
    method DeleteProgram(name: string)
      requires Valid()
      modifies this`programs, this`names, this`currentProgram, gl`objects, gl`trace
      ensures Valid()
      ensures name !in old(programs) ==>
                && programs == old(programs) && names == old(names) && currentProgram == old(currentProgram)
                && gl.objects == old(gl.objects) && gl.trace == old(gl.trace)
      ensures name in old(programs) ==>
                var program := old(programs)[name].program;
                && programs == old(programs) - {name}
                && names == Without(old(names), name)
                && currentProgram == (if old(currentProgram) == Some(name) then None else old(currentProgram))
                && gl.trace == old(gl.trace) + [ProgramDeleted(program)]
                && gl.objects == DropProgram(old(gl.objects), program)
    {
      if name !in programs {
        return;
      }
      gl.DeleteProgram(programs[name].program);
      programs := programs - {name};
      names := Without(names, name);
      if currentProgram == Some(name) {
        currentProgram := None;
      }
    }

    /**
     * `deleteProgram` applied to the oldest registered name: its call is the
     * first of those still pending.
     */
    method DeleteOldest()
      requires Valid() && names != []
      modifies this`programs, this`names, this`currentProgram, gl`objects, gl`trace
      ensures Valid()
      ensures programs == old(programs) - {old(names)[0]} && names == old(names)[1..]
      ensures currentProgram == (if old(currentProgram) == Some(old(names)[0]) then None else old(currentProgram))
      ensures gl.objects == DropProgram(old(gl.objects), old(programs)[old(names)[0]].program)
      ensures gl.trace + DeletionCalls(programs, names) == old(gl.trace) + DeletionCalls(old(programs), old(names))
      ensures DropPrograms(gl.objects, Handles(programs)) == DropPrograms(old(gl.objects), Handles(old(programs)))
    {
      DeletionCallsAfter(programs, names, gl.trace);
      WithoutFirst(names);
      HandlesWithout(programs, names[0]);
      DropProgramsStep(gl.objects, programs[names[0]].program, Handles(programs - {names[0]}));
      DeleteProgram(names[0]);
    }

    /** Deletes every registered program, in registration order, and leaves the table empty. */
    method DeleteAllPrograms()
      requires Valid()
      modifies this`programs, this`names, this`currentProgram, gl`objects, gl`trace
      ensures Valid()
      ensures programs == map[] && names == [] && currentProgram == None
      ensures gl.trace == old(gl.trace) + DeletionCalls(old(programs), old(names))
      ensures gl.objects == DropPrograms(old(gl.objects), Handles(old(programs)))
    {
      while names != []
        invariant Valid()
        invariant gl.trace + DeletionCalls(programs, names) == old(gl.trace) + DeletionCalls(old(programs), old(names))
        invariant DropPrograms(gl.objects, Handles(programs)) == DropPrograms(old(gl.objects), Handles(old(programs)))
        decreases |names|
      {
        DeleteOldest();
      }
      assert forall n :: n !in programs;
      assert Handles(programs) == {};
      DropNoPrograms(gl.objects);
    }
  }
}
