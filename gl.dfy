/**
 * The WebGL rendering context as the host program sees it.
 *
 * The driver is an oracle: whether a shader compiles, whether a pair of
 * shaders links and which locations a program reports are decided by the
 * constant functions a `Context` is built with. What the host program can
 * observe of the driver is kept as state: the objects it has handed out
 * (`objects`, keyed by handle) and the calls it has received, in order
 * (`trace`).
 */
module Gl {

  datatype Option<+T> = None | Some(value: T) {
    function GetOr(default: T): T {
      if Some? then value else default
    }
  }

  /** Opaque identity of a shader, program, buffer or texture object. */
  type Handle = nat
  /** Opaque identity of a WebGLUniformLocation. */
  type Location = nat
  /** What `gl.getAttribLocation` answers: an attribute index, or -1 when the program has no such attribute. */
  type AttribIndex = i: int | -1 <= i
  type GLenum = int
  /** Opaque identity of an image source (HTMLImageElement, canvas, video frame). */
  type ImageRef = nat

  // GLenum values as fixed by the WebGL 1.0 specification, section 5.14.
  const ARRAY_BUFFER: GLenum := 0x8892
  const STATIC_DRAW: GLenum := 0x88E4
  const FLOAT: GLenum := 0x1406
  const UNSIGNED_BYTE: GLenum := 0x1401
  const TRIANGLE_STRIP: GLenum := 0x0005
  const TEXTURE_2D: GLenum := 0x0DE1
  const TEXTURE_MAG_FILTER: GLenum := 0x2800
  const TEXTURE_MIN_FILTER: GLenum := 0x2801
  const TEXTURE_WRAP_S: GLenum := 0x2802
  const TEXTURE_WRAP_T: GLenum := 0x2803
  const NEAREST: GLenum := 0x2600
  const LINEAR: GLenum := 0x2601
  const NEAREST_MIPMAP_NEAREST: GLenum := 0x2700
  const LINEAR_MIPMAP_NEAREST: GLenum := 0x2701
  const NEAREST_MIPMAP_LINEAR: GLenum := 0x2702
  const LINEAR_MIPMAP_LINEAR: GLenum := 0x2703
  const CLAMP_TO_EDGE: GLenum := 0x812F
  const RGBA: GLenum := 0x1908

  datatype Stage = VertexShader | FragmentShader

  /** The JavaScript values the host program passes through to uniform uploads. */
  datatype JsValue = Undefined | Bool(b: bool) | Num(x: real) | Arr(elems: seq<real>)

  /**
   * `v[i]` in JavaScript for a value that can be indexed: an element of an
   * array, `undefined` past its end and for a boolean or a number. Indexing
   * `undefined` itself throws a `TypeError`; callers rule that case out first
   * (`Uniforms.Throws`), and the answer given for it here is never used.
   */
  function Index(v: JsValue, i: nat): JsValue {
    if v.Arr? && i < |v.elems| then Num(v.elems[i]) else Undefined
  }

  /** The uniform upload entry points of the context (`gl.uniform1f`, ..., `gl.uniformMatrix4fv`). */
  datatype UploadFn =
    | Uniform1f | Uniform2f | Uniform3f | Uniform4f
    | Uniform1i | Uniform2i | Uniform3i | Uniform4i
    | Uniform1fv | Uniform2fv | Uniform3fv | Uniform4fv
    | UniformMatrix2fv | UniformMatrix3fv | UniformMatrix4fv

  /** An object living in the driver. */
  datatype GlObject =
    | Shader(stage: Stage, source: string, compiled: bool)
    | Program(vertex: Option<Handle>, fragment: Option<Handle>, linked: bool)
    | Buffer
    | Texture

  /** One call received by the driver. */
  datatype Event =
    | ShaderCreated(stage: Stage, shader: Handle)
    | SourceSet(shader: Handle, source: string)
    | ShaderCompiled(shader: Handle)
    | CompileStatusQueried(shader: Handle)
    | ShaderInfoLogRead(shader: Handle)
    | ShaderDeleted(shader: Handle)
    | ProgramCreated(program: Handle)
    | ShaderAttached(program: Handle, shader: Handle)
    | ProgramLinked(program: Handle)
    | LinkStatusQueried(program: Handle)
    | ProgramInfoLogRead(program: Handle)
    | ProgramDeleted(program: Handle)
    | ProgramUsed(program: Handle)
    | AttribLocationQueried(program: Handle, name: string)
    | UniformLocationQueried(program: Handle, name: string)
    | BufferCreated(buffer: Handle)
    | BufferBound(target: GLenum, buffer: Handle)
    | BufferDataLoaded(target: GLenum, data: seq<real>, usage: GLenum)
    | AttribArrayEnabled(index: nat)
    | AttribPointerSet(index: nat, size: nat, componentType: GLenum, normalized: bool, stride: nat, offset: nat)
    | UniformUploaded(fn: UploadFn, location: Location, args: seq<JsValue>)
    | TextureCreated(texture: Handle)
    | TextureBound(target: GLenum, texture: Handle)
    | TexParameterSet(target: GLenum, pname: GLenum, param: GLenum)
    | TexImageFromImage(target: GLenum, level: nat, internalFormat: GLenum, format: GLenum, pixelType: GLenum, image: ImageRef)
    | TexImageFromPixels(target: GLenum, level: nat, internalFormat: GLenum, width: int, height: int, border: nat,
                         format: GLenum, pixelType: GLenum, pixels: Option<seq<int>>)
    | MipmapGenerated(target: GLenum)

  /** The object table after `deleteProgram(program)`: a program object goes, anything else stays. */
  function DropProgram(objects: map<Handle, GlObject>, program: Handle): (r: map<Handle, GlObject>)
    ensures forall h :: h in r <==> h in objects && !(h == program && objects[h].Program?)
    ensures forall h :: h in r ==> r[h] == objects[h]
  {
    if program in objects && objects[program].Program? then objects - {program} else objects
  }

  /** The object table after `deleteProgram` of every handle in `programs`, in any order. */
  function DropPrograms(objects: map<Handle, GlObject>, programs: set<Handle>): map<Handle, GlObject> {
    map h | h in objects && !(h in programs && objects[h].Program?) :: objects[h]
  }

  /** Deleting one more program is deleting the larger set at once. */
  lemma DropProgramsStep(objects: map<Handle, GlObject>, program: Handle, programs: set<Handle>)
    ensures DropPrograms(DropProgram(objects, program), programs) == DropPrograms(objects, programs + {program})
  {
  }

  /** Deleting no program leaves the table as it is. */
  lemma DropNoPrograms(objects: map<Handle, GlObject>)
    ensures DropPrograms(objects, {}) == objects
  {
  }

  /** `objects[h]` is a shader of stage `stage` whose last compilation succeeded. */
  predicate CompiledShader(objects: map<Handle, GlObject>, h: Handle, stage: Stage) {
    h in objects && objects[h].Shader? && objects[h].stage == stage && objects[h].compiled
  }

  class Context {
    /** Does this source compile as a shader of this stage? */
    const compiles: (Stage, string) -> bool
    /** Does a vertex shader with the first source link with a fragment shader with the second? */
    const links: (string, string) -> bool
    const attribLocation: (Handle, string) -> AttribIndex
    const uniformLocation: (Handle, string) -> Option<Location>

    var objects: map<Handle, GlObject>
    var nextHandle: Handle
    var trace: seq<Event>

    /** Every live object has a handle below `nextHandle`, so a newly handed out handle is fresh. */
    ghost predicate Valid()
      reads this
    {
      forall h :: h in objects ==> h < nextHandle
    }

    constructor (compiles: (Stage, string) -> bool, links: (string, string) -> bool,
                 attribLocation: (Handle, string) -> AttribIndex,
                 uniformLocation: (Handle, string) -> Option<Location>)
      ensures Valid()
      ensures this.compiles == compiles && this.links == links
      ensures this.attribLocation == attribLocation && this.uniformLocation == uniformLocation
      ensures objects == map[] && nextHandle == 0 && trace == []
    {
      this.compiles := compiles;
      this.links := links;
      this.attribLocation := attribLocation;
      this.uniformLocation := uniformLocation;
      objects := map[];
      nextHandle := 0;
      trace := [];
    }

    /** The link status a program object reaches when `linkProgram` is called on it. */
    function LinkOutcome(p: GlObject): bool
      reads this
      requires p.Program?
    {
      && p.vertex.Some? && p.fragment.Some?
      && CompiledShader(objects, p.vertex.value, VertexShader)
      && CompiledShader(objects, p.fragment.value, FragmentShader)
      && links(objects[p.vertex.value].source, objects[p.fragment.value].source)
    }

    /** `gl.getShaderParameter(shader, gl.COMPILE_STATUS)` */
    function CompileStatus(shader: Handle): bool
      reads this
    {
      shader in objects && objects[shader].Shader? && objects[shader].compiled
    }

    /** `gl.getProgramParameter(program, gl.LINK_STATUS)` */
    function LinkStatus(program: Handle): bool
      reads this
    {
      program in objects && objects[program].Program? && objects[program].linked
    }

    method Allocate(obj: GlObject, e: Handle -> Event) returns (h: Handle)
      requires Valid()
      modifies this
      ensures Valid()
      ensures h == old(nextHandle) && nextHandle == h + 1
      ensures objects == old(objects)[h := obj]
      ensures trace == old(trace) + [e(h)]
    {
      h := nextHandle;
      nextHandle := nextHandle + 1;
      objects := objects[h := obj];
      trace := trace + [e(h)];
    }

    /** `gl.createShader(stage)` */
    method CreateShader(stage: Stage) returns (shader: Handle)
      requires Valid()
      modifies this
      ensures Valid()
      ensures shader == old(nextHandle) && nextHandle == shader + 1
      ensures objects == old(objects)[shader := Shader(stage, "", false)]
      ensures trace == old(trace) + [ShaderCreated(stage, shader)]
    {
      shader := Allocate(Shader(stage, "", false), (h: Handle) => ShaderCreated(stage, h));
    }

    /** `gl.shaderSource(shader, source)` */
    method ShaderSource(shader: Handle, source: string)
      modifies this`objects, this`trace
      ensures objects == if shader in old(objects) && old(objects)[shader].Shader?
                         then old(objects)[shader := old(objects)[shader].(source := source)]
                         else old(objects)
      ensures trace == old(trace) + [SourceSet(shader, source)]
    {
      if shader in objects && objects[shader].Shader? {
        objects := objects[shader := objects[shader].(source := source)];
      }
      trace := trace + [SourceSet(shader, source)];
    }

    /** `gl.compileShader(shader)`: the oracle decides the compile status. */
    method CompileShader(shader: Handle)
      modifies this`objects, this`trace
      ensures objects == if shader in old(objects) && old(objects)[shader].Shader?
                         then old(objects)[shader := old(objects)[shader].(compiled :=
                                compiles(old(objects)[shader].stage, old(objects)[shader].source))]
                         else old(objects)
      ensures trace == old(trace) + [ShaderCompiled(shader)]
    {
      if shader in objects && objects[shader].Shader? {
        var s := objects[shader];
        objects := objects[shader := s.(compiled := compiles(s.stage, s.source))];
      }
      trace := trace + [ShaderCompiled(shader)];
    }

    /** `gl.deleteShader(shader)` */
    method DeleteShader(shader: Handle)
      modifies this`objects, this`trace
      ensures objects == if shader in old(objects) && old(objects)[shader].Shader?
                         then old(objects) - {shader} else old(objects)
      ensures trace == old(trace) + [ShaderDeleted(shader)]
    {
      if shader in objects && objects[shader].Shader? {
        objects := objects - {shader};
      }
      trace := trace + [ShaderDeleted(shader)];
    }

    /** `gl.createProgram()` */
    method CreateProgram() returns (program: Handle)
      requires Valid()
      modifies this
      ensures Valid()
      ensures program == old(nextHandle) && nextHandle == program + 1
      ensures objects == old(objects)[program := Program(None, None, false)]
      ensures trace == old(trace) + [ProgramCreated(program)]
    {
      program := Allocate(Program(None, None, false), (h: Handle) => ProgramCreated(h));
    }

    /**
     * `gl.attachShader(program, shader)`: a program holds at most one shader
     * per stage; attaching to an occupied stage changes nothing.
     */
    method AttachShader(program: Handle, shader: Handle)
      modifies this`objects, this`trace
      ensures objects == if program in old(objects) && old(objects)[program].Program? &&
                            shader in old(objects) && old(objects)[shader].Shader?
                         then old(objects)[program := Attached(old(objects)[program], shader, old(objects)[shader].stage)]
                         else old(objects)
      ensures trace == old(trace) + [ShaderAttached(program, shader)]
    {
      if program in objects && objects[program].Program? && shader in objects && objects[shader].Shader? {
        objects := objects[program := Attached(objects[program], shader, objects[shader].stage)];
      }
      trace := trace + [ShaderAttached(program, shader)];
    }

    /** `gl.linkProgram(program)`: the oracle decides the link status. */
    method LinkProgram(program: Handle)
      modifies this`objects, this`trace
      ensures objects == if program in old(objects) && old(objects)[program].Program?
                         then old(objects)[program := old(objects)[program].(linked := old(LinkOutcome(objects[program])))]
                         else old(objects)
      ensures trace == old(trace) + [ProgramLinked(program)]
    {
      if program in objects && objects[program].Program? {
        var p := objects[program];
        objects := objects[program := p.(linked := LinkOutcome(p))];
      }
      trace := trace + [ProgramLinked(program)];
    }

    /** `gl.getShaderParameter(shader, gl.COMPILE_STATUS)`, recorded as a query. */
    method GetCompileStatus(shader: Handle) returns (ok: bool)
      modifies this`trace
      ensures ok == CompileStatus(shader)
      ensures trace == old(trace) + [CompileStatusQueried(shader)]
    {
      ok := CompileStatus(shader);
      trace := trace + [CompileStatusQueried(shader)];
    }

    /** `gl.getShaderInfoLog(shader)`: the text of the log is not modelled, only the query. */
    method GetShaderInfoLog(shader: Handle)
      modifies this`trace
      ensures trace == old(trace) + [ShaderInfoLogRead(shader)]
    {
      trace := trace + [ShaderInfoLogRead(shader)];
    }

    /** `gl.getProgramParameter(program, gl.LINK_STATUS)`, recorded as a query. */
    method GetLinkStatus(program: Handle) returns (ok: bool)
      modifies this`trace
      ensures ok == LinkStatus(program)
      ensures trace == old(trace) + [LinkStatusQueried(program)]
    {
      ok := LinkStatus(program);
      trace := trace + [LinkStatusQueried(program)];
    }

    /** `gl.getProgramInfoLog(program)`: the text of the log is not modelled, only the query. */
    method GetProgramInfoLog(program: Handle)
      modifies this`trace
      ensures trace == old(trace) + [ProgramInfoLogRead(program)]
    {
      trace := trace + [ProgramInfoLogRead(program)];
    }

    /** `gl.deleteProgram(program)` */
    method DeleteProgram(program: Handle)
      modifies this`objects, this`trace
      ensures objects == DropProgram(old(objects), program)
      ensures trace == old(trace) + [ProgramDeleted(program)]
    {
      if program in objects && objects[program].Program? {
        objects := objects - {program};
      }
      trace := trace + [ProgramDeleted(program)];
    }

    /** `gl.useProgram(program)` */
    method UseProgram(program: Handle)
      modifies this`trace
      ensures trace == old(trace) + [ProgramUsed(program)]
    {
      trace := trace + [ProgramUsed(program)];
    }

    /** `gl.getAttribLocation(program, name)` */
    method GetAttribLocation(program: Handle, name: string) returns (location: AttribIndex)
      modifies this`trace
      ensures location == attribLocation(program, name)
      ensures trace == old(trace) + [AttribLocationQueried(program, name)]
    {
      location := attribLocation(program, name);
      trace := trace + [AttribLocationQueried(program, name)];
    }

    /** `gl.getUniformLocation(program, name)`: `None` stands for `null`. */
    method GetUniformLocation(program: Handle, name: string) returns (location: Option<Location>)
      modifies this`trace
      ensures location == uniformLocation(program, name)
      ensures trace == old(trace) + [UniformLocationQueried(program, name)]
    {
      location := uniformLocation(program, name);
      trace := trace + [UniformLocationQueried(program, name)];
    }

    /** `gl.createBuffer()` */
    method CreateBuffer() returns (buffer: Handle)
      requires Valid()
      modifies this
      ensures Valid()
      ensures buffer == old(nextHandle) && nextHandle == buffer + 1
      ensures objects == old(objects)[buffer := Buffer]
      ensures trace == old(trace) + [BufferCreated(buffer)]
    {
      buffer := Allocate(Buffer, (h: Handle) => BufferCreated(h));
    }

    /** `gl.bindBuffer(target, buffer)` */
    method BindBuffer(target: GLenum, buffer: Handle)
      modifies this`trace
      ensures trace == old(trace) + [BufferBound(target, buffer)]
    {
      trace := trace + [BufferBound(target, buffer)];
    }

    /** `gl.bufferData(target, data, usage)` */
    method BufferData(target: GLenum, data: seq<real>, usage: GLenum)
      modifies this`trace
      ensures trace == old(trace) + [BufferDataLoaded(target, data, usage)]
    {
      trace := trace + [BufferDataLoaded(target, data, usage)];
    }

    /** `gl.enableVertexAttribArray(index)` */
    method EnableVertexAttribArray(index: nat)
      modifies this`trace
      ensures trace == old(trace) + [AttribArrayEnabled(index)]
    {
      trace := trace + [AttribArrayEnabled(index)];
    }

    /** `gl.vertexAttribPointer(index, size, type, normalized, stride, offset)` */
    method VertexAttribPointer(index: nat, size: nat, componentType: GLenum, normalized: bool, stride: nat, offset: nat)
      modifies this`trace
      ensures trace == old(trace) + [AttribPointerSet(index, size, componentType, normalized, stride, offset)]
    {
      trace := trace + [AttribPointerSet(index, size, componentType, normalized, stride, offset)];
    }

    /** `gl.uniform*(location, args...)`: one upload through entry point `fn`. */
    method Uniform(fn: UploadFn, location: Location, args: seq<JsValue>)
      modifies this`trace
      ensures trace == old(trace) + [UniformUploaded(fn, location, args)]
    {
      trace := trace + [UniformUploaded(fn, location, args)];
    }

    /** `gl.createTexture()` */
    method CreateTexture() returns (texture: Handle)
      requires Valid()
      modifies this
      ensures Valid()
      ensures texture == old(nextHandle) && nextHandle == texture + 1
      ensures objects == old(objects)[texture := Texture]
      ensures trace == old(trace) + [TextureCreated(texture)]
    {
      texture := Allocate(Texture, (h: Handle) => TextureCreated(h));
    }

    /** `gl.bindTexture(target, texture)` */
    method BindTexture(target: GLenum, texture: Handle)
      modifies this`trace
      ensures trace == old(trace) + [TextureBound(target, texture)]
    {
      trace := trace + [TextureBound(target, texture)];
    }

    /** `gl.texParameteri(target, pname, param)` */
    method TexParameteri(target: GLenum, pname: GLenum, param: GLenum)
      modifies this`trace
      ensures trace == old(trace) + [TexParameterSet(target, pname, param)]
    {
      trace := trace + [TexParameterSet(target, pname, param)];
    }

    /** The six-argument `gl.texImage2D(target, level, internalFormat, format, type, image)`. */
    method TexImage2DFromImage(target: GLenum, level: nat, internalFormat: GLenum, format: GLenum, pixelType: GLenum, image: ImageRef)
      modifies this`trace
      ensures trace == old(trace) + [TexImageFromImage(target, level, internalFormat, format, pixelType, image)]
    {
      trace := trace + [TexImageFromImage(target, level, internalFormat, format, pixelType, image)];
    }

    /** The nine-argument `gl.texImage2D(target, level, internalFormat, width, height, border, format, type, pixels)`. */
    method TexImage2D(target: GLenum, level: nat, internalFormat: GLenum, width: int, height: int, border: nat,
                      format: GLenum, pixelType: GLenum, pixels: Option<seq<int>>)
      modifies this`trace
      ensures trace == old(trace) + [TexImageFromPixels(target, level, internalFormat, width, height, border, format, pixelType, pixels)]
    {
      trace := trace + [TexImageFromPixels(target, level, internalFormat, width, height, border, format, pixelType, pixels)];
    }

    /** `gl.generateMipmap(target)` */
    method GenerateMipmap(target: GLenum)
      modifies this`trace
      ensures trace == old(trace) + [MipmapGenerated(target)]
    {
      trace := trace + [MipmapGenerated(target)];
    }
  }

  /** The program object `p` after a shader of stage `stage` is attached to it. */
  function Attached(p: GlObject, shader: Handle, stage: Stage): (q: GlObject)
    requires p.Program?
    ensures q.Program? && q.linked == p.linked
    ensures stage == VertexShader ==>
              q.fragment == p.fragment && q.vertex == (if p.vertex.None? then Some(shader) else p.vertex)
    ensures stage == FragmentShader ==>
              q.vertex == p.vertex && q.fragment == (if p.fragment.None? then Some(shader) else p.fragment)
  {
    match stage
    case VertexShader => if p.vertex.None? then p.(vertex := Some(shader)) else p
    case FragmentShader => if p.fragment.None? then p.(fragment := Some(shader)) else p
  }
}
