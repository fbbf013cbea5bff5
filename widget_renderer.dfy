/**
 * The Android Auto widget renderer's life cycle: `initialize` builds the
 * shader program, `render` draws the bitmap with it, `contextLost` forgets
 * it and `deinitialize` releases it. OpenGL is a context object that logs
 * every call it receives and hands out fresh object names.
 */
module WidgetRenderer {
  import opened WidgetGeometry

  datatype ShaderKind = VertexShaderKind | FragmentShaderKind

  datatype TexParameter = MinFilterNearest | MagFilterLinear | WrapSClampToEdge | WrapTClampToEdge

  /** One OpenGL ES 2.0 call, with the arguments the renderer passes. */
  datatype GlCall =
    | GetMaxVertexAttribs
    | CreateShader(kind: ShaderKind, shader: int)
    | ShaderSource(shader: int, code: ShaderKind)
    | CompileShader(shader: int)
    | GetCompileStatus(shader: int)
    | GetShaderInfoLog(name: int)
    | CreateProgram(program: int)
    | AttachShader(program: int, shader: int)
    | LinkProgram(program: int)
    | GetUniformLocation(program: int, uniform: string)
    | GetAttribLocation(program: int, attribute: string)
    | UseProgram(program: int)
    | UniformMatrix4fv(location: int, count: int, transpose: bool, matrix: seq<real>)
    | GenTextures(textures: seq<int>)
    | BindTexture2D(texture: int)
    | SetTexParameter(parameter: TexParameter)
    | TexImage2D
    | ActiveTexture(unit: int)
    | Uniform1i(location: int, value: int)
    | ClearColor(red: real, green: real, blue: real, alpha: real)
    | BlendSrcAlphaOneMinusSrcAlpha
    | EnableBlend
    | EnableVertexAttribArray(index: int)
    | VertexAttribPointer(index: int, size: int, stride: int, data: seq<int>)
    | DrawTriangleStrip(first: int, count: int)
    | DisableVertexAttribArray(index: int)
    | BindArrayBuffer(buffer: int)
    | DetachShader(program: int, shader: int)
    | DeleteShader(shader: int)
    | DeleteTextures(textures: seq<int>)
    | DeleteProgram(program: int)

  /** Whether a call creates or deletes a GL object. */
  predicate CreatesOrDeletes(c: GlCall) {
    c.CreateShader? || c.CreateProgram? || c.GenTextures? ||
    c.DetachShader? || c.DeleteShader? || c.DeleteTextures? || c.DeleteProgram?
  }

  /**
   * An OpenGL context. `compiles` says whether the driver compiles the
   * renderer's shader of each kind, and `location` which location the
   * linked program gives each uniform and attribute name.
   */
  class GlContext {
    var calls: seq<GlCall>
    var nextName: int
    var shaderKinds: map<int, ShaderKind>
    const compiles: ShaderKind -> bool
    const location: string -> int

    /** Object names handed out so far are all positive and below `nextName`. */
    predicate Valid()
      reads this`nextName, this`shaderKinds
    {
      nextName >= 1 && forall s :: s in shaderKinds ==> 1 <= s < nextName
    }

    constructor(compiles: ShaderKind -> bool, location: string -> int)
      ensures Valid() && calls == [] && nextName == 1 && shaderKinds == map[]
      ensures this.compiles == compiles && this.location == location
    {
      calls := [];
      nextName := 1;
      shaderKinds := map[];
      this.compiles := compiles;
      this.location := location;
    }

    /** Calls, in order, that create nothing and return nothing. */
    method Issue(cs: seq<GlCall>)
      requires Valid()
      modifies this`calls
      ensures calls == old(calls) + cs
    {
      calls := calls + cs;
    }

    method CreateShader(kind: ShaderKind) returns (shader: int)
      requires Valid()
      modifies this
      ensures Valid()
      ensures shader == old(nextName) && nextName == old(nextName) + 1
      ensures shaderKinds == old(shaderKinds)[shader := kind]
      ensures calls == old(calls) + [GlCall.CreateShader(kind, shader)]
    {
      shader := nextName;
      nextName := nextName + 1;
      shaderKinds := shaderKinds[shader := kind];
      calls := calls + [GlCall.CreateShader(kind, shader)];
    }

    /** Whether the shader compiled: only a shader of a kind the driver compiles did. */
    method GetCompileStatus(shader: int) returns (compiled: bool)
      requires Valid()
      modifies this`calls
      ensures compiled <==> shader in shaderKinds && compiles(shaderKinds[shader])
      ensures calls == old(calls) + [GlCall.GetCompileStatus(shader)]
    {
      compiled := shader in shaderKinds && compiles(shaderKinds[shader]);
      calls := calls + [GlCall.GetCompileStatus(shader)];
    }

    method CreateProgram() returns (program: int)
      requires Valid()
      modifies this`calls, this`nextName
      ensures Valid()
      ensures program == old(nextName) && nextName == old(nextName) + 1
      ensures calls == old(calls) + [GlCall.CreateProgram(program)]
    {
      program := nextName;
      nextName := nextName + 1;
      calls := calls + [GlCall.CreateProgram(program)];
    }

    method GetUniformLocation(program: int, name: string) returns (loc: int)
      requires Valid()
      modifies this`calls
      ensures loc == location(name)
      ensures calls == old(calls) + [GlCall.GetUniformLocation(program, name)]
    {
      loc := location(name);
      calls := calls + [GlCall.GetUniformLocation(program, name)];
    }

    method GetAttribLocation(program: int, name: string) returns (loc: int)
      requires Valid()
      modifies this`calls
      ensures loc == location(name)
      ensures calls == old(calls) + [GlCall.GetAttribLocation(program, name)]
    {
      loc := location(name);
      calls := calls + [GlCall.GetAttribLocation(program, name)];
    }

    /** Writes `n` fresh texture names into `textures` from `offset` on. */
    method GenTextures(n: nat, textures: array<int>, offset: nat)
      requires Valid() && offset + n <= textures.Length
      modifies this`calls, this`nextName, textures
      ensures Valid()
      ensures nextName == old(nextName) + n
      ensures forall k :: 0 <= k < textures.Length ==>
                textures[k] == if offset <= k < offset + n then old(nextName) + k - offset else old(textures[k])
      ensures calls == old(calls) + [GlCall.GenTextures(textures[offset..offset + n])]
    {
      forall k | offset <= k < offset + n {
        textures[k] := nextName + k - offset;
      }
      nextName := nextName + n;
      calls := calls + [GlCall.GenTextures(textures[offset..offset + n])];
    }

    method DeleteTextures(n: nat, textures: array<int>, offset: nat)
      requires Valid() && offset + n <= textures.Length
      modifies this`calls
      ensures calls == old(calls) + [GlCall.DeleteTextures(textures[offset..offset + n])]
    {
      calls := calls + [GlCall.DeleteTextures(textures[offset..offset + n])];
    }
  }

  /** How `initialize` ends: normally, or by throwing because a shader did not compile. */
  datatype InitOutcome = Initialized | CompileFailed(kind: ShaderKind)

  /** The outcome of `initialize`: compile failures are only detected in debug builds, vertex shader first. */
  function ExpectedOutcome(debug: bool, compiles: ShaderKind -> bool): InitOutcome {
    if debug && !compiles(VertexShaderKind) then CompileFailed(VertexShaderKind)
    else if debug && !compiles(FragmentShaderKind) then CompileFailed(FragmentShaderKind)
    else Initialized
  }

  /** The calls `loadShader` makes for a shader of `kind` named `shader`. */
  function LoadShaderCalls(kind: ShaderKind, shader: int): seq<GlCall> {
    [CreateShader(kind, shader), ShaderSource(shader, kind), CompileShader(shader)]
  }

  /** The calls of a compile check that passes: one status query in debug builds, none otherwise. */
  function CheckCalls(debug: bool, shader: int): seq<GlCall> {
    if debug then [GetCompileStatus(shader)] else []
  }

  /** The calls of a compile check that fails: the status query and the info-log query it throws after. */
  function FailedCheckCalls(shader: int, program: int): seq<GlCall> {
    [GetCompileStatus(shader), GetShaderInfoLog(program)]
  }

  /** Names of the shader variables the renderer looks up. */
  const ScreenUniform: string := "uScreen"
  const PositionAttribute: string := "vPosition"
  const CoordinateAttribute: string := "vCoordinate"
  const TextureUniform: string := "vTexture"

  /** The calls that look up the handles of the program's uniforms and attributes. */
  function HandleCalls(program: int): seq<GlCall> {
    [ GetUniformLocation(program, ScreenUniform), GetAttribLocation(program, PositionAttribute),
      GetAttribLocation(program, CoordinateAttribute), GetUniformLocation(program, TextureUniform) ]
  }

  /** The calls that build and link the program from the two shaders and look up its handles. */
  function ProgramCalls(program: int, vertexShader: int, fragmentShader: int): seq<GlCall> {
    [CreateProgram(program), AttachShader(program, vertexShader), AttachShader(program, fragmentShader),
     LinkProgram(program)] + HandleCalls(program)
  }

  /** The calls of an `initialize` that completes, up to the creation of the program. */
  function ShaderCalls(debug: bool, vertexShader: int, fragmentShader: int): seq<GlCall> {
    [GetMaxVertexAttribs]
      + (LoadShaderCalls(VertexShaderKind, vertexShader) + CheckCalls(debug, vertexShader))
      + (LoadShaderCalls(FragmentShaderKind, fragmentShader) + CheckCalls(debug, fragmentShader))
  }

  /** The calls of an `initialize` that completes. */
  function InitCalls(debug: bool, vertexShader: int, fragmentShader: int, program: int): seq<GlCall> {
    ShaderCalls(debug, vertexShader, fragmentShader) + ProgramCalls(program, vertexShader, fragmentShader)
  }

  /** The calls of `createTexture`: a recycled bitmap is skipped. */
  function CreateTextureCalls(bitmapRecycled: bool, texture: int): seq<GlCall> {
    if bitmapRecycled then []
    else
      [ GenTextures([texture]), BindTexture2D(texture),
        SetTexParameter(MinFilterNearest), SetTexParameter(MagFilterLinear),
        SetTexParameter(WrapSClampToEdge), SetTexParameter(WrapTClampToEdge),
        TexImage2D ]
  }

  /**
   * The calls a `render` with a program makes before `createTexture`,
   * uploading `matrix`; the count is the matrix buffer's length over the
   * length of one matrix.
   */
  function RenderSetupCalls(program: int, screenMatrixHandle: int, matrix: seq<real>): seq<GlCall> {
    [UseProgram(program), UniformMatrix4fv(screenMatrixHandle, |matrix| / MatrixFloats, false, matrix)]
  }

  /**
   * The calls a `render` with a program makes after `createTexture`,
   * drawing with `boundTexture` and reading the vertex positions from
   * `positions` and the texture coordinates from `TexturePositionData`.
   */
  function DrawCalls(boundTexture: int, textureHandle: int, vertexPositionHandle: int, positions: seq<int>,
                     texturePositionHandle: int): seq<GlCall> {
    [ ActiveTexture(0), BindTexture2D(boundTexture), Uniform1i(textureHandle, 0),
      ClearColor(1.0, 1.0, 1.0, 1.0), BlendSrcAlphaOneMinusSrcAlpha, EnableBlend,
      EnableVertexAttribArray(vertexPositionHandle),
      VertexAttribPointer(vertexPositionHandle, CoordsPerVertex, VertexStride, positions),
      EnableVertexAttribArray(texturePositionHandle),
      VertexAttribPointer(texturePositionHandle, CoordsPerVertex, VertexStride, TexturePositionData),
      DrawTriangleStrip(0, VertexCount),
      DisableVertexAttribArray(vertexPositionHandle), BindArrayBuffer(0), UseProgram(0) ]
  }

  /** The calls a `render` with a program makes, given the texture it generates and the one it binds. */
  function RenderCalls(program: int, screenMatrixHandle: int, matrix: seq<real>, textureHandle: int,
                       vertexPositionHandle: int, positions: seq<int>, texturePositionHandle: int,
                       bitmapRecycled: bool, newTexture: int, boundTexture: int): seq<GlCall> {
    RenderSetupCalls(program, screenMatrixHandle, matrix)
      + CreateTextureCalls(bitmapRecycled, newTexture)
      + DrawCalls(boundTexture, textureHandle, vertexPositionHandle, positions, texturePositionHandle)
  }

  /** The calls a `deinitialize` with a program makes. */
  function DeinitCalls(program: int, vertexShader: int, fragmentShader: int, texture: int,
                       vertexPositionHandle: int): seq<GlCall> {
    [ DisableVertexAttribArray(vertexPositionHandle),
      DetachShader(program, vertexShader), DetachShader(program, fragmentShader),
      DeleteShader(vertexShader), DeleteShader(fragmentShader),
      DeleteTextures([texture]), DeleteProgram(program) ]
  }

  lemma AppendAssoc(a: seq<GlCall>, b: seq<GlCall>, c: seq<GlCall>)
    ensures (a + b) + c == a + (b + c)
  {
  }

  /** The draw part of a render creates and deletes nothing, draws one strip of four vertices, and unbinds at the end. */
  lemma DrawCallsShape(boundTexture: int, textureHandle: int, vertexPositionHandle: int, positions: seq<int>,
                       texturePositionHandle: int)
    ensures var cs := DrawCalls(boundTexture, textureHandle, vertexPositionHandle, positions, texturePositionHandle);
            && |cs| == 14
            && cs[0] == ActiveTexture(0) && cs[1] == BindTexture2D(boundTexture)
            && cs[10] == DrawTriangleStrip(0, 4)
            && cs[7] == VertexAttribPointer(vertexPositionHandle, 2, 8, positions)
            && cs[9] == VertexAttribPointer(texturePositionHandle, 2, 8, TexturePositionData)
            && cs[12..] == [BindArrayBuffer(0), UseProgram(0)]
            && forall i :: 0 <= i < |cs| ==> !CreatesOrDeletes(cs[i])
  {
  }

  /**
   * A render of the widget's geometry uploads the one screen matrix of a
   * `width` by `height` surface, binds the given texture to unit 0, reads
   * the quad's vertex positions and its texture coordinates two at a time
   * with an 8-byte stride, draws them as one strip of four vertices, and
   * ends by unbinding the array buffer and the program.
   */
  lemma {:induction false} RenderCallsShape(program: int, screenMatrixHandle: int, textureHandle: int,
                                            vertexPositionHandle: int, texturePositionHandle: int,
                                            width: int, height: int, bitmapWidth: int, bitmapHeight: int,
                                            bitmapRecycled: bool, newTexture: int, boundTexture: int)
    requires width != 0 && height != 0
    ensures var cs := RenderCalls(program, screenMatrixHandle, ScreenMatrix(width, height), textureHandle,
                                  vertexPositionHandle, VertexPositionData(height, bitmapWidth, bitmapHeight),
                                  texturePositionHandle, bitmapRecycled, newTexture, boundTexture);
            && cs[0] == UseProgram(program)
            && cs[1] == UniformMatrix4fv(screenMatrixHandle, 1, false, ScreenMatrix(width, height))
            && cs[|cs| - 2..] == [BindArrayBuffer(0), UseProgram(0)]
            && ActiveTexture(0) in cs && BindTexture2D(boundTexture) in cs
            && DrawTriangleStrip(0, 4) in cs
            && VertexAttribPointer(vertexPositionHandle, 2, 8, VertexPositionData(height, bitmapWidth, bitmapHeight)) in cs
            && VertexAttribPointer(texturePositionHandle, 2, 8, TexturePositionData) in cs
  {
    var matrix := ScreenMatrix(width, height);
    var positions := VertexPositionData(height, bitmapWidth, bitmapHeight);
    var head := RenderSetupCalls(program, screenMatrixHandle, matrix);
    var tex := CreateTextureCalls(bitmapRecycled, newTexture);
    var draw := DrawCalls(boundTexture, textureHandle, vertexPositionHandle, positions, texturePositionHandle);
    var cs := head + tex + draw;
    DrawCallsShape(boundTexture, textureHandle, vertexPositionHandle, positions, texturePositionHandle);
    var n := |head| + |tex|;
    assert cs[n..] == draw;
    assert cs[n + 10] == draw[10] && cs[n + 7] == draw[7] && cs[n + 9] == draw[9];
    assert cs[n] == draw[0] && cs[n + 1] == draw[1];
    assert cs[|cs| - 2..] == draw[12..];
  }

  /** `createTexture` generates the one texture it is given, unless the bitmap is recycled, and creates nothing else. */
  lemma CreateTextureCallsShape(bitmapRecycled: bool, texture: int)
    ensures var cs := CreateTextureCalls(bitmapRecycled, texture);
            && (GenTextures([texture]) in cs <==> !bitmapRecycled)
            && forall c :: c in cs && CreatesOrDeletes(c) ==> c == GenTextures([texture])
  {
    var cs := CreateTextureCalls(bitmapRecycled, texture);
    if !bitmapRecycled {
      assert cs[0] == GenTextures([texture]);
      forall c | c in cs && CreatesOrDeletes(c) ensures c == GenTextures([texture]) {
        var i :| 0 <= i < |cs| && cs[i] == c;
      }
    }
  }

  /**
   * The only object a render creates is the texture it generates for a
   * bitmap that is not recycled, and it deletes nothing.
   */
  lemma {:induction false} RenderCreatesOnlyTexture(program: int, screenMatrixHandle: int, matrix: seq<real>,
                                                    textureHandle: int, vertexPositionHandle: int, positions: seq<int>,
                                                    texturePositionHandle: int,
                                                    bitmapRecycled: bool, newTexture: int, boundTexture: int)
    ensures var cs := RenderCalls(program, screenMatrixHandle, matrix, textureHandle, vertexPositionHandle,
                                  positions, texturePositionHandle, bitmapRecycled, newTexture, boundTexture);
            && (GenTextures([newTexture]) in cs <==> !bitmapRecycled)
            && (forall c :: c in cs && CreatesOrDeletes(c) ==> c == GenTextures([newTexture]))
            && forall names :: DeleteTextures(names) !in cs
  {
    var head := RenderSetupCalls(program, screenMatrixHandle, matrix);
    var tex := CreateTextureCalls(bitmapRecycled, newTexture);
    var draw := DrawCalls(boundTexture, textureHandle, vertexPositionHandle, positions, texturePositionHandle);
    DrawCallsShape(boundTexture, textureHandle, vertexPositionHandle, positions, texturePositionHandle);
    CreateTextureCallsShape(bitmapRecycled, newTexture);
    assert forall c :: c in head ==> !CreatesOrDeletes(c);
    assert forall c :: c in draw ==> !CreatesOrDeletes(c) by {
      forall c | c in draw ensures !CreatesOrDeletes(c) {
        var i :| 0 <= i < |draw| && draw[i] == c;
      }
    }
    forall names ensures DeleteTextures(names) !in head + tex + draw {
      assert CreatesOrDeletes(DeleteTextures(names));
    }
  }

  /**
   * `deinitialize` releases everything `initialize` created: both shaders
   * are detached from the program and deleted, then the texture and the
   * program are deleted, in that order.
   */
  lemma DeinitReleasesInOrder(program: int, vertexShader: int, fragmentShader: int, texture: int,
                              vertexPositionHandle: int)
    ensures var cs := DeinitCalls(program, vertexShader, fragmentShader, texture, vertexPositionHandle);
            && |cs| == 7
            && cs[0] == DisableVertexAttribArray(vertexPositionHandle)
            && (forall c :: c in cs ==> c == cs[0] || CreatesOrDeletes(c))
            && cs[|cs| - 1] == DeleteProgram(program)
            && DeleteTextures([texture]) in cs
            && (forall c :: c in cs && c.DeleteTextures? ==> c == DeleteTextures([texture]))
            && forall shader :: shader == vertexShader || shader == fragmentShader ==>
                 exists i, j :: 0 <= i < j < |cs| && cs[i] == DetachShader(program, shader) && cs[j] == DeleteShader(shader)
  {
    var cs := DeinitCalls(program, vertexShader, fragmentShader, texture, vertexPositionHandle);
    assert cs[1] == DetachShader(program, vertexShader) && cs[3] == DeleteShader(vertexShader);
    assert cs[2] == DetachShader(program, fragmentShader) && cs[4] == DeleteShader(fragmentShader);
  }

  /** Where the shaders are created in the calls of an `initialize` that completes, before the program. */
  lemma ShaderCallsLayout(debug: bool, vertexShader: int, fragmentShader: int)
    ensures var cs := ShaderCalls(debug, vertexShader, fragmentShader);
            var c := if debug then 1 else 0;
            && |cs| == 7 + 2 * c
            && cs[0] == GetMaxVertexAttribs
            && cs[1] == CreateShader(VertexShaderKind, vertexShader)
            && cs[4 + c] == CreateShader(FragmentShaderKind, fragmentShader)
  {
    var v := LoadShaderCalls(VertexShaderKind, vertexShader) + CheckCalls(debug, vertexShader);
    var f := LoadShaderCalls(FragmentShaderKind, fragmentShader) + CheckCalls(debug, fragmentShader);
    assert v[0] == CreateShader(VertexShaderKind, vertexShader);
    assert f[0] == CreateShader(FragmentShaderKind, fragmentShader);
    assert ([GetMaxVertexAttribs] + v + f)[1 + |v|] == f[0];
  }

  /**
   * In `cs` the vertex shader is created at `i`, the fragment shader at
   * `j`, and from `k` on the program is created, given both shaders and linked.
   */
  predicate BuildsProgramAt(cs: seq<GlCall>, vertexShader: int, fragmentShader: int, program: int,
                            i: int, j: int, k: int) {
    && 0 < i < j < k && k + 3 < |cs|
    && cs[i] == CreateShader(VertexShaderKind, vertexShader)
    && cs[j] == CreateShader(FragmentShaderKind, fragmentShader)
    && cs[k] == CreateProgram(program)
    && cs[k + 1] == AttachShader(program, vertexShader)
    && cs[k + 2] == AttachShader(program, fragmentShader)
    && cs[k + 3] == LinkProgram(program)
  }

  /**
   * An `initialize` run to completion first asks for the attribute limit,
   * creates the vertex shader and then the fragment shader, and only after
   * both creates the program, attaches both shaders to it and links it.
   */
  lemma {:induction false} InitCreatesProgram(debug: bool, vertexShader: int, fragmentShader: int, program: int)
    ensures InitCalls(debug, vertexShader, fragmentShader, program)[0] == GetMaxVertexAttribs
    ensures exists i, j, k :: BuildsProgramAt(InitCalls(debug, vertexShader, fragmentShader, program),
                                              vertexShader, fragmentShader, program, i, j, k)
  {
    var pre := ShaderCalls(debug, vertexShader, fragmentShader);
    var post := ProgramCalls(program, vertexShader, fragmentShader);
    var cs := InitCalls(debug, vertexShader, fragmentShader, program);
    assert cs == pre + post;
    ShaderCallsLayout(debug, vertexShader, fragmentShader);
    var c := if debug then 1 else 0;
    var k := |pre|;
    assert cs[1] == pre[1] && cs[4 + c] == pre[4 + c];
    assert cs[k] == post[0] && cs[k + 1] == post[1] && cs[k + 2] == post[2] && cs[k + 3] == post[3];
    assert BuildsProgramAt(cs, vertexShader, fragmentShader, program, 1, 4 + c, k);
  }

  /** The widget renderer for one bitmap on a `width` by `height` surface. */
  class BaseWidgetRenderer {
    const bitmapWidth: int
    const bitmapHeight: int
    const width: int
    const height: int
    /** Whether this is a debug build, where shader compile failures throw. */
    const debug: bool
    const textures: array<int>

    var program: int
    var vertexPositionHandle: int
    var texturePositionHandle: int
    var textureHandle: int
    var screenMatrixHandle: int
    var vertexShader: int
    var fragmentShader: int

    /** One texture name, and a surface whose screen matrix is defined. */
    predicate Valid() {
      textures.Length == 1 && width != 0 && height != 0
    }

    constructor(bitmapWidth: int, bitmapHeight: int, width: int, height: int, debug: bool)
      requires width != 0 && height != 0
      ensures Valid() && fresh(textures) && textures[0] == 0
      ensures this.bitmapWidth == bitmapWidth && this.bitmapHeight == bitmapHeight
      ensures this.width == width && this.height == height && this.debug == debug
      ensures program == 0 && vertexShader == 0 && fragmentShader == 0
      ensures vertexPositionHandle == 0 && texturePositionHandle == 0
      ensures textureHandle == 0 && screenMatrixHandle == 0
    {
      this.bitmapWidth := bitmapWidth;
      this.bitmapHeight := bitmapHeight;
      this.width := width;
      this.height := height;
      this.debug := debug;
      textures := new int[1] [0];
      program := 0;
      vertexPositionHandle := 0;
      texturePositionHandle := 0;
      textureHandle := 0;
      screenMatrixHandle := 0;
      vertexShader := 0;
      fragmentShader := 0;
    }

    /** `loadShader` followed by `checkCompileStatus`; `ok` is false when the check throws. */
    method LoadCheckedShader(gl: GlContext, kind: ShaderKind) returns (shader: int, ok: bool)
      requires gl.Valid()
      modifies gl
      ensures gl.Valid()
      ensures shader == old(gl.nextName) && gl.nextName == old(gl.nextName) + 1
      ensures gl.shaderKinds == old(gl.shaderKinds)[shader := kind]
      ensures ok <==> !debug || gl.compiles(kind)
      ensures gl.calls == old(gl.calls) + (LoadShaderCalls(kind, shader)
                          + (if ok then CheckCalls(debug, shader) else FailedCheckCalls(shader, program)))
    {
      shader := gl.CreateShader(kind);
      gl.Issue([ShaderSource(shader, kind), CompileShader(shader)]);
      AppendAssoc(old(gl.calls), [GlCall.CreateShader(kind, shader)], [ShaderSource(shader, kind), CompileShader(shader)]);
      ok := true;
      if debug {
        var compiled := gl.GetCompileStatus(shader);
        if !compiled {
          gl.Issue([GetShaderInfoLog(program)]);
          ok := false;
        }
      }
      AppendAssoc(old(gl.calls), LoadShaderCalls(kind, shader),
                  if ok then CheckCalls(debug, shader) else FailedCheckCalls(shader, program));
    }

    /**
     * Compiles both shaders, vertex first, then creates the program,
     * attaches both and links it, and looks up the four handles. In a debug
     * build a shader that does not compile throws, leaving the field it was
     * meant for and the program as they were and creating no program.
     */
    method Initialize(gl: GlContext) returns (outcome: InitOutcome)
      requires Valid() && gl.Valid()
      modifies this`program, this`vertexShader, this`fragmentShader, this`screenMatrixHandle,
               this`vertexPositionHandle, this`texturePositionHandle, this`textureHandle, gl
      ensures gl.Valid()
      ensures outcome == ExpectedOutcome(debug, gl.compiles)
      ensures outcome == Initialized ==>
                && vertexShader == old(gl.nextName) && fragmentShader == old(gl.nextName) + 1
                && program == old(gl.nextName) + 2 && program != 0 && gl.nextName == program + 1
                && screenMatrixHandle == gl.location(ScreenUniform) && vertexPositionHandle == gl.location(PositionAttribute)
                && texturePositionHandle == gl.location(CoordinateAttribute) && textureHandle == gl.location(TextureUniform)
                && gl.calls == old(gl.calls) + InitCalls(debug, vertexShader, fragmentShader, program)
      ensures outcome != Initialized ==>
                && screenMatrixHandle == old(screenMatrixHandle) && vertexPositionHandle == old(vertexPositionHandle)
                && texturePositionHandle == old(texturePositionHandle) && textureHandle == old(textureHandle)
      ensures outcome == CompileFailed(VertexShaderKind) ==>
                && program == old(program) && vertexShader == old(vertexShader)
                && fragmentShader == old(fragmentShader) && gl.nextName == old(gl.nextName) + 1
                && gl.calls == old(gl.calls) + ([GetMaxVertexAttribs]
                                 + (LoadShaderCalls(VertexShaderKind, old(gl.nextName))
                                    + FailedCheckCalls(old(gl.nextName), program)))
      ensures outcome == CompileFailed(FragmentShaderKind) ==>
                && program == old(program) && vertexShader == old(gl.nextName)
                && fragmentShader == old(fragmentShader) && gl.nextName == old(gl.nextName) + 2
                && gl.calls == old(gl.calls) + ([GetMaxVertexAttribs]
                                 + (LoadShaderCalls(VertexShaderKind, vertexShader) + CheckCalls(debug, vertexShader))
                                 + (LoadShaderCalls(FragmentShaderKind, vertexShader + 1)
                                    + FailedCheckCalls(vertexShader + 1, program)))
    {
      gl.Issue([GetMaxVertexAttribs]);
      ghost var acc := [GetMaxVertexAttribs];
      ghost var before := gl.calls;
      var shader, ok := LoadCheckedShader(gl, VertexShaderKind);
      AppendAssoc(old(gl.calls), acc, gl.calls[|before|..]);
      if !ok {
        return CompileFailed(VertexShaderKind);
      }
      vertexShader := shader;
      acc := acc + gl.calls[|before|..];
      before := gl.calls;
      shader, ok := LoadCheckedShader(gl, FragmentShaderKind);
      AppendAssoc(old(gl.calls), acc, gl.calls[|before|..]);
      if !ok {
        return CompileFailed(FragmentShaderKind);
      }
      fragmentShader := shader;
      ghost var shaders := gl.calls;
      assert shaders == old(gl.calls) + ShaderCalls(debug, vertexShader, fragmentShader);
      BuildProgram(gl);
      AppendAssoc(old(gl.calls), ShaderCalls(debug, vertexShader, fragmentShader),
                  ProgramCalls(program, vertexShader, fragmentShader));
      outcome := Initialized;
    }

    /** Creates the program, attaches both shaders, links it and looks up the four handles. */
    method BuildProgram(gl: GlContext)
      requires gl.Valid()
      modifies this`program, this`screenMatrixHandle, this`vertexPositionHandle, this`texturePositionHandle,
               this`textureHandle, gl`calls, gl`nextName
      ensures gl.Valid()
      ensures program == old(gl.nextName) && gl.nextName == program + 1
      ensures screenMatrixHandle == gl.location(ScreenUniform) && vertexPositionHandle == gl.location(PositionAttribute)
      ensures texturePositionHandle == gl.location(CoordinateAttribute) && textureHandle == gl.location(TextureUniform)
      ensures gl.calls == old(gl.calls) + ProgramCalls(program, vertexShader, fragmentShader)
    {
      var created := gl.CreateProgram();
      gl.Issue([AttachShader(created, vertexShader), AttachShader(created, fragmentShader), LinkProgram(created)]);
      program := created;
      ghost var linked := gl.calls;
      assert linked == old(gl.calls) + [GlCall.CreateProgram(program), AttachShader(program, vertexShader),
                                        AttachShader(program, fragmentShader), LinkProgram(program)];
      LookUpHandles(gl);
      AppendAssoc(old(gl.calls), [GlCall.CreateProgram(program), AttachShader(program, vertexShader),
                                  AttachShader(program, fragmentShader), LinkProgram(program)], HandleCalls(program));
    }

    /** Looks up the handles of the matrix and texture uniforms and of the two vertex attributes. */
    method LookUpHandles(gl: GlContext)
      requires gl.Valid()
      modifies this`screenMatrixHandle, this`vertexPositionHandle, this`texturePositionHandle,
               this`textureHandle, gl`calls
      ensures screenMatrixHandle == gl.location(ScreenUniform) && vertexPositionHandle == gl.location(PositionAttribute)
      ensures texturePositionHandle == gl.location(CoordinateAttribute) && textureHandle == gl.location(TextureUniform)
      ensures gl.calls == old(gl.calls) + HandleCalls(program)
    {
      screenMatrixHandle := gl.GetUniformLocation(program, ScreenUniform);
      vertexPositionHandle := gl.GetAttribLocation(program, PositionAttribute);
      texturePositionHandle := gl.GetAttribLocation(program, CoordinateAttribute);
      textureHandle := gl.GetUniformLocation(program, TextureUniform);
      AppendAssoc(old(gl.calls), [GlCall.GetUniformLocation(program, ScreenUniform), GlCall.GetAttribLocation(program, PositionAttribute)],
                  [GlCall.GetAttribLocation(program, CoordinateAttribute), GlCall.GetUniformLocation(program, TextureUniform)]);
    }

    /** Generates a new texture into `textures[0]` and uploads the bitmap, unless it is recycled. */
    method CreateTexture(gl: GlContext, bitmapRecycled: bool)
      requires Valid() && gl.Valid()
      modifies gl`calls, gl`nextName, textures
      ensures gl.Valid()
      ensures textures[0] == if bitmapRecycled then old(textures[0]) else old(gl.nextName)
      ensures gl.nextName == if bitmapRecycled then old(gl.nextName) else old(gl.nextName) + 1
      ensures gl.calls == old(gl.calls) + CreateTextureCalls(bitmapRecycled, old(gl.nextName))
    {
      if !bitmapRecycled {
        gl.GenTextures(1, textures, 0);
        assert textures[0..1] == [textures[0]];
        gl.Issue([ BindTexture2D(textures[0]),
                   SetTexParameter(MinFilterNearest), SetTexParameter(MagFilterLinear),
                   SetTexParameter(WrapSClampToEdge), SetTexParameter(WrapTClampToEdge),
                   TexImage2D ]);
      }
    }

    /**
     * Draws the bitmap when there is a program, and makes no GL call at all
     * when there is none. The matrix uploaded is the screen matrix of the
     * surface and the positions drawn are the quad of the bitmap.
     */
    method Render(gl: GlContext, bitmapRecycled: bool)
      requires Valid() && gl.Valid()
      modifies gl`calls, gl`nextName, textures
      ensures gl.Valid()
      ensures old(program) == 0 ==> gl.calls == old(gl.calls) && gl.nextName == old(gl.nextName)
                                    && textures[0] == old(textures[0])
      ensures old(program) != 0 ==>
                && textures[0] == (if bitmapRecycled then old(textures[0]) else old(gl.nextName))
                && gl.nextName == (if bitmapRecycled then old(gl.nextName) else old(gl.nextName) + 1)
                && gl.calls == old(gl.calls)
                     + RenderCalls(program, screenMatrixHandle, ScreenMatrix(width, height), textureHandle,
                                   vertexPositionHandle, VertexPositionData(height, bitmapWidth, bitmapHeight),
                                   texturePositionHandle, bitmapRecycled, old(gl.nextName), textures[0])
    {
      if program != 0 {
        var screenMatrixData := ScreenMatrix(width, height);
        var vertexPositionData := VertexPositionData(height, bitmapWidth, bitmapHeight);
        gl.Issue([UseProgram(program),
                  UniformMatrix4fv(screenMatrixHandle, |screenMatrixData| / MatrixFloats, false, screenMatrixData)]);
        CreateTexture(gl, bitmapRecycled);
        gl.Issue([ ActiveTexture(0), BindTexture2D(textures[0]), Uniform1i(textureHandle, 0),
                   ClearColor(1.0, 1.0, 1.0, 1.0), BlendSrcAlphaOneMinusSrcAlpha, EnableBlend,
                   EnableVertexAttribArray(vertexPositionHandle),
                   VertexAttribPointer(vertexPositionHandle, CoordsPerVertex, VertexStride, vertexPositionData),
                   EnableVertexAttribArray(texturePositionHandle),
                   VertexAttribPointer(texturePositionHandle, CoordsPerVertex, VertexStride, TexturePositionData),
                   DrawTriangleStrip(0, VertexCount),
                   DisableVertexAttribArray(vertexPositionHandle), BindArrayBuffer(0), UseProgram(0) ]);
        ghost var setup := RenderSetupCalls(program, screenMatrixHandle, screenMatrixData);
        ghost var tex := CreateTextureCalls(bitmapRecycled, old(gl.nextName));
        ghost var draw := DrawCalls(textures[0], textureHandle, vertexPositionHandle, vertexPositionData,
                                    texturePositionHandle);
        AppendAssoc(old(gl.calls), setup, tex);
        AppendAssoc(old(gl.calls), setup + tex, draw);
      }
    }

    /** Forgets the program without releasing anything; it takes no GL context, so it makes no GL call. */
    method ContextLost()
      modifies this`program
      ensures program == 0
    {
      program := 0;
    }

    /** Releases the shaders, the texture and the program, if there is a program, and forgets it. */
    method Deinitialize(gl: GlContext)
      requires Valid() && gl.Valid()
      modifies this`program, gl`calls
      ensures program == 0
      ensures old(program) == 0 ==> gl.calls == old(gl.calls)
      ensures old(program) != 0 ==>
                gl.calls == old(gl.calls)
                  + DeinitCalls(old(program), vertexShader, fragmentShader, textures[0], vertexPositionHandle)
    {
      if program != 0 {
        gl.Issue([ DisableVertexAttribArray(vertexPositionHandle),
                   DetachShader(program, vertexShader), DetachShader(program, fragmentShader),
                   DeleteShader(vertexShader), DeleteShader(fragmentShader) ]);
        gl.DeleteTextures(textures.Length, textures, 0);
        assert textures[0..1] == [textures[0]];
        gl.Issue([DeleteProgram(program)]);
        program := 0;
      }
    }
  }

  /** A second `deinitialize` finds no program and makes no call. */
  method DeinitializeTwice(renderer: BaseWidgetRenderer, gl: GlContext)
    requires renderer.Valid() && gl.Valid()
    modifies renderer`program, gl`calls
    ensures renderer.program == 0
    ensures old(renderer.program) == 0 ==> gl.calls == old(gl.calls)
    ensures old(renderer.program) != 0 ==>
              gl.calls == old(gl.calls)
                + DeinitCalls(old(renderer.program), renderer.vertexShader, renderer.fragmentShader,
                              renderer.textures[0], renderer.vertexPositionHandle)
  {
    renderer.Deinitialize(gl);
    ghost var afterFirst := gl.calls;
    renderer.Deinitialize(gl);
    assert gl.calls == afterFirst;
  }

  /**
   * After a lost context neither the next `render` nor the next
   * `deinitialize` touches GL: they release none of the lost program's objects.
   */
  method RenderAfterContextLost(renderer: BaseWidgetRenderer, gl: GlContext, bitmapRecycled: bool)
    requires renderer.Valid() && gl.Valid()
    modifies renderer`program, gl`calls, gl`nextName, renderer.textures
    ensures renderer.program == 0
    ensures gl.calls == old(gl.calls) && gl.nextName == old(gl.nextName)
    ensures renderer.textures[0] == old(renderer.textures[0])
  {
    renderer.ContextLost();
    renderer.Render(gl, bitmapRecycled);
    renderer.Deinitialize(gl);
  }

  /** The one texture `deinitialize` deletes is the one named in `textures[0]`. */
  lemma DeinitDeletesOneTexture(program: int, vertexShader: int, fragmentShader: int, texture: int,
                                vertexPositionHandle: int)
    ensures var cs := DeinitCalls(program, vertexShader, fragmentShader, texture, vertexPositionHandle);
            && DeleteTextures([texture]) in cs
            && forall names :: DeleteTextures(names) in cs ==> names == [texture]
  {
    var cs := DeinitCalls(program, vertexShader, fragmentShader, texture, vertexPositionHandle);
    assert cs[5] == DeleteTextures([texture]);
  }

  /**
   * Each render with a fresh bitmap generates a new texture and keeps only
   * the newest name in `textures[0]`, so `deinitialize` deletes only the
   * last one: the texture of the first of two renders is never deleted.
   */
  lemma {:induction false} SecondRenderLeaksFirstTexture(program: int, screenMatrixHandle: int, matrix: seq<real>,
                                                        textureHandle: int, vertexPositionHandle: int,
                                                        positions: seq<int>, texturePositionHandle: int,
                                                        vertexShader: int, fragmentShader: int, first: int)
    ensures var cs := RenderCalls(program, screenMatrixHandle, matrix, textureHandle, vertexPositionHandle,
                                  positions, texturePositionHandle, false, first, first)
                    + RenderCalls(program, screenMatrixHandle, matrix, textureHandle, vertexPositionHandle,
                                  positions, texturePositionHandle, false, first + 1, first + 1)
                    + DeinitCalls(program, vertexShader, fragmentShader, first + 1, vertexPositionHandle);
            && GenTextures([first]) in cs && GenTextures([first + 1]) in cs
            && DeleteTextures([first + 1]) in cs
            && DeleteTextures([first]) !in cs
  {
    RenderCreatesOnlyTexture(program, screenMatrixHandle, matrix, textureHandle, vertexPositionHandle,
                             positions, texturePositionHandle, false, first, first);
    RenderCreatesOnlyTexture(program, screenMatrixHandle, matrix, textureHandle, vertexPositionHandle,
                             positions, texturePositionHandle, false, first + 1, first + 1);
    DeinitDeletesOneTexture(program, vertexShader, fragmentShader, first + 1, vertexPositionHandle);
    assert [first] != [first + 1];
  }

  /**
   * Two renders with fresh bitmaps followed by `deinitialize` issue the
   * calls of both renders, with consecutive texture names, and then those
   * of the release.
   */
  method RenderTwiceThenDeinitialize(renderer: BaseWidgetRenderer, gl: GlContext)
    requires renderer.Valid() && gl.Valid() && renderer.program != 0
    modifies renderer`program, gl`calls, gl`nextName, renderer.textures
    ensures renderer.program == 0 && renderer.textures[0] == old(gl.nextName) + 1
    ensures gl.calls == old(gl.calls)
              + RenderCalls(old(renderer.program), renderer.screenMatrixHandle,
                            ScreenMatrix(renderer.width, renderer.height), renderer.textureHandle,
                            renderer.vertexPositionHandle,
                            VertexPositionData(renderer.height, renderer.bitmapWidth, renderer.bitmapHeight),
                            renderer.texturePositionHandle, false, old(gl.nextName), old(gl.nextName))
              + RenderCalls(old(renderer.program), renderer.screenMatrixHandle,
                            ScreenMatrix(renderer.width, renderer.height), renderer.textureHandle,
                            renderer.vertexPositionHandle,
                            VertexPositionData(renderer.height, renderer.bitmapWidth, renderer.bitmapHeight),
                            renderer.texturePositionHandle, false, old(gl.nextName) + 1, old(gl.nextName) + 1)
              + DeinitCalls(old(renderer.program), renderer.vertexShader, renderer.fragmentShader,
                            old(gl.nextName) + 1, renderer.vertexPositionHandle)
  {
    renderer.Render(gl, false);
    renderer.Render(gl, false);
    renderer.Deinitialize(gl);
  }
}
