/** The binding manager of the WebGL 1 extension OES_vertex_array_object: it
    creates, binds and deletes vertex array objects, moves attribute state
    between the context and the bound VAO, keeps every buffer's reference set
    in step with the VAOs that store it, and answers VERTEX_ARRAY_BINDING_OES. */
module OESVertexArrayObjectExtension {
  import opened WebGLTypes
  import opened VaoReferences
  import opened WebGLContext

  /** Driver extensions any one of which lets the extension be offered. */
  const DriverExtensions: seq<string> :=
    ["GL_OES_vertex_array_object", "GL_ARB_vertex_array_object", "GL_APPLE_vertex_array_object"]

  /** Whether any of `names` is among the driver's extension strings. */
  function SupportsAny(names: seq<string>, driver: seq<string>): (r: bool)
    ensures r <==> exists i :: 0 <= i < |names| && names[i] in driver
  {
    if names == [] then false
    else if names[0] in driver then true
    else SupportsAny(names[1..], driver)
  }

  /** `is_supported`: the driver offers one of the three vertex-array-object extensions. */
  function IsSupported(driver: seq<string>): (r: bool)
    ensures r <==> ("GL_OES_vertex_array_object" in driver ||
                    "GL_ARB_vertex_array_object" in driver ||
                    "GL_APPLE_vertex_array_object" in driver)
  {
    assert DriverExtensions[0] == "GL_OES_vertex_array_object";
    assert DriverExtensions[1] == "GL_ARB_vertex_array_object";
    assert DriverExtensions[2] == "GL_APPLE_vertex_array_object";
    SupportsAny(DriverExtensions, driver)
  }

  /** The VAO `vao` refers to, as a frame: nothing when it is null. */
  function Footprint(vao: VertexArrayObject?): set<VertexArrayObject> {
    if vao == null then {} else {vao}
  }

  class OESVertexArrayObject {
    const ctx: RenderingContext
    var boundVao: VertexArrayObject?

    /** The bound VAO, if any, is not a deleted one. Bind and Delete of this
        manager keep it; a VAO deleted through another path is not excluded. */
    ghost predicate Valid()
      reads this, boundVao
    {
      boundVao != null ==> !boundVao.deleted
    }

    constructor (ctx: RenderingContext)
      ensures this.ctx == ctx && boundVao == null && Valid()
    {
      this.ctx := ctx;
      boundVao := null;
    }

    /** `get_current_binding`: the id of the bound VAO, or none. */
    function CurrentBinding(): Option<VaoId>
      reads this
    {
      if boundVao == null then None else Some(boundVao.id)
    }

    /** `IsVertexArrayOES`: a VAO counts only when it is live and has been bound
        at least once. */
    predicate IsVertexArrayOES(vao: VertexArrayObject?)
      reads vao
    {
      vao != null && !vao.deleted && vao.everBound
    }

    /** `CreateVertexArrayOES`, with the renderer's reply to `CreateVertexArray`
        passed in as `rendererReply`. */
    method CreateVertexArrayOES(rendererReply: Option<VaoId>) returns (vao: VertexArrayObject?)
      modifies ctx`log
      ensures ctx.log == old(ctx.log) + [Command(CreateVertexArray)]
      ensures vao == null <==> rendererReply == None
      ensures vao != null ==>
        && fresh(vao)
        && rendererReply == Some(vao.id)
        && !vao.deleted && !vao.everBound
        && vao.attribBuffers == map[] && vao.elementArrayBuffer == None
        && !IsVertexArrayOES(vao)
    {
      ctx.SendCommand(CreateVertexArray);
      match rendererReply
      case None =>
        vao := null;
      case Some(id) =>
        vao := new VertexArrayObject(id);
    }

    /** `DeleteVertexArrayOES`. */
    method DeleteVertexArrayOES(vao: VertexArrayObject?)
      modifies this`boundVao, Footprint(vao)`deleted, ctx`log, ctx`vaoReferences
      ensures old(Valid()) ==> Valid()
      // absent or already deleted: nothing happens
      ensures vao == null || old(vao.deleted) ==>
        && boundVao == old(boundVao) && CurrentBinding() == old(CurrentBinding())
        && ctx.log == old(ctx.log)
        && ctx.vaoReferences == old(ctx.vaoReferences)
        && (vao != null ==> vao.deleted)
      ensures vao != null && !old(vao.deleted) ==>
        // bound-ness is decided by id, not by object identity
        var wasBound := old(boundVao) != null && old(boundVao).id == vao.id;
        && boundVao == (if wasBound then null else old(boundVao))
        && CurrentBinding() == (if wasBound then None else old(CurrentBinding()))
        && ctx.log == old(ctx.log)
                      + (if wasBound then [Command(BindVertexArray(None))] else [])
                      + [Command(DeleteVertexArray(vao.id))]
        && ctx.vaoReferences == RemoveReferences(old(ctx.vaoReferences),
                                  StoredBuffers(vao.attribBuffers, vao.elementArrayBuffer), vao.id)
        && (forall b :: b in StoredBuffers(vao.attribBuffers, vao.elementArrayBuffer) ==>
              vao.id !in Refs(ctx.vaoReferences, b))
        && vao.deleted && !IsVertexArrayOES(vao)
    {
      if vao != null {
        if vao.deleted {
          return;
        }

        if boundVao != null {
          if boundVao.id == vao.id {
            boundVao := null;
            ctx.SendCommand(BindVertexArray(None));
          }
        }

        WithdrawReferences(vao);
        ctx.SendCommand(DeleteVertexArray(vao.id));
        vao.deleted := true;
      }
    }

    /** `BindVertexArrayOES`. */
    method BindVertexArrayOES(vao: VertexArrayObject?)
      modifies this`boundVao, Footprint(boundVao)`attribBuffers, Footprint(boundVao)`elementArrayBuffer,
               Footprint(vao)`everBound, ctx
      ensures old(Valid()) ==> Valid()
      // save phase: runs first, whatever the target
      ensures old(boundVao) != null ==>
        && old(boundVao).attribBuffers == old(ctx.attribBuffers)
        && old(boundVao).elementArrayBuffer == old(ctx.elementArrayBuffer)
        && ctx.vaoReferences == AddReferences(old(ctx.vaoReferences),
                                  StoredBuffers(old(ctx.attribBuffers), old(ctx.elementArrayBuffer)),
                                  old(boundVao).id)
        && (forall b :: b in StoredBuffers(old(boundVao).attribBuffers, old(boundVao).elementArrayBuffer) ==>
              old(boundVao).id in Refs(ctx.vaoReferences, b))
      ensures old(boundVao) == null ==> ctx.vaoReferences == old(ctx.vaoReferences)
      // a deleted target is refused after the save phase
      ensures vao != null && old(vao.deleted) ==>
        && ctx.log == old(ctx.log) + [Error(InvalidOperation)]
        && boundVao == old(boundVao) && CurrentBinding() == old(CurrentBinding())
        && vao.everBound == old(vao.everBound)
        && ctx.attribBuffers == old(ctx.attribBuffers)
        && ctx.elementArrayBuffer == old(ctx.elementArrayBuffer)
      // a live target is bound and its stored state restored, registering nothing
      ensures vao != null && !old(vao.deleted) ==>
        && ctx.log == old(ctx.log) + [Command(BindVertexArray(Some(vao.id)))]
        && boundVao == vao && CurrentBinding() == Some(vao.id)
        && vao.everBound && IsVertexArrayOES(vao)
        && (vao != old(boundVao) ==>
              vao.attribBuffers == old(vao.attribBuffers) &&
              vao.elementArrayBuffer == old(vao.elementArrayBuffer))
        && ctx.attribBuffers == vao.attribBuffers
        && ctx.elementArrayBuffer == vao.elementArrayBuffer
      // no target: the current attribute bindings are discarded, the element array is kept
      ensures vao == null ==>
        && ctx.log == old(ctx.log) + [Command(BindVertexArray(None))]
        && boundVao == null && CurrentBinding() == None
        && ctx.attribBuffers == map[]
        && ctx.elementArrayBuffer == old(ctx.elementArrayBuffer)
    {
      StoreCurrentBindings();

      if vao != null {
        if vao.deleted {
          ctx.RaiseError(InvalidOperation);
          return;
        }

        ctx.SendCommand(BindVertexArray(Some(vao.id)));
        vao.everBound := true;
        boundVao := vao;

        ctx.attribBuffers := vao.attribBuffers;
        ctx.elementArrayBuffer := vao.elementArrayBuffer;
      } else {
        ctx.SendCommand(BindVertexArray(None));
        boundVao := null;
        ctx.attribBuffers := map[];
      }
    }

    /** The save phase of `BindVertexArrayOES`: the bound VAO, if any, takes a
        copy of the context's current bindings and registers itself on every
        buffer it now stores. */
    method StoreCurrentBindings()
      modifies Footprint(boundVao)`attribBuffers, Footprint(boundVao)`elementArrayBuffer, ctx`vaoReferences
      ensures boundVao != null ==>
        && boundVao.attribBuffers == ctx.attribBuffers
        && boundVao.elementArrayBuffer == ctx.elementArrayBuffer
        && ctx.vaoReferences == AddReferences(old(ctx.vaoReferences),
                                  StoredBuffers(ctx.attribBuffers, ctx.elementArrayBuffer), boundVao.id)
      ensures boundVao == null ==> ctx.vaoReferences == old(ctx.vaoReferences)
    {
      if boundVao != null {
        var bound := boundVao;
        bound.attribBuffers := ctx.attribBuffers;
        AddAttribReferences(bound.attribBuffers, bound.id);

        var elementArray := ctx.elementArrayBuffer;
        if elementArray.Some? {
          var b := elementArray.value;
          AddReferencesStep(old(ctx.vaoReferences), BuffersIn(bound.attribBuffers, bound.attribBuffers.Keys), b, bound.id);
          ctx.AddVaoReference(b, bound.id);
        }
        bound.elementArrayBuffer := elementArray;
      }
    }

    /** The reference removal of `DeleteVertexArrayOES`: `vao` is withdrawn from
        the buffer of every attribute slot and from its element-array buffer. */
    method WithdrawReferences(vao: VertexArrayObject)
      modifies ctx`vaoReferences
      ensures ctx.vaoReferences == RemoveReferences(old(ctx.vaoReferences),
                                     StoredBuffers(vao.attribBuffers, vao.elementArrayBuffer), vao.id)
    {
      RemoveAttribReferences(vao.attribBuffers, vao.id);
      if vao.elementArrayBuffer.Some? {
        var b := vao.elementArrayBuffer.value;
        RemoveReferencesStep(old(ctx.vaoReferences), BuffersIn(vao.attribBuffers, vao.attribBuffers.Keys), b, vao.id);
        ctx.RemoveVaoReference(b, vao.id);
      }
    }

    /** Registers `v` on the buffer of every slot of `m`. */
    method AddAttribReferences(m: AttribBuffers, v: VaoId)
      modifies ctx`vaoReferences
      ensures ctx.vaoReferences == AddReferences(old(ctx.vaoReferences), BuffersIn(m, m.Keys), v)
    {
      var slots := m.Keys;
      ghost var visited: set<nat> := {};
      while slots != {}
        invariant slots !! visited && slots + visited == m.Keys
        invariant ctx.vaoReferences == AddReferences(old(ctx.vaoReferences), BuffersIn(m, visited), v)
        decreases slots
      {
        var s :| s in slots;
        BuffersInStep(m, visited, s);
        if m[s].buffer.Some? {
          var b := m[s].buffer.value;
          assert BuffersIn(m, visited + {s}) == BuffersIn(m, visited) + {b};
          AddReferencesStep(old(ctx.vaoReferences), BuffersIn(m, visited), b, v);
          ctx.AddVaoReference(b, v);
        } else {
          assert BuffersIn(m, visited + {s}) == BuffersIn(m, visited);
        }
        slots, visited := slots - {s}, visited + {s};
      }
    }

    /** Withdraws `v` from the buffer of every slot of `m`. */
    method RemoveAttribReferences(m: AttribBuffers, v: VaoId)
      modifies ctx`vaoReferences
      ensures ctx.vaoReferences == RemoveReferences(old(ctx.vaoReferences), BuffersIn(m, m.Keys), v)
    {
      var slots := m.Keys;
      ghost var visited: set<nat> := {};
      while slots != {}
        invariant slots !! visited && slots + visited == m.Keys
        invariant ctx.vaoReferences == RemoveReferences(old(ctx.vaoReferences), BuffersIn(m, visited), v)
        decreases slots
      {
        var s :| s in slots;
        BuffersInStep(m, visited, s);
        if m[s].buffer.Some? {
          var b := m[s].buffer.value;
          assert BuffersIn(m, visited + {s}) == BuffersIn(m, visited) + {b};
          RemoveReferencesStep(old(ctx.vaoReferences), BuffersIn(m, visited), b, v);
          ctx.RemoveVaoReference(b, v);
        } else {
          assert BuffersIn(m, visited + {s}) == BuffersIn(m, visited);
        }
        slots, visited := slots - {s}, visited + {s};
      }
    }
  }

  /** The VERTEX_ARRAY_BINDING_OES query handler: the bound VAO's id, none when
      nothing is bound, and InvalidOperation when the extension's instance is
      not on the context. */
  function QueryVertexArrayBinding(ext: OESVertexArrayObject?): (r: Result<Option<VaoId>, WebGLError>)
    reads ext
    ensures r == Failure(InvalidOperation) <==> ext == null
    ensures ext != null && ext.boundVao == null ==> r == Success(None)
    ensures ext != null && ext.boundVao != null ==> r == Success(Some(ext.boundVao.id))
  {
    if ext == null then Failure(InvalidOperation) else Success(ext.CurrentBinding())
  }
}
