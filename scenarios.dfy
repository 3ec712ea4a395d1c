/** Client code of the extension: what a page can rely on from the contracts
    of `OESVertexArrayObject` alone. Each scenario starts from a fresh context
    unless it says otherwise. */
module Scenarios {
  import opened WebGLTypes
  import opened VaoReferences
  import opened WebGLContext
  import opened OESVertexArrayObjectExtension

  /** Whatever the starting state: bind `v1`, point `slot` at `binding`, bind
      `v2`, bind `v1` again, and `slot` holds `binding` once more. */
  method RoundTrip(ext: OESVertexArrayObject, v1: VertexArrayObject, v2: VertexArrayObject,
                   slot: nat, binding: AttribBinding)
    requires !v1.deleted && !v2.deleted
    modifies ext, ext.ctx, Footprint(ext.boundVao), v1, v2
    ensures ext.boundVao == v1
    ensures slot in ext.ctx.attribBuffers && ext.ctx.attribBuffers[slot] == binding
  {
    ext.BindVertexArrayOES(v1);
    ext.ctx.SetAttribBuffer(slot, binding);
    ext.BindVertexArrayOES(v2);
    ext.BindVertexArrayOES(v1);
  }

  /** Whatever the starting state: the VERTEX_ARRAY_BINDING_OES query reports
      the VAO a bind installs, none after unbinding, and none after deleting
      the bound VAO; a refused bind of a deleted VAO leaves the answer as it was. */
  method QueryFollowsBinding(ext: OESVertexArrayObject, v: VertexArrayObject, gone: VertexArrayObject)
    returns (afterBind: Result<Option<VaoId>, WebGLError>, afterRefused: Result<Option<VaoId>, WebGLError>,
             afterUnbind: Result<Option<VaoId>, WebGLError>, afterDelete: Result<Option<VaoId>, WebGLError>)
    requires !v.deleted && gone.deleted
    modifies ext, ext.ctx, Footprint(ext.boundVao), v, gone
    ensures afterBind == Success(Some(v.id)) && afterRefused == Success(Some(v.id))
    ensures afterUnbind == Success(None) && afterDelete == Success(None)
  {
    ext.BindVertexArrayOES(v);
    afterBind := QueryVertexArrayBinding(ext);
    ext.BindVertexArrayOES(gone);
    afterRefused := QueryVertexArrayBinding(ext);
    ext.BindVertexArrayOES(null);
    afterUnbind := QueryVertexArrayBinding(ext);
    ext.BindVertexArrayOES(v);
    ext.DeleteVertexArrayOES(v);
    afterDelete := QueryVertexArrayBinding(ext);
  }

  /** Create a VAO with id 1, bind it, attach buffer 42 to slot 0, unbind, bind
      again: the unbind registers the VAO on buffer 42, the second bind
      restores slot 0, and the renderer sees exactly these commands. */
  method BindStoreRestore(d: AttribDescriptor)
    returns (log: seq<Event>, neverBoundIsVao: bool, refsOf42: set<VaoId>, slot0: AttribBinding)
    ensures log == [Command(CreateVertexArray), Command(BindVertexArray(Some(1))),
                    Command(BindVertexArray(None)), Command(BindVertexArray(Some(1)))]
    ensures !neverBoundIsVao
    ensures refsOf42 == {1}
    ensures slot0 == AttribBinding(d, Some(42))
  {
    var ctx := new RenderingContext();
    var ext := new OESVertexArrayObject(ctx);
    var v := ext.CreateVertexArrayOES(Some(1));
    neverBoundIsVao := ext.IsVertexArrayOES(v);
    ext.BindVertexArrayOES(v);
    ctx.SetAttribBuffer(0, AttribBinding(d, Some(42)));
    ext.BindVertexArrayOES(null);
    ext.BindVertexArrayOES(v);
    log, refsOf42, slot0 := ctx.log, Refs(ctx.vaoReferences, 42), ctx.attribBuffers[0];
  }

  /** Deleting the bound VAO unbinds it first, deleting it again sends nothing. */
  method DeleteBoundTwice() returns (log: seq<Event>, binding: Option<VaoId>, isVao: bool)
    ensures log == [Command(CreateVertexArray), Command(BindVertexArray(Some(7))),
                    Command(BindVertexArray(None)), Command(DeleteVertexArray(7))]
    ensures binding == None
    ensures !isVao
  {
    var ctx := new RenderingContext();
    var ext := new OESVertexArrayObject(ctx);
    var v := ext.CreateVertexArrayOES(Some(7));
    ext.BindVertexArrayOES(v);
    ext.DeleteVertexArrayOES(v);
    ext.DeleteVertexArrayOES(v);
    log, binding, isVao := ctx.log, ext.CurrentBinding(), ext.IsVertexArrayOES(v);
  }

  /** A renderer that cannot allocate yields no VAO, and deleting or querying
      the absent VAO does nothing. */
  method CreateFails() returns (created: bool, log: seq<Event>, isVao: bool)
    ensures !created && !isVao
    ensures log == [Command(CreateVertexArray)]
  {
    var ctx := new RenderingContext();
    var ext := new OESVertexArrayObject(ctx);
    var v := ext.CreateVertexArrayOES(None);
    ext.DeleteVertexArrayOES(v);
    created, log, isVao := v != null, ctx.log, ext.IsVertexArrayOES(v);
  }

  /** Binding a deleted VAO raises InvalidOperation and sends no bind command,
      but the VAO that was bound has already stored the current state and
      registered on its buffer, and stays bound. */
  method BindDeleted(d: AttribDescriptor)
    returns (log: seq<Event>, binding: Option<VaoId>, storedSlot0: AttribBinding,
             refsOf5: set<VaoId>, isVao: bool)
    ensures log == [Command(CreateVertexArray), Command(CreateVertexArray),
                    Command(BindVertexArray(Some(1))), Command(DeleteVertexArray(2)),
                    Error(InvalidOperation)]
    ensures binding == Some(1)
    ensures storedSlot0 == AttribBinding(d, Some(5))
    ensures refsOf5 == {1}
    ensures !isVao
  {
    var ctx := new RenderingContext();
    var ext := new OESVertexArrayObject(ctx);
    var v := ext.CreateVertexArrayOES(Some(1));
    var w := ext.CreateVertexArrayOES(Some(2));
    ext.BindVertexArrayOES(v);
    assert ctx.log == [Command(CreateVertexArray), Command(CreateVertexArray),
                       Command(BindVertexArray(Some(1)))];
    ctx.SetAttribBuffer(0, AttribBinding(d, Some(5)));
    ext.DeleteVertexArrayOES(w);
    assert ctx.vaoReferences == map[] && ext.boundVao == v;
    assert ctx.log == [Command(CreateVertexArray), Command(CreateVertexArray),
                       Command(BindVertexArray(Some(1))), Command(DeleteVertexArray(2))];
    assert 5 in StoredBuffers(ctx.attribBuffers, ctx.elementArrayBuffer) by {
      assert ctx.attribBuffers[0].buffer == Some(5);
    }
    ext.BindVertexArrayOES(w);
    log, binding, storedSlot0 := ctx.log, ext.CurrentBinding(), v.attribBuffers[0];
    refsOf5, isVao := Refs(ctx.vaoReferences, 5), ext.IsVertexArrayOES(w);
  }

  /** Bound-ness is decided by id: deleting one VAO unbinds a different VAO
      object that carries the same id, which itself stays live. */
  method DeleteBySharedId() returns (log: seq<Event>, binding: Option<VaoId>, otherIsVao: bool)
    ensures log == [Command(CreateVertexArray), Command(CreateVertexArray),
                    Command(BindVertexArray(Some(4))),
                    Command(BindVertexArray(None)), Command(DeleteVertexArray(4))]
    ensures binding == None
    ensures otherIsVao
  {
    var ctx := new RenderingContext();
    var ext := new OESVertexArrayObject(ctx);
    var u := ext.CreateVertexArrayOES(Some(4));
    var w := ext.CreateVertexArrayOES(Some(4));
    ext.BindVertexArrayOES(u);
    ext.DeleteVertexArrayOES(w);
    log, binding, otherIsVao := ctx.log, ext.CurrentBinding(), ext.IsVertexArrayOES(u);
  }

  /** Deleting the bound VAO leaves the context's current attribute bindings
      in place, and unbinding keeps the current element-array buffer. */
  method CurrentStateSurvives(d: AttribDescriptor)
    returns (afterDelete: AttribBuffers, afterUnbind: AttribBuffers, elementArray: Option<BufferId>)
    ensures afterDelete == map[0 := AttribBinding(d, Some(8))]
    ensures afterUnbind == map[]
    ensures elementArray == Some(9)
  {
    var ctx := new RenderingContext();
    var ext := new OESVertexArrayObject(ctx);
    var v := ext.CreateVertexArrayOES(Some(3));
    ext.BindVertexArrayOES(v);
    ctx.SetAttribBuffer(0, AttribBinding(d, Some(8)));
    ctx.SetElementArrayBuffer(Some(9));
    ext.DeleteVertexArrayOES(v);
    afterDelete := ctx.attribBuffers;
    ext.BindVertexArrayOES(null);
    afterUnbind, elementArray := ctx.attribBuffers, ctx.elementArrayBuffer;
  }

  /** References are registered lazily and withdrawn only for the buffers a
      VAO stores when it is deleted: a buffer that was stored earlier and then
      replaced in its slot keeps listing the deleted VAO. */
  method ReplacedBufferKeepsReference(d: AttribDescriptor)
    returns (refsOfReplaced: set<VaoId>, refsOfCurrent: set<VaoId>)
    ensures refsOfReplaced == {1}
    ensures refsOfCurrent == {}
  {
    var ctx := new RenderingContext();
    var ext := new OESVertexArrayObject(ctx);
    var v := ext.CreateVertexArrayOES(Some(1));
    StoreBuffer(ext, v, d);
    ReplaceBuffer(ext, v, d);
    assert 11 in StoredBuffers(v.attribBuffers, v.elementArrayBuffer) by {
      assert v.attribBuffers[0].buffer == Some(11);
    }
    assert 10 !in StoredBuffers(v.attribBuffers, v.elementArrayBuffer);
    ext.DeleteVertexArrayOES(v);
    refsOfReplaced, refsOfCurrent := Refs(ctx.vaoReferences, 10), Refs(ctx.vaoReferences, 11);
  }

  /** First part of `ReplacedBufferKeepsReference`: `v` is bound, buffer 10 is
      attached to slot 0, and unbinding makes `v` store it and register on it. */
  method StoreBuffer(ext: OESVertexArrayObject, v: VertexArrayObject, d: AttribDescriptor)
    requires ext.boundVao == null && ext.ctx.vaoReferences == map[]
    requires !v.deleted && v.attribBuffers == map[] && v.elementArrayBuffer == None
    modifies ext, ext.ctx, v
    ensures !v.deleted && ext.boundVao == null
    ensures v.attribBuffers == map[0 := AttribBinding(d, Some(10))] && v.elementArrayBuffer == None
    ensures Refs(ext.ctx.vaoReferences, 10) == {v.id} && Refs(ext.ctx.vaoReferences, 11) == {}
  {
    var ctx := ext.ctx;
    ext.BindVertexArrayOES(v);
    ctx.SetAttribBuffer(0, AttribBinding(d, Some(10)));
    assert ctx.attribBuffers == map[0 := AttribBinding(d, Some(10))];
    assert 10 in StoredBuffers(ctx.attribBuffers, ctx.elementArrayBuffer) by {
      assert ctx.attribBuffers[0].buffer == Some(10);
    }
    assert 11 !in StoredBuffers(ctx.attribBuffers, ctx.elementArrayBuffer);
    ext.BindVertexArrayOES(null);
  }

  /** Second part of `ReplacedBufferKeepsReference`: `v` is bound again, slot 0
      is pointed at buffer 11, and unbinding makes `v` store buffer 11 only,
      while buffer 10 still lists it. */
  method ReplaceBuffer(ext: OESVertexArrayObject, v: VertexArrayObject, d: AttribDescriptor)
    requires ext.boundVao == null && !v.deleted
    requires v.attribBuffers == map[0 := AttribBinding(d, Some(10))] && v.elementArrayBuffer == None
    requires Refs(ext.ctx.vaoReferences, 10) == {v.id} && Refs(ext.ctx.vaoReferences, 11) == {}
    modifies ext, ext.ctx, v
    ensures !v.deleted && ext.boundVao == null
    ensures v.attribBuffers == map[0 := AttribBinding(d, Some(11))] && v.elementArrayBuffer == None
    ensures Refs(ext.ctx.vaoReferences, 10) == {v.id} && Refs(ext.ctx.vaoReferences, 11) == {v.id}
  {
    var ctx := ext.ctx;
    ext.BindVertexArrayOES(v);
    ctx.SetAttribBuffer(0, AttribBinding(d, Some(11)));
    assert map[0 := AttribBinding(d, Some(10))][0 := AttribBinding(d, Some(11))]
        == map[0 := AttribBinding(d, Some(11))];
    assert ctx.attribBuffers == map[0 := AttribBinding(d, Some(11))];
    assert 10 !in StoredBuffers(ctx.attribBuffers, ctx.elementArrayBuffer);
    assert 11 in StoredBuffers(ctx.attribBuffers, ctx.elementArrayBuffer) by {
      assert ctx.attribBuffers[0].buffer == Some(11);
    }
    ext.BindVertexArrayOES(null);
  }
}
