/** The two collaborators the extension works on: the vertex array object
    (`WebGLVertexArrayObjectOES`) and the part of the WebGL rendering context
    it reads and writes. Only their interface is modelled: the state the
    extension touches and the hooks it calls. */
module WebGLContext {
  import opened WebGLTypes
  import opened VaoReferences

  /** A vertex array object: its renderer id, its two lifecycle flags, and the
      attribute and element-array bindings stored in it while it is not bound. */
  class VertexArrayObject {
    const id: VaoId
    var deleted: bool
    var everBound: bool
    var attribBuffers: AttribBuffers
    var elementArrayBuffer: Option<BufferId>

    /** A new VAO is live, has never been bound and stores nothing. */
    constructor (id: VaoId)
      ensures this.id == id && !deleted && !everBound
      ensures attribBuffers == map[] && elementArrayBuffer == None
    {
      this.id := id;
      deleted := false;
      everBound := false;
      attribBuffers := map[];
      elementArrayBuffer := None;
    }
  }

  /** The rendering context as the extension sees it: the current attribute
      and element-array bindings, the reference sets of its buffers, and the
      history of commands sent to the renderer and errors raised. */
  class RenderingContext {
    var attribBuffers: AttribBuffers
    var elementArrayBuffer: Option<BufferId>
    var vaoReferences: ReferenceTable
    var log: seq<Event>

    constructor ()
      ensures attribBuffers == map[] && elementArrayBuffer == None
      ensures vaoReferences == map[] && log == []
    {
      attribBuffers := map[];
      elementArrayBuffer := None;
      vaoReferences := map[];
      log := [];
    }

    /** `send_command`: the renderer receives commands in the order they are sent. */
    method SendCommand(command: WebGLCommand)
      modifies this`log
      ensures log == old(log) + [Command(command)]
    {
      log := log + [Command(command)];
    }

    /** `webgl_error`. */
    method RaiseError(error: WebGLError)
      modifies this`log
      ensures log == old(log) + [Error(error)]
    {
      log := log + [Error(error)];
    }

    /** `add_vao_reference` on the buffer with id `b`. */
    method AddVaoReference(b: BufferId, v: VaoId)
      modifies this`vaoReferences
      ensures vaoReferences == AddReference(old(vaoReferences), b, v)
    {
      vaoReferences := AddReference(vaoReferences, b, v);
    }

    /** `remove_vao_reference` on the buffer with id `b`. */
    method RemoveVaoReference(b: BufferId, v: VaoId)
      modifies this`vaoReferences
      ensures vaoReferences == RemoveReference(old(vaoReferences), b, v)
    {
      vaoReferences := RemoveReference(vaoReferences, b, v);
    }

    /** What `vertexAttribPointer` does to the current state: attribute slot
        `slot` gets a new binding. Registers no reference. */
    method SetAttribBuffer(slot: nat, binding: AttribBinding)
      modifies this`attribBuffers
      ensures attribBuffers == old(attribBuffers)[slot := binding]
    {
      attribBuffers := attribBuffers[slot := binding];
    }

    /** What binding a buffer to ELEMENT_ARRAY_BUFFER does to the current state. */
    method SetElementArrayBuffer(b: Option<BufferId>)
      modifies this`elementArrayBuffer
      ensures elementArrayBuffer == b
    {
      elementArrayBuffer := b;
    }
  }
}
