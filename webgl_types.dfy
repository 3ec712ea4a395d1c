/** Values shared by the vertex-array-object extension and its collaborators:
    identifiers, attribute bindings, and the commands and errors a WebGL
    rendering context emits. */
module WebGLTypes {

  datatype Option<+T> = None | Some(value: T)

  datatype Result<+R, +E> = Success(value: R) | Failure(error: E)

  /** Identifier the renderer assigns to a vertex array object. */
  type VaoId = nat

  /** Identifier of a WebGL buffer object. */
  type BufferId = nat

  /** Layout of one vertex attribute (size, type, stride, offset, ...).
      Nothing here looks inside it, so its content is left abstract. */
  type AttribDescriptor(==)

  /** What one attribute slot holds: its layout and, optionally, the buffer
      the attribute reads from. */
  datatype AttribBinding = AttribBinding(descriptor: AttribDescriptor, buffer: Option<BufferId>)

  /** Attribute-slot index to binding, as kept by the context and by each VAO. */
  type AttribBuffers = map<nat, AttribBinding>

  /** Commands sent to the renderer. */
  datatype WebGLCommand =
    | CreateVertexArray
    | BindVertexArray(target: Option<VaoId>)
    | DeleteVertexArray(id: VaoId)

  datatype WebGLError = InvalidOperation

  /** One entry of the context's observable history: a command sent to the
      renderer or an error raised to the page. */
  datatype Event = Command(command: WebGLCommand) | Error(error: WebGLError)
}
