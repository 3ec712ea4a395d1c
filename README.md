# OES_vertex_array_object binding manager, in Dafny

This project models Servo's implementation of the WebGL 1 extension
`OES_vertex_array_object` (Khronos WebGL extension registry), in
`components/script/dom/webgl_extensions/ext/oesvertexarrayobject.rs`. The
extension lets a page create, bind and delete vertex array objects (VAOs):
named bundles of vertex-attribute bindings plus an element-array (index)
buffer.

The manager is a small sequential state machine. The model keeps the form of
the source:

- `OESVertexArrayObject` (module `OESVertexArrayObjectExtension`) is a class
  with the source's `bound_vao` slot (`boundVao`) and its context (`ctx`).
  `BindVertexArrayOES` and `DeleteVertexArrayOES` are methods that update that
  state in place. Each `modifies` clause names only the fields the source
  writes. Each `ensures` states the whole new state in terms of the old one.
  Its `Valid()` invariant says the bound VAO is not a deleted one. Both
  methods keep it (`old(Valid()) ==> Valid()`), and neither requires it. So
  when VAOs are bound and deleted only through one manager, its save phase
  never writes into a deleted VAO.
- `VertexArrayObject` and `RenderingContext` (module `WebGLContext`) are the
  collaborators:
  - A VAO has its `id` and its `deleted` and `everBound` flags. It keeps its
    stored attribute map and its element-array buffer.
  - The context holds the current attribute map and element-array buffer.
  - The context also holds every buffer's reference set, keyed by buffer id
    (`vaoReferences`).
  - Its `log` records, in order, the commands sent to the renderer
    (`CreateVertexArray`, `BindVertexArray(id?)`, `DeleteVertexArray(id)`) and
    the errors raised.
- The reference-set updates are pure functions on the table (module
  `VaoReferences`). `AddReference`/`RemoveReference` model
  `add_vao_reference`/`remove_vao_reference`. `AddReferences`/`RemoveReferences`
  apply them to a set of buffers in any order. The `for` loops of the source are
  `while` loops over the slots (`AddAttribReferences`, `RemoveAttribReferences`),
  proved to compute those functions.
- `IsVertexArrayOES`, `CurrentBinding` (`get_current_binding`, returning the
  bound VAO's id) and `IsSupported` are pure.
- `CreateVertexArrayOES` takes the renderer's reply as a parameter.
- Module `Scenarios` holds client code. It shows what a page can rely on from
  the contracts alone: the bind/store/restore round trip, deleting the bound
  VAO, deleting twice, a failed allocation, binding a deleted VAO, and the
  quirks below.

Behaviour kept exactly as the code has it:

- The save phase (lines 95-109) runs before the deleted-target check
  (lines 111-115). So binding a deleted VAO still makes the bound VAO store the
  current state and register on its buffers. Then InvalidOperation is raised
  and no bind command is sent.
- `Bind(None)` clears only the current attribute map, not the current
  element-array buffer (lines 125-129).
- Deleting the bound VAO does not clear the context's current attribute map
  (lines 63-69).
- Bound-ness is decided by `id()` (line 65). Deleting a VAO unbinds a
  different VAO object that carries the same id (`Scenarios.DeleteBySharedId`).
- References are registered only by the save phase, and restoring registers
  nothing. Deleting withdraws references only from the buffers the VAO stores
  at that moment (lines 72-79). The save phase (line 97) overwrites the
  stored attribute map and withdraws nothing. So a buffer that was stored
  earlier and then replaced in its slot keeps listing the deleted VAO
  (`Scenarios.ReplacedBufferKeepsReference`).

`IsVertexArrayOES` ("live and bound at least once", lines 88-91) and
`CurrentBinding` (lines 35-43) are plain definitions without a contract. Their
properties are stated by the contracts of Create, Bind and Delete, which the
rows of those two members name.

## Model

| member | source | states |
|---|---|---|
| `OESVertexArrayObjectExtension.OESVertexArrayObject.constructor` | components/script/dom/webgl_extensions/ext/oesvertexarrayobject.rs:26-32 | a new manager has nothing bound and satisfies its invariant |
| `OESVertexArrayObjectExtension.OESVertexArrayObject.CreateVertexArrayOES` | components/script/dom/webgl_extensions/ext/oesvertexarrayobject.rs:48-54 | sends `CreateVertexArray`; returns no VAO exactly when the renderer returns none; otherwise a fresh VAO carrying the returned id, live, never bound, storing nothing, and not reported by `IsVertexArrayOES` |
| `OESVertexArrayObjectExtension.OESVertexArrayObject.IsVertexArrayOES` | components/script/dom/webgl_extensions/ext/oesvertexarrayobject.rs:88-91 | a definition: true iff the VAO is present, not deleted and ever bound. Its lifecycle is proved in the ensures of `CreateVertexArrayOES` (false for a created VAO), `BindVertexArrayOES` (true after a live bind, unchanged flags otherwise) and `DeleteVertexArrayOES` (false after a delete) |
| `OESVertexArrayObjectExtension.OESVertexArrayObject.CurrentBinding` | components/script/dom/webgl_extensions/ext/oesvertexarrayobject.rs:35-43 | a definition: the bound VAO's id, or none. The ensures of `BindVertexArrayOES` make it the target's id after a live bind, none after binding none, and unchanged after a refused bind; those of `DeleteVertexArrayOES` make it none after deleting the bound VAO (by id) and unchanged otherwise |
| `OESVertexArrayObjectExtension.OESVertexArrayObject.DeleteVertexArrayOES` | components/script/dom/webgl_extensions/ext/oesvertexarrayobject.rs:57-85 | absent or already deleted: no command and no state change, so a second delete has no effect. Otherwise: if the bound VAO has the same id, it is unbound (`CurrentBinding()` becomes none) and `BindVertexArray(None)` is logged strictly before `DeleteVertexArray(id)`, else only `DeleteVertexArray(id)` is logged; every buffer stored in the VAO's attribute map or element-array slot stops listing its id; the VAO is marked deleted; the context's current bindings are untouched; the invariant is kept when it held before |
| `OESVertexArrayObjectExtension.OESVertexArrayObject.BindVertexArrayOES` | components/script/dom/webgl_extensions/ext/oesvertexarrayobject.rs:94-130 | the save phase always runs first: the previously bound VAO receives the context's attribute map and element-array buffer, and every buffer now stored in it lists its id. A deleted target: `InvalidOperation` is logged, no bind command, binding, `CurrentBinding()`, `everBound` and current state unchanged. A live target: `BindVertexArray(Some(id))` is logged, `everBound` set, it becomes the bound VAO and `CurrentBinding()` is its id, and the context's attribute map and element-array buffer become the target's stored ones, with no reference change. No target: `BindVertexArray(None)` is logged, nothing is bound (`CurrentBinding()` is none), the attribute map is emptied and the element-array buffer kept |
| `OESVertexArrayObjectExtension.OESVertexArrayObject.StoreCurrentBindings` | components/script/dom/webgl_extensions/ext/oesvertexarrayobject.rs:95-109 | the bound VAO takes a copy of the current attribute map and element-array buffer, and registers its id on exactly the buffers it now stores; with nothing bound, nothing changes |
| `OESVertexArrayObjectExtension.OESVertexArrayObject.WithdrawReferences` | components/script/dom/webgl_extensions/ext/oesvertexarrayobject.rs:71-79 | the VAO's id is withdrawn from exactly the buffers of its attribute slots and its element-array buffer |
| `OESVertexArrayObjectExtension.OESVertexArrayObject.AddAttribReferences` | components/script/dom/webgl_extensions/ext/oesvertexarrayobject.rs:98-102 | the loop registers the VAO id on the buffer of every attribute slot and on no other buffer |
| `OESVertexArrayObjectExtension.OESVertexArrayObject.RemoveAttribReferences` | components/script/dom/webgl_extensions/ext/oesvertexarrayobject.rs:72-76 | the loop withdraws the VAO id from the buffer of every attribute slot and from no other buffer |
| `OESVertexArrayObjectExtension.QueryVertexArrayBinding` | components/script/dom/webgl_extensions/ext/oesvertexarrayobject.rs:153-162 | `InvalidOperation` exactly when the extension's instance is missing; otherwise `CurrentBinding()`. What it then reports after each operation is proved by `Scenarios.QueryFollowsBinding` and by the `CurrentBinding()` clauses of Bind and Delete |
| `OESVertexArrayObjectExtension.SupportsAny` | components/script/dom/webgl_extensions/ext/oesvertexarrayobject.rs:145-149 | true iff some name in the candidate list is among the driver's extensions |
| `OESVertexArrayObjectExtension.IsSupported` | components/script/dom/webgl_extensions/ext/oesvertexarrayobject.rs:145-149 | true iff the driver offers `GL_OES_vertex_array_object`, `GL_ARB_vertex_array_object` or `GL_APPLE_vertex_array_object` |
| `VaoReferences.AddReference` | components/script/dom/webgl_extensions/ext/oesvertexarrayobject.rs:100 | after `add_vao_reference(v)` the buffer lists `v` and its other entries are kept; every other buffer is unchanged |
| `VaoReferences.RemoveReference` | components/script/dom/webgl_extensions/ext/oesvertexarrayobject.rs:74 | after `remove_vao_reference(v)` the buffer no longer lists `v` and its other entries are kept; every other buffer is unchanged |
| `VaoReferences.AddReferences` | components/script/dom/webgl_extensions/ext/oesvertexarrayobject.rs:98-108 | every buffer of the given set lists `v` afterwards, keeping its other entries; buffers outside the set are unchanged |
| `VaoReferences.RemoveReferences` | components/script/dom/webgl_extensions/ext/oesvertexarrayobject.rs:72-79 | no buffer of the given set lists `v` afterwards, each keeping its other entries; buffers outside the set are unchanged |
| `VaoReferences.AddReferencesStep` | components/script/dom/webgl_extensions/ext/oesvertexarrayobject.rs:98-102 | registering on one more buffer extends the set registered on, so the loop's order does not matter |
| `VaoReferences.RemoveReferencesStep` | components/script/dom/webgl_extensions/ext/oesvertexarrayobject.rs:72-76 | withdrawing from one more buffer extends the set withdrawn from, so the loop's order does not matter |
| `WebGLContext.VertexArrayObject.constructor` | components/script/dom/webgl_extensions/ext/oesvertexarrayobject.rs:53 | a new VAO carries the renderer's id, is live, never bound and stores nothing |
| `Scenarios.RoundTrip` | components/script/dom/webgl_extensions/ext/oesvertexarrayobject.rs:94-130 | from any state with v1 and v2 live: bind v1, set a slot, bind v2, bind v1 again, and the slot holds the binding that was set |
| `Scenarios.QueryFollowsBinding` | components/script/dom/webgl_extensions/ext/oesvertexarrayobject.rs:153-162 | from any state: the VERTEX_ARRAY_BINDING_OES query reports the id of a live VAO just bound, keeps it through a refused bind of a deleted VAO, reports none after binding none, and none after deleting the bound VAO |
| `Scenarios.BindStoreRestore` | components/script/dom/webgl_extensions/ext/oesvertexarrayobject.rs:94-130 | create id 1 (never bound, reported false), bind, attach buffer 42 to slot 0, unbind (registers 1 on buffer 42), bind again (restores slot 0); exactly the four expected commands are sent |
| `Scenarios.DeleteBoundTwice` | components/script/dom/webgl_extensions/ext/oesvertexarrayobject.rs:57-85 | deleting the bound VAO logs `BindVertexArray(None)` then `DeleteVertexArray(7)` and leaves nothing bound; the second delete sends nothing |
| `Scenarios.CreateFails` | components/script/dom/webgl_extensions/ext/oesvertexarrayobject.rs:48-61 | a renderer that returns none yields no VAO; deleting and querying the absent VAO do nothing |
| `Scenarios.BindDeleted` | components/script/dom/webgl_extensions/ext/oesvertexarrayobject.rs:95-115 | binding a deleted VAO logs `InvalidOperation` and no bind command, keeps the old binding, and the old VAO has still stored slot 0 and registered on its buffer |
| `Scenarios.DeleteBySharedId` | components/script/dom/webgl_extensions/ext/oesvertexarrayobject.rs:63-69 | deleting one VAO unbinds a different VAO with the same id, which stays live |
| `Scenarios.CurrentStateSurvives` | components/script/dom/webgl_extensions/ext/oesvertexarrayobject.rs:63-69 | deleting the bound VAO keeps the current attribute map; unbinding empties it but keeps the element-array buffer |
| `Scenarios.StoreBuffer` | components/script/dom/webgl_extensions/ext/oesvertexarrayobject.rs:95-109 | binding an empty VAO, attaching buffer 10 to slot 0 and unbinding makes the VAO store buffer 10 and register on it |
| `Scenarios.ReplaceBuffer` | components/script/dom/webgl_extensions/ext/oesvertexarrayobject.rs:95-124 | rebinding it, pointing slot 0 at buffer 11 and unbinding makes it store only buffer 11 while both buffers list it |
| `Scenarios.ReplacedBufferKeepsReference` | components/script/dom/webgl_extensions/ext/oesvertexarrayobject.rs:71-79 | a buffer replaced in its slot before the delete still lists the deleted VAO; the buffer it stored when deleted does not |

## Left out

- The JavaScript reflection and rooting (`Reflector`, `reflect_dom_object`, `DomRoot`/`Dom`/`MutNullableDom`, `rooted!`, `to_jsval`, the unsafe `JSContext` code). VAOs are Dafny objects. `get_current_binding` returns the bound VAO's id instead of its JavaScript value.
- The IPC channel to the renderer (`webgl_channel`, `recv`) and its panics on a closed channel. The renderer's reply to `CreateVertexArray` is a parameter of `CreateVertexArrayOES`.
- Extension registration: `new`, `spec`, `name` and the `enable` closure on the query dispatcher. Only the closure's body is modelled, as `QueryVertexArrayBinding`.
- The bodies of the collaborators, which are not part of this model. A buffer's reference set is a set of VAO ids updated by insert (`add_vao_reference`) and remove (`remove_vao_reference`). `set_from` is whole-map replacement. `webgl_error` appends the error to the log; the context's keep-only-the-first-error rule is not modelled.
- `supports_any_gl_extension` is modelled as membership of the candidate names in the driver's list of extension strings.
- The content of an attribute descriptor: `AttribDescriptor` is an abstract type.
- Several managers sharing VAOs. A VAO bound here can be deleted through another context's extension instance; the manager's invariant is then false. Bind and Delete do not require it, and their contracts still describe that case: the save phase then writes into the deleted VAO, as the source does. Only `old(Valid()) ==> Valid()` is promised about the invariant.
- Iteration order of the attribute map. The loops pick slots in an arbitrary order. The step lemmas show that order does not change the result.
