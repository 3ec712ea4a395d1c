/** The reference sets through which every buffer records the VAOs that store
    it. A VAO registers itself on a buffer with `add_vao_reference` and
    withdraws with `remove_vao_reference`; here the reference sets of all
    buffers are one table keyed by buffer id. */
module VaoReferences {
  import opened WebGLTypes

  /** Buffer id to the ids of the VAOs referencing that buffer. A buffer with no
      entry is referenced by no VAO. */
  type ReferenceTable = map<BufferId, set<VaoId>>

  /** The reference set of buffer `b`. */
  function Refs(t: ReferenceTable, b: BufferId): set<VaoId> {
    if b in t then t[b] else {}
  }

  /** `add_vao_reference`: buffer `b` now lists `v`; every other buffer keeps its set. */
  function AddReference(t: ReferenceTable, b: BufferId, v: VaoId): (t': ReferenceTable)
    ensures v in Refs(t', b) && Refs(t', b) - {v} == Refs(t, b) - {v}
    ensures forall c :: c != b ==> Refs(t', c) == Refs(t, c)
  {
    t[b := Refs(t, b) + {v}]
  }

  /** `remove_vao_reference`: buffer `b` no longer lists `v`; every other buffer keeps its set. */
  function RemoveReference(t: ReferenceTable, b: BufferId, v: VaoId): (t': ReferenceTable)
    ensures v !in Refs(t', b) && Refs(t', b) + {v} == Refs(t, b) + {v}
    ensures forall c :: c != b ==> Refs(t', c) == Refs(t, c)
  {
    t[b := Refs(t, b) - {v}]
  }

  /** `add_vao_reference(v)` applied to every buffer in `bs`, in any order. */
  function AddReferences(t: ReferenceTable, bs: set<BufferId>, v: VaoId): (t': ReferenceTable)
    ensures forall c :: c in bs ==> v in Refs(t', c) && Refs(t', c) - {v} == Refs(t, c) - {v}
    ensures forall c :: c !in bs ==> Refs(t', c) == Refs(t, c)
  {
    map c | c in t.Keys + bs :: if c in bs then Refs(t, c) + {v} else t[c]
  }

  /** `remove_vao_reference(v)` applied to every buffer in `bs`, in any order. */
  function RemoveReferences(t: ReferenceTable, bs: set<BufferId>, v: VaoId): (t': ReferenceTable)
    ensures forall c :: c in bs ==> v !in Refs(t', c) && Refs(t', c) + {v} == Refs(t, c) + {v}
    ensures forall c :: c !in bs ==> Refs(t', c) == Refs(t, c)
  {
    map c | c in t.Keys + bs :: if c in bs then Refs(t, c) - {v} else t[c]
  }

  /** The buffers held by the slots `slots` of the attribute map `m`. */
  function BuffersIn(m: AttribBuffers, slots: set<nat>): (r: set<BufferId>)
    ensures forall b :: b in r <==> exists s :: s in slots && s in m && m[s].buffer == Some(b)
  {
    set s | s in slots && s in m && m[s].buffer.Some? :: m[s].buffer.value
  }

  /** The buffer an optional buffer slot holds, as a set. */
  function OptionSet(o: Option<BufferId>): (r: set<BufferId>)
    ensures forall b :: b in r <==> o == Some(b)
  {
    if o.Some? then {o.value} else {}
  }

  /** Every buffer a VAO's storage (or the context's current state) refers to:
      those of its attribute slots and its element-array buffer. */
  function StoredBuffers(m: AttribBuffers, elementArray: Option<BufferId>): (r: set<BufferId>)
    ensures forall b :: b in r <==>
      (exists s :: s in m && m[s].buffer == Some(b)) || elementArray == Some(b)
  {
    BuffersIn(m, m.Keys) + OptionSet(elementArray)
  }

  /** Visiting one more slot adds that slot's buffer, if any. */
  lemma BuffersInStep(m: AttribBuffers, slots: set<nat>, s: nat)
    requires s in m
    ensures BuffersIn(m, slots + {s}) == BuffersIn(m, slots) + OptionSet(m[s].buffer)
  {
  }

  /** Registering on the buffers `bs` one at a time, in any order, builds
      `AddReferences`: adding `b` last is the same as adding `bs + {b}` together. */
  lemma AddReferencesStep(t: ReferenceTable, bs: set<BufferId>, b: BufferId, v: VaoId)
    ensures AddReference(AddReferences(t, bs, v), b, v) == AddReferences(t, bs + {b}, v)
  {
  }

  lemma RemoveReferencesStep(t: ReferenceTable, bs: set<BufferId>, b: BufferId, v: VaoId)
    ensures RemoveReference(RemoveReferences(t, bs, v), b, v) == RemoveReferences(t, bs + {b}, v)
  {
  }
}
