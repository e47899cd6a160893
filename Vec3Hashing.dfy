/** The hash used to key maps by a position vector: the xor of the per-component float
    hashes. The per-float hash is a parameter, and `size_t` is taken to be 64 bits. */
module Vec3Hashing {
  import opened Glm

  /** The xor of three component hashes. */
  function Combine(hx: bv64, hy: bv64, hz: bv64): bv64 {
    hx ^ hy ^ hz
  }

  /** `Vec3Hash::operator()` for the float hash h. */
  function Hash(h: real -> bv64, v: Vec3): bv64 {
    Combine(h(v.x), h(v.y), h(v.z))
  }

  /** Xor is symmetric in its three arguments: each transposition leaves it unchanged. */
  lemma CombineIsSymmetric(a: bv64, b: bv64, c: bv64)
    ensures Combine(b, a, c) == Combine(a, b, c)
    ensures Combine(a, c, b) == Combine(a, b, c)
    ensures Combine(c, b, a) == Combine(a, b, c)
  {
  }

  /** Two equal arguments cancel. */
  lemma CombineCancels(a: bv64, c: bv64)
    ensures Combine(a, a, c) == c
  {
  }

  /** Every reordering of the components gives the same hash. */
  lemma HashIgnoresOrder(h: real -> bv64, v: Vec3)
    ensures Hash(h, Vec3(v.y, v.x, v.z)) == Hash(h, v)
    ensures Hash(h, Vec3(v.x, v.z, v.y)) == Hash(h, v)
    ensures Hash(h, Vec3(v.z, v.y, v.x)) == Hash(h, v)
    ensures Hash(h, Vec3(v.y, v.z, v.x)) == Hash(h, v)
    ensures Hash(h, Vec3(v.z, v.x, v.y)) == Hash(h, v)
  {
    var a, b, c := h(v.x), h(v.y), h(v.z);
    CombineIsSymmetric(a, b, c);
    CombineIsSymmetric(b, a, c);
    CombineIsSymmetric(a, c, b);
  }

  /** For example (16, 0, 32) and (32, 0, 16) collide whatever h is. */
  lemma MirroredPositionsCollide(h: real -> bv64)
    ensures Hash(h, Vec3(16.0, 0.0, 32.0)) == Hash(h, Vec3(32.0, 0.0, 16.0))
  {
    HashIgnoresOrder(h, Vec3(16.0, 0.0, 32.0));
  }

  /** Two equal components cancel: (a, a, c) and (b, b, c) both hash to h(c). */
  lemma EqualComponentsCancel(h: real -> bv64, a: real, b: real, c: real)
    ensures Hash(h, Vec3(a, a, c)) == h(c)
    ensures Hash(h, Vec3(a, a, c)) == Hash(h, Vec3(b, b, c))
  {
    CombineCancels(h(a), h(c));
    CombineCancels(h(b), h(c));
  }

  /** Vectors with equal components hash equally, as a hash-map key requires. */
  lemma EqualVectorsHashEqually(h: real -> bv64, u: Vec3, v: Vec3)
    requires u.x == v.x && u.y == v.y && u.z == v.z
    ensures Hash(h, u) == Hash(h, v)
  {
  }
}
