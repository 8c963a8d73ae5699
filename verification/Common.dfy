/** What several of the models need. */
module Common {

  newtype byte = x: int | 0 <= x < 256
  type Bytes = seq<byte>

  datatype Option<+T> = None | Some(value: T)

  /** An address; two live allocations never have the same. */
  type Ptr = nat
  const NULL: Ptr := 0

  method FreshPtr(used: set<Ptr>) returns (p: Ptr)
    ensures p != NULL && p !in used
  {
    p := 1;
    ghost var rest := used;
    while p in used
      invariant 1 <= p && rest <= used && forall x :: x in used && x !in rest ==> x < p
      decreases |rest|
    {
      rest := rest - {p};
      p := p + 1;
    }
  }
}
