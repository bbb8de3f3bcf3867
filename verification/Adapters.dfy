/** The model behind a worker, seen only through the adapter contract of
    worker/adapters/base.py: nothing here knows what a state contains. */
module Adapters {
  import opened Wrappers
  import opened Audio

  /** delta is the text infer reports; finalize the text a flush reports, and
      reset what a flush leaves behind. */
  datatype Adapter<!S> = Adapter(
    initial: S,
    infer: (S, Bytes) -> S,
    delta: (S, Bytes) -> string,
    finalize: S -> string,
    reset: S -> S,
    serialize: S -> Bytes,
    deserialize: Bytes -> Option<S>)

  /** The hypothesis on a serializable adapter: a state survives transport. */
  ghost predicate RoundTrips<S(!new)>(a: Adapter<S>) {
    forall s: S :: a.deserialize(a.serialize(s)) == Some(s)
  }

  /** One state after a list of audio chunks. */
  function Fold<S>(a: Adapter<S>, s: S, chunks: seq<Bytes>): S {
    if chunks == [] then s
    else a.infer(Fold(a, s, chunks[..|chunks|-1]), chunks[|chunks|-1])
  }
}
