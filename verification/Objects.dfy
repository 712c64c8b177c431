/** What the other modules share: bytes, options, and how a request can end. */
module Objects {
  type Byte = b: int | 0 <= b < 256
  type Bytes = seq<Byte>

  datatype Option<T> = None | Some(value: T)

  /** One attempt of a request: no effect, an effect behind an error, or an effect and its answer. */
  datatype Reply = Lost | Unseen | Seen

  function Zeros(n: nat): Bytes {
    seq(n, _ => 0)
  }

  function Ones(n: nat): Bytes {
    seq(n, _ => 1)
  }
}
