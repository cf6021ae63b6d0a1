/** Vocabulary shared by every module: optional values, machine integers, file ids. */
module Basics {

  datatype Option<+T> = None | Some(value: T)

  const TWO_TO_63: int := 0x8000_0000_0000_0000
  const TWO_TO_64: int := 0x1_0000_0000_0000_0000

  type U64 = x: int | 0 <= x < TWO_TO_64

  type Byte = x: int | 0 <= x < 256

  /** The conversion of an unsigned position to the signed `std::streamoff`. */
  function ToSigned(x: U64): int {
    if x < TWO_TO_63 then x else x - TWO_TO_64
  }

  function Max(a: int, b: int): int {
    if a <= b then b else a
  }

  /** `unique_file_id_t`: a friend number and a file number. */
  datatype Id = Id(friend: nat, file: nat)

  /** An optional value as a sequence of at most one element. */
  function AsSeq<T>(o: Option<T>): seq<T> {
    match o
    case None => []
    case Some(x) => [x]
  }

  /** Entry `k` of a map, if there is one. */
  function Find<K, V>(m: map<K, V>, k: K): Option<V> {
    if k in m then Some(m[k]) else None
  }
}
