/** What several modules share.
  */
module Common {

  const WORD: nat := 0x1_0000_0000_0000_0000   // 2^64

  datatype Option<T> = None | Some(value: T)
}
