// Vocabulary shared by every part of the model.
//
// Times and durations are integer nanoseconds. SHA-256 is an injective constructor:
// two digests are equal exactly when the hashed values are.
module Common {
  newtype Byte = b: int | 0 <= b < 256

  type Bytes = seq<Byte>

  datatype Option<+T> = None | Some(value: T)

  datatype Result<+T, +E> = Ok(value: T) | Err(error: E)

  datatype Digest = Zeroed | OfBytes(bytes: Bytes) | OfText(text: string)

  datatype StoreError =
    | InvalidGrant
    | RefreshReplay
    | RefreshBusy
    | RefreshCollision
    | CredentialIndeterminate
    | Storage

  const MILLISECOND := 1_000_000
  const SECOND := 1_000_000_000
  const MINUTE := 60 * SECOND
  const HOUR := 60 * MINUTE

  function Min(a: int, b: int): int {
    if b < a then b else a
  }

  lemma SubsetSize<T>(a: set<T>, b: set<T>)
    requires a <= b
    ensures |a| <= |b|
  {
    assert b == a + (b - a);
  }
}
