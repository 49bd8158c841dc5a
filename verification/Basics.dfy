/** Types shared by the modules of this project. */
module Basics {
  datatype Option<+T> = None | Some(value: T)
  datatype Result<+T, +E> = Ok(value: T) | Err(error: E)

  newtype Byte = x: int | 0 <= x < 256
  type Bytes = seq<Byte>

  /** A SHA-256 digest. Distinct contents have distinct digests; a digest that a caller
      declares need not be the digest of anything. */
  datatype Digest = Sha256(content: Bytes) | NoPreimage(hex: string)

  /** The primary key of the tables that remember requests. */
  datatype RequestKey = RequestKey(owner: string, project: string, key: string)

  /** 8 to 160 letters, digits, underscores and hyphens: the identifiers of chats and messages. */
  predicate Identifier(id: string) {
    8 <= |id| <= 160 && forall i :: 0 <= i < |id| ==> IdentifierChar(id[i])
  }

  predicate IdentifierChar(ch: char) {
    'A' <= ch <= 'Z' || 'a' <= ch <= 'z' || '0' <= ch <= '9' || ch == '_' || ch == '-'
  }

  lemma ConcatAssoc<T>(x: seq<T>, y: seq<T>, z: seq<T>)
    ensures (x + y) + z == x + (y + z)
  {
  }
}
