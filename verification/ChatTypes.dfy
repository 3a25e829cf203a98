/** Messages, ciphertexts and identities of the store-and-forward messenger.

    A message ID is the digest of what is signed, and a spool ID the digest of the ciphertext;
    digests do not collide, so here a message is its own ID and a ciphertext its own.
 */
module ChatTypes {
  import opened Options

  type Address = nat

  datatype Event = Event(id: nat, revision: nat, content: nat, expires: real)

  datatype Body =
    | Text(text: nat)
    | Audio(audio: nat)
    | Edit(target: Message, revision: nat, text: nat)
    | Service(event: Event)
    | Stored(target: Message)

  /** The signed content: recipient, author, timestamp and payload. */
  datatype Message = Message(target: Address, source: Address, timestamp: nat, body: Body)

  /** The packed bytes: content and signature. */
  datatype Packed = Packed(message: Message, signature: nat)

  /** A ciphertext addressed to a recipient.  `salt` is what makes two encryptions of one message
      differ; `plain` is what the recipient's key opens it to, if anything. */
  datatype Blob = Blob(recipient: Address, salt: nat, size: nat, plain: Option<Packed>)

  const MIN_BLOB := 112
  const MAX_BLOB := 131840
}
