/**
 * Encryption at rest with a current and a previous master key. Encryption is ideal: an envelope
 * opens under the key that sealed it, to what was sealed, and under no other.
 */
module Secrets {
  import opened Basics

  const PREFIX := "enc:v1:"

  /** A sealed value; `None` stands for contents that no key opens. */
  type Envelope = Option<Box>

  datatype Box = Box(key: string, plain: string)

  /** A stored secret: legacy text without the prefix, or an envelope. */
  datatype Stored = Legacy(text: string) | Sealed(envelope: Envelope)

  /** Master keys; an empty one is not configured. `parse` reads text that carries the prefix. */
  datatype Secrets = Secrets(current: string, previous: string, parse: string -> Envelope)

  predicate HasPrefix(s: string) {
    |s| >= |PREFIX| && s[..|PREFIX|] == PREFIX
  }

  predicate Enabled(x: Secrets) {
    x.current != ""
  }

  function Encrypt(x: Secrets, plain: string): Stored {
    if Enabled(x) then Sealed(Some(Box(x.current, plain)))
    else if HasPrefix(plain) then Sealed(x.parse(plain))
    else Legacy(plain)
  }

  /** Does the box open under the first or else the second of the configured keys? */
  predicate Opens(x: Secrets, b: Box) {
    (x.current != "" && b.key == x.current) || (x.previous != "" && b.key == x.previous)
  }

  /** A value that cannot be opened reads as the empty string. */
  function Decrypt(x: Secrets, s: Stored): string {
    if s.Legacy? then s.text
    else if s.envelope.Some? && Opens(x, s.envelope.value) then s.envelope.value.plain
    else ""
  }

  function Reencrypt(x: Secrets, s: Stored): Option<Stored> {
    if s.Legacy? then Some(Encrypt(x, s.text))
    else if Decrypt(x, s) == "" then None
    else Some(Encrypt(x, Decrypt(x, s)))
  }

  /** The same keys once the previous one is dropped. */
  function CurrentOnly(x: Secrets): Secrets {
    x.(previous := "")
  }

  /** Readable with the current key and nothing else. */
  predicate UnderCurrent(x: Secrets, s: Stored) {
    s.Sealed? && s.envelope.Some? && s.envelope.value.key == x.current
  }

  /** Legacy text reads as itself, an envelope as what it holds if one of the configured keys opens it. */
  lemma ReadingIs(x: Secrets, s: Stored)
    ensures s.Legacy? ==> Decrypt(x, s) == s.text
    ensures s.Sealed? ==>
              Decrypt(x, s) ==
              if s.envelope.Some? && s.envelope.value.key != "" && s.envelope.value.key in [x.current, x.previous]
              then s.envelope.value.plain else ""
  {
  }

  /** Encryption reads back, except for text that looks sealed while no key is configured. */
  lemma EncryptReadsBack(x: Secrets, plain: string)
    ensures x.current != "" ==>
              Encrypt(x, plain) == Sealed(Some(Box(x.current, plain))) && Decrypt(x, Encrypt(x, plain)) == plain
    ensures x.current == "" && (|plain| < 7 || plain[..7] != "enc:v1:") ==>
              Encrypt(x, plain) == Legacy(plain) && Decrypt(x, Encrypt(x, plain)) == plain
    ensures x.current == "" && |plain| >= 7 && plain[..7] == "enc:v1:" ==>
              (Decrypt(x, Encrypt(x, plain)) == plain <==>
                 x.parse(plain).Some? && x.previous != "" && x.parse(plain).value == Box(x.previous, plain))
  {
    ReadingIs(x, Encrypt(x, plain));
  }

  /**
   * Re-encryption gives up exactly on envelopes that hold nothing or that no configured key opens, and
   * otherwise seals the same text under the current key, to be read without the previous one.
   */
  lemma ReencryptKeepsMeaning(x: Secrets, s: Stored)
    requires x.current != ""
    ensures Reencrypt(x, s).None? <==>
              s.Sealed? && (s.envelope.None? || s.envelope.value.plain == "" || s.envelope.value.key == "" ||
                            s.envelope.value.key !in [x.current, x.previous])
    ensures Reencrypt(x, s).Some? ==>
              && Reencrypt(x, s).value ==
                 Sealed(Some(Box(x.current, if s.Legacy? then s.text else s.envelope.value.plain)))
              && Decrypt(Secrets.Secrets(x.current, "", x.parse), Reencrypt(x, s).value) == Decrypt(x, s)
              && Decrypt(x, Reencrypt(x, s).value) == Decrypt(x, s)
  {
    ReadingIs(x, s);
  }

  /** What was sealed under the current key, and only that, reads the same once the previous key is gone. */
  lemma PreviousCanBeDropped(x: Secrets, s: Stored)
    requires x.current != ""
    ensures Decrypt(Secrets.Secrets(x.current, "", x.parse), s) == Decrypt(x, s) <==>
              !(s.Sealed? && s.envelope.Some? && s.envelope.value.plain != "" && x.previous != "" &&
                  x.previous != x.current
                && s.envelope.value.key == x.previous)
  {
    ReadingIs(x, s);
    ReadingIs(CurrentOnly(x), s);
  }
}
