/** A symbolic stand-in for bcrypt. A digest is the setting string of the
    cost the service passes (10), a salt, and then the hashed part of the
    text. Like bcryptjs, only the first 72 bytes of the text take part;
    `Compare` accepts exactly the texts that agree with the digest's text on
    that window. Characters stand for bytes. Only the functional behaviour
    the service relies on is modelled, not the one-wayness. The salt is
    drawn at random by the library, so it is a parameter here. */
module Bcrypt {

  /** The number of salt characters in a digest. */
  const SaltLength: nat := 22

  /** "$2a$" followed by the cost 10 and a '$'. */
  const Setting: string := "$2a$10$"

  /** Characters of a digest before the hashed part. */
  const HeaderLength: nat := 29

  /** bcrypt reads at most this many bytes of its input. */
  const WindowLength: nat := 72

  type Salt = s: string | |s| == SaltLength witness "abcdefghijklmnopqrstuv"

  /** The part of a text bcrypt reads: its first 72 bytes. */
  function Window(text: string): (w: string)
    ensures w <= text
    ensures |w| == if |text| <= WindowLength then |text| else WindowLength
  {
    if |text| <= WindowLength then text else text[..WindowLength]
  }

  /** A text that reaches past the window has the window of its first 72
      bytes: whatever follows is ignored. */
  lemma WindowOfLongPrefix(a: string, b: string)
    requires |a| >= WindowLength
    ensures Window(a + b) == Window(a)
  {
    assert (a + b)[..WindowLength] == a[..WindowLength];
  }

  /** `bcrypt.compare(plain, digest)` on a digest the library produced. */
  predicate Compare(plain: string, digest: string) {
    |digest| >= HeaderLength && digest[HeaderLength..] == Window(plain)
  }

  /** The shape of a digest of cost 10. */
  predicate IsDigest(digest: string) {
    |digest| >= HeaderLength && digest[..|Setting|] == Setting
  }

  /** `bcrypt.hash(plain, 10)` with the salt the library drew. */
  function Hash(plain: string, salt: Salt): (digest: string)
    ensures Compare(plain, digest)
    ensures IsDigest(digest)
    ensures |digest| == HeaderLength + |Window(plain)|
    ensures |plain| <= WindowLength ==> digest != plain
  {
    Setting + salt + Window(plain)
  }

  /** A digest matches exactly the texts that share the window of the text
      it was made from. */
  lemma CompareHash(plain: string, other: string, salt: Salt)
    ensures Compare(other, Hash(plain, salt)) <==> Window(other) == Window(plain)
  {
  }

  /** Below the window's length a digest matches the text it was made from
      and no other. */
  lemma CompareHashShort(plain: string, other: string, salt: Salt)
    requires |plain| < WindowLength
    ensures Compare(other, Hash(plain, salt)) <==> other == plain
  {
    CompareHash(plain, other, salt);
    if Window(other) == Window(plain) {
      assert |other| <= WindowLength;
    }
  }
}
