/** The signable-message base: a message carries an optional signature,
    `sign` stores the signature of the message's current signature fields and
    `is_valid` recomputes that signature and compares it with the stored one.

    The fields come from the concrete message (an order, for one); here they
    are passed in as the `fields` argument, which is what the signer reads
    from the message. */
module Message {
  import opened Wrappers
  import opened Security

  /** PHP's `empty()` on a string: true for "" and also for "0". */
  predicate IsEmpty(s: string) {
    s == "" || s == "0"
  }

  /** PHP's `empty()` on a nullable string. */
  predicate IsEmptyOrNull(s: Option<string>) {
    s.None? || IsEmpty(s.value)
  }

  /** The answer of `is_valid`, given the signature recomputed from the
      current fields and the signature the message carries: it is never yes
      when either is empty, and yes only when the signer's comparison
      accepts the pair. */
  function Verdict(signer: Signer, fields: seq<string>, key: string, stored: Option<string>): (r: bool)
    ensures IsEmpty(SignatureOf(signer, fields, key)) ==> !r
    ensures IsEmptyOrNull(stored) ==> !r
    ensures r ==> stored.Some? && signer.validateSignature(SignatureOf(signer, fields, key), stored.value)
  {
    var computed := SignatureOf(signer, fields, key);
    if IsEmpty(computed) then false
    else if IsEmptyOrNull(stored) then false
    else signer.validateSignature(computed, stored.value)
  }

  class Message {
    /** The signature, `null` until the message is signed or one is set. */
    var signature: Option<string>

    /** A message starts without a signature. */
    constructor ()
      ensures signature == None
    {
      signature := None;
    }

    /** `get_signature`: the signature the message carries. */
    method GetSignature() returns (s: Option<string>)
      ensures s == signature
    {
      s := signature;
    }

    /** `set_signature`: replaces the signature, and nothing else. */
    method SetSignature(s: Option<string>)
      modifies this
      ensures signature == s
    {
      signature := s;
    }

    /** `sign`: stores the signature of the current fields under `key`. */
    method Sign(signer: Signer, fields: seq<string>, key: string)
      modifies this
      ensures signature == Some(SignatureOf(signer, fields, key))
    {
      var s := SignatureOf(signer, fields, key);
      SetSignature(Some(s));
    }

    /** `is_valid`: false when either signature is empty, otherwise what the
        signer's comparison says. It changes nothing: it has no frame. */
    method IsValid(signer: Signer, fields: seq<string>, key: string) returns (ok: bool)
      ensures ok == Verdict(signer, fields, key, signature)
    {
      var a := SignatureOf(signer, fields, key);
      if IsEmpty(a) {
        return false;
      }
      var b := GetSignature();
      if IsEmptyOrNull(b) {
        return false;
      }
      ok := signer.validateSignature(a, b.value);
    }
  }

  /** A message that was never signed (or whose signature is empty, "0"
      included) is never valid, whatever its fields and key. */
  lemma UnsignedNeverValid(signer: Signer, fields: seq<string>, key: string, stored: Option<string>)
    requires IsEmptyOrNull(stored)
    ensures !Verdict(signer, fields, key, stored)
  {
  }

  /** Round trip: when the computed signature is not empty and signatures are
      compared by equality, a message signed over `fields` is valid for the
      same fields and key. */
  lemma SignThenValid(signer: Signer, fields: seq<string>, key: string)
    requires ComparesByEquality(signer)
    requires !IsEmpty(SignatureOf(signer, fields, key))
    ensures Verdict(signer, fields, key, Some(SignatureOf(signer, fields, key)))
  {
  }

  /** The round trip is exact: under equality comparison a message is valid
      precisely when it carries the non-empty signature of its current
      fields. */
  lemma ValidIffCarriesOwnSignature(signer: Signer, fields: seq<string>, key: string, stored: Option<string>)
    requires ComparesByEquality(signer)
    ensures Verdict(signer, fields, key, stored) <==>
              !IsEmpty(SignatureOf(signer, fields, key)) && stored == Some(SignatureOf(signer, fields, key))
  {
  }

  /** Tampering: a message signed over `fields` and then changed to
      `tampered` is not valid, when the hash is injective and the change
      reaches the joined text. */
  lemma TamperedNotValid(signer: Signer, fields: seq<string>, tampered: seq<string>, key: string)
    requires ComparesByEquality(signer) && HashInjective(signer, key)
    requires Join(tampered, signer.separator) != Join(fields, signer.separator)
    ensures !Verdict(signer, tampered, key, Some(SignatureOf(signer, fields, key)))
  {
  }

  /** Changing any one field after signing is noticed, when the hash is
      injective: the change always reaches the joined text. */
  lemma {:induction false} OneFieldTamperedNotValid(signer: Signer, fields: seq<string>, i: nat, v: string, key: string)
    requires ComparesByEquality(signer) && HashInjective(signer, key)
    requires i < |fields| && v != fields[i]
    ensures !Verdict(signer, fields[i := v], key, Some(SignatureOf(signer, fields, key)))
  {
    OneFieldChangesJoin(fields, i, v, signer.separator);
    TamperedNotValid(signer, fields, fields[i := v], key);
  }

  /** What the signature cannot notice: moving a separator into a field
      (here, merging two neighbouring fields into one that contains the
      separator) leaves a signed message valid, whatever the hash. */
  lemma SeparatorShiftUndetected(signer: Signer, key: string)
    requires ComparesByEquality(signer)
    requires !IsEmpty(SignatureOf(signer, ["a", "b"], key))
    ensures Verdict(signer, ["a" + signer.separator + "b"], key, Some(SignatureOf(signer, ["a", "b"], key)))
  {
    SeparatorCollision(signer.separator);
  }

  /** Signing then validating without a change in between succeeds (under
      the round-trip assumptions), and validating leaves the signature as
      `sign` stored it. */
  method SignThenIsValid(m: Message, signer: Signer, fields: seq<string>, key: string) returns (ok: bool)
    requires ComparesByEquality(signer)
    requires !IsEmpty(SignatureOf(signer, fields, key))
    modifies m
    ensures ok
    ensures m.signature == Some(SignatureOf(signer, fields, key))
  {
    m.Sign(signer, fields, key);
    ok := m.IsValid(signer, fields, key);
  }
}
