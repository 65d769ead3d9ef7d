/** The signing primitives every message relies on. A signature is a keyed
    hash over the message's signature fields joined into one string with a
    fixed separator. The hash and the comparison of two signatures are not
    part of this model, so a `Signer` carries them as two functions about
    which nothing is known beyond their signatures; being functions, both are
    deterministic. The join is modelled exactly, because it decides which
    changes to a message the signature can notice at all. */
module Security {

  /** The separator placed between fields, the keyed hash over the joined
      fields, and `Security::validate_signature`. */
  datatype Signer = Signer(
    separator: string,
    hmac: (string, string) -> string,
    validateSignature: (string, string) -> bool)

  /** The fields in order, with `sep` between neighbours. */
  function Join(fields: seq<string>, sep: string): string {
    if |fields| == 0 then ""
    else if |fields| == 1 then fields[0]
    else fields[0] + sep + Join(fields[1..], sep)
  }

  /** `Security::get_signature`: the keyed hash of the joined fields. */
  function SignatureOf(signer: Signer, fields: seq<string>, key: string): string {
    signer.hmac(Join(fields, signer.separator), key)
  }

  /** The assumption under which signatures round-trip: comparing two
      signatures is plain string equality. */
  ghost predicate ComparesByEquality(signer: Signer) {
    forall a, b :: signer.validateSignature(a, b) <==> a == b
  }

  /** The assumption that makes tampering detectable: under `key`, different
      joined texts never share a hash. */
  ghost predicate HashInjective(signer: Signer, key: string) {
    forall a, b :: signer.hmac(a, key) == signer.hmac(b, key) ==> a == b
  }

  /** What the joined text holds before the field at a given position. */
  function JoinedBefore(front: seq<string>, sep: string): string {
    if front == [] then "" else Join(front, sep) + sep
  }

  /** What the joined text holds after the field at a given position. */
  function JoinedAfter(back: seq<string>, sep: string): string {
    if back == [] then "" else sep + Join(back, sep)
  }

  /** A field sits in the joined text between what its neighbours join to,
      unchanged. */
  lemma {:induction false} JoinAround(front: seq<string>, x: string, back: seq<string>, sep: string)
    ensures Join(front + [x] + back, sep) == JoinedBefore(front, sep) + x + JoinedAfter(back, sep)
  {
    if front == [] {
      assert front + [x] + back == [x] + back;
      if back != [] {
        assert ([x] + back)[1..] == back;
      }
    } else {
      var all := front + [x] + back;
      assert all[0] == front[0];
      assert all[1..] == front[1..] + [x] + back;
      JoinAround(front[1..], x, back, sep);
      if front[1..] == [] {
        assert front == [front[0]];
      } else {
        assert Join(front, sep) == front[0] + sep + Join(front[1..], sep);
      }
    }
  }

  /** Changing one field changes the joined text, whatever the field values
      and the separator. */
  lemma OneFieldChangesJoin(fields: seq<string>, i: nat, v: string, sep: string)
    requires i < |fields| && v != fields[i]
    ensures Join(fields[i := v], sep) != Join(fields, sep)
  {
    var front, back := fields[..i], fields[i + 1..];
    assert fields == front + [fields[i]] + back;
    assert fields[i := v] == front + [v] + back;
    JoinAround(front, fields[i], back, sep);
    JoinAround(front, v, back, sep);
    CancelAround(JoinedBefore(front, sep), v, fields[i], JoinedAfter(back, sep));
  }

  /** Texts that agree around a middle part agree on the middle part. */
  lemma CancelAround(p: string, x: string, y: string, q: string)
    ensures p + x + q == p + y + q ==> x == y
  {
    if p + x + q == p + y + q {
      assert |x| == |y|;
      assert (p + x + q)[|p|..|p| + |x|] == x;
      assert (p + y + q)[|p|..|p| + |y|] == y;
    }
  }

  /** The join is not injective: a field that contains the separator joins
      to the same text as the two fields on either side of it. */
  lemma SeparatorCollision(sep: string)
    ensures ["a" + sep + "b"] != ["a", "b"]
    ensures Join(["a" + sep + "b"], sep) == Join(["a", "b"], sep)
  {
    assert ["a", "b"][1..] == ["b"];
  }
}
