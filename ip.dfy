/** anonymize_ip_address (visit-notifications.php), on the packed bytes of
    an address: the last byte of an IPv4 address and the last 10 bytes of an
    IPv6 address are overwritten with zeros. Parsing and printing the text
    forms (filter_var, inet_pton, inet_ntop) belong to the host and are
    parameters of the model. */
module Ip {
  import opened Wrappers
  import opened Php

  datatype RawAddress = V4(bytes: seq<bv8>) | V6(bytes: seq<bv8>)

  /** A packed address: 4 bytes for IPv4, 16 for IPv6. */
  type Address = a: RawAddress | (a.V4? ==> |a.bytes| == 4) && (a.V6? ==> |a.bytes| == 16)
    witness V4([0, 0, 0, 0])

  /** How many trailing bytes the plugin overwrites. */
  function Overwrite(a: Address): nat {
    if a.V4? then 1 else 10
  }

  function Zeros(n: nat): (z: seq<bv8>)
    ensures |z| == n && forall i :: 0 <= i < n ==> z[i] == 0
  {
    if n == 0 then [] else Zeros(n - 1) + [0]
  }

  /** The byte-level transform: keep all but the last Overwrite(a) bytes and pad with zeros. */
  function Anonymize(a: Address): (r: Address)
    ensures r.V4? == a.V4?
    ensures |r.bytes| == |a.bytes|
    ensures forall i :: 0 <= i < |a.bytes| - Overwrite(a) ==> r.bytes[i] == a.bytes[i]
    ensures forall i :: |a.bytes| - Overwrite(a) <= i < |a.bytes| ==> r.bytes[i] == 0
  {
    var keep := a.bytes[..|a.bytes| - Overwrite(a)];
    match a
    case V4(_) => V4(keep + Zeros(1))
    case V6(_) => V6(keep + Zeros(10))
  }

  /** The host's address parser and printer: filter_var(FILTER_VALIDATE_IP) with inet_pton, and inet_ntop. */
  datatype AddressCodec = AddressCodec(parse: string -> Option<Address>, format: Address -> string)

  /** anonymize_ip_address on text: a non-address fails (unpack() receives
      false and strict typing raises a TypeError). */
  function AnonymizeIpAddress(codec: AddressCodec, ip: string): (r: Result<string, Fault>)
    ensures r.Failure? <==> codec.parse(ip).None?
    ensures r.Failure? ==> r.error == InvalidIpAddress
    ensures r.Success? ==> r.value == codec.format(Anonymize(codec.parse(ip).value))
  {
    match codec.parse(ip)
    case None => Failure(InvalidIpAddress)
    case Some(a) => Success(codec.format(Anonymize(a)))
  }

  /** inet_pton reads back what inet_ntop printed. */
  ghost predicate RoundTrips(codec: AddressCodec) {
    forall a :: codec.parse(codec.format(a)) == Some(a)
  }

  /** Anonymising an anonymised address changes nothing. */
  lemma AnonymizeIdempotent(a: Address)
    ensures Anonymize(Anonymize(a)) == Anonymize(a)
  {
    var r := Anonymize(a);
    assert Anonymize(r).bytes == r.bytes;
  }

  /** Two addresses anonymise alike exactly when they are of the same family
      and agree on every byte that is kept. */
  lemma AnonymizeMerges(a: Address, b: Address)
    ensures Anonymize(a) == Anonymize(b) <==>
      a.V4? == b.V4? && a.bytes[..|a.bytes| - Overwrite(a)] == b.bytes[..|b.bytes| - Overwrite(b)]
  {
    var ra, rb := Anonymize(a), Anonymize(b);
    var n := |a.bytes| - Overwrite(a);
    if ra == rb {
      assert a.bytes[..n] == ra.bytes[..n] == rb.bytes[..n] == b.bytes[..n];
    }
    if a.V4? == b.V4? && a.bytes[..n] == b.bytes[..|b.bytes| - Overwrite(b)] {
      assert forall i :: 0 <= i < n ==> a.bytes[i] == a.bytes[..n][i] == b.bytes[i];
      assert ra.bytes == rb.bytes;
    }
  }

  /** On text: with a printer the parser reads back, anonymising the
      anonymised text gives the same text. */
  lemma AnonymizeTextIdempotent(codec: AddressCodec, ip: string)
    requires RoundTrips(codec) && codec.parse(ip).Some?
    ensures AnonymizeIpAddress(codec, ip).Success?
    ensures AnonymizeIpAddress(codec, AnonymizeIpAddress(codec, ip).value) == AnonymizeIpAddress(codec, ip)
  {
    var a := codec.parse(ip).value;
    assert codec.parse(codec.format(Anonymize(a))) == Some(Anonymize(a));
    AnonymizeIdempotent(a);
  }
}
