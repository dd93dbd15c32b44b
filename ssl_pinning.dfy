/**
 * `SSLPinning`: the two pinning decisions. Certificate pinning compares the
 * leaf certificate's bytes with a local certificate; public-key pinning scans
 * the chain and hashes each key's SubjectPublicKeyInfo. SHA-256 and base64 are
 * parameters of the model, not definitions of it.
 */
module SslPinning {
  import opened Wrappers
  import opened Bytes

  /** A certificate's DER bytes and the external representation of its public key, when one can be extracted. */
  datatype Certificate = Certificate(data: Bytes, publicKey: Option<Bytes>)

  /** A server trust: the chain presented, leaf first, and whether the platform's evaluation accepts it. */
  datatype ServerTrust = ServerTrust(chain: seq<Certificate>, evaluates: bool)

  datatype SSLPinning =
    | CertificatePinning(certificate: Certificate)
    | PublicKeyPinning(hashes: seq<string>, domain: Option<string>)

  /**
   * The DER prefix of an RSA-2048 SubjectPublicKeyInfo (section 4.1.2.7 of
   * RFC 5280): a SEQUENCE of 0x122 bytes, the rsaEncryption AlgorithmIdentifier
   * with NULL parameters, and a BIT STRING of 0x10F bytes with no unused bits.
   */
  const Rsa2048Asn1Header: Bytes := [
    0x30, 0x82, 0x01, 0x22, 0x30, 0x0D, 0x06, 0x09, 0x2A, 0x86, 0x48, 0x86,
    0xF7, 0x0D, 0x01, 0x01, 0x01, 0x05, 0x00, 0x03, 0x82, 0x01, 0x0F, 0x00
  ]

  /**
   * The header's two DER lengths describe the bytes that follow them exactly
   * when the key is 270 bytes long, the size of a PKCS #1 RSA-2048 public key.
   */
  lemma HeaderLengths(key: Bytes)
    ensures |Rsa2048Asn1Header| == 24
    ensures (Rsa2048Asn1Header[2] as int) * 256 + Rsa2048Asn1Header[3] == |Rsa2048Asn1Header| - 4 + |key| <==> |key| == 270
    ensures (Rsa2048Asn1Header[21] as int) * 256 + Rsa2048Asn1Header[22] == 1 + |key| <==> |key| == 270
  {
  }

  /** `cetificatePinning`: a leaf must exist, the trust must evaluate, and the leaf's bytes must equal the local ones. */
  function CertificatePinned(localCertificate: Certificate, serverTrust: ServerTrust): (pinned: bool)
    ensures pinned <==> |serverTrust.chain| > 0 && serverTrust.evaluates
                        && serverTrust.chain[0].data == localCertificate.data
  {
    if |serverTrust.chain| == 0 then false
    else
      var isServerTrusted := serverTrust.evaluates;
      var serverCertificateData := serverTrust.chain[0].data;
      isServerTrusted && serverCertificateData == localCertificate.data
  }

  /** Changing one byte of a pinned local certificate makes the same trust fail. */
  lemma OneByteFlips(localCertificate: Certificate, serverTrust: ServerTrust, i: nat, b: Byte)
    requires CertificatePinned(localCertificate, serverTrust)
    requires i < |localCertificate.data| && b != localCertificate.data[i]
    ensures !CertificatePinned(localCertificate.(data := localCertificate.data[i := b]), serverTrust)
  {
    assert serverTrust.chain[0].data[i] != localCertificate.data[i := b][i];
  }

  /** The input that is hashed for a key: the fixed header followed by the raw key bytes. */
  function HashInput(key: Bytes): (input: Bytes)
    ensures |input| == 24 + |key|
    ensures input[..24] == Rsa2048Asn1Header && input[24..] == key
  {
    Rsa2048Asn1Header + key
  }

  /** `hash`: base64 of the SHA-256 digest of the header followed by the key. */
  method Hash(data: Bytes, sha256: Bytes -> Bytes, base64: Bytes -> string) returns (keyHash: string)
    ensures keyHash == base64(sha256(HashInput(data)))
  {
    var keyWithHeader := Rsa2048Asn1Header;
    keyWithHeader := keyWithHeader + data;
    keyHash := base64(sha256(keyWithHeader));
  }

  /** Certificates 0..i all have an extractable key, and the key of certificate i hashes into the list. */
  ghost predicate MatchesAt(chain: seq<Certificate>, i: int, hashes: seq<string>, sha256: Bytes -> Bytes, base64: Bytes -> string)
  {
    && 0 <= i < |chain|
    && (forall j :: 0 <= j <= i ==> chain[j].publicKey.Some?)
    && base64(sha256(HashInput(chain[i].publicKey.value))) in hashes
  }

  /**
   * `publicKeyPinning`: walk the chain from the leaf; a certificate without an
   * extractable key ends the walk with false, a key whose hash is listed ends it
   * with true. The domain only installs an SSL policy on the trust, which this
   * decision never evaluates.
   */
  method PublicKeyPinned(serverTrust: ServerTrust, hashes: seq<string>, domain: Option<string>,
                         sha256: Bytes -> Bytes, base64: Bytes -> string) returns (pinned: bool)
    ensures pinned <==> exists i :: MatchesAt(serverTrust.chain, i, hashes, sha256, base64)
  {
    var chain := serverTrust.chain;
    for index := 0 to |chain|
      invariant forall j :: 0 <= j < index ==> chain[j].publicKey.Some?
      invariant forall j :: 0 <= j < index ==> !MatchesAt(chain, j, hashes, sha256, base64)
    {
      var certificate := chain[index];
      if certificate.publicKey.None? {
        assert forall i :: index <= i < |chain| ==> !MatchesAt(chain, i, hashes, sha256, base64);
        return false;
      }
      var keyHash := Hash(certificate.publicKey.value, sha256, base64);
      if keyHash in hashes {
        assert MatchesAt(chain, index, hashes, sha256, base64);
        return true;
      }
    }
    return false;
  }

  /** An empty chain or an empty hash list never pins. */
  lemma NothingToMatch(serverTrust: ServerTrust, hashes: seq<string>, sha256: Bytes -> Bytes, base64: Bytes -> string)
    requires serverTrust.chain == [] || hashes == []
    ensures !exists i :: MatchesAt(serverTrust.chain, i, hashes, sha256, base64)
  {
  }

  /**
   * A certificate without an extractable key, met before any match, rejects the
   * chain even when a later certificate's key is listed.
   */
  lemma MissingKeyBlocksLaterMatch(chain: seq<Certificate>, k: nat, hashes: seq<string>, sha256: Bytes -> Bytes, base64: Bytes -> string)
    requires k < |chain| && chain[k].publicKey.None?
    requires forall j :: 0 <= j < k ==> !MatchesAt(chain, j, hashes, sha256, base64)
    ensures !exists i :: MatchesAt(chain, i, hashes, sha256, base64)
  {
  }

  /** Whether the configured pinning accepts a trust, as the session delegate asks it. */
  ghost predicate Accepts(pinning: SSLPinning, serverTrust: ServerTrust, sha256: Bytes -> Bytes, base64: Bytes -> string)
  {
    match pinning
    case CertificatePinning(certificate) => CertificatePinned(certificate, serverTrust)
    case PublicKeyPinning(hashes, _) => exists i :: MatchesAt(serverTrust.chain, i, hashes, sha256, base64)
  }
}
