/**
 * The records of the `cert` package that the output formatter prints: what the checker
 * learned about one host's certificate, the hosts it could not check, and both lists
 * together.
 */
module Cert {

  /** A `time.Time`: seconds since the Unix epoch and the nanoseconds within that second. */
  datatype Instant = Instant(seconds: int, nanos: nat)

  /** `cert.CertificateInfo`. */
  datatype CertificateInfo = CertificateInfo(
    host: string,
    commonName: string,
    dnsNames: seq<string>,
    notBefore: Instant,
    notAfter: Instant,
    publicKeyAlgorithm: string,
    issuer: string)

  /** `cert.ErrorInfo`: a host whose certificate could not be retrieved, and why. */
  datatype ErrorInfo = ErrorInfo(host: string, error: string)

  /** `cert.Result`: the certificates retrieved and the hosts that failed, in order. */
  datatype Result = Result(certificates: seq<CertificateInfo>, errors: seq<ErrorInfo>)
}
