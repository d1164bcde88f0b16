/** Certificates, distinguished names and the Java exceptions the signing
    code can observe. Certificates are opaque: two certificates are equal
    exactly when their encodings are, as for `X509Certificate.equals`. */
module Certificates {
  import opened Outcomes

  type Bytes = seq<bv8>

  datatype Certificate = Certificate(encoded: Bytes)

  /** An attribute type of a distinguished name, by object identifier. */
  datatype Oid = Oid(arcs: seq<nat>)

  /** The common-name attribute type, 2.5.4.3 (BCStyle.CN). */
  const CommonNameOid: Oid := Oid([2, 5, 4, 3])

  /** One attribute of a relative distinguished name; `value` is the
      attribute value as BouncyCastle holds it, before string rendering. */
  datatype Attribute = Attribute(oid: Oid, value: string)

  /** A relative distinguished name: one or more attributes (several for a
      multi-valued RDN such as `CN=a+O=b`), in encoded order. */
  datatype Rdn = Rdn(attributes: seq<Attribute>)

  datatype Name = Name(rdns: seq<Rdn>)

  /** The exceptions a call may raise. `VmError` stands for a
      `java.lang.Error`, which `catch (ex: Exception)` does not catch. */
  datatype Throwable =
    | SignatureValidationException(message: string, cause: Option<Throwable>)
    | CertPathBuilderException(message: string)
    | IllegalStateException(message: string)
    | CertificateException(message: string)
    | OtherException(className: string, message: string)
    | VmError(className: string)
}
