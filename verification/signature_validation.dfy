/** `SignatureValidator.verifySignature`: a fixed pipeline of stages over a
    detached CMS signed-data container (RFC 5652), in source order
      parse, drain, embedded certificates, candidate store, first signer,
      PKIX path (RFC 5280 section 6, revocation off), exact certificate,
      CN/SAN suffix, signature,
    where the first failing stage ends the call and every failure leaves
    as one `SignatureValidationException`. The BouncyCastle/JCA calls are
    the fields of `Crypto`, taken as given. */
module SignatureValidation {
  import opened Outcomes
  import opened Certificates
  import opened ValidatorBuilder
  import SubjectAltNames
  import IdentityMatch

  const NoSignerMessage: string := "No signing certificate found"
  const CertificateMismatchMessage: string := "Signing certificate does not match expected certificate"
  const CnMismatchMessage: string := "Signing certificate does not match expected CN"
  const SignatureMismatchMessage: string := "The signature does not match"
  const CertPathMessage: string := "The cert path cannot be validated"
  const GenericMessage: string := "Error validating signature"

  /** The exceptions JCA raises for a null signer issuer, an empty
      trust-anchor set (`PKIXBuilderParameters` refuses one) and an empty
      certificate path. */
  const NullIssuer: Throwable := OtherException("java.lang.NullPointerException", "signer issuer is null")
  const EmptyTrustAnchors: Throwable :=
    OtherException("java.security.InvalidAlgorithmParameterException", "the trustAnchors parameter must be non-empty")
  const EmptyPath: Throwable := OtherException("java.lang.IndexOutOfBoundsException", "certificate path is empty")

  /** The signer identifier of RFC 5652 section 5.3 (issuer and serial; a
      subject-key-identifier signer has neither). */
  datatype SignerId = SignerId(issuer: Option<Name>, serialNumber: Option<int>)

  datatype SignerInfo = SignerInfo(sid: SignerId, signature: Bytes)

  /** A parsed container and the outcome of each of its lazy accessors:
      `signedContent.drain()`, `certificates`, `signerInfos.signers`. */
  datatype Envelope = Envelope(
    drained: Result<Bytes, Throwable>,
    certificates: Result<seq<Certificate>, Throwable>,
    signers: Result<seq<SignerInfo>, Throwable>)

  datatype CertStore = CertStore(certificates: seq<Certificate>)

  /** The `X509CertSelector` naming the certificate to build a path to. */
  datatype CertSelector = CertSelector(issuer: Name, serialNumber: Option<int>)

  /** `PKIXBuilderParameters` as `checkCertPath` fills them in. */
  datatype PathParameters = PathParameters(
    trustAnchors: seq<Certificate>,
    target: CertSelector,
    certStores: seq<CertStore>,
    revocationEnabled: bool)

  /** The library calls, taken as given:
      parse             `CMSSignedDataParser` over (content, signature)
      storeFailure      a failure of `JcaCertStoreBuilder` on the candidates
      buildPath         `CertPathBuilder("PKIX").build`, the path's certificates
      subject           the subject RDNs of `JcaX509CertificateHolder`
      valueToString     `IETFUtils.valueToString`
      subjectAltNames   `X509Certificate.getSubjectAlternativeNames`
      readAsn1          `ASN1InputStream.readObject`
      verify            `SignerInformation.verify` with a verifier for the
                        certificate, given the content digest drained from
                        the container */
  datatype Crypto = Crypto(
    parse: (Bytes, Bytes) -> Result<Envelope, Throwable>,
    storeFailure: seq<Certificate> -> Option<Throwable>,
    buildPath: PathParameters -> Result<seq<Certificate>, Throwable>,
    subject: Certificate -> Result<seq<Rdn>, Throwable>,
    valueToString: string -> string,
    subjectAltNames: Certificate -> SubjectAltNames.SanLookup,
    readAsn1: Bytes -> SubjectAltNames.ReadOutcome,
    verify: Verifier)

  /** The signature check: the signer, the digest of the signed content
      and the certificate whose key is used. */
  type Verifier = (SignerInfo, Bytes, Certificate) -> Result<bool, Throwable>

  /** The candidate store: the trust anchors' certificates, then the
      certificates embedded in the container. Built fresh per call. */
  function CandidateStore(trustAnchors: seq<Certificate>, embedded: seq<Certificate>): (store: CertStore)
    ensures forall c :: c in store.certificates <==> c in trustAnchors || c in embedded
    ensures |store.certificates| == |trustAnchors| + |embedded|
  {
    CertStore(trustAnchors + embedded)
  }

  /** `JcaCertStoreBuilder` over the candidates: the store, or the
      library's failure. */
  function BuildStore(trustAnchors: seq<Certificate>, embedded: seq<Certificate>, crypto: Crypto): (r: Result<CertStore, Throwable>)
    ensures r.Success? <==> crypto.storeFailure(trustAnchors + embedded).None?
    ensures r.Success? ==> r.value == CandidateStore(trustAnchors, embedded)
    ensures r.Failure? ==> crypto.storeFailure(trustAnchors + embedded) == Some(r.error)
  {
    var store := CandidateStore(trustAnchors, embedded);
    match crypto.storeFailure(store.certificates)
    case Some(t) => Failure(t)
    case None => Success(store)
  }

  /** What the stages before signer selection hand on: the candidate
      store, the signers and the digest of the content as drained. */
  datatype Parsed = Parsed(store: CertStore, signers: seq<SignerInfo>, digest: Bytes)

  /** Parse, drain the content, read the embedded certificates, build the
      candidate store, read the signers, in source order. */
  function ParseStage(v: Validator, content: Bytes, signature: Bytes, crypto: Crypto): (r: Result<Parsed, Throwable>)
    ensures r.Success? <==>
      && crypto.parse(content, signature).Success?
      && crypto.parse(content, signature).value.drained.Success?
      && crypto.parse(content, signature).value.certificates.Success?
      && crypto.storeFailure(v.trustAnchors + crypto.parse(content, signature).value.certificates.value).None?
      && crypto.parse(content, signature).value.signers.Success?
    ensures r.Success? ==>
      && r.value.signers == crypto.parse(content, signature).value.signers.value
      && r.value.store.certificates == v.trustAnchors + crypto.parse(content, signature).value.certificates.value
      && r.value.digest == crypto.parse(content, signature).value.drained.value
    ensures crypto.parse(content, signature).Failure? ==> r == Failure(crypto.parse(content, signature).error)
    ensures crypto.parse(content, signature).Success? && crypto.parse(content, signature).value.drained.Failure? ==>
      r == Failure(crypto.parse(content, signature).value.drained.error)
    ensures (crypto.parse(content, signature).Success? && crypto.parse(content, signature).value.drained.Success?
             && crypto.parse(content, signature).value.certificates.Success?
             && crypto.storeFailure(v.trustAnchors + crypto.parse(content, signature).value.certificates.value).Some?) ==>
      r == Failure(crypto.storeFailure(v.trustAnchors + crypto.parse(content, signature).value.certificates.value).value)
  {
    var envelope :- crypto.parse(content, signature);
    var digest :- envelope.drained;
    var embedded :- envelope.certificates;
    var store :- BuildStore(v.trustAnchors, embedded, crypto);
    var signers :- envelope.signers;
    Success(Parsed(store, signers, digest))
  }

  /** `signerInfos.signers.firstOrNull() ?: throw ...`: only the first
      signer is ever used. */
  function FirstSigner(signers: seq<SignerInfo>): (r: Result<SignerInfo, Throwable>)
    ensures r.Failure? <==> |signers| == 0
    ensures r.Failure? ==> r.error == SignatureValidationException(NoSignerMessage, None)
    ensures r.Success? ==> r.value == signers[0]
  {
    if |signers| == 0 then Failure(SignatureValidationException(NoSignerMessage, None))
    else Success(signers[0])
  }

  /** The parameters `checkCertPath` builds: the target is selected by the
      signer's issuer and serial number, the trust anchors are the
      validator's, the only store is the candidate store and revocation is
      disabled. A null issuer fails first, then an empty anchor set. */
  function CertPathRequest(trustAnchors: seq<Certificate>, sid: SignerId, store: CertStore): (r: Result<PathParameters, Throwable>)
    ensures r.Success? <==> sid.issuer.Some? && |trustAnchors| > 0
    ensures sid.issuer.None? ==> r == Failure(NullIssuer)
    ensures sid.issuer.Some? && |trustAnchors| == 0 ==> r == Failure(EmptyTrustAnchors)
    ensures r.Success? ==> r.value.target == CertSelector(sid.issuer.value, sid.serialNumber)
    ensures r.Success? ==> r.value.trustAnchors == trustAnchors && r.value.certStores == [store]
    ensures r.Success? ==> !r.value.revocationEnabled
  {
    match sid.issuer
    case None => Failure(NullIssuer)
    case Some(issuer) =>
      if |trustAnchors| == 0 then Failure(EmptyTrustAnchors)
      else Success(PathParameters(trustAnchors, CertSelector(issuer, sid.serialNumber), [store], false))
  }

  /** `checkCertPath`: the request, then the PKIX search over it. */
  function CheckCertPath(trustAnchors: seq<Certificate>, sid: SignerId, store: CertStore, crypto: Crypto): (r: Result<seq<Certificate>, Throwable>)
    ensures sid.issuer.None? ==> r == Failure(NullIssuer)
    ensures sid.issuer.Some? && |trustAnchors| == 0 ==> r == Failure(EmptyTrustAnchors)
    ensures sid.issuer.Some? && |trustAnchors| > 0 ==>
      r == crypto.buildPath(PathParameters(trustAnchors, CertSelector(sid.issuer.value, sid.serialNumber), [store], false))
  {
    var params :- CertPathRequest(trustAnchors, sid, store);
    crypto.buildPath(params)
  }

  /** `result.certPath.certificates[0]` */
  function FirstCertificate(path: seq<Certificate>): (r: Result<Certificate, Throwable>)
    ensures r.Success? <==> |path| > 0
    ensures r.Success? ==> r.value == path[0]
  {
    if |path| == 0 then Failure(EmptyPath) else Success(path[0])
  }

  /** The exact-certificate stage: passes when none is configured. */
  function CheckExpectedCertificate(expected: Option<Certificate>, signing: Certificate): (r: Result<(), Throwable>)
    ensures r.Success? <==> expected.None? || expected.value == signing
    ensures r.Failure? ==> r.error == SignatureValidationException(CertificateMismatchMessage, None)
  {
    if expected.Some? && expected.value != signing then Failure(SignatureValidationException(CertificateMismatchMessage, None))
    else Success(())
  }

  /** The names the CN constraint is tested against for a certificate
      whose subject could be read: the CN strings under the given reading,
      then the SAN names. */
  function CandidateNames(reading: IdentityMatch.CnReading, subject: seq<Rdn>, signing: Certificate, crypto: Crypto): (names: seq<string>)
    ensures forall n :: n in names <==>
      || n in IdentityMatch.CommonNamesBy(reading, subject, crypto.valueToString)
      || n in SubjectAltNames.SubjectAlternativeNames(crypto.subjectAltNames(signing), crypto.readAsn1)
  {
    IdentityMatch.AcceptableNames(
      IdentityMatch.CommonNamesBy(reading, subject, crypto.valueToString),
      SubjectAltNames.SubjectAlternativeNames(crypto.subjectAltNames(signing), crypto.readAsn1))
  }

  /** The CN/SAN stage: skipped without a matching string; otherwise passes
      iff some CN value or SAN name ends with it. */
  function CheckCnMatching(reading: IdentityMatch.CnReading, matching: Option<string>, signing: Certificate, crypto: Crypto): (r: Result<(), Throwable>)
    ensures matching.None? ==> r.Success?
    ensures matching.Some? && crypto.subject(signing).Failure? ==> r == Failure(crypto.subject(signing).error)
    ensures matching.Some? && crypto.subject(signing).Success? ==>
      (r.Success? <==> exists n :: n in CandidateNames(reading, crypto.subject(signing).value, signing, crypto) && IdentityMatch.EndsWith(n, matching.value))
    ensures matching.Some? && crypto.subject(signing).Success? && r.Failure? ==>
      r.error == SignatureValidationException(CnMismatchMessage, None)
  {
    match matching
    case None => Success(())
    case Some(suffix) =>
      var subject :- crypto.subject(signing);
      if IdentityMatch.AnyEndsWith(CandidateNames(reading, subject, signing, crypto), suffix) then Success(())
      else Failure(SignatureValidationException(CnMismatchMessage, None))
  }

  /** The signature stage: `false` is a mismatch, an exception passes on. */
  function CheckSignature(signer: SignerInfo, digest: Bytes, signing: Certificate, crypto: Crypto): (r: Result<(), Throwable>)
    ensures r.Success? <==> crypto.verify(signer, digest, signing) == Success(true)
    ensures crypto.verify(signer, digest, signing) == Success(false) ==> r == Failure(SignatureValidationException(SignatureMismatchMessage, None))
    ensures crypto.verify(signer, digest, signing).Failure? ==> r == Failure(crypto.verify(signer, digest, signing).error)
  {
    var ok :- crypto.verify(signer, digest, signing);
    if ok then Success(()) else Failure(SignatureValidationException(SignatureMismatchMessage, None))
  }

  /** The body of the `try` block, with the CN stage under the given
      reading: a parse-stage failure passes on, no signer is the fixed
      error, and success needs a built path whose first certificate passes
      the identity checks and verifies the first signer's signature. */
  function Stages(reading: IdentityMatch.CnReading, v: Validator, content: Bytes, signature: Bytes, crypto: Crypto): (r: Result<(), Throwable>)
    ensures ParseStage(v, content, signature, crypto).Failure? ==> r == Failure(ParseStage(v, content, signature, crypto).error)
    ensures ParseStage(v, content, signature, crypto).Success? && ParseStage(v, content, signature, crypto).value.signers == [] ==>
      r == Failure(SignatureValidationException(NoSignerMessage, None))
    ensures r.Success? ==> exists signer, digest, signing ::
      (&& PathBuilt(v, content, signature, crypto, signer, digest, signing)
       && CheckExpectedCertificate(v.signingCertificate, signing).Success?
       && CheckCnMatching(reading, v.matchingString, signing, crypto).Success?
       && crypto.verify(signer, digest, signing) == Success(true))
  {
    var parsed :- ParseStage(v, content, signature, crypto);
    var signer :- FirstSigner(parsed.signers);
    var path :- CheckCertPath(v.trustAnchors, signer.sid, parsed.store, crypto);
    var signing :- FirstCertificate(path);
    var _ :- CheckExpectedCertificate(v.signingCertificate, signing);
    var _ :- CheckCnMatching(reading, v.matchingString, signing, crypto);
    assert PathBuilt(v, content, signature, crypto, signer, parsed.digest, signing);
    CheckSignature(signer, parsed.digest, signing, crypto)
  }

  predicate Normalised(t: Throwable) {
    t.SignatureValidationException? || t.VmError?
  }

  /** The three `catch` clauses: a path-builder failure becomes the fixed
      cert-path error (its cause dropped), a validation exception is
      rethrown as is, any other exception is wrapped with it as the cause.
      A `java.lang.Error` is not an `Exception` and passes untouched. */
  function Normalise(t: Throwable): (r: Throwable)
    ensures Normalised(r)
    ensures Normalised(t) ==> r == t
    ensures t.CertPathBuilderException? ==> r == SignatureValidationException(CertPathMessage, None)
    ensures !Normalised(t) && !t.CertPathBuilderException? ==> r == SignatureValidationException(GenericMessage, Some(t))
  {
    match t
    case CertPathBuilderException(_) => SignatureValidationException(CertPathMessage, None)
    case SignatureValidationException(_, _) => t
    case VmError(_) => t
    case _ => SignatureValidationException(GenericMessage, Some(t))
  }

  /** `verifySignature(content, signature)`, with the CN stage as the
      source reads it: returns normally or throws a
      `SignatureValidationException` (or a JVM error). */
  function VerifySignature(v: Validator, content: Bytes, signature: Bytes, crypto: Crypto): (r: Result<(), Throwable>)
    ensures r.Failure? ==> Normalised(r.error)
    ensures r.Failure? && r.error.VmError? ==> Stages(IdentityMatch.FirstAttributeOfCnRdn, v, content, signature, crypto) == r
    ensures r.Success? <==> Stages(IdentityMatch.FirstAttributeOfCnRdn, v, content, signature, crypto).Success?
  {
    match Stages(IdentityMatch.FirstAttributeOfCnRdn, v, content, signature, crypto)
    case Success(_) => Success(())
    case Failure(t) => Failure(Normalise(t))
  }

  /** `verifySignature` with the CN stage reading CN attributes only. */
  function CorrectedVerifySignature(v: Validator, content: Bytes, signature: Bytes, crypto: Crypto): (r: Result<(), Throwable>)
    ensures r.Failure? ==> Normalised(r.error)
    ensures r.Success? <==> Stages(IdentityMatch.CnAttributesOnly, v, content, signature, crypto).Success?
  {
    match Stages(IdentityMatch.CnAttributesOnly, v, content, signature, crypto)
    case Success(_) => Success(())
    case Failure(t) => Failure(Normalise(t))
  }

  /** While every subject the decoder returns has single-valued RDNs, the
      corrected pipeline decides exactly as the shipped one. */
  lemma CorrectedAgreesOnSingleValuedSubjects(v: Validator, content: Bytes, signature: Bytes, crypto: Crypto)
    requires forall c :: crypto.subject(c).Success? ==> IdentityMatch.SingleValuedRdns(crypto.subject(c).value)
    ensures CorrectedVerifySignature(v, content, signature, crypto) == VerifySignature(v, content, signature, crypto)
  {
    forall signing: Certificate
      ensures CheckCnMatching(IdentityMatch.CnAttributesOnly, v.matchingString, signing, crypto)
           == CheckCnMatching(IdentityMatch.FirstAttributeOfCnRdn, v.matchingString, signing, crypto)
    {
      if crypto.subject(signing).Success? {
        IdentityMatch.CommonNamesAgreeOnSingleValuedRdns(crypto.subject(signing).value, crypto.valueToString);
      }
    }
  }

  /** The CN stage itself differs between the readings on the multi-valued
      RDN `O=example.com+CN=attacker.org` without SAN names: the shipped
      reading accepts the suffix "example.com", the corrected one refuses it. */
  lemma ReadingsDifferOnMultiValuedRdn(signing: Certificate, crypto: Crypto)
    requires crypto.subject(signing) == Success(IdentityMatch.MultiValuedSubject)
    requires SubjectAltNames.SubjectAlternativeNames(crypto.subjectAltNames(signing), crypto.readAsn1) == []
    ensures CheckCnMatching(IdentityMatch.FirstAttributeOfCnRdn, Some("example.com"), signing, crypto.(valueToString := s => s)).Success?
    ensures CheckCnMatching(IdentityMatch.CnAttributesOnly, Some("example.com"), signing, crypto.(valueToString := s => s))
         == Failure(SignatureValidationException(CnMismatchMessage, None))
  {
    var crypto' := crypto.(valueToString := s => s);
    IdentityMatch.AsWrittenMatchesNonCnAttribute();
    assert CandidateNames(IdentityMatch.FirstAttributeOfCnRdn, IdentityMatch.MultiValuedSubject, signing, crypto') == ["example.com"];
    assert CandidateNames(IdentityMatch.CnAttributesOnly, IdentityMatch.MultiValuedSubject, signing, crypto') == ["attacker.org"];
  }

  /** Normalising twice changes nothing: an already-normalised error is
      rethrown unchanged. */
  lemma NormaliseIdempotent(t: Throwable)
    ensures Normalise(Normalise(t)) == Normalise(t)
  {
  }

  /** The success condition stated stage by stage, as conjunctions over
      the oracles' answers. */
  ghost predicate Accepted(v: Validator, content: Bytes, signature: Bytes, crypto: Crypto) {
    var parsed := crypto.parse(content, signature);
    && parsed.Success?
    && parsed.value.drained.Success?
    && parsed.value.certificates.Success?
    && var candidates := v.trustAnchors + parsed.value.certificates.value;
    && crypto.storeFailure(candidates).None?
    && parsed.value.signers.Success?
    && |parsed.value.signers.value| > 0
    && var signer := parsed.value.signers.value[0];
    && signer.sid.issuer.Some?
    && |v.trustAnchors| > 0
    && var path := crypto.buildPath(PathParameters(v.trustAnchors, CertSelector(signer.sid.issuer.value, signer.sid.serialNumber), [CertStore(candidates)], false));
    && path.Success?
    && |path.value| > 0
    && var signing := path.value[0];
    && (v.signingCertificate.Some? ==> v.signingCertificate.value == signing)
    && (v.matchingString.Some? ==>
          && crypto.subject(signing).Success?
          && var cns := IdentityMatch.CommonNamesAsWritten(crypto.subject(signing).value, crypto.valueToString);
          && var sans := SubjectAltNames.SubjectAlternativeNames(crypto.subjectAltNames(signing), crypto.readAsn1);
          && ((exists i :: 0 <= i < |cns| && IdentityMatch.EndsWith(cns[i], v.matchingString.value))
              || (exists i :: 0 <= i < |sans| && IdentityMatch.EndsWith(sans[i], v.matchingString.value))))
    && crypto.verify(signer, parsed.value.drained.value, signing) == Success(true)
  }

  /** Success only if every stage passes, and every stage passing is
      success. */
  lemma VerifiedIffAccepted(v: Validator, content: Bytes, signature: Bytes, crypto: Crypto)
    ensures VerifySignature(v, content, signature, crypto).Success? <==> Accepted(v, content, signature, crypto)
  {
    var parsed := crypto.parse(content, signature);
    if parsed.Success? && parsed.value.certificates.Success? {
      var candidates := v.trustAnchors + parsed.value.certificates.value;
      if parsed.value.signers.Success? && |parsed.value.signers.value| > 0 {
        var signer := parsed.value.signers.value[0];
        if signer.sid.issuer.Some? && |v.trustAnchors| > 0 {
          var path := crypto.buildPath(PathParameters(v.trustAnchors, CertSelector(signer.sid.issuer.value, signer.sid.serialNumber), [CertStore(candidates)], false));
          if path.Success? && |path.value| > 0 && v.matchingString.Some? {
            var signing := path.value[0];
            if crypto.subject(signing).Success? {
              var cns := IdentityMatch.CommonNamesAsWritten(crypto.subject(signing).value, crypto.valueToString);
              var sans := SubjectAltNames.SubjectAlternativeNames(crypto.subjectAltNames(signing), crypto.readAsn1);
              IdentityMatch.NamesMatchIffCnOrSan(cns, sans, v.matchingString.value);
            }
          }
        }
      }
    }
  }

  /** No signer: the fixed error, raised before the path builder, the
      identity checks or the signature check are consulted. */
  lemma NoSignerFailsBeforePathBuilding(v: Validator, content: Bytes, signature: Bytes, crypto: Crypto,
                                        otherPathBuilder: PathParameters -> Result<seq<Certificate>, Throwable>,
                                        otherVerify: Verifier)
    requires ParseStage(v, content, signature, crypto).Success?
    requires ParseStage(v, content, signature, crypto).value.signers == []
    ensures VerifySignature(v, content, signature, crypto) == Failure(SignatureValidationException(NoSignerMessage, None))
    ensures VerifySignature(v, content, signature, crypto.(buildPath := otherPathBuilder, verify := otherVerify))
         == VerifySignature(v, content, signature, crypto)
  {
    assert ParseStage(v, content, signature, crypto.(buildPath := otherPathBuilder, verify := otherVerify))
        == ParseStage(v, content, signature, crypto);
  }

  /** A path-builder failure becomes the fixed cert-path error before the
      identity and signature stages are consulted. */
  lemma PathFailureFailsBeforeIdentityChecks(v: Validator, content: Bytes, signature: Bytes, crypto: Crypto, message: string,
                                             otherSubject: Certificate -> Result<seq<Rdn>, Throwable>,
                                             otherVerify: Verifier)
    requires ParseStage(v, content, signature, crypto).Success?
    requires var parsed := ParseStage(v, content, signature, crypto).value;
      |parsed.signers| > 0 && CheckCertPath(v.trustAnchors, parsed.signers[0].sid, parsed.store, crypto) == Failure(CertPathBuilderException(message))
    ensures VerifySignature(v, content, signature, crypto) == Failure(SignatureValidationException(CertPathMessage, None))
    ensures VerifySignature(v, content, signature, crypto.(subject := otherSubject, verify := otherVerify))
         == VerifySignature(v, content, signature, crypto)
  {
    assert ParseStage(v, content, signature, crypto.(subject := otherSubject, verify := otherVerify))
        == ParseStage(v, content, signature, crypto);
  }

  /** An empty trust-anchor set is refused by the JCA parameters before any
      search, so it surfaces as the generic wrapped error and not as a
      cert-path failure. */
  lemma EmptyTrustAnchorsGiveGenericError(v: Validator, content: Bytes, signature: Bytes, crypto: Crypto)
    requires v.trustAnchors == []
    requires ParseStage(v, content, signature, crypto).Success?
    requires var parsed := ParseStage(v, content, signature, crypto).value;
      |parsed.signers| > 0 && parsed.signers[0].sid.issuer.Some?
    ensures VerifySignature(v, content, signature, crypto) == Failure(SignatureValidationException(GenericMessage, Some(EmptyTrustAnchors)))
  {
  }

  /** The path as the stages after path building see it. */
  ghost predicate PathBuilt(v: Validator, content: Bytes, signature: Bytes, crypto: Crypto, signer: SignerInfo, digest: Bytes, signing: Certificate) {
    && ParseStage(v, content, signature, crypto).Success?
    && var parsed := ParseStage(v, content, signature, crypto).value;
    && parsed.digest == digest
    && |parsed.signers| > 0
    && signer == parsed.signers[0]
    && var path := CheckCertPath(v.trustAnchors, signer.sid, parsed.store, crypto);
    && path.Success? && |path.value| > 0 && path.value[0] == signing
  }

  /** A configured certificate that differs from the path's first
      certificate fails before the CN and signature stages. */
  lemma CertificateMismatchFailsBeforeCnAndSignature(v: Validator, content: Bytes, signature: Bytes, crypto: Crypto,
                                                     signer: SignerInfo, digest: Bytes, signing: Certificate,
                                                     otherSubject: Certificate -> Result<seq<Rdn>, Throwable>,
                                                     otherVerify: Verifier)
    requires PathBuilt(v, content, signature, crypto, signer, digest, signing)
    requires v.signingCertificate.Some? && v.signingCertificate.value != signing
    ensures VerifySignature(v, content, signature, crypto) == Failure(SignatureValidationException(CertificateMismatchMessage, None))
    ensures VerifySignature(v, content, signature, crypto.(subject := otherSubject, verify := otherVerify))
         == VerifySignature(v, content, signature, crypto)
  {
    var crypto' := crypto.(subject := otherSubject, verify := otherVerify);
    assert ParseStage(v, content, signature, crypto') == ParseStage(v, content, signature, crypto);
    var parsed := ParseStage(v, content, signature, crypto).value;
    assert CheckCertPath(v.trustAnchors, signer.sid, parsed.store, crypto') == CheckCertPath(v.trustAnchors, signer.sid, parsed.store, crypto);
  }

  /** With a matching string, a readable subject and no candidate name
      ending with it, the call fails before the signature is checked. */
  lemma CnMismatchFailsBeforeSignature(v: Validator, content: Bytes, signature: Bytes, crypto: Crypto,
                                       signer: SignerInfo, digest: Bytes, signing: Certificate,
                                       otherVerify: Verifier)
    requires PathBuilt(v, content, signature, crypto, signer, digest, signing)
    requires v.signingCertificate.None? || v.signingCertificate.value == signing
    requires v.matchingString.Some? && crypto.subject(signing).Success?
    requires forall n :: n in CandidateNames(IdentityMatch.FirstAttributeOfCnRdn, crypto.subject(signing).value, signing, crypto) ==> !IdentityMatch.EndsWith(n, v.matchingString.value)
    ensures VerifySignature(v, content, signature, crypto) == Failure(SignatureValidationException(CnMismatchMessage, None))
    ensures VerifySignature(v, content, signature, crypto.(verify := otherVerify)) == VerifySignature(v, content, signature, crypto)
  {
    var crypto' := crypto.(verify := otherVerify);
    assert ParseStage(v, content, signature, crypto') == ParseStage(v, content, signature, crypto);
    var parsed := ParseStage(v, content, signature, crypto).value;
    assert CheckCertPath(v.trustAnchors, signer.sid, parsed.store, crypto') == CheckCertPath(v.trustAnchors, signer.sid, parsed.store, crypto);
    assert CheckCnMatching(IdentityMatch.FirstAttributeOfCnRdn, v.matchingString, signing, crypto')
        == CheckCnMatching(IdentityMatch.FirstAttributeOfCnRdn, v.matchingString, signing, crypto);
  }

  /** Once every earlier stage passes, the signature decides: `false` is
      the mismatch error, `true` is success. */
  lemma SignatureDecidesLast(v: Validator, content: Bytes, signature: Bytes, crypto: Crypto, signer: SignerInfo, digest: Bytes, signing: Certificate)
    requires PathBuilt(v, content, signature, crypto, signer, digest, signing)
    requires CheckExpectedCertificate(v.signingCertificate, signing).Success?
    requires CheckCnMatching(IdentityMatch.FirstAttributeOfCnRdn, v.matchingString, signing, crypto).Success?
    requires crypto.verify(signer, digest, signing).Success?
    ensures crypto.verify(signer, digest, signing).value ==> VerifySignature(v, content, signature, crypto).Success?
    ensures !crypto.verify(signer, digest, signing).value ==>
      VerifySignature(v, content, signature, crypto) == Failure(SignatureValidationException(SignatureMismatchMessage, None))
  {
  }

  /** A signature binds its digest: for one signer and certificate, at
      most one content digest verifies. This is what the signature
      algorithm, not the pipeline, provides. */
  ghost predicate DigestBinding(verify: Verifier) {
    forall signer, d1, d2, c :: verify(signer, d1, c) == Success(true) && verify(signer, d2, c) == Success(true) ==> d1 == d2
  }

  /** Tamper detection: when the container for other content differs
      only in the drained digest, at most one of the two contents is
      accepted, provided the signature binds its digest. */
  lemma TamperedContentIsRejected(v: Validator, content: Bytes, tampered: Bytes, signature: Bytes, crypto: Crypto,
                                  envelope: Envelope, tamperedDigest: Bytes)
    requires DigestBinding(crypto.verify)
    requires crypto.parse(content, signature) == Success(envelope)
    requires envelope.drained.Success? && envelope.drained.value != tamperedDigest
    requires crypto.parse(tampered, signature) == Success(envelope.(drained := Success(tamperedDigest)))
    ensures !(VerifySignature(v, content, signature, crypto).Success? && VerifySignature(v, tampered, signature, crypto).Success?)
  {
    VerifiedIffAccepted(v, content, signature, crypto);
    VerifiedIffAccepted(v, tampered, signature, crypto);
  }

  /** Signers after the first are never looked at. */
  lemma OnlyFirstSignerMatters(v: Validator, content: Bytes, signature: Bytes, crypto: Crypto,
                               envelope: Envelope, first: SignerInfo, rest: seq<SignerInfo>)
    requires crypto.parse(content, signature) == Success(envelope)
    requires envelope.signers == Success([first] + rest)
    ensures VerifySignature(v, content, signature, crypto)
         == VerifySignature(v, content, signature, crypto.(parse := (c, s) => Success(envelope.(signers := Success([first])))))
  {
    var crypto' := crypto.(parse := (c, s) => Success(envelope.(signers := Success([first]))));
    var p, p' := ParseStage(v, content, signature, crypto), ParseStage(v, content, signature, crypto');
    assert p.Success? <==> p'.Success?;
    assert p.Failure? ==> p == p';
  }
}
