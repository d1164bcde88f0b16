# Signature validation and event aggregation, modelled in Dafny

This project models two decision engines of the CoronaCheck Android app.

1. **`SignatureValidator`** (api module). It checks that a payload was signed by a trusted,
   identity-constrained issuer. The model covers:
   - the builder state machine: trust anchors, an optional exact signing certificate and an
     optional CN matching string;
   - the Subject Alternative Name extractor: `otherName` [0] and `dNSName` [2], per section
     4.2.1.6 of RFC 5280;
   - the `verifySignature` pipeline, in source order:
     - parse the CMS signed-data container (RFC 5652);
     - drain the content;
     - read the embedded certificates and build the candidate store;
     - take the first signer;
     - build a PKIX path (RFC 5280 section 6) to the certificate selected by the signer's issuer
       and serial number (RFC 5652 section 5.3), with revocation off;
     - check the exact certificate;
     - check the CN/SAN suffix;
     - verify the signature;
   - the `catch` clauses that turn every failure into one `SignatureValidationException`.

   CMS parsing, store building, the PKIX search, subject decoding, `IETFUtils.valueToString`,
   the SAN getter, `ASN1InputStream.readObject` and signature verification are BouncyCastle/JCA
   calls. They are the fields of the oracle record `SignatureValidation.Crypto`: total functions
   the model takes as given. Certificates are opaque values compared by their encoding.
2. **`GetEventsUseCaseImpl.getEvents`** (holder module). It is a decision tree over four
   collaborators: the provider configuration, the access tokens, the providers that hold events
   for those tokens, and the remote events per provider. It yields `Success`, `HasNoEvents` or
   `Error`, and a `missingEvents` flag. The collaborators are `GetEvents.Collaborators`: their
   answers as data and functions. `GetEvents.GetEvents` returns the result together with the
   log of collaborator calls it makes, so "no token fetch happens" and "one request per
   provider, in order" become statements about that log.

Everything is a pure function over immutable datatypes. A Java exception is a `Failure` of
`Outcomes.Result`; a Kotlin nullable is `Outcomes.Option`.

Files:
- `outcomes.dfy`: `Option`, `Result`.
- `certificates.dfy`: certificates, names, exceptions.
- `validator_builder.dfy`: the builder.
- `subject_alt_names.dfy`: the SAN extractor.
- `identity_match.dfy`: the CN/SAN suffix rule.
- `signature_validation.dfy`: the pipeline.
- `get_events.dfy`: the event aggregator.

## Behaviour as coded

Some behaviours of the code are easy to misread; the model states them as coded:
- Only one identity constraint can be set. The KDoc at `SignatureValidator.kt:77-78` says the
  matching string is "not used" when a signing certificate is set. In the code,
  `signingCertificate` clears the matching string. But `cnMatching` after `signingCertificate`
  throws `IllegalStateException` and the certificate constraint stays
  (`ValidatorBuilder.CnMatchingAfterCertificateIsRefused`).
- There is one exception type. Failures are told apart only by message. A path-builder failure
  loses its cause.
- Two failures surface as the generic wrapped error "Error validating signature", not as a
  path failure:
  - an empty trust-anchor set, which `PKIXBuilderParameters` refuses before any search
    (`SignatureValidation.EmptyTrustAnchorsGiveGenericError`);
  - a signer without an issuer, which throws a null-pointer exception at `.encoded`.
- An exception thrown during signature verification is also wrapped as the generic error.
  Only a `false` answer gives "The signature does not match".
- The candidate store is built before the missing-signer check. So a store failure wins over
  "No signing certificate found".
- The code catches `Exception`, not `Throwable`. A JVM `Error` escapes unnormalised
  (`Certificates.Throwable.VmError`).

## Model

| member | source | states |
|---|---|---|
| ValidatorBuilder.NewBuilder | api/src/main/java/nl/rijksoverheid/ctr/api/signing/SignatureValidator.kt:35-37 | a fresh builder has no anchors and no constraint, so the invariant holds |
| ValidatorBuilder.AddTrustedCertificate | api/src/main/java/nl/rijksoverheid/ctr/api/signing/SignatureValidator.kt:42-45 | the anchors grow by exactly the certificate, at the end; both constraints are untouched and the invariant is kept |
| ValidatorBuilder.AddTrustedCertificatePem | api/src/main/java/nl/rijksoverheid/ctr/api/signing/SignatureValidator.kt:47-56 | a decodable PEM acts as adding the decoded certificate; an undecodable one throws a `CertificateException` |
| ValidatorBuilder.SigningCertificate | api/src/main/java/nl/rijksoverheid/ctr/api/signing/SignatureValidator.kt:62-66 | the expected certificate becomes `c` and the matching string is reset whatever it held; anchors unchanged; the invariant holds afterwards from any state |
| ValidatorBuilder.SigningCertificateBytes | api/src/main/java/nl/rijksoverheid/ctr/api/signing/SignatureValidator.kt:68-75 | decodable bytes act as the certificate overload; undecodable bytes throw a `CertificateException` |
| ValidatorBuilder.CnMatching | api/src/main/java/nl/rijksoverheid/ctr/api/signing/SignatureValidator.kt:80-86 | fails with the `IllegalStateException` message exactly when a certificate is set; otherwise only the matching string changes |
| ValidatorBuilder.Build | api/src/main/java/nl/rijksoverheid/ctr/api/signing/SignatureValidator.kt:88-94 | the validator holds the builder's anchors and constraints; a consistent builder gives a validator with at most one constraint |
| ValidatorBuilder.ReplayKeepsInvariant | api/src/main/java/nl/rijksoverheid/ctr/api/signing/SignatureValidator.kt:62-94 | after any sequence of builder calls (a refused call changes nothing), the builder and the validator it builds have at most one constraint |
| ValidatorBuilder.ReplayAnchors | api/src/main/java/nl/rijksoverheid/ctr/api/signing/SignatureValidator.kt:42-45 | after any sequence of calls the anchors are the initial ones followed by exactly the added certificates, in call order |
| ValidatorBuilder.ReplaySigningCertificate | api/src/main/java/nl/rijksoverheid/ctr/api/signing/SignatureValidator.kt:62-66 | the expected certificate is the one from the last `signingCertificate` call, or the initial one if there was none |
| ValidatorBuilder.CnMatchingAfterCertificateIsRefused | api/src/main/java/nl/rijksoverheid/ctr/api/signing/SignatureValidator.kt:80-86 | a matching string after a certificate is refused, and the built validator keeps the certificate and no string |
| ValidatorBuilder.SharedAnchorsAfterBuild | api/src/main/java/nl/rijksoverheid/ctr/api/signing/SignatureValidator.kt:88-94 | as written, a built validator sees the builder's anchors plus every certificate added to the builder later |
| ValidatorBuilder.SharedAnchorsChangeAfterBuild | api/src/main/java/nl/rijksoverheid/ctr/api/signing/SignatureValidator.kt:88-94 | as written, adding a certificate after `build()` changes the anchors of the validator already built |
| ValidatorBuilder.BuiltAnchorsAreThoseAddedBefore | api/src/main/java/nl/rijksoverheid/ctr/api/signing/SignatureValidator.kt:88-94 | corrected: a validator's anchors are exactly the certificates added before `build()`, in order |
| SubjectAltNames.DecodeTaggedUtf8 | api/src/main/java/nl/rijksoverheid/ctr/api/signing/SignatureValidator.kt:199-202 | a byte value yields a name iff it reads as a tagged object wrapping a UTF-8 string, and the name is that string |
| SubjectAltNames.EntryIdentity | api/src/main/java/nl/rijksoverheid/ctr/api/signing/SignatureValidator.kt:190-205 | only tags 0 and 2 can yield a name; under those tags a string value yields itself and a byte value yields a name exactly when it reads as a tagged UTF-8 string; a value of another kind yields nothing |
| SubjectAltNames.ExtractIdentities | api/src/main/java/nl/rijksoverheid/ctr/api/signing/SignatureValidator.kt:189-207 | at most one name per entry; every name comes from some entry's identity |
| SubjectAltNames.SubjectAlternativeNames | api/src/main/java/nl/rijksoverheid/ctr/api/signing/SignatureValidator.kt:185-212 | an absent or unparsable extension yields the empty list, never an error; each name comes from an entry |
| SubjectAltNames.ExtractConcat | api/src/main/java/nl/rijksoverheid/ctr/api/signing/SignatureValidator.kt:189-207 | output order follows input order: extraction distributes over concatenation |
| SubjectAltNames.ExtractSingle | api/src/main/java/nl/rijksoverheid/ctr/api/signing/SignatureValidator.kt:190-205 | one entry contributes exactly its identity, or nothing |
| SubjectAltNames.SkipFailedEntry | api/src/main/java/nl/rijksoverheid/ctr/api/signing/SignatureValidator.kt:192-205 | a failing entry is skipped and the entries around it are still extracted |
| SubjectAltNames.RecognisedEntriesContribute | api/src/main/java/nl/rijksoverheid/ctr/api/signing/SignatureValidator.kt:191-202 | every entry that yields an identity has it in the output |
| SubjectAltNames.OnlyRecognisedTags | api/src/main/java/nl/rijksoverheid/ctr/api/signing/SignatureValidator.kt:190-191 | entries with tags other than 0 and 2 contribute nothing |
| IdentityMatch.AnyEndsWith | api/src/main/java/nl/rijksoverheid/ctr/api/signing/SignatureValidator.kt:137-139 | true iff some name ends with the string |
| IdentityMatch.CommonNamesAsWritten | api/src/main/java/nl/rijksoverheid/ctr/api/signing/SignatureValidator.kt:134 | as written: at most one string per RDN, each the rendering of the first attribute of an RDN containing a CN |
| IdentityMatch.CommonNamesAsWrittenComplete | api/src/main/java/nl/rijksoverheid/ctr/api/signing/SignatureValidator.kt:134 | as written: every RDN containing a CN contributes the rendering of its first attribute, whatever that attribute's type |
| IdentityMatch.CommonNamesAsWrittenConcat | api/src/main/java/nl/rijksoverheid/ctr/api/signing/SignatureValidator.kt:134 | as written: the list follows subject order, since extraction distributes over concatenation |
| IdentityMatch.CommonNamesAsWrittenSingle | api/src/main/java/nl/rijksoverheid/ctr/api/signing/SignatureValidator.kt:134 | as written: one RDN contributes its first attribute's rendering if it holds a CN, and nothing otherwise |
| IdentityMatch.CnValuesOf | api/src/main/java/nl/rijksoverheid/ctr/api/signing/SignatureValidator.kt:134 | corrected, per RDN: a string is listed iff it renders a CN attribute of the RDN |
| IdentityMatch.CommonNames | api/src/main/java/nl/rijksoverheid/ctr/api/signing/SignatureValidator.kt:134 | corrected: a string is listed iff it renders some CN attribute of the subject |
| IdentityMatch.CommonNamesAgreeOnSingleValuedRdns | api/src/main/java/nl/rijksoverheid/ctr/api/signing/SignatureValidator.kt:134 | on subjects whose RDNs are single-valued, the corrected and as-written extractions are equal |
| IdentityMatch.AsWrittenMatchesNonCnAttribute | api/src/main/java/nl/rijksoverheid/ctr/api/signing/SignatureValidator.kt:134-141 | as written, the multi-valued RDN `O=example.com+CN=attacker.org` (DER order) passes the suffix `example.com` although its only CN is `attacker.org`; corrected, it fails |
| IdentityMatch.AcceptableNames | api/src/main/java/nl/rijksoverheid/ctr/api/signing/SignatureValidator.kt:136 | the candidates are the CN values, then the SAN names, positions preserved |
| IdentityMatch.NamesMatchIffCnOrSan | api/src/main/java/nl/rijksoverheid/ctr/api/signing/SignatureValidator.kt:134-141 | the constraint holds iff some CN or some SAN name ends with the string, so a SAN name rescues a failing CN |
| IdentityMatch.SuffixNotContainment | api/src/main/java/nl/rijksoverheid/ctr/api/signing/SignatureValidator.kt:137-139 | the test is a suffix test: `test.example.com` passes `example.com`; `example.com.evil.org` contains it but fails |
| SignatureValidation.CandidateStore | api/src/main/java/nl/rijksoverheid/ctr/api/signing/SignatureValidator.kt:112-120 | the store holds exactly the anchors' certificates and the embedded ones, nothing else |
| SignatureValidation.BuildStore | api/src/main/java/nl/rijksoverheid/ctr/api/signing/SignatureValidator.kt:112-120 | the store is the candidate store exactly when the store builder raises nothing; otherwise its exception |
| SignatureValidation.ParseStage | api/src/main/java/nl/rijksoverheid/ctr/api/signing/SignatureValidator.kt:102-123 | succeeds iff parsing, draining, reading the certificates, building the store and reading the signers all succeed, and hands on the drained content digest; parse, drain and store failures surface in that order, the store before the signers are read |
| SignatureValidation.FirstSigner | api/src/main/java/nl/rijksoverheid/ctr/api/signing/SignatureValidator.kt:122-124 | no signers gives "No signing certificate found"; otherwise the first signer is used |
| SignatureValidation.CertPathRequest | api/src/main/java/nl/rijksoverheid/ctr/api/signing/SignatureValidator.kt:160-180 | the target is selected by the signer's issuer and serial; anchors are the validator's, the store is the only store and revocation is off; a null issuer fails, then an empty anchor set |
| SignatureValidation.CheckCertPath | api/src/main/java/nl/rijksoverheid/ctr/api/signing/SignatureValidator.kt:160-182 | a null issuer or an empty anchor set fails before any search; otherwise the result is the PKIX search over the validator's anchors, the issuer-and-serial target, the candidate store and revocation off |
| SignatureValidation.FirstCertificate | api/src/main/java/nl/rijksoverheid/ctr/api/signing/SignatureValidator.kt:127 | the signing certificate is the path's first certificate; an empty path fails |
| SignatureValidation.CheckExpectedCertificate | api/src/main/java/nl/rijksoverheid/ctr/api/signing/SignatureValidator.kt:129-131 | passes iff no certificate is configured or it equals the signing certificate; otherwise the mismatch message |
| SignatureValidation.CandidateNames | api/src/main/java/nl/rijksoverheid/ctr/api/signing/SignatureValidator.kt:134-136 | a name is a candidate iff it is a CN string of the subject or a SAN name of the certificate |
| SignatureValidation.CheckCnMatching | api/src/main/java/nl/rijksoverheid/ctr/api/signing/SignatureValidator.kt:133-141 | skipped without a string; an unreadable subject passes its exception on; otherwise passes iff some candidate name (CN strings under the chosen reading, then SAN names) ends with it, else the CN mismatch message |
| SignatureValidation.CheckSignature | api/src/main/java/nl/rijksoverheid/ctr/api/signing/SignatureValidator.kt:144-150 | passes iff verification of the signer over the drained content digest with the signing certificate answers true; `false` gives "The signature does not match"; an exception passes on |
| SignatureValidation.Stages | api/src/main/java/nl/rijksoverheid/ctr/api/signing/SignatureValidator.kt:101-150 | a parse-stage failure passes on, no signer gives the fixed error, and success needs a built path whose first certificate passes the certificate and CN checks and verifies the first signer |
| SignatureValidation.Normalise | api/src/main/java/nl/rijksoverheid/ctr/api/signing/SignatureValidator.kt:151-157 | every exception becomes a validation exception: a path-builder failure gets the fixed cert-path message, an already normalised one is unchanged, anything else is wrapped with its cause |
| SignatureValidation.NormaliseIdempotent | api/src/main/java/nl/rijksoverheid/ctr/api/signing/SignatureValidator.kt:153-154 | normalising an already normalised error changes nothing |
| SignatureValidation.VerifySignature | api/src/main/java/nl/rijksoverheid/ctr/api/signing/SignatureValidator.kt:99-158 | only a validation exception (or a JVM error) escapes; success exactly when every stage passes |
| SignatureValidation.CorrectedVerifySignature | api/src/main/java/nl/rijksoverheid/ctr/api/signing/SignatureValidator.kt:99-158 | corrected: the same pipeline with the CN stage reading CN attributes only; only normalised errors escape |
| SignatureValidation.CorrectedAgreesOnSingleValuedSubjects | api/src/main/java/nl/rijksoverheid/ctr/api/signing/SignatureValidator.kt:134 | when every subject has single-valued RDNs, the corrected pipeline gives exactly the shipped pipeline's result |
| SignatureValidation.ReadingsDifferOnMultiValuedRdn | api/src/main/java/nl/rijksoverheid/ctr/api/signing/SignatureValidator.kt:133-141 | on `O=example.com+CN=attacker.org` without SAN names, the shipped CN stage accepts `example.com` and the corrected one refuses it |
| SignatureValidation.VerifiedIffAccepted | api/src/main/java/nl/rijksoverheid/ctr/api/signing/SignatureValidator.kt:101-150 | success iff every stage condition holds, each stated directly over the library answers, the CN condition with line 134's first-attribute reading and the signature checked against the drained digest |
| SignatureValidation.NoSignerFailsBeforePathBuilding | api/src/main/java/nl/rijksoverheid/ctr/api/signing/SignatureValidator.kt:122-126 | no signer gives "No signing certificate found", whatever the path builder or the signature check would answer |
| SignatureValidation.PathFailureFailsBeforeIdentityChecks | api/src/main/java/nl/rijksoverheid/ctr/api/signing/SignatureValidator.kt:126-152 | a path-builder failure gives "The cert path cannot be validated", whatever the subject decoder or the signature check would answer |
| SignatureValidation.EmptyTrustAnchorsGiveGenericError | api/src/main/java/nl/rijksoverheid/ctr/api/signing/SignatureValidator.kt:175-178 | with no trust anchors, the result is the generic error wrapping the parameter exception, not a cert-path failure |
| SignatureValidation.CertificateMismatchFailsBeforeCnAndSignature | api/src/main/java/nl/rijksoverheid/ctr/api/signing/SignatureValidator.kt:127-131 | a configured certificate that differs from the path's first one fails before the CN and signature stages are consulted |
| SignatureValidation.CnMismatchFailsBeforeSignature | api/src/main/java/nl/rijksoverheid/ctr/api/signing/SignatureValidator.kt:133-141 | with no candidate name ending with the string, the CN mismatch error comes before the signature is checked |
| SignatureValidation.SignatureDecidesLast | api/src/main/java/nl/rijksoverheid/ctr/api/signing/SignatureValidator.kt:144-150 | once all earlier stages pass, `true` is success and `false` is "The signature does not match" |
| SignatureValidation.OnlyFirstSignerMatters | api/src/main/java/nl/rijksoverheid/ctr/api/signing/SignatureValidator.kt:122-123 | signers after the first never change the outcome |
| SignatureValidation.TamperedContentIsRejected | api/src/main/java/nl/rijksoverheid/ctr/api/signing/SignatureValidator.kt:108-150 | if a signature verifies for at most one digest, then two contents whose containers differ only in the drained digest are never both accepted |
| GetEvents.SingleError | holder/src/main/java/nl/rijksoverheid/ctr/holder/ui/create_qr/usecases/GetEventsUseCase.kt:150-152 | the single-error constructor is an `Error` whose list holds exactly that error |
| GetEvents.GetEvents | holder/src/main/java/nl/rijksoverheid/ctr/holder/ui/create_qr/usecases/GetEventsUseCase.kt:44-51 | a config failure gives that one error after one call; a token failure gives that one error after two calls; otherwise the aggregation decides |
| GetEvents.FetchRemoteEvents | holder/src/main/java/nl/rijksoverheid/ctr/holder/ui/create_qr/usecases/GetEventsUseCase.kt:71-77 | one remote answer per provider with a token, at the same position |
| GetEvents.RemoteCalls | holder/src/main/java/nl/rijksoverheid/ctr/holder/ui/create_qr/usecases/GetEventsUseCase.kt:71-77 | one remote-events call per provider with a token, at the same position and with its provider and token |
| GetEvents.Successes | holder/src/main/java/nl/rijksoverheid/ctr/holder/ui/create_qr/usecases/GetEventsUseCase.kt:63-64 | `filterIsInstance<Success>`: no more payloads than results, and a leading success gives the first payload |
| GetEvents.Failures | holder/src/main/java/nl/rijksoverheid/ctr/holder/ui/create_qr/usecases/GetEventsUseCase.kt:65-66 | `filterIsInstance<Error>` mapped to errors: no more errors than results, and a leading error gives the first error |
| GetEvents.Aggregate | holder/src/main/java/nl/rijksoverheid/ctr/holder/ui/create_qr/usecases/GetEventsUseCase.kt:87-104 | a `Success` always holds a model with events |
| GetEvents.AnyHasEvents | holder/src/main/java/nl/rijksoverheid/ctr/holder/ui/create_qr/usecases/GetEventsUseCase.kt:90-91 | true iff some model has a non-null, non-empty event list |
| GetEvents.SuccessesNonEmpty | holder/src/main/java/nl/rijksoverheid/ctr/holder/ui/create_qr/usecases/GetEventsUseCase.kt:63-64 | the success filter is non-empty iff some result is a success |
| GetEvents.FailuresNonEmpty | holder/src/main/java/nl/rijksoverheid/ctr/holder/ui/create_qr/usecases/GetEventsUseCase.kt:65-66 | the error filter is non-empty iff some result is an error |
| GetEvents.FiltersPartition | holder/src/main/java/nl/rijksoverheid/ctr/holder/ui/create_qr/usecases/GetEventsUseCase.kt:63-66 | the success and error filters partition the results |
| GetEvents.SuccessesConcat | holder/src/main/java/nl/rijksoverheid/ctr/holder/ui/create_qr/usecases/GetEventsUseCase.kt:63-64 | the success filter keeps input order |
| GetEvents.FailuresConcat | holder/src/main/java/nl/rijksoverheid/ctr/holder/ui/create_qr/usecases/GetEventsUseCase.kt:65-66 | the error filter keeps input order |
| GetEvents.AllFailedFailures | holder/src/main/java/nl/rijksoverheid/ctr/holder/ui/create_qr/usecases/GetEventsUseCase.kt:84-85 | when every result failed, the errors are exactly theirs, position by position |
| GetEvents.ConfigFailureStopsEarly | holder/src/main/java/nl/rijksoverheid/ctr/holder/ui/create_qr/usecases/GetEventsUseCase.kt:44-47 | a failed provider configuration gives `Error([thatError])` and no token or event request is made |
| GetEvents.RemoteEventsRequestedOncePerProvider | holder/src/main/java/nl/rijksoverheid/ctr/holder/ui/create_qr/usecases/GetEventsUseCase.kt:50-77 | with tokens in hand, the calls are config, tokens, provider lookup, then exactly one remote request per provider with a token, in order |
| GetEvents.OnlyLoggedRequestsMatter | holder/src/main/java/nl/rijksoverheid/ctr/holder/ui/create_qr/usecases/GetEventsUseCase.kt:71-77 | the remote-events collaborator is consulted only at the logged requests: any collaborator answering those alike gives the same result and log |
| GetEvents.NoProviderWithToken | holder/src/main/java/nl/rijksoverheid/ctr/holder/ui/create_qr/usecases/GetEventsUseCase.kt:117-123 | with no provider success: no results gives `HasNoEvents(false)`; otherwise `Error` with the provider errors in their original order |
| GetEvents.AllRemoteFetchesFailed | holder/src/main/java/nl/rijksoverheid/ctr/holder/ui/create_qr/usecases/GetEventsUseCase.kt:105-107 | when every remote request fails, `Error` carries exactly those errors, in request order |
| GetEvents.AggregateSuccessCase | holder/src/main/java/nl/rijksoverheid/ctr/holder/ui/create_qr/usecases/GetEventsUseCase.kt:87-104 | `Success` iff some provider's remote answer is a model with events; it then carries every returned model in request order |
| GetEvents.AggregateHasNoEventsCase | holder/src/main/java/nl/rijksoverheid/ctr/holder/ui/create_qr/usecases/GetEventsUseCase.kt:87-120 | `HasNoEvents` iff no provider answered at all, or some remote request succeeded and no returned model has events |
| GetEvents.AggregateErrorCase | holder/src/main/java/nl/rijksoverheid/ctr/holder/ui/create_qr/usecases/GetEventsUseCase.kt:105-131 | an `Error` is never empty: with no provider holding a token it carries the lookup errors; otherwise exactly the remote errors, one per request |
| GetEvents.AggregateMissingEvents | holder/src/main/java/nl/rijksoverheid/ctr/holder/ui/create_qr/usecases/GetEventsUseCase.kt:93-103 | in `Success` and `HasNoEvents`, `missingEvents` is set iff a provider lookup or a remote request failed |

## Findings

| source | as written | input that shows it | evidently intended | confidence | as-written member | corrected member |
|---|---|---|---|---|---|---|
| api/src/main/java/nl/rijksoverheid/ctr/api/signing/SignatureValidator.kt:134 | for each RDN containing a CN, the value of the RDN's first attribute is matched, whatever its type | a subject whose only RDN is the multi-valued `O=example.com+CN=attacker.org` (DER SET OF order puts the shorter O attribute first), with matching string `example.com`: the check passes | match the values of the CN attributes only | medium, not executed (depends on the attribute order in the encoded RDN) | IdentityMatch.CommonNamesAsWritten, IdentityMatch.AsWrittenMatchesNonCnAttribute | IdentityMatch.CommonNames, IdentityMatch.CommonNamesAgreeOnSingleValuedRdns, SignatureValidation.CorrectedVerifySignature, SignatureValidation.CorrectedAgreesOnSingleValuedSubjects |
| api/src/main/java/nl/rijksoverheid/ctr/api/signing/SignatureValidator.kt:88-94 | `build()` passes the builder's own mutable anchor set to the validator | `build()`, then `addTrustedCertificate(x)` on the same builder: the validator already built now trusts `x` | the validator keeps the anchors it was built with | medium, not executed | ValidatorBuilder.SharedAnchorsAfterBuild, ValidatorBuilder.SharedAnchorsChangeAfterBuild | ValidatorBuilder.Build, ValidatorBuilder.BuiltAnchorsAreThoseAddedBefore |

`SignatureValidation.VerifySignature` reads the CN as line 134 does. `SignatureValidation.CorrectedVerifySignature`
is the same pipeline with the CN attributes only. `SignatureValidation.CorrectedAgreesOnSingleValuedSubjects` proves the
two decide alike on subjects with single-valued RDNs. `SignatureValidation.ReadingsDifferOnMultiValuedRdn` shows
the CN stage differing on the witness above.
Validators are values, so the pipeline sees the anchors as they were at `build()`.

## Left out

- These are the oracle fields of `SignatureValidation.Crypto`, not modelled internals: CMS
  parsing, content digesting (`drain`, whose digest the container carries to the signature
  check), DER/PEM certificate decoding, the PKIX path search with
  its validity-window checks, `IETFUtils.valueToString` escaping, and signature verification.
  They are foreign library calls.
- SignatureValidation.TamperedContentIsRejected: that a signature binds one digest
  (`DigestBinding`) is a property of the signature algorithm, not of this code, so it is a
  hypothesis of the lemma.
- Streaming: the content is a finite byte sequence, not a stream consumed once.
- Logging: the two `printStackTrace` calls are side effects. Only the skip-and-continue
  behaviour is modelled.
- SubjectAltNames.EntryIdentity: an entry's tag is an integer by construction. The
  `item[0] as Int` cast, which sits outside the inner `try`, cannot fail in the model. JCA
  always supplies an `Integer` there.
- Determinism and reuse of a validator: these hold because every member is a pure function.
  They are not stated as separate lemmas.
- Coroutines, `suspend` and the real collaborators of `getEvents` (configuration, repository,
  provider and remote-event use cases): they do network I/O, so their answers are inputs.
- `removeDuplicateEvents` and the rest of the holder and verifier apps are not part of this
  model. That covers UI, dependency wiring, configuration fetch, QR decoding and rendering,
  and persistence.
