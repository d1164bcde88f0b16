/** `SignatureValidator.Builder`: a small state machine over the trust
    anchors, an optional exact signing certificate and an optional CN
    matching string. Setting the certificate clears the string; setting the
    string while a certificate is set throws and changes nothing. */
module ValidatorBuilder {
  import opened Outcomes
  import opened Certificates

  /** Trust anchors are kept as a sequence: every `addTrustedCertificate`
      wraps the certificate in a fresh `TrustAnchor`, which has identity
      equality, so the source's set never drops a repeated certificate. */
  datatype Builder = Builder(
    trustAnchors: seq<Certificate>,
    signingCertificate: Option<Certificate>,
    matchingString: Option<string>)

  /** The configuration a built `SignatureValidator` holds. */
  datatype Validator = Validator(
    signingCertificate: Option<Certificate>,
    trustAnchors: seq<Certificate>,
    matchingString: Option<string>)

  const CnAfterCertificateMessage: string := "CN matching string cannot be used if signing certificate is set"

  /** The builder invariant: at most one identity constraint is set. */
  predicate AtMostOneConstraint(signingCertificate: Option<Certificate>, matchingString: Option<string>) {
    !(signingCertificate.Some? && matchingString.Some?)
  }

  predicate Consistent(b: Builder) {
    AtMostOneConstraint(b.signingCertificate, b.matchingString)
  }

  function NewBuilder(): (b: Builder)
    ensures Consistent(b)
    ensures b.trustAnchors == [] && b.signingCertificate.None? && b.matchingString.None?
  {
    Builder([], None, None)
  }

  /** `addTrustedCertificate(certificate)`: the anchors grow by one; the
      constraints are untouched. */
  function AddTrustedCertificate(b: Builder, certificate: Certificate): (r: Builder)
    ensures r.trustAnchors == b.trustAnchors + [certificate]
    ensures r.signingCertificate == b.signingCertificate && r.matchingString == b.matchingString
    ensures Consistent(b) ==> Consistent(r)
  {
    b.(trustAnchors := b.trustAnchors + [certificate])
  }

  /** `addTrustedCertificate(certificatePem)`: the PEM text is decoded by
      the platform's X.509 `CertificateFactory` (here `decode`); a decode
      failure escapes as a `CertificateException`. */
  function AddTrustedCertificatePem(b: Builder, pem: string, decode: string -> Option<Certificate>): (r: Result<Builder, Throwable>)
    ensures decode(pem).Some? ==> r == Success(AddTrustedCertificate(b, decode(pem).value))
    ensures decode(pem).None? ==> r.Failure? && r.error.CertificateException?
  {
    match decode(pem)
    case Some(c) => Success(AddTrustedCertificate(b, c))
    case None => Failure(CertificateException("Could not parse certificate"))
  }

  /** `signingCertificate(certificate)`: the expected certificate becomes
      `certificate` and the matching string is reset, whatever either held
      before. */
  function SigningCertificate(b: Builder, certificate: Certificate): (r: Builder)
    ensures r.signingCertificate == Some(certificate) && r.matchingString.None?
    ensures r.trustAnchors == b.trustAnchors
    ensures Consistent(r)
  {
    b.(signingCertificate := Some(certificate), matchingString := None)
  }

  /** `signingCertificate(signingCertificateBytes)`: decode, then as above. */
  function SigningCertificateBytes(b: Builder, bytes: Bytes, decode: Bytes -> Option<Certificate>): (r: Result<Builder, Throwable>)
    ensures decode(bytes).Some? ==> r == Success(SigningCertificate(b, decode(bytes).value))
    ensures decode(bytes).None? ==> r.Failure? && r.error.CertificateException?
  {
    match decode(bytes)
    case Some(c) => Success(SigningCertificate(b, c))
    case None => Failure(CertificateException("Could not parse certificate"))
  }

  /** `cnMatching(substring)`: refused with an `IllegalStateException` when
      a signing certificate is set; otherwise only the matching string
      changes. */
  function CnMatching(b: Builder, substring: string): (r: Result<Builder, Throwable>)
    ensures r.Failure? <==> b.signingCertificate.Some?
    ensures r.Failure? ==> r.error == IllegalStateException(CnAfterCertificateMessage)
    ensures r.Success? ==> r.value == Builder(b.trustAnchors, None, Some(substring))
    ensures r.Success? ==> Consistent(r.value)
  {
    if b.signingCertificate.Some? then Failure(IllegalStateException(CnAfterCertificateMessage))
    else Success(b.(matchingString := Some(substring)))
  }

  /** `build()`: the validator receives the builder's three fields. */
  function Build(b: Builder): (v: Validator)
    ensures v.trustAnchors == b.trustAnchors
    ensures v.signingCertificate == b.signingCertificate && v.matchingString == b.matchingString
    ensures Consistent(b) ==> AtMostOneConstraint(v.signingCertificate, v.matchingString)
  {
    Validator(b.signingCertificate, b.trustAnchors, b.matchingString)
  }

  /** A call a client makes on the builder. */
  datatype BuilderCall = AddTrusted(certificate: Certificate) | SetSigningCertificate(certificate: Certificate) | SetCnMatching(substring: string)

  /** One call; a call that throws leaves the builder as it was, so a client
      that catches the exception carries on with the same state. */
  function Apply(b: Builder, call: BuilderCall): Builder {
    match call
    case AddTrusted(c) => AddTrustedCertificate(b, c)
    case SetSigningCertificate(c) => SigningCertificate(b, c)
    case SetCnMatching(s) =>
      match CnMatching(b, s)
      case Success(b') => b'
      case Failure(_) => b
  }

  function Replay(b: Builder, calls: seq<BuilderCall>): Builder
    decreases |calls|
  {
    if |calls| == 0 then b else Replay(Apply(b, calls[0]), calls[1..])
  }

  /** Every reachable builder, and so every built validator, has at most one
      identity constraint set. */
  lemma {:induction false} ReplayKeepsInvariant(b: Builder, calls: seq<BuilderCall>)
    requires Consistent(b)
    ensures Consistent(Replay(b, calls))
    ensures AtMostOneConstraint(Build(Replay(b, calls)).signingCertificate, Build(Replay(b, calls)).matchingString)
    decreases |calls|
  {
    if |calls| > 0 {
      ReplayKeepsInvariant(Apply(b, calls[0]), calls[1..]);
    }
  }

  /** The certificates added by a sequence of calls, in call order. */
  function AddedAnchors(calls: seq<BuilderCall>): seq<Certificate>
    decreases |calls|
  {
    if |calls| == 0 then []
    else (if calls[0].AddTrusted? then [calls[0].certificate] else []) + AddedAnchors(calls[1..])
  }

  /** Trust anchors only grow, by exactly the certificates added, in order;
      no other call touches them. */
  lemma {:induction false} ReplayAnchors(b: Builder, calls: seq<BuilderCall>)
    ensures Replay(b, calls).trustAnchors == b.trustAnchors + AddedAnchors(calls)
    decreases |calls|
  {
    if |calls| > 0 {
      ReplayAnchors(Apply(b, calls[0]), calls[1..]);
    }
  }

  /** The expected certificate is the one given by the last
      `signingCertificate` call, if any. */
  function LastSigningCertificate(calls: seq<BuilderCall>, initial: Option<Certificate>): Option<Certificate>
    decreases |calls|
  {
    if |calls| == 0 then initial
    else if calls[|calls| - 1].SetSigningCertificate? then Some(calls[|calls| - 1].certificate)
    else LastSigningCertificate(calls[..|calls| - 1], initial)
  }

  lemma {:induction false} ReplayAppend(b: Builder, calls: seq<BuilderCall>, call: BuilderCall)
    ensures Replay(b, calls + [call]) == Apply(Replay(b, calls), call)
    decreases |calls|
  {
    if |calls| == 0 {
      assert calls + [call] == [call];
    } else {
      assert (calls + [call])[1..] == calls[1..] + [call];
      ReplayAppend(Apply(b, calls[0]), calls[1..], call);
    }
  }

  lemma {:induction false} ReplaySigningCertificate(b: Builder, calls: seq<BuilderCall>)
    ensures Replay(b, calls).signingCertificate == LastSigningCertificate(calls, b.signingCertificate)
    decreases |calls|
  {
    if |calls| > 0 {
      var init := calls[..|calls| - 1];
      assert calls == init + [calls[|calls| - 1]];
      ReplayAppend(b, init, calls[|calls| - 1]);
      ReplaySigningCertificate(b, init);
    }
  }

  /** Unlike "the latest constraint wins", a matching string set after the
      certificate is refused and the certificate constraint stays. */
  lemma CnMatchingAfterCertificateIsRefused(b: Builder, c: Certificate, s: string)
    ensures CnMatching(SigningCertificate(b, c), s) == Failure(IllegalStateException(CnAfterCertificateMessage))
    ensures Build(Replay(b, [SetSigningCertificate(c), SetCnMatching(s)])) == Validator(Some(c), b.trustAnchors, None)
  {
    var calls := [SetSigningCertificate(c), SetCnMatching(s)];
    var b1 := SigningCertificate(b, c);
    assert calls[1..] == [SetCnMatching(s)];
    assert [SetCnMatching(s)][1..] == [];
    assert Replay(b, calls) == Replay(b1, [SetCnMatching(s)]);
    assert Replay(b1, [SetCnMatching(s)]) == Replay(b1, []);
  }

  /** As written, `build()` hands the builder's own mutable anchor set to
      the validator. The anchors a validator built from `b` trusts after
      `later` further calls on the same builder: */
  function SharedAnchorsAfterBuild(b: Builder, later: seq<BuilderCall>): (anchors: seq<Certificate>)
    ensures anchors == b.trustAnchors + AddedAnchors(later)
  {
    ReplayAnchors(b, later);
    Replay(b, later).trustAnchors
  }

  /** A certificate added after `build()` is trusted by the validator
      already built. */
  lemma SharedAnchorsChangeAfterBuild(b: Builder, c: Certificate)
    ensures SharedAnchorsAfterBuild(b, [AddTrusted(c)]) == Build(b).trustAnchors + [c]
    ensures SharedAnchorsAfterBuild(b, [AddTrusted(c)]) != Build(b).trustAnchors
  {
    assert AddedAnchors([AddTrusted(c)]) == [c] by {
      assert [AddTrusted(c)][1..] == [];
    }
  }

  /** Corrected: the validator keeps the anchors added before `build()`,
      exactly and in order. */
  lemma BuiltAnchorsAreThoseAddedBefore(calls: seq<BuilderCall>)
    ensures Build(Replay(NewBuilder(), calls)).trustAnchors == AddedAnchors(calls)
  {
    ReplayAnchors(NewBuilder(), calls);
  }
}
