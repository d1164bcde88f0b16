/** The Subject Alternative Name extractor of the signature validator
    (`SignatureValidator.getSubjectAlternativeNames`). The certificate's
    extension is read through `X509Certificate.getSubjectAlternativeNames`,
    which yields one (tag, value) pair per GeneralName; only `otherName`
    (tag 0) and `dNSName` (tag 2), section 4.2.1.6 of RFC 5280, are used. */
module SubjectAltNames {
  import opened Outcomes
  import opened Certificates

  const OtherNameTag: int := 0
  const DnsNameTag: int := 2

  /** The value half of a GeneralName pair as JCA hands it over: a string,
      a DER byte array, or anything else (including a missing value). */
  datatype SanValue = TextValue(text: string) | BytesValue(bytes: Bytes) | OtherValue

  datatype SanEntry = SanEntry(tag: int, value: SanValue)

  /** What the extension getter yields: null (no extension), the entries,
      or a `CertificateParsingException`. */
  datatype SanLookup = NoExtension | Entries(entries: seq<SanEntry>) | ParsingFailed

  /** The object `ASN1InputStream.readObject` returns, as far as the
      extractor inspects it. */
  datatype Asn1Object = DerTaggedObject(inner: Asn1Object) | DerUtf8String(text: string) | OtherAsn1Object

  /** Outcome of `readObject`: an object, null at end of stream, or an
      `IOException`. */
  datatype ReadOutcome = ReadObject(obj: Asn1Object) | EndOfStream | ReadFailed

  /** A byte value contributes only when it reads as a tagged object
      wrapping a UTF-8 string; every other outcome is a cast or read
      failure that the extractor swallows. */
  function DecodeTaggedUtf8(read: ReadOutcome): (name: Option<string>)
    ensures name.Some? <==> read.ReadObject? && read.obj.DerTaggedObject? && read.obj.inner.DerUtf8String?
    ensures name.Some? ==> name.value == read.obj.inner.text
  {
    match read
    case ReadObject(DerTaggedObject(DerUtf8String(s))) => Some(s)
    case _ => None
  }

  /** The identity one entry contributes, if any. */
  function EntryIdentity(entry: SanEntry, readAsn1: Bytes -> ReadOutcome): (name: Option<string>)
    ensures name.Some? ==> entry.tag == OtherNameTag || entry.tag == DnsNameTag
    ensures entry.value.TextValue? && (entry.tag == OtherNameTag || entry.tag == DnsNameTag) ==> name == Some(entry.value.text)
    ensures entry.value.BytesValue? && (entry.tag == OtherNameTag || entry.tag == DnsNameTag) ==>
      name == DecodeTaggedUtf8(readAsn1(entry.value.bytes))
    ensures entry.value.OtherValue? ==> name.None?
  {
    if entry.tag == OtherNameTag || entry.tag == DnsNameTag then
      match entry.value
      case TextValue(s) => Some(s)
      case BytesValue(b) => DecodeTaggedUtf8(readAsn1(b))
      case OtherValue => None
    else
      None
  }

  /** The loop over the entries: each entry appends its identity, if it
      has one, and is otherwise skipped. */
  function ExtractIdentities(entries: seq<SanEntry>, readAsn1: Bytes -> ReadOutcome): (names: seq<string>)
    ensures |names| <= |entries|
    ensures forall n :: n in names ==> exists i :: 0 <= i < |entries| && EntryIdentity(entries[i], readAsn1) == Some(n)
    decreases |entries|
  {
    if |entries| == 0 then []
    else
      var rest := ExtractIdentities(entries[..|entries| - 1], readAsn1);
      match EntryIdentity(entries[|entries| - 1], readAsn1)
      case Some(n) => rest + [n]
      case None => rest
  }

  /** `getSubjectAlternativeNames`: an absent or unparsable extension
      yields the empty list, never an error. */
  function SubjectAlternativeNames(lookup: SanLookup, readAsn1: Bytes -> ReadOutcome): (names: seq<string>)
    ensures lookup.NoExtension? || lookup.ParsingFailed? ==> names == []
    ensures lookup.Entries? ==> |names| <= |lookup.entries|
    ensures forall n :: n in names ==> lookup.Entries? && exists i :: 0 <= i < |lookup.entries| && EntryIdentity(lookup.entries[i], readAsn1) == Some(n)
  {
    match lookup
    case NoExtension => []
    case ParsingFailed => []
    case Entries(entries) => ExtractIdentities(entries, readAsn1)
  }

  /** Order follows input order: extraction distributes over concatenation. */
  lemma {:induction false} ExtractConcat(a: seq<SanEntry>, b: seq<SanEntry>, readAsn1: Bytes -> ReadOutcome)
    ensures ExtractIdentities(a + b, readAsn1) == ExtractIdentities(a, readAsn1) + ExtractIdentities(b, readAsn1)
    decreases |b|
  {
    if |b| == 0 {
      assert a + b == a;
    } else {
      var b' := b[..|b| - 1];
      assert (a + b)[..|a + b| - 1] == a + b';
      assert (a + b)[|a + b| - 1] == b[|b| - 1];
      ExtractConcat(a, b', readAsn1);
    }
  }

  /** One entry contributes exactly its identity. */
  lemma ExtractSingle(e: SanEntry, readAsn1: Bytes -> ReadOutcome)
    ensures ExtractIdentities([e], readAsn1) == match EntryIdentity(e, readAsn1) case Some(n) => [n] case None => []
  {
    assert [e][..0] == [];
  }

  /** An entry that fails (unrecognised tag, unusable value, failed decode)
      is skipped and the entries around it are still extracted. */
  lemma SkipFailedEntry(before: seq<SanEntry>, e: SanEntry, after: seq<SanEntry>, readAsn1: Bytes -> ReadOutcome)
    requires EntryIdentity(e, readAsn1).None?
    ensures ExtractIdentities(before + [e] + after, readAsn1) == ExtractIdentities(before, readAsn1) + ExtractIdentities(after, readAsn1)
  {
    ExtractConcat(before + [e], after, readAsn1);
    ExtractConcat(before, [e], readAsn1);
    ExtractSingle(e, readAsn1);
  }

  /** Completeness: every recognised entry's identity is in the output. */
  lemma {:induction false} RecognisedEntriesContribute(entries: seq<SanEntry>, readAsn1: Bytes -> ReadOutcome, i: int)
    requires 0 <= i < |entries|
    requires EntryIdentity(entries[i], readAsn1).Some?
    ensures EntryIdentity(entries[i], readAsn1).value in ExtractIdentities(entries, readAsn1)
  {
    var before, after := entries[..i], entries[i + 1..];
    assert entries == before + [entries[i]] + after;
    ExtractConcat(before + [entries[i]], after, readAsn1);
    ExtractConcat(before, [entries[i]], readAsn1);
    ExtractSingle(entries[i], readAsn1);
  }

  /** Entries whose tag is neither 0 nor 2 never contribute. */
  lemma {:induction false} OnlyRecognisedTags(entries: seq<SanEntry>, readAsn1: Bytes -> ReadOutcome)
    requires forall i :: 0 <= i < |entries| ==> entries[i].tag != OtherNameTag && entries[i].tag != DnsNameTag
    ensures ExtractIdentities(entries, readAsn1) == []
    decreases |entries|
  {
    if |entries| > 0 {
      OnlyRecognisedTags(entries[..|entries| - 1], readAsn1);
    }
  }
}
