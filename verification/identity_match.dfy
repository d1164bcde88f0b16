/** The CN/SAN identity constraint of the signature validator: the
    configured string must be a suffix (Kotlin `String.endsWith`) of one of
    the signing certificate's CN values followed by its SAN names. */
module IdentityMatch {
  import opened Certificates
  import SubjectAltNames

  /** `s.endsWith(suffix)`; every string ends with the empty string. */
  predicate EndsWith(s: string, suffix: string) {
    |suffix| <= |s| && s[|s| - |suffix|..] == suffix
  }

  /** General substring containment, the relation the check does NOT use. */
  ghost predicate Contains(s: string, part: string) {
    exists i :: OccursAt(s, part, i)
  }

  predicate OccursAt(s: string, part: string, i: int) {
    0 <= i <= |s| - |part| && s[i..i + |part|] == part
  }

  /** `names.any { it.endsWith(suffix) }` */
  function AnyEndsWith(names: seq<string>, suffix: string): (found: bool)
    ensures found <==> exists i :: 0 <= i < |names| && EndsWith(names[i], suffix)
    decreases |names|
  {
    if |names| == 0 then false
    else EndsWith(names[0], suffix) || AnyEndsWith(names[1..], suffix)
  }

  predicate HasCommonName(rdn: Rdn) {
    exists j :: 0 <= j < |rdn.attributes| && rdn.attributes[j].oid == CommonNameOid
  }

  /** The string the source reads for each RDN that contains a CN:
      `getRDNs(CN).map { valueToString(it.first.value) }`, that is, the
      value of the RDN's FIRST attribute, whatever its type. */
  function CommonNamesAsWritten(subject: seq<Rdn>, valueToString: string -> string): (cns: seq<string>)
    ensures |cns| <= |subject|
    ensures forall n :: n in cns ==>
      exists i :: 0 <= i < |subject| && HasCommonName(subject[i]) && valueToString(subject[i].attributes[0].value) == n
    decreases |subject|
  {
    if |subject| == 0 then []
    else
      var rest := CommonNamesAsWritten(subject[1..], valueToString);
      if HasCommonName(subject[0]) then [valueToString(subject[0].attributes[0].value)] + rest else rest
  }

  /** The as-written extraction follows subject order: it distributes
      over concatenation. */
  lemma {:induction false} CommonNamesAsWrittenConcat(a: seq<Rdn>, b: seq<Rdn>, valueToString: string -> string)
    ensures CommonNamesAsWritten(a + b, valueToString) == CommonNamesAsWritten(a, valueToString) + CommonNamesAsWritten(b, valueToString)
    decreases |a|
  {
    if |a| == 0 {
      assert a + b == b;
    } else {
      assert (a + b)[0] == a[0];
      assert (a + b)[1..] == a[1..] + b;
      CommonNamesAsWrittenConcat(a[1..], b, valueToString);
    }
  }

  /** One RDN contributes the rendering of its first attribute when it
      holds a CN, and nothing otherwise. */
  lemma CommonNamesAsWrittenSingle(rdn: Rdn, valueToString: string -> string)
    ensures HasCommonName(rdn) ==> CommonNamesAsWritten([rdn], valueToString) == [valueToString(rdn.attributes[0].value)]
    ensures !HasCommonName(rdn) ==> CommonNamesAsWritten([rdn], valueToString) == []
  {
    assert [rdn][1..] == [];
  }

  /** Every RDN that holds a CN contributes its first attribute's
      rendering, whatever that attribute's type. */
  lemma {:induction false} CommonNamesAsWrittenComplete(subject: seq<Rdn>, valueToString: string -> string, i: int)
    requires 0 <= i < |subject| && HasCommonName(subject[i])
    ensures valueToString(subject[i].attributes[0].value) in CommonNamesAsWritten(subject, valueToString)
    decreases |subject|
  {
    if i > 0 {
      assert subject[1..][i - 1] == subject[i];
      CommonNamesAsWrittenComplete(subject[1..], valueToString, i - 1);
    }
  }

  /** The CN values of one RDN, in attribute order. */
  function CnValuesOf(attributes: seq<Attribute>, valueToString: string -> string): (cns: seq<string>)
    ensures forall n :: n in cns <==>
      exists j :: 0 <= j < |attributes| && attributes[j].oid == CommonNameOid && valueToString(attributes[j].value) == n
    decreases |attributes|
  {
    if |attributes| == 0 then []
    else
      var rest := CnValuesOf(attributes[1..], valueToString);
      assert forall j :: 1 <= j < |attributes| ==> attributes[j] == attributes[1..][j - 1];
      if attributes[0].oid == CommonNameOid then [valueToString(attributes[0].value)] + rest else rest
  }

  /** The CN values of a subject: the value of every CN attribute, in
      subject order. This is the corrected extraction, used by
      `SignatureValidation.CorrectedVerifySignature`. */
  function CommonNames(subject: seq<Rdn>, valueToString: string -> string): (cns: seq<string>)
    ensures forall n :: n in cns <==>
      exists i, j :: 0 <= i < |subject| && 0 <= j < |subject[i].attributes|
        && subject[i].attributes[j].oid == CommonNameOid && valueToString(subject[i].attributes[j].value) == n
    decreases |subject|
  {
    if |subject| == 0 then []
    else
      var here := CnValuesOf(subject[0].attributes, valueToString);
      var rest := CommonNames(subject[1..], valueToString);
      assert forall i :: 1 <= i < |subject| ==> subject[i] == subject[1..][i - 1];
      here + rest
  }

  /** Every RDN of the subject holds exactly one attribute. */
  predicate SingleValuedRdns(subject: seq<Rdn>) {
    forall i :: 0 <= i < |subject| ==> |subject[i].attributes| == 1
  }

  /** Which CN extraction to apply: the first attribute of each RDN that
      holds a CN, as the validator reads it, or the CN attributes only. */
  datatype CnReading = FirstAttributeOfCnRdn | CnAttributesOnly

  function CommonNamesBy(reading: CnReading, subject: seq<Rdn>, valueToString: string -> string): (cns: seq<string>)
    ensures reading == FirstAttributeOfCnRdn ==> cns == CommonNamesAsWritten(subject, valueToString)
    ensures reading == CnAttributesOnly ==> cns == CommonNames(subject, valueToString)
  {
    match reading
    case FirstAttributeOfCnRdn => CommonNamesAsWritten(subject, valueToString)
    case CnAttributesOnly => CommonNames(subject, valueToString)
  }

  /** The two extractions agree on subjects whose RDNs are single-valued,
      which is every subject the source was evidently written for. */
  lemma {:induction false} CommonNamesAgreeOnSingleValuedRdns(subject: seq<Rdn>, valueToString: string -> string)
    requires SingleValuedRdns(subject)
    ensures CommonNames(subject, valueToString) == CommonNamesAsWritten(subject, valueToString)
    decreases |subject|
  {
    if |subject| > 0 {
      var attrs := subject[0].attributes;
      assert |attrs| == 1;
      assert SingleValuedRdns(subject[1..]) by {
        forall i | 0 <= i < |subject[1..]| ensures |subject[1..][i].attributes| == 1 {
          assert subject[1..][i] == subject[i + 1];
        }
      }
      assert attrs[1..] == [];
      assert CnValuesOf(attrs[1..], valueToString) == [];
      CommonNamesAgreeOnSingleValuedRdns(subject[1..], valueToString);
    }
  }

  /** A multi-valued RDN, `O=example.com+CN=attacker.org`, in DER order:
      the SET OF sorts the shorter organisation attribute first. */
  const OrganizationOid: Oid := Oid([2, 5, 4, 10])
  const MultiValuedSubject: seq<Rdn> :=
    [Rdn([Attribute(OrganizationOid, "example.com"), Attribute(CommonNameOid, "attacker.org")])]

  /** As written, the organisation value of a multi-valued RDN is matched
      as if it were the CN, so the suffix "example.com" is accepted for a
      certificate whose only CN is "attacker.org"; the corrected extraction
      rejects it. */
  lemma AsWrittenMatchesNonCnAttribute()
    ensures CommonNamesAsWritten(MultiValuedSubject, s => s) == ["example.com"]
    ensures AnyEndsWith(CommonNamesAsWritten(MultiValuedSubject, s => s), "example.com")
    ensures CommonNames(MultiValuedSubject, s => s) == ["attacker.org"]
    ensures !AnyEndsWith(CommonNames(MultiValuedSubject, s => s), "example.com")
  {
    var rdn := MultiValuedSubject[0];
    assert HasCommonName(rdn) by { assert rdn.attributes[1].oid == CommonNameOid; }
    assert MultiValuedSubject[1..] == [];
    var attrs := rdn.attributes;
    assert attrs[1..][1..] == [];
    assert CnValuesOf(attrs[1..], s => s) == ["attacker.org"];
    assert CnValuesOf(attrs, s => s) == ["attacker.org"];
    assert EndsWith("example.com", "example.com");
    assert !EndsWith("attacker.org", "example.com") by {
      assert |"example.com"| == 11 && |"attacker.org"| == 12;
      assert "attacker.org"[1..][0] != "example.com"[0];
    }
  }

  /** The identity list the constraint is checked against: CN values
      followed by SAN names. */
  function AcceptableNames(cns: seq<string>, sans: seq<string>): (names: seq<string>)
    ensures |names| == |cns| + |sans|
    ensures forall i :: 0 <= i < |cns| ==> names[i] == cns[i]
    ensures forall i :: 0 <= i < |sans| ==> names[|cns| + i] == sans[i]
  {
    cns + sans
  }

  /** The constraint holds iff some CN, or failing that some SAN name, ends
      with the configured string; a SAN name can rescue a failing CN. */
  lemma NamesMatchIffCnOrSan(cns: seq<string>, sans: seq<string>, suffix: string)
    ensures AnyEndsWith(AcceptableNames(cns, sans), suffix) <==> AnyEndsWith(cns, suffix) || AnyEndsWith(sans, suffix)
  {
    var names := AcceptableNames(cns, sans);
    if AnyEndsWith(names, suffix) {
      var i :| 0 <= i < |names| && EndsWith(names[i], suffix);
      if i >= |cns| {
        assert names[|cns| + (i - |cns|)] == sans[i - |cns|];
      }
    }
    if AnyEndsWith(sans, suffix) {
      var i :| 0 <= i < |sans| && EndsWith(sans[i], suffix);
      assert names[|cns| + i] == sans[i];
    }
  }

  /** The check is a suffix test, not containment: a suffix is contained,
      but a contained string need not be a suffix. */
  lemma SuffixNotContainment()
    ensures EndsWith("test.example.com", "example.com")
    ensures Contains("example.com.evil.org", "example.com")
    ensures !EndsWith("example.com.evil.org", "example.com")
  {
    assert "test.example.com"[5..] == "example.com";
    assert OccursAt("example.com.evil.org", "example.com", 0) by {
      assert "example.com.evil.org"[0..11] == "example.com";
    }
    assert "example.com.evil.org"[9..][0] != "example.com"[0];
  }
}
