/** The EIDASAuthnResponse bean: the decoded fields of one eIDAS
    authentication response, with copy-in/copy-out for the SAML token bytes
    and copy-out for the personal-attribute list. */
module AuthnResponse {
  import opened ResponseFields
  import opened PersonalAttributes
  import ResponseDump

  /** Java's byte[].clone(): a new array with the same bytes. */
  method CopyOf(a: array<bv8>) returns (c: array<bv8>)
    ensures fresh(c) && c[..] == a[..]
  {
    c := new bv8[a.Length](i requires 0 <= i < a.Length reads a => a[i]);
  }

  class EIDASAuthnResponse {
    var samlId: Option<string>
    var fail: bool
    var statusCode: Option<string>
    var subStatusCode: Option<string>
    var audienceRest: Option<string>
    var message: Option<string>
    var inResponseTo: Option<string>
    var notOnOrAfter: Option<Instant>
    var notBefore: Option<Instant>
    /** The SAML token; never null. SetTokenSaml and GetTokenSaml copy it,
        so a caller that goes through them never holds this array. */
    var tokenSaml: array<bv8>
    var country: Option<string>
    var encrypted: bool
    /** The personal attributes; never null, held by reference. */
    var attributeList: PersonalAttributeList
    var issuer: Option<string>
    var assuranceLevel: Option<string>

    /** The scalar fields as one value. */
    function Fields(): Scalars
      reads this
    {
      Scalars(samlId, fail, statusCode, subStatusCode, audienceRest, message, inResponseTo,
              notOnOrAfter, notBefore, country, encrypted, issuer, assuranceLevel)
    }

    /** A new bean: null and false scalars, an empty token, and a new empty
        attribute list. */
    constructor ()
      ensures Fields() == Defaults
      ensures fresh(tokenSaml) && tokenSaml.Length == 0
      ensures fresh(attributeList) && attributeList.attributes == [] && attributeList.cloneable
    {
      samlId, fail, statusCode, subStatusCode := None, false, None, None;
      audienceRest, message, inResponseTo := None, None, None;
      notOnOrAfter, notBefore := None, None;
      tokenSaml := new bv8[0];
      country, encrypted := None, false;
      attributeList := new PersonalAttributeList();
      issuer, assuranceLevel := None, None;
    }

    method GetSubStatusCode() returns (r: Option<string>)
      ensures r == subStatusCode
    {
      r := subStatusCode;
    }

    method SetSubStatusCode(samlSubStatusCode: Option<string>)
      modifies this
      ensures subStatusCode == samlSubStatusCode
      ensures Fields() == Apply(old(Fields()), AssignSubStatusCode(samlSubStatusCode))
      ensures tokenSaml == old(tokenSaml) && attributeList == old(attributeList)
    {
      subStatusCode := samlSubStatusCode;
    }

    method GetAudienceRestriction() returns (r: Option<string>)
      ensures r == audienceRest
    {
      r := audienceRest;
    }

    method SetAudienceRestriction(audRest: Option<string>)
      modifies this
      ensures audienceRest == audRest
      ensures Fields() == Apply(old(Fields()), AssignAudienceRest(audRest))
      ensures tokenSaml == old(tokenSaml) && attributeList == old(attributeList)
    {
      audienceRest := audRest;
    }

    /** getTokenSaml: a new array holding the stored token. */
    method GetTokenSaml() returns (r: array<bv8>)
      ensures fresh(r) && r[..] == tokenSaml[..]
    {
      r := CopyOf(tokenSaml);
    }

    /** setTokenSaml: a null argument is ignored; otherwise the token becomes
        a new array holding the argument's bytes. */
    method SetTokenSaml(samlToken: array?<bv8>)
      modifies this
      ensures samlToken == null ==> unchanged(this)
      ensures samlToken != null ==> fresh(tokenSaml) && tokenSaml[..] == samlToken[..]
      ensures Fields() == old(Fields()) && attributeList == old(attributeList)
    {
      if samlToken != null {
        tokenSaml := CopyOf(samlToken);
      }
    }

    method GetCountry() returns (r: Option<string>)
      ensures r == country
    {
      r := country;
    }

    method SetCountry(cCountry: Option<string>)
      modifies this
      ensures country == cCountry
      ensures Fields() == Apply(old(Fields()), AssignCountry(cCountry))
      ensures tokenSaml == old(tokenSaml) && attributeList == old(attributeList)
    {
      country := cCountry;
    }

    /** getPersonalAttributeList: a clone of the stored list, or null when
        the list cannot be cloned; the failure is not passed on. */
    method GetPersonalAttributeList() returns (r: PersonalAttributeList?)
      ensures attributeList.cloneable ==> r != null && fresh(r)
      ensures attributeList.cloneable ==> r.attributes == attributeList.attributes && r.cloneable
      ensures !attributeList.cloneable ==> r == null
    {
      var outcome := attributeList.Clone();
      match outcome
      case Cloned(copy) =>
        r := copy;
      case CloneNotSupported =>
        r := null;
    }

    /** setPersonalAttributeList: a null argument is ignored; otherwise the
        argument itself, not a copy, becomes the stored list. */
    method SetPersonalAttributeList(attrList: PersonalAttributeList?)
      modifies this
      ensures attrList == null ==> unchanged(this)
      ensures attrList != null ==> attributeList == attrList
      ensures Fields() == old(Fields()) && tokenSaml == old(tokenSaml)
    {
      if attrList != null {
        attributeList := attrList;
      }
    }

    method GetInResponseTo() returns (r: Option<string>)
      ensures r == inResponseTo
    {
      r := inResponseTo;
    }

    method SetInResponseTo(samlInResponseTo: Option<string>)
      modifies this
      ensures inResponseTo == samlInResponseTo
      ensures Fields() == Apply(old(Fields()), AssignInResponseTo(samlInResponseTo))
      ensures tokenSaml == old(tokenSaml) && attributeList == old(attributeList)
    {
      inResponseTo := samlInResponseTo;
    }

    method IsFail() returns (r: bool)
      ensures r == fail
    {
      r := fail;
    }

    method SetFail(failVal: bool)
      modifies this
      ensures fail == failVal
      ensures Fields() == Apply(old(Fields()), AssignFail(failVal))
      ensures tokenSaml == old(tokenSaml) && attributeList == old(attributeList)
    {
      fail := failVal;
    }

    method GetMessage() returns (r: Option<string>)
      ensures r == message
    {
      r := message;
    }

    method SetMessage(msg: Option<string>)
      modifies this
      ensures message == msg
      ensures Fields() == Apply(old(Fields()), AssignMessage(msg))
      ensures tokenSaml == old(tokenSaml) && attributeList == old(attributeList)
    {
      message := msg;
    }

    method GetStatusCode() returns (r: Option<string>)
      ensures r == statusCode
    {
      r := statusCode;
    }

    method SetStatusCode(status: Option<string>)
      modifies this
      ensures statusCode == status
      ensures Fields() == Apply(old(Fields()), AssignStatusCode(status))
      ensures tokenSaml == old(tokenSaml) && attributeList == old(attributeList)
    {
      statusCode := status;
    }

    method GetSamlId() returns (r: Option<string>)
      ensures r == samlId
    {
      r := samlId;
    }

    method SetSamlId(nSamlId: Option<string>)
      modifies this
      ensures samlId == nSamlId
      ensures Fields() == Apply(old(Fields()), AssignSamlId(nSamlId))
      ensures tokenSaml == old(tokenSaml) && attributeList == old(attributeList)
    {
      samlId := nSamlId;
    }

    method GetNotOnOrAfter() returns (r: Option<Instant>)
      ensures r == notOnOrAfter
    {
      r := notOnOrAfter;
    }

    /** No ordering against notBefore is checked. */
    method SetNotOnOrAfter(nOnOrAfter: Option<Instant>)
      modifies this
      ensures notOnOrAfter == nOnOrAfter
      ensures Fields() == Apply(old(Fields()), AssignNotOnOrAfter(nOnOrAfter))
      ensures tokenSaml == old(tokenSaml) && attributeList == old(attributeList)
    {
      notOnOrAfter := nOnOrAfter;
    }

    method GetNotBefore() returns (r: Option<Instant>)
      ensures r == notBefore
    {
      r := notBefore;
    }

    /** No ordering against notOnOrAfter is checked. */
    method SetNotBefore(nBefore: Option<Instant>)
      modifies this
      ensures notBefore == nBefore
      ensures Fields() == Apply(old(Fields()), AssignNotBefore(nBefore))
      ensures tokenSaml == old(tokenSaml) && attributeList == old(attributeList)
    {
      notBefore := nBefore;
    }

    method GetAssuranceLevel() returns (r: Option<string>)
      ensures r == assuranceLevel
    {
      r := assuranceLevel;
    }

    method SetAssuranceLevel(assuranceLevelArg: Option<string>)
      modifies this
      ensures assuranceLevel == assuranceLevelArg
      ensures Fields() == Apply(old(Fields()), AssignAssuranceLevel(assuranceLevelArg))
      ensures tokenSaml == old(tokenSaml) && attributeList == old(attributeList)
    {
      assuranceLevel := assuranceLevelArg;
    }

    /** toString, with DateTime values printed by render: a function of the
        scalar fields alone, never of the token or the attribute list. */
    function ToString(render: Instant -> string): (r: string)
      reads this
      ensures r == ResponseDump.Describe(Fields(), render)
    {
      ResponseDump.Describe(Fields(), render)
    }

    method GetIssuer() returns (r: Option<string>)
      ensures r == issuer
    {
      r := issuer;
    }

    method SetIssuer(issuerArg: Option<string>)
      modifies this
      ensures issuer == issuerArg
      ensures Fields() == Apply(old(Fields()), AssignIssuer(issuerArg))
      ensures tokenSaml == old(tokenSaml) && attributeList == old(attributeList)
    {
      issuer := issuerArg;
    }

    method IsEncrypted() returns (r: bool)
      ensures r == encrypted
    {
      r := encrypted;
    }

    method SetEncrypted(encryptedArg: bool)
      modifies this
      ensures encrypted == encryptedArg
      ensures Fields() == Apply(old(Fields()), AssignEncrypted(encryptedArg))
      ensures tokenSaml == old(tokenSaml) && attributeList == old(attributeList)
    {
      encrypted := encryptedArg;
    }
  }
}
