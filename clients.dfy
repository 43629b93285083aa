/** What callers of EIDASAuthnResponse can rely on, proved from the class's
    contracts alone: no caller can change the stored token through an array
    it passed in or got back, the attribute list is shared on the way in and
    copied on the way out, and scalar fields are stored as given. */
module CopySemantics {
  import opened ResponseFields
  import opened PersonalAttributes
  import opened AuthnResponse

  method BytesOf(content: seq<bv8>) returns (a: array<bv8>)
    ensures fresh(a) && a[..] == content
  {
    a := new bv8[|content|](i requires 0 <= i < |content| => content[i]);
  }

  /** Before any setTokenSaml the token is an empty array, not null. */
  method DefaultToken() returns (seen: seq<bv8>)
    ensures seen == []
  {
    var response := new EIDASAuthnResponse();
    var got := response.GetTokenSaml();
    seen := got[..];
  }

  /** Writing to the array after handing it to setTokenSaml does not change
      the stored token. */
  method WriteAfterSetInvisible(content: seq<bv8>, x: bv8) returns (seen: seq<bv8>)
    requires |content| > 0
    ensures seen == content
  {
    var response := new EIDASAuthnResponse();
    var given := BytesOf(content);
    response.SetTokenSaml(given);
    given[0] := x;
    var got := response.GetTokenSaml();
    seen := got[..];
  }

  /** Writing to the array getTokenSaml returned does not change what the
      next getTokenSaml returns. */
  method WriteToCopyInvisible(content: seq<bv8>, x: bv8) returns (seen: seq<bv8>)
    requires |content| > 0
    ensures seen == content
  {
    var response := new EIDASAuthnResponse();
    var given := BytesOf(content);
    response.SetTokenSaml(given);
    var first := response.GetTokenSaml();
    first[0] := x;
    var second := response.GetTokenSaml();
    seen := second[..];
  }

  /** setTokenSaml(null) keeps the token set before. */
  method NullTokenIgnored(content: seq<bv8>) returns (seen: seq<bv8>)
    ensures seen == content
  {
    var response := new EIDASAuthnResponse();
    var given := BytesOf(content);
    response.SetTokenSaml(given);
    response.SetTokenSaml(null);
    var got := response.GetTokenSaml();
    seen := got[..];
  }

  /** A second setTokenSaml replaces the first token entirely. */
  method SecondTokenWins(first: seq<bv8>, second: seq<bv8>) returns (seen: seq<bv8>)
    ensures seen == second
  {
    var response := new EIDASAuthnResponse();
    var a := BytesOf(first);
    response.SetTokenSaml(a);
    var b := BytesOf(second);
    response.SetTokenSaml(b);
    var got := response.GetTokenSaml();
    seen := got[..];
  }

  /** A successful response: the token and the fail flag read back as set,
      whatever validity window was given. */
  method SuccessResponse(status: string, from: Instant, until: Instant) returns (token: seq<bv8>, failed: bool, code: Option<string>)
    ensures token == [1, 2, 3] && !failed && code == Some(status)
  {
    var response := new EIDASAuthnResponse();
    response.SetStatusCode(Some(status));
    response.SetFail(false);
    response.SetNotBefore(Some(from));
    response.SetNotOnOrAfter(Some(until));
    var bytes := BytesOf([1, 2, 3]);
    response.SetTokenSaml(bytes);
    var got := response.GetTokenSaml();
    token := got[..];
    failed := response.IsFail();
    code := response.GetStatusCode();
  }

  /** A validity window whose start lies after its end is stored as given. */
  method InvertedWindowKept(early: Instant, late: Instant) returns (before: Option<Instant>, onOrAfter: Option<Instant>)
    requires early.epochMillis < late.epochMillis
    ensures before == Some(late) && onOrAfter == Some(early)
  {
    var response := new EIDASAuthnResponse();
    response.SetNotBefore(Some(late));
    response.SetNotOnOrAfter(Some(early));
    before := response.GetNotBefore();
    onOrAfter := response.GetNotOnOrAfter();
  }

  /** Setting the window's two ends in either order gives the same bean. */
  method WindowEitherOrder(from: Option<Instant>, until: Option<Instant>) returns (same: bool)
    ensures same
  {
    var one := new EIDASAuthnResponse();
    one.SetNotBefore(from);
    one.SetNotOnOrAfter(until);
    var two := new EIDASAuthnResponse();
    two.SetNotOnOrAfter(until);
    two.SetNotBefore(from);
    SetCommutes(Defaults, AssignNotBefore(from), AssignNotOnOrAfter(until));
    same := one.Fields() == two.Fields();
  }

  /** A bean whose attribute list was never set hands out an empty list, not
      null. */
  method DefaultAttributes() returns (present: bool, seen: seq<PersonalAttribute>)
    ensures present && seen == []
  {
    var response := new EIDASAuthnResponse();
    var got := response.GetPersonalAttributeList();
    present := got != null;
    seen := got.attributes;
  }

  /** Changing the list getPersonalAttributeList returned does not change the
      bean's list. */
  method WriteToClonedListInvisible(attrs: seq<PersonalAttribute>, extra: PersonalAttribute) returns (seen: seq<PersonalAttribute>)
    ensures seen == attrs
  {
    var response := new EIDASAuthnResponse();
    var list := new PersonalAttributeList.Of(attrs, true);
    response.SetPersonalAttributeList(list);
    var first := response.GetPersonalAttributeList();
    first.attributes := first.attributes + [extra];
    var second := response.GetPersonalAttributeList();
    seen := second.attributes;
  }

  /** The list given to setPersonalAttributeList is kept by reference, so a
      caller that keeps it and changes it changes the bean's attributes. */
  method RetainedListShared(attrs: seq<PersonalAttribute>, extra: PersonalAttribute) returns (seen: seq<PersonalAttribute>)
    ensures seen == attrs + [extra]
  {
    var response := new EIDASAuthnResponse();
    var list := new PersonalAttributeList.Of(attrs, true);
    response.SetPersonalAttributeList(list);
    list.attributes := list.attributes + [extra];
    var got := response.GetPersonalAttributeList();
    seen := got.attributes;
  }

  /** setPersonalAttributeList(null) keeps the list set before. */
  method NullListIgnored(attrs: seq<PersonalAttribute>) returns (seen: seq<PersonalAttribute>)
    ensures seen == attrs
  {
    var response := new EIDASAuthnResponse();
    var list := new PersonalAttributeList.Of(attrs, true);
    response.SetPersonalAttributeList(list);
    response.SetPersonalAttributeList(null);
    var got := response.GetPersonalAttributeList();
    seen := got.attributes;
  }

  /** A list that cannot be cloned makes getPersonalAttributeList return
      null, and the bean keeps the list. */
  method UncloneableListGivesNull(attrs: seq<PersonalAttribute>) returns (gotNull: bool, kept: seq<PersonalAttribute>)
    ensures gotNull && kept == attrs
  {
    var response := new EIDASAuthnResponse();
    var list := new PersonalAttributeList.Of(attrs, false);
    response.SetPersonalAttributeList(list);
    var got := response.GetPersonalAttributeList();
    gotNull := got == null;
    kept := response.attributeList.attributes;
  }
}
