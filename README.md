# EIDASAuthnResponse in Dafny

A verified model of `EIDASAuthnResponse`, the bean that holds the decoded fields
of one eIDAS (SAML 2.0) authentication response: its identifiers, the fail
flag, the status and sub-status codes, the audience restriction, the message,
the validity window, the country, the issuer, the assurance level, the
encrypted flag, the raw SAML token bytes and the citizen's personal-attribute
list.

The bean has a precise aliasing contract, and the model proves it:

- the token bytes are copied when they are set and copied again when they are
  read, so no caller can change the stored token through an array it passed
  in or got back;
- the attribute list is stored by reference when it is set, and cloned when
  it is read; when the clone fails, the getter returns null and does not pass
  the failure on;
- a null token or a null attribute list given to a setter is ignored;
- the thirteen scalar setters store their argument as given (null included,
  no ordering of `notBefore` against `notOnOrAfter`), touch no other field,
  and commute with each other;
- `toString` is a fixed, labelled dump of eleven fields.

Files:

- `fields.dfy` (module `ResponseFields`): the scalar fields as a value
  (`Scalars`), one setter call as an `Assignment`, `Apply` and the setter
  algebra (last write wins, commutation, order independence of a run).
- `attributes.dfy` (module `PersonalAttributes`): the attribute list as a
  class whose contents are a sequence and whose `Clone` either returns a
  fresh list with the same contents or reports `CloneNotSupported`.
- `response.dfy` (module `AuthnResponse`): the class `EIDASAuthnResponse`
  with the Java class's fields, constructor defaults, getters and setters.
- `dump.dfy` (module `ResponseDump`): `toString` as pure functions over the
  scalar fields.
- `clients.dfy` (module `CopySemantics`): caller-side proofs, from the class
  contracts alone, of what a caller can and cannot change.

Java `null` for a string or a `DateTime` is `None` of an `Option`. A Java
`byte[]` is an `array<bv8>`. The `setTokenSaml` and `setPersonalAttributeList`
parameters are nullable references (`array?<bv8>`, `PersonalAttributeList?`).
Java getters are methods that change nothing, and setters are methods with
`modifies this`. Each scalar setter's postcondition ties the new scalar state
to `Apply(old(Fields()), …)`, and says the token array and the attribute list
are unchanged. The token and attribute-list setters keep `Fields()` as it was,
keep the other reference field, and state the new value of their own field.

## Model

| member | source | states |
|---|---|---|
| `ResponseFields.Apply` | src/main/java/eu/eidas/auth/commons/EIDASAuthnResponse.java:107-374 | a scalar setter makes its field's getter return the argument exactly, and every other getter returns what it returned before |
| `ResponseFields.SetLastWins` | src/main/java/eu/eidas/auth/commons/EIDASAuthnResponse.java:107-374 | setting the same scalar field twice leaves the state the second call alone would give |
| `ResponseFields.SetCommutes` | src/main/java/eu/eidas/auth/commons/EIDASAuthnResponse.java:107-374 | setters of two different scalar fields give the same state in either order |
| `ResponseFields.ReadAfterRun` | src/main/java/eu/eidas/auth/commons/EIDASAuthnResponse.java:107-374 | after any run of setter calls, each getter returns the argument of the last call that wrote its field, or its earlier value if none did |
| `ResponseFields.RunOrderIrrelevant` | src/main/java/eu/eidas/auth/commons/EIDASAuthnResponse.java:107-374 | two runs making the same setter calls, each field written at most once, give the same state whatever their order |
| `PersonalAttributes.PersonalAttributeList.constructor` | src/main/java/eu/eidas/auth/commons/EIDASAuthnResponse.java:87 | a new attribute list is empty and can be cloned |
| `PersonalAttributes.PersonalAttributeList.Clone` | src/main/java/eu/eidas/auth/commons/EIDASAuthnResponse.java:185-186 | clone gives a fresh list with the same contents, or CloneNotSupported when the list cannot be cloned |
| `AuthnResponse.CopyOf` | src/main/java/eu/eidas/auth/commons/EIDASAuthnResponse.java:144 | byte[].clone gives a fresh array with the same bytes |
| `AuthnResponse.EIDASAuthnResponse.constructor` | src/main/java/eu/eidas/auth/commons/EIDASAuthnResponse.java:27-95 | a new bean has null strings and timestamps, false flags, a fresh empty token array and a fresh empty attribute list |
| `AuthnResponse.EIDASAuthnResponse.GetSubStatusCode` | src/main/java/eu/eidas/auth/commons/EIDASAuthnResponse.java:107-109 | returns the stored sub-status code |
| `AuthnResponse.EIDASAuthnResponse.SetSubStatusCode` | src/main/java/eu/eidas/auth/commons/EIDASAuthnResponse.java:116-118 | stores the argument as the sub-status code; no other field changes |
| `AuthnResponse.EIDASAuthnResponse.GetAudienceRestriction` | src/main/java/eu/eidas/auth/commons/EIDASAuthnResponse.java:125-127 | returns the stored audience restriction |
| `AuthnResponse.EIDASAuthnResponse.SetAudienceRestriction` | src/main/java/eu/eidas/auth/commons/EIDASAuthnResponse.java:134-136 | stores the argument as the audience restriction; no other field changes |
| `AuthnResponse.EIDASAuthnResponse.GetTokenSaml` | src/main/java/eu/eidas/auth/commons/EIDASAuthnResponse.java:143-145 | returns a fresh array, so never the stored one, holding the stored token bytes; the bean is unchanged |
| `AuthnResponse.EIDASAuthnResponse.SetTokenSaml` | src/main/java/eu/eidas/auth/commons/EIDASAuthnResponse.java:152-156 | null leaves the bean unchanged; otherwise the token becomes a fresh array, so never the caller's, with the caller's bytes; scalars and attribute list unchanged |
| `AuthnResponse.EIDASAuthnResponse.GetCountry` | src/main/java/eu/eidas/auth/commons/EIDASAuthnResponse.java:163-165 | returns the stored country |
| `AuthnResponse.EIDASAuthnResponse.SetCountry` | src/main/java/eu/eidas/auth/commons/EIDASAuthnResponse.java:172-174 | stores the argument as the country; no other field changes |
| `AuthnResponse.EIDASAuthnResponse.GetPersonalAttributeList` | src/main/java/eu/eidas/auth/commons/EIDASAuthnResponse.java:182-190 | a cloneable list gives a fresh list with the same attributes; an uncloneable one gives null, without failing; the bean is unchanged |
| `AuthnResponse.EIDASAuthnResponse.SetPersonalAttributeList` | src/main/java/eu/eidas/auth/commons/EIDASAuthnResponse.java:198-202 | null leaves the bean unchanged; otherwise the stored list becomes the argument itself; scalars and token unchanged |
| `AuthnResponse.EIDASAuthnResponse.GetInResponseTo` | src/main/java/eu/eidas/auth/commons/EIDASAuthnResponse.java:209-211 | returns the stored inResponseTo |
| `AuthnResponse.EIDASAuthnResponse.SetInResponseTo` | src/main/java/eu/eidas/auth/commons/EIDASAuthnResponse.java:218-220 | stores the argument as inResponseTo; no other field changes |
| `AuthnResponse.EIDASAuthnResponse.IsFail` | src/main/java/eu/eidas/auth/commons/EIDASAuthnResponse.java:227-229 | returns the stored fail flag |
| `AuthnResponse.EIDASAuthnResponse.SetFail` | src/main/java/eu/eidas/auth/commons/EIDASAuthnResponse.java:236-238 | stores the argument as the fail flag; no other field changes |
| `AuthnResponse.EIDASAuthnResponse.GetMessage` | src/main/java/eu/eidas/auth/commons/EIDASAuthnResponse.java:245-247 | returns the stored message |
| `AuthnResponse.EIDASAuthnResponse.SetMessage` | src/main/java/eu/eidas/auth/commons/EIDASAuthnResponse.java:254-256 | stores the argument as the message; no other field changes |
| `AuthnResponse.EIDASAuthnResponse.GetStatusCode` | src/main/java/eu/eidas/auth/commons/EIDASAuthnResponse.java:263-265 | returns the stored status code |
| `AuthnResponse.EIDASAuthnResponse.SetStatusCode` | src/main/java/eu/eidas/auth/commons/EIDASAuthnResponse.java:272-274 | stores the argument as the status code; no other field changes |
| `AuthnResponse.EIDASAuthnResponse.GetSamlId` | src/main/java/eu/eidas/auth/commons/EIDASAuthnResponse.java:281-283 | returns the stored SAML id |
| `AuthnResponse.EIDASAuthnResponse.SetSamlId` | src/main/java/eu/eidas/auth/commons/EIDASAuthnResponse.java:290-292 | stores the argument as the SAML id; no other field changes |
| `AuthnResponse.EIDASAuthnResponse.GetNotOnOrAfter` | src/main/java/eu/eidas/auth/commons/EIDASAuthnResponse.java:300-302 | returns the stored notOnOrAfter |
| `AuthnResponse.EIDASAuthnResponse.SetNotOnOrAfter` | src/main/java/eu/eidas/auth/commons/EIDASAuthnResponse.java:310-312 | stores the argument as notOnOrAfter, whatever notBefore is; no other field changes |
| `AuthnResponse.EIDASAuthnResponse.GetNotBefore` | src/main/java/eu/eidas/auth/commons/EIDASAuthnResponse.java:320-322 | returns the stored notBefore |
| `AuthnResponse.EIDASAuthnResponse.SetNotBefore` | src/main/java/eu/eidas/auth/commons/EIDASAuthnResponse.java:330-332 | stores the argument as notBefore, whatever notOnOrAfter is; no other field changes |
| `AuthnResponse.EIDASAuthnResponse.GetAssuranceLevel` | src/main/java/eu/eidas/auth/commons/EIDASAuthnResponse.java:334-336 | returns the stored assurance level |
| `AuthnResponse.EIDASAuthnResponse.SetAssuranceLevel` | src/main/java/eu/eidas/auth/commons/EIDASAuthnResponse.java:338-340 | stores the argument as the assurance level; no other field changes |
| `AuthnResponse.EIDASAuthnResponse.GetIssuer` | src/main/java/eu/eidas/auth/commons/EIDASAuthnResponse.java:360-362 | returns the stored issuer |
| `AuthnResponse.EIDASAuthnResponse.SetIssuer` | src/main/java/eu/eidas/auth/commons/EIDASAuthnResponse.java:364-366 | stores the argument as the issuer; no other field changes |
| `AuthnResponse.EIDASAuthnResponse.IsEncrypted` | src/main/java/eu/eidas/auth/commons/EIDASAuthnResponse.java:368-370 | returns the stored encrypted flag |
| `AuthnResponse.EIDASAuthnResponse.SetEncrypted` | src/main/java/eu/eidas/auth/commons/EIDASAuthnResponse.java:372-374 | stores the argument as the encrypted flag; no other field changes |
| `AuthnResponse.EIDASAuthnResponse.ToString` | src/main/java/eu/eidas/auth/commons/EIDASAuthnResponse.java:343-357 | toString is `Describe(Fields(), render)`: it reads only the thirteen scalar fields, never the token or the attribute list |
| `ResponseDump.Describe` | src/main/java/eu/eidas/auth/commons/EIDASAuthnResponse.java:343-357 | toString of a bean with scalar fields s starts with "EIDASAuthnResponse [", ends with "]", and is exactly as long as the header, eleven 19-character labels each with its field's text and ",\n", and "]" |
| `ResponseDump.LabelLengths` | src/main/java/eu/eidas/auth/commons/EIDASAuthnResponse.java:345-355 | there are eleven labels, each 19 characters wide |
| `ResponseDump.LabelPadded` | src/main/java/eu/eidas/auth/commons/EIDASAuthnResponse.java:345-355 | label k is the k-th dumped field's name followed by blanks |
| `ResponseDump.Rendered` | src/main/java/eu/eidas/auth/commons/EIDASAuthnResponse.java:345-355 | one text per label: the eleven dumped fields, null printed as "null" |
| `ResponseDump.Lines` | src/main/java/eu/eidas/auth/commons/EIDASAuthnResponse.java:345-355 | the lines are as long as all labels and values plus two characters of ",\n" per line |
| `ResponseDump.LineAt` | src/main/java/eu/eidas/auth/commons/EIDASAuthnResponse.java:345-355 | line k starts right after the k lines before it and reads label k, value k, ",\n" |
| `ResponseDump.Dump` | src/main/java/eu/eidas/auth/commons/EIDASAuthnResponse.java:343-357 | toString starts with "EIDASAuthnResponse [", ends with "]", and has exactly the length of header, eleven lines and "]" |
| `ResponseDump.DumpLine` | src/main/java/eu/eidas/auth/commons/EIDASAuthnResponse.java:343-357 | line k of toString sits 20 + 21k + (length of the earlier values) characters in and reads label k, value k, ",\n" |
| `ResponseDump.DescribeLine` | src/main/java/eu/eidas/auth/commons/EIDASAuthnResponse.java:343-357 | the same, for a bean's own fields: samlId, fail, statusCode, subStatusCode, audienceRest, message, inResponseTo, notOnOrAfter, notBefore, country, issuer, in that order |
| `ResponseDump.DescribeOmits` | src/main/java/eu/eidas/auth/commons/EIDASAuthnResponse.java:343-357 | toString does not depend on the assurance level or the encrypted flag (the token and the attribute list are not among its inputs) |
| `CopySemantics.DefaultToken` | src/main/java/eu/eidas/auth/commons/EIDASAuthnResponse.java:75 | before any setTokenSaml, getTokenSaml gives an empty array, not null |
| `CopySemantics.WriteAfterSetInvisible` | src/main/java/eu/eidas/auth/commons/EIDASAuthnResponse.java:152-156 | writing to the array after passing it to setTokenSaml does not change what getTokenSaml returns |
| `CopySemantics.WriteToCopyInvisible` | src/main/java/eu/eidas/auth/commons/EIDASAuthnResponse.java:143-145 | writing to an array getTokenSaml returned does not change what the next getTokenSaml returns |
| `CopySemantics.NullTokenIgnored` | src/main/java/eu/eidas/auth/commons/EIDASAuthnResponse.java:153 | setTokenSaml(null) keeps the token set before |
| `CopySemantics.SecondTokenWins` | src/main/java/eu/eidas/auth/commons/EIDASAuthnResponse.java:152-156 | after two setTokenSaml calls, getTokenSaml gives exactly the second token |
| `CopySemantics.SuccessResponse` | src/main/java/eu/eidas/auth/commons/EIDASAuthnResponse.java:227-274 | a bean set up as a success reads back its token, fail flag false and status code |
| `CopySemantics.InvertedWindowKept` | src/main/java/eu/eidas/auth/commons/EIDASAuthnResponse.java:300-332 | a notBefore later than notOnOrAfter is stored and read back as given |
| `CopySemantics.WindowEitherOrder` | src/main/java/eu/eidas/auth/commons/EIDASAuthnResponse.java:310-332 | setting notBefore and notOnOrAfter in either order gives beans with equal fields |
| `CopySemantics.DefaultAttributes` | src/main/java/eu/eidas/auth/commons/EIDASAuthnResponse.java:87 | a bean whose list was never set hands out an empty list, not null |
| `CopySemantics.WriteToClonedListInvisible` | src/main/java/eu/eidas/auth/commons/EIDASAuthnResponse.java:182-190 | changing the list getPersonalAttributeList returned does not change what the next call returns |
| `CopySemantics.RetainedListShared` | src/main/java/eu/eidas/auth/commons/EIDASAuthnResponse.java:198-202 | a caller that keeps the list it set and changes it changes what getPersonalAttributeList returns |
| `CopySemantics.NullListIgnored` | src/main/java/eu/eidas/auth/commons/EIDASAuthnResponse.java:199 | setPersonalAttributeList(null) keeps the list set before |
| `CopySemantics.UncloneableListGivesNull` | src/main/java/eu/eidas/auth/commons/EIDASAuthnResponse.java:182-190 | with a list that cannot be cloned, getPersonalAttributeList returns null and the bean keeps its list |

## Left out

- Logging: the trace message written when the clone fails (lines 100 and 187) is output only and is not modelled.
- Joda `DateTime`: a timestamp is an `Instant` holding milliseconds since the epoch; how a `DateTime` prints is a function parameter `render` of `toString`. The zone and chronology of a `DateTime` are dropped, so two `DateTime`s with the same milliseconds but different zones, which Java prints differently, are one `Instant` here and print the same.
- Field access: the class's fields are public in the model, while Java's are private. The copy guarantees for the token hold for callers that go through the getters and setters. No object invariant says the token array is unreachable from outside; it follows from the `fresh` postconditions of `SetTokenSaml` and `GetTokenSaml`. `CopySemantics.UncloneableListGivesNull` reads the stored list directly, because no method of the class exposes it uncloned.
- `IPersonalAttributeList` and `PersonalAttributeList` are not part of this model. The list is a class whose contents are a sequence of name/values attributes. The model has one list class rather than an interface with several implementations, so whether `clone` succeeds is a flag fixed when the list is made; the default list is assumed cloneable.
- `toString` is the function `ToString` of the class, a pure function of the scalar fields; `getClass().getSimpleName()` is the constant "EIDASAuthnResponse", since the class is final.
- The `transient` modifiers and Java serialization have no effect inside the class and are not modelled.
- Signedness of Java `byte` is not modelled: bytes are `bv8`, and nothing in the class interprets them.
