/** The personal-attribute list that a response carries. Its concrete
    implementation is not part of this model; what matters to the response is
    that the list's contents can be read and that its clone may fail. */
module PersonalAttributes {

  /** One asserted attribute of the citizen: its name and its values. */
  datatype PersonalAttribute = PersonalAttribute(name: string, values: seq<string>)

  /** What clone() produces: a new list, or CloneNotSupportedException. */
  datatype CloneOutcome = Cloned(copy: PersonalAttributeList) | CloneNotSupported

  class PersonalAttributeList {
    /** The attributes, in enumeration order. */
    var attributes: seq<PersonalAttribute>
    /** Whether clone() succeeds on this list; false stands for an
        implementation whose clone throws CloneNotSupportedException. */
    const cloneable: bool

    /** `new PersonalAttributeList()`: an empty list that can be cloned. */
    constructor ()
      ensures attributes == [] && cloneable
    {
      attributes := [];
      cloneable := true;
    }

    /** A list holding the given attributes. */
    constructor Of(attrs: seq<PersonalAttribute>, canClone: bool)
      ensures attributes == attrs && cloneable == canClone
    {
      attributes := attrs;
      cloneable := canClone;
    }

    /** clone(): a new, independent list with the same contents, or the
        failure; the list itself is left as it was. */
    method Clone() returns (r: CloneOutcome)
      ensures cloneable ==> r.Cloned? && fresh(r.copy)
      ensures cloneable ==> r.copy.attributes == attributes && r.copy.cloneable
      ensures !cloneable ==> r == CloneNotSupported
    {
      if cloneable {
        var copy := new PersonalAttributeList.Of(attributes, true);
        r := Cloned(copy);
      } else {
        r := CloneNotSupported;
      }
    }
  }
}
