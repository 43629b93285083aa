/** The scalar part of an EIDASAuthnResponse: every field that its setters
    store verbatim, and the algebra of those setters. */
module ResponseFields {

  /** A Java reference that may be null: None stands for null. */
  datatype Option<+T> = None | Some(value: T)

  /** A point in time (a Joda DateTime), as milliseconds since the epoch;
      two instants are equal when their milliseconds are. */
  datatype Instant = Instant(epochMillis: int)

  /** The thirteen scalar fields of the response, with Java's nullability. */
  datatype Scalars = Scalars(
    samlId: Option<string>,
    fail: bool,
    statusCode: Option<string>,
    subStatusCode: Option<string>,
    audienceRest: Option<string>,
    message: Option<string>,
    inResponseTo: Option<string>,
    notOnOrAfter: Option<Instant>,
    notBefore: Option<Instant>,
    country: Option<string>,
    encrypted: bool,
    issuer: Option<string>,
    assuranceLevel: Option<string>)

  /** Java's default field values: null references and false flags. */
  const Defaults := Scalars(None, false, None, None, None, None, None, None, None, None, false, None, None)

  /** Names one scalar field. */
  datatype Field =
    | SamlId | Fail | StatusCode | SubStatusCode | AudienceRest | Message | InResponseTo
    | NotOnOrAfter | NotBefore | Country | Encrypted | Issuer | AssuranceLevel

  /** The value held by one scalar field. */
  datatype Value = Text(text: Option<string>) | Flag(flag: bool) | Time(time: Option<Instant>)

  /** One call of a scalar setter, with its argument. */
  datatype Assignment =
    | AssignSamlId(samlId: Option<string>)
    | AssignFail(fail: bool)
    | AssignStatusCode(statusCode: Option<string>)
    | AssignSubStatusCode(subStatusCode: Option<string>)
    | AssignAudienceRest(audienceRest: Option<string>)
    | AssignMessage(message: Option<string>)
    | AssignInResponseTo(inResponseTo: Option<string>)
    | AssignNotOnOrAfter(notOnOrAfter: Option<Instant>)
    | AssignNotBefore(notBefore: Option<Instant>)
    | AssignCountry(country: Option<string>)
    | AssignEncrypted(encrypted: bool)
    | AssignIssuer(issuer: Option<string>)
    | AssignAssuranceLevel(assuranceLevel: Option<string>)

  /** The field a setter call writes. */
  function Target(a: Assignment): Field
  {
    match a
    case AssignSamlId(_) => SamlId
    case AssignFail(_) => Fail
    case AssignStatusCode(_) => StatusCode
    case AssignSubStatusCode(_) => SubStatusCode
    case AssignAudienceRest(_) => AudienceRest
    case AssignMessage(_) => Message
    case AssignInResponseTo(_) => InResponseTo
    case AssignNotOnOrAfter(_) => NotOnOrAfter
    case AssignNotBefore(_) => NotBefore
    case AssignCountry(_) => Country
    case AssignEncrypted(_) => Encrypted
    case AssignIssuer(_) => Issuer
    case AssignAssuranceLevel(_) => AssuranceLevel
  }

  /** The value a setter call writes. */
  function Written(a: Assignment): Value
  {
    match a
    case AssignSamlId(v) => Text(v)
    case AssignFail(b) => Flag(b)
    case AssignStatusCode(v) => Text(v)
    case AssignSubStatusCode(v) => Text(v)
    case AssignAudienceRest(v) => Text(v)
    case AssignMessage(v) => Text(v)
    case AssignInResponseTo(v) => Text(v)
    case AssignNotOnOrAfter(t) => Time(t)
    case AssignNotBefore(t) => Time(t)
    case AssignCountry(v) => Text(v)
    case AssignEncrypted(b) => Flag(b)
    case AssignIssuer(v) => Text(v)
    case AssignAssuranceLevel(v) => Text(v)
  }

  /** What the getter of field f returns. */
  function Read(s: Scalars, f: Field): Value
  {
    match f
    case SamlId => Text(s.samlId)
    case Fail => Flag(s.fail)
    case StatusCode => Text(s.statusCode)
    case SubStatusCode => Text(s.subStatusCode)
    case AudienceRest => Text(s.audienceRest)
    case Message => Text(s.message)
    case InResponseTo => Text(s.inResponseTo)
    case NotOnOrAfter => Time(s.notOnOrAfter)
    case NotBefore => Time(s.notBefore)
    case Country => Text(s.country)
    case Encrypted => Flag(s.encrypted)
    case Issuer => Text(s.issuer)
    case AssuranceLevel => Text(s.assuranceLevel)
  }

  /** The effect of one scalar setter: it stores its argument, whatever it is,
      in its own field and touches no other field. */
  function Apply(s: Scalars, a: Assignment): (r: Scalars)
    ensures Read(r, Target(a)) == Written(a)
    ensures forall f :: f != Target(a) ==> Read(r, f) == Read(s, f)
  {
    match a
    case AssignSamlId(v) => s.(samlId := v)
    case AssignFail(b) => s.(fail := b)
    case AssignStatusCode(v) => s.(statusCode := v)
    case AssignSubStatusCode(v) => s.(subStatusCode := v)
    case AssignAudienceRest(v) => s.(audienceRest := v)
    case AssignMessage(v) => s.(message := v)
    case AssignInResponseTo(v) => s.(inResponseTo := v)
    case AssignNotOnOrAfter(t) => s.(notOnOrAfter := t)
    case AssignNotBefore(t) => s.(notBefore := t)
    case AssignCountry(v) => s.(country := v)
    case AssignEncrypted(b) => s.(encrypted := b)
    case AssignIssuer(v) => s.(issuer := v)
    case AssignAssuranceLevel(v) => s.(assuranceLevel := v)
  }

  /** Two snapshots that every getter agrees on are the same snapshot. */
  lemma ReadDetermines(s: Scalars, t: Scalars)
    requires forall f :: Read(s, f) == Read(t, f)
    ensures s == t
  {
    assert Read(s, SamlId) == Read(t, SamlId);
    assert Read(s, Fail) == Read(t, Fail);
    assert Read(s, StatusCode) == Read(t, StatusCode);
    assert Read(s, SubStatusCode) == Read(t, SubStatusCode);
    assert Read(s, AudienceRest) == Read(t, AudienceRest);
    assert Read(s, Message) == Read(t, Message);
    assert Read(s, InResponseTo) == Read(t, InResponseTo);
    assert Read(s, NotOnOrAfter) == Read(t, NotOnOrAfter);
    assert Read(s, NotBefore) == Read(t, NotBefore);
    assert Read(s, Country) == Read(t, Country);
    assert Read(s, Encrypted) == Read(t, Encrypted);
    assert Read(s, Issuer) == Read(t, Issuer);
    assert Read(s, AssuranceLevel) == Read(t, AssuranceLevel);
  }

  /** Setting the same field twice leaves only the second value. */
  lemma SetLastWins(s: Scalars, a: Assignment, b: Assignment)
    requires Target(a) == Target(b)
    ensures Apply(Apply(s, a), b) == Apply(s, b)
  {
  }

  /** Setters of two different fields commute. */
  lemma SetCommutes(s: Scalars, a: Assignment, b: Assignment)
    requires Target(a) != Target(b)
    ensures Apply(Apply(s, a), b) == Apply(Apply(s, b), a)
  {
  }

  /** A run of setter calls, performed left to right. */
  function ApplyAll(s: Scalars, run: seq<Assignment>): Scalars
    decreases |run|
  {
    if |run| == 0 then s else ApplyAll(Apply(s, run[0]), run[1..])
  }

  /** The value of field f after a run: the argument of the last call that
      wrote f, or d when no call wrote it. */
  function LastWrite(run: seq<Assignment>, f: Field, d: Value): Value
  {
    if |run| == 0 then d
    else if Target(run[|run| - 1]) == f then Written(run[|run| - 1])
    else LastWrite(run[..|run| - 1], f, d)
  }

  /** No two calls of the run write the same field. */
  ghost predicate DistinctTargets(run: seq<Assignment>)
  {
    forall i, j :: 0 <= i < j < |run| ==> Target(run[i]) != Target(run[j])
  }

  lemma {:induction false} ApplyAllSnoc(s: Scalars, run: seq<Assignment>, a: Assignment)
    ensures ApplyAll(s, run + [a]) == Apply(ApplyAll(s, run), a)
    decreases |run|
  {
    if |run| == 0 {
      assert run + [a] == [a];
      assert [a][1..] == [];
    } else {
      assert (run + [a])[1..] == run[1..] + [a];
      ApplyAllSnoc(Apply(s, run[0]), run[1..], a);
    }
  }

  /** After a run of setters every getter returns the last value written to
      its field, or the value it had before the run. */
  lemma {:induction false} ReadAfterRun(s: Scalars, run: seq<Assignment>, f: Field)
    ensures Read(ApplyAll(s, run), f) == LastWrite(run, f, Read(s, f))
    decreases |run|
  {
    if |run| > 0 {
      var init, last := run[..|run| - 1], run[|run| - 1];
      assert run == init + [last];
      ApplyAllSnoc(s, init, last);
      ReadAfterRun(s, init, f);
    }
  }

  lemma {:induction false} LastWriteOf(run: seq<Assignment>, f: Field, d: Value, a: Assignment)
    requires DistinctTargets(run)
    requires a in run && Target(a) == f
    ensures LastWrite(run, f, d) == Written(a)
    decreases |run|
  {
    var n := |run| - 1;
    if run[n] != a {
      var i :| 0 <= i < |run| && run[i] == a;
      assert Target(run[n]) != f by {
        assert i < n;
      }
      assert a in run[..n] by {
        assert run[..n][i] == a;
      }
      LastWriteOf(run[..n], f, d, a);
    }
  }

  lemma {:induction false} LastWriteNone(run: seq<Assignment>, f: Field, d: Value)
    requires forall a :: a in run ==> Target(a) != f
    ensures LastWrite(run, f, d) == d
    decreases |run|
  {
    if |run| > 0 {
      var n := |run| - 1;
      assert run[n] in run;
      forall a | a in run[..n] ensures Target(a) != f {
        assert a in run;
      }
      LastWriteNone(run[..n], f, d);
    }
  }

  /** Scalar setters are order-independent: two runs that make the same calls,
      each field written at most once, produce the same state. */
  lemma RunOrderIrrelevant(s: Scalars, run: seq<Assignment>, other: seq<Assignment>)
    requires DistinctTargets(run) && DistinctTargets(other)
    requires forall a :: a in run <==> a in other
    ensures ApplyAll(s, run) == ApplyAll(s, other)
  {
    forall f ensures Read(ApplyAll(s, run), f) == Read(ApplyAll(s, other), f) {
      ReadAfterRun(s, run, f);
      ReadAfterRun(s, other, f);
      if a :| a in run && Target(a) == f {
        LastWriteOf(run, f, Read(s, f), a);
        LastWriteOf(other, f, Read(s, f), a);
      } else {
        LastWriteNone(run, f, Read(s, f));
        LastWriteNone(other, f, Read(s, f));
      }
    }
    ReadDetermines(ApplyAll(s, run), ApplyAll(s, other));
  }
}
