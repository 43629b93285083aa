/** toString of an EIDASAuthnResponse: a labelled dump of eleven of its
    fields, one per line, in a fixed order. */
module ResponseDump {
  import opened ResponseFields

  /** getClass().getSimpleName(); the class is final, so this never varies. */
  const SimpleName := "EIDASAuthnResponse"
  const Opening := " ["
  const Separator := ",\n"
  const SeparatorWidth := 2
  const Closing := "]"
  /** Every label is its field name padded with blanks to this width. */
  const LabelWidth := 19

  /** The fields that are dumped, in dump order. The token, the attribute
      list, the assurance level and the encrypted flag are not among them. */
  const FieldNames: seq<string> := [
    "samlId", "fail", "statusCode", "subStatusCode", "audienceRest", "message",
    "inResponseTo", "notOnOrAfter", "notBefore", "country", "issuer"]

  const Labels: seq<string> := [
    "samlId             ",
    "fail               ",
    "statusCode         ",
    "subStatusCode      ",
    "audienceRest       ",
    "message            ",
    "inResponseTo       ",
    "notOnOrAfter       ",
    "notBefore          ",
    "country            ",
    "issuer             "]

  /** There are eleven labels, each LabelWidth characters wide. */
  lemma LabelLengths()
    ensures |Labels| == |FieldNames| == 11
    ensures forall k :: 0 <= k < |Labels| ==> |Labels[k]| == LabelWidth
  {
  }
  /** Label k is the k-th field name followed by blanks. */
  lemma LabelPadded(k: nat)
    requires k < |Labels|
    ensures |FieldNames[k]| < LabelWidth
    ensures Labels[k][..|FieldNames[k]|] == FieldNames[k]
    ensures forall i :: |FieldNames[k]| <= i < LabelWidth ==> Labels[k][i] == ' '
  {
    LabelLengths();
    if k == 0 {
      assert Labels[0] == "samlId" + "             ";
    } else if k == 1 {
      assert Labels[1] == "fail" + "               ";
    } else if k == 2 {
      assert Labels[2] == "statusCode" + "         ";
    } else if k == 3 {
      assert Labels[3] == "subStatusCode" + "      ";
    } else if k == 4 {
      assert Labels[4] == "audienceRest" + "       ";
    } else if k == 5 {
      assert Labels[5] == "message" + "            ";
    } else if k == 6 {
      assert Labels[6] == "inResponseTo" + "       ";
    } else if k == 7 {
      assert Labels[7] == "notOnOrAfter" + "       ";
    } else if k == 8 {
      assert Labels[8] == "notBefore" + "          ";
    } else if k == 9 {
      assert Labels[9] == "country" + "            ";
    } else {
      assert Labels[10] == "issuer" + "             ";
    }
  }

  /** StringBuilder.append of a String: a null reference appends "null". */
  function TextOf(v: Option<string>): string
  {
    match v
    case None => "null"
    case Some(text) => text
  }

  /** StringBuilder.append of a boolean. */
  function FlagOf(b: bool): string
  {
    if b then "true" else "false"
  }

  /** StringBuilder.append of a DateTime: "null", or the instant as the
      given rendering prints it. */
  function TimeOf(t: Option<Instant>, render: Instant -> string): string
  {
    match t
    case None => "null"
    case Some(i) => render(i)
  }

  /** The values that follow the labels, in dump order. */
  function Rendered(s: Scalars, render: Instant -> string): (r: seq<string>)
    ensures |r| == |Labels|
  {
    [TextOf(s.samlId), FlagOf(s.fail), TextOf(s.statusCode), TextOf(s.subStatusCode),
     TextOf(s.audienceRest), TextOf(s.message), TextOf(s.inResponseTo),
     TimeOf(s.notOnOrAfter, render), TimeOf(s.notBefore, render),
     TextOf(s.country), TextOf(s.issuer)]
  }

  function TotalLength(parts: seq<string>): nat
  {
    if |parts| == 0 then 0 else |parts[0]| + TotalLength(parts[1..])
  }

  lemma {:induction false} TotalLengthUniform(parts: seq<string>)
    requires forall k :: 0 <= k < |parts| ==> |parts[k]| == LabelWidth
    ensures TotalLength(parts) == LabelWidth * |parts|
  {
    if |parts| > 0 {
      TotalLengthUniform(parts[1..]);
    }
  }

  lemma {:induction false} TotalLengthSplit(parts: seq<string>, k: nat)
    requires 0 < k <= |parts|
    ensures TotalLength(parts[..k]) == |parts[0]| + TotalLength(parts[1..][..k - 1])
  {
    assert parts[..k][1..] == parts[1..][..k - 1];
  }

  /** The lines of the dump: each label, its value and ",\n". */
  function Lines(labels: seq<string>, values: seq<string>): (r: string)
    requires |labels| == |values|
    ensures |r| == TotalLength(labels) + TotalLength(values) + SeparatorWidth * |values|
    decreases |values|
  {
    if |values| == 0 then []
    else labels[0] + values[0] + Separator + Lines(labels[1..], values[1..])
  }

  /** Line k of the dump starts right after the k lines before it and reads
      label k, value k, ",\n". */
  lemma {:induction false} LineAt(labels: seq<string>, values: seq<string>, k: nat)
    requires |labels| == |values| && k < |values|
    ensures var start := TotalLength(labels[..k]) + TotalLength(values[..k]) + SeparatorWidth * k;
      var r := Lines(labels, values);
      start + |labels[k]| + |values[k]| + SeparatorWidth <= |r| &&
      r[start .. start + |labels[k]| + |values[k]| + SeparatorWidth] == labels[k] + values[k] + Separator
    decreases k
  {
    var head := labels[0] + values[0] + Separator;
    var tail := Lines(labels[1..], values[1..]);
    assert Lines(labels, values) == head + tail;
    if k > 0 {
      LineAt(labels[1..], values[1..], k - 1);
      TotalLengthSplit(labels, k);
      TotalLengthSplit(values, k);
      var start := TotalLength(labels[1..][..k - 1]) + TotalLength(values[1..][..k - 1]) + SeparatorWidth * (k - 1);
      var len := |labels[k]| + |values[k]| + SeparatorWidth;
      assert (head + tail)[|head| + start .. |head| + start + len] == tail[start .. start + len];
    }
  }

  /** Every label is LabelWidth characters wide. */
  ghost predicate Padded(labels: seq<string>)
  {
    forall k :: 0 <= k < |labels| ==> |labels[k]| == LabelWidth
  }

  /** The labelled dump: the class name, " [", one line per label and value,
      "]". */
  function Dump(labels: seq<string>, values: seq<string>): (r: string)
    requires |labels| == |values| && Padded(labels)
    ensures |r| == |SimpleName| + |Opening| + (LabelWidth + SeparatorWidth) * |values|
                   + TotalLength(values) + |Closing|
    ensures r[..|SimpleName| + |Opening|] == SimpleName + Opening
    ensures r[|r| - 1] == Closing[0]
  {
    TotalLengthUniform(labels);
    var header, body := SimpleName + Opening, Lines(labels, values);
    assert (header + body + Closing)[..|header|] == header;
    header + body + Closing
  }

  lemma SliceRight(a: string, b: string, i: nat, j: nat)
    requires i <= j <= |b|
    ensures (a + b)[|a| + i .. |a| + j] == b[i..j]
  {
  }

  lemma SliceLeft(a: string, b: string, i: nat, j: nat)
    requires i <= j <= |a|
    ensures (a + b)[i..j] == a[i..j]
  {
  }

  /** Line k of the dump sits at a fixed place after the header and reads
      label k, value k and ",\n". */
  lemma DumpLine(labels: seq<string>, values: seq<string>, k: nat)
    requires |labels| == |values| && Padded(labels) && k < |values|
    ensures var r := Dump(labels, values);
      var start := |SimpleName| + |Opening| + (LabelWidth + SeparatorWidth) * k + TotalLength(values[..k]);
      start + LabelWidth + |values[k]| + SeparatorWidth <= |r| &&
      r[start .. start + LabelWidth + |values[k]| + SeparatorWidth] == labels[k] + values[k] + Separator
  {
    var header := SimpleName + Opening;
    var body := Lines(labels, values);
    assert Dump(labels, values) == header + (body + Closing);
    TotalLengthUniform(labels[..k]);
    LineAt(labels, values, k);
    var start := TotalLength(labels[..k]) + TotalLength(values[..k]) + SeparatorWidth * k;
    var len := LabelWidth + |values[k]| + SeparatorWidth;
    SliceLeft(body, Closing, start, start + len);
    SliceRight(header, body + Closing, start, start + len);
  }

  /** toString of a response whose scalar fields are s. */
  function Describe(s: Scalars, render: Instant -> string): (r: string)
    ensures |r| == |SimpleName| + |Opening| + (LabelWidth + SeparatorWidth) * |Labels|
                   + TotalLength(Rendered(s, render)) + |Closing|
    ensures r[..|SimpleName| + |Opening|] == SimpleName + Opening
    ensures r[|r| - 1] == Closing[0]
  {
    LabelLengths();
    Dump(Labels, Rendered(s, render))
  }

  /** Line k of toString: the k-th label, then the k-th dumped field's text. */
  lemma DescribeLine(s: Scalars, render: Instant -> string, k: nat)
    requires k < |Labels|
    ensures var r := Describe(s, render);
      var v := Rendered(s, render);
      var start := |SimpleName| + |Opening| + (LabelWidth + SeparatorWidth) * k + TotalLength(v[..k]);
      start + LabelWidth + |v[k]| + SeparatorWidth <= |r| &&
      r[start .. start + LabelWidth + |v[k]| + SeparatorWidth] == Labels[k] + v[k] + Separator
  {
    LabelLengths();
    DumpLine(Labels, Rendered(s, render), k);
  }

  /** The dump does not show the assurance level or the encrypted flag. */
  lemma DescribeOmits(s: Scalars, render: Instant -> string, level: Option<string>, encrypted: bool)
    ensures Describe(s.(assuranceLevel := level, encrypted := encrypted), render) == Describe(s, render)
  {
  }
}
