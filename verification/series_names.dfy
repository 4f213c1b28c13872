/** The series-name rule of the Prometheus result normaliser: a label map
    `{__name__: "up", job: "api"}` is displayed as `up{job="api"}`.

    A label map is a sequence of (key, value) pairs in the order
    `Object.keys` lists them. Prometheus label names never look like array
    indices, so that order is insertion order. A JavaScript object has
    unique keys, so only sequences with unique keys (`UniqueKeys`) stand for
    label maps; sequences with a repeated key are outside the model. On them
    `Lookup` returns the first binding and `OtherLabels` keeps every one. */
module SeriesNames {
  import opened Wrappers

  type Label = (string, string)
  type LabelSet = seq<Label>

  /** No key occurs twice: the sequences that stand for JavaScript objects. */
  predicate UniqueKeys(labels: LabelSet)
  {
    forall i, j :: 0 <= i < j < |labels| ==> labels[i].0 != labels[j].0
  }

  /** The label key that carries the metric name. */
  const MetricNameKey: string := "__name__"

  /** Index i holds the first binding of `key`. */
  predicate FirstBinding(labels: LabelSet, key: string, i: int)
  {
    && 0 <= i < |labels| && labels[i].0 == key
    && forall j :: 0 <= j < i ==> labels[j].0 != key
  }

  function Lookup(labels: LabelSet, key: string): (r: Option<string>)
    ensures r.Some? <==> exists i :: 0 <= i < |labels| && labels[i].0 == key
    ensures r.Some? ==> (key, r.value) in labels
    ensures forall i :: FirstBinding(labels, key, i) ==> r == Some(labels[i].1)
  {
    if labels == [] then None
    else if labels[0].0 == key then Some(labels[0].1)
    else Lookup(labels[1..], key)
  }

  /** `labels.__name__ || ''`: an absent and an empty name both give "". */
  function MetricName(labels: LabelSet): (r: string)
    ensures Lookup(labels, MetricNameKey).None? ==> r == ""
    ensures r != "" ==> (MetricNameKey, r) in labels
    ensures forall i :: FirstBinding(labels, MetricNameKey, i) ==> r == labels[i].1
  {
    Lookup(labels, MetricNameKey).GetOr("")
  }

  /** The labels listed inside the braces: every key but `__name__`, in map order. */
  function OtherLabels(labels: LabelSet): (r: LabelSet)
    ensures |r| <= |labels|
    ensures forall l :: l in r <==> l in labels && l.0 != MetricNameKey
  {
    if labels == [] then []
    else if labels[0].0 == MetricNameKey then OtherLabels(labels[1..])
    else [labels[0]] + OtherLabels(labels[1..])
  }

  /** A single label is listed unless it is the metric name. */
  lemma OtherLabelsSingle(l: Label)
    ensures OtherLabels([l]) == if l.0 == MetricNameKey then [] else [l]
  {
    assert [l][1..] == [];
  }

  /** The listing keeps map order: the labels of `a` come before those of `b`,
      each in their own order. */
  lemma {:induction false} OtherLabelsAppend(a: LabelSet, b: LabelSet)
    ensures OtherLabels(a + b) == OtherLabels(a) + OtherLabels(b)
    decreases |a|
  {
    if a == [] {
      assert a + b == b;
    } else {
      assert (a + b)[0] == a[0];
      assert (a + b)[1..] == a[1..] + b;
      OtherLabelsAppend(a[1..], b);
    }
  }

  /** One `key="value"` pair, without any escaping. */
  function FormatLabel(l: Label): (r: string)
    ensures |r| == |l.0| + |l.1| + 3
    ensures r[..|l.0|] == l.0 && r[|l.0|] == '=' && r[|l.0| + 1] == '"'
    ensures r[|l.0| + 2 .. |r| - 1] == l.1 && r[|r| - 1] == '"'
  {
    l.0 + "=\"" + l.1 + "\""
  }

  /** The formatted pairs joined by `,`: empty exactly for no pairs. */
  function JoinLabels(ls: LabelSet): (r: string)
    ensures r == [] <==> ls == []
  {
    if ls == [] then ""
    else if |ls| == 1 then FormatLabel(ls[0])
    else FormatLabel(ls[0]) + "," + JoinLabels(ls[1..])
  }

  /** Joining keeps the pairs in order: the join of a concatenation is the
      join of each part with one `,` between them. */
  lemma {:induction false} JoinLabelsAppend(a: LabelSet, b: LabelSet)
    requires a != [] && b != []
    ensures JoinLabels(a + b) == JoinLabels(a) + "," + JoinLabels(b)
    decreases |a|
  {
    assert (a + b)[0] == a[0];
    assert (a + b)[1..] == a[1..] + b;
    if |a| == 1 {
      assert a[1..] + b == b;
    } else {
      JoinLabelsAppend(a[1..], b);
    }
  }

  /** labelsToSeriesName: the metric name, then the other labels inside braces. */
  function LabelsToSeriesName(labels: LabelSet): (r: string)
    ensures |r| == |MetricName(labels)| + |JoinLabels(OtherLabels(labels))| + 2
    ensures r[..|MetricName(labels)|] == MetricName(labels)
    ensures r[|MetricName(labels)|] == '{' && r[|r| - 1] == '}'
    ensures r[|MetricName(labels)| + 1 .. |r| - 1] == JoinLabels(OtherLabels(labels))
  {
    MetricName(labels) + "{" + JoinLabels(OtherLabels(labels)) + "}"
  }

  /** The name starts with `{` exactly when there is no metric name (metric
      names never start with `{`). */
  lemma NameStartsWithBraceIff(labels: LabelSet)
    requires '{' !in MetricName(labels)
    ensures LabelsToSeriesName(labels)[0] == '{' <==> MetricName(labels) == ""
  {
  }

  // ---------------------------------------------------------------------
  // A parser for series names: the inverse of LabelsToSeriesName on label
  // maps whose parts do not contain the delimiters.

  /** The text before the first `c` and the text after it; None if there is no `c`. */
  function SplitAt(s: string, c: char): (r: Option<(string, string)>)
    ensures r.None? <==> c !in s
    ensures r.Some? ==> s == r.value.0 + [c] + r.value.1 && c !in r.value.0
  {
    if s == [] then None
    else if s[0] == c then Some(([], s[1..]))
    else
      match SplitAt(s[1..], c)
      case None => None
      case Some((before, after)) => Some(([s[0]] + before, after))
  }

  lemma {:induction false} SplitAtFirst(before: string, c: char, after: string)
    requires c !in before
    ensures SplitAt(before + [c] + after, c) == Some((before, after))
  {
    var s := before + [c] + after;
    if before == [] {
      assert s == [c] + after;
    } else {
      assert s[0] == before[0] != c;
      assert s[1..] == before[1..] + [c] + after;
      SplitAtFirst(before[1..], c, after);
      assert [s[0]] + before[1..] == before;
    }
  }

  /** Parses one `key="value"` pair at the head of `s`, returning it and the rest. */
  function ParsePair(s: string): (r: Option<(Label, string)>)
    ensures r.Some? ==> |r.value.1| < |s|
  {
    match SplitAt(s, '=')
    case None => None
    case Some((key, rest)) =>
      if rest == [] || rest[0] != '"' then None
      else
        match SplitAt(rest[1..], '"')
        case None => None
        case Some((value, tail)) => Some(((key, value), tail))
  }

  /** Parses a `,`-joined list of `key="value"` pairs. */
  function ParseLabels(s: string): (r: Option<LabelSet>)
    decreases |s|
  {
    if s == [] then Some([])
    else
      match ParsePair(s)
      case None => None
      case Some((l, tail)) =>
        if tail == [] then Some([l])
        else if tail[0] != ',' || tail == [','] then None
        else
          match ParseLabels(tail[1..])
          case None => None
          case Some(more) => Some([l] + more)
  }

  /** Parses a series name into its metric name and its other labels. */
  function ParseSeriesName(s: string): (r: Option<(string, LabelSet)>)
  {
    match SplitAt(s, '{')
    case None => None
    case Some((name, rest)) =>
      if rest == [] || rest[|rest| - 1] != '}' then None
      else
        match ParseLabels(rest[..|rest| - 1])
        case None => None
        case Some(ls) => Some((name, ls))
  }

  /** The parts of a label map contain none of the delimiters the name uses:
      Prometheus metric and label names are identifiers, so only the values
      can break this, by containing a double quote. */
  predicate Delimitable(labels: LabelSet)
  {
    && '{' !in MetricName(labels)
    && forall l :: l in OtherLabels(labels) ==> '=' !in l.0 && '"' !in l.1
  }

  /** Parsing one pair followed by `tail` consumes exactly that pair. */
  lemma ParsePairFormatted(p: Label, tail: string)
    requires '=' !in p.0 && '"' !in p.1
    ensures ParsePair(FormatLabel(p) + tail) == Some((p, tail))
  {
    var rest := "\"" + p.1 + "\"" + tail;
    assert FormatLabel(p) + tail == p.0 + "=" + rest;
    SplitAtFirst(p.0, '=', rest);
    assert rest[1..] == p.1 + "\"" + tail;
    SplitAtFirst(p.1, '"', tail);
  }

  /** A pair followed by `,` and a non-empty rest parses as that pair in
      front of whatever the rest parses as. */
  lemma ParsePairThenList(p: Label, more: string)
    requires '=' !in p.0 && '"' !in p.1 && more != []
    ensures ParseLabels(FormatLabel(p) + ("," + more))
            == match ParseLabels(more)
               case None => None
               case Some(ls) => Some([p] + ls)
  {
    var tail := "," + more;
    ParsePairFormatted(p, tail);
    assert tail[1..] == more;
    assert FormatLabel(p) + tail != [];
  }

  /** A single pair parses back as itself. */
  lemma ParseSinglePair(p: Label)
    requires '=' !in p.0 && '"' !in p.1
    ensures ParseLabels(JoinLabels([p])) == Some([p])
  {
    ParsePairFormatted(p, "");
    assert FormatLabel(p) + "" == FormatLabel(p) == JoinLabels([p]);
  }

  lemma JoinLabelsCons(ls: LabelSet)
    requires |ls| > 1
    ensures JoinLabels(ls) == FormatLabel(ls[0]) + ("," + JoinLabels(ls[1..]))
    ensures JoinLabels(ls[1..]) != []
  {
    assert ls[1..] != [];
  }

  lemma {:induction false} ParseJoinLabels(ls: LabelSet)
    requires forall l :: l in ls ==> '=' !in l.0 && '"' !in l.1
    ensures ParseLabels(JoinLabels(ls)) == Some(ls)
  {
    if |ls| == 1 {
      ParseSinglePair(ls[0]);
      assert ls == [ls[0]];
    } else if |ls| > 1 {
      assert ls[0] in ls;
      assert forall l :: l in ls[1..] ==> l in ls;
      ParseJoinLabels(ls[1..]);
      JoinLabelsCons(ls);
      ParsePairThenList(ls[0], JoinLabels(ls[1..]));
      assert [ls[0]] + ls[1..] == ls;
    }
  }

  /** Round trip: the parser recovers the metric name and the other labels. */
  lemma ParseLabelsToSeriesName(labels: LabelSet)
    requires Delimitable(labels)
    ensures ParseSeriesName(LabelsToSeriesName(labels))
            == Some((MetricName(labels), OtherLabels(labels)))
  {
    var name, inner := MetricName(labels), JoinLabels(OtherLabels(labels));
    assert LabelsToSeriesName(labels) == name + "{" + (inner + "}");
    SplitAtFirst(name, '{', inner + "}");
    assert (inner + "}")[..|inner + "}"| - 1] == inner;
    ParseJoinLabels(OtherLabels(labels));
  }

  /** Consequence of the round trip: on delimitable label maps, equal names
      mean equal metric names and equal label lists. */
  lemma SeriesNameInjective(a: LabelSet, b: LabelSet)
    requires Delimitable(a) && Delimitable(b)
    requires LabelsToSeriesName(a) == LabelsToSeriesName(b)
    ensures MetricName(a) == MetricName(b)
    ensures OtherLabels(a) == OtherLabels(b)
  {
    ParseLabelsToSeriesName(a);
    ParseLabelsToSeriesName(b);
  }

  /** Without escaping, a value holding `"` makes two label maps share a name. */
  lemma SeriesNameAmbiguousWithQuotes()
    ensures LabelsToSeriesName([("a", "x\",b=\"y")])
            == LabelsToSeriesName([("a", "x"), ("b", "y")])
  {
  }

  /** Example: a metric name with one other label, and a label map without a name. */
  lemma SeriesNameExample()
    ensures LabelsToSeriesName([(MetricNameKey, "up"), ("job", "api")]) == "up{job=\"api\"}"
    ensures LabelsToSeriesName([("job", "api")]) == "{job=\"api\"}"
  {
  }
}
