/** The dataset label: `String.prototype.split` on one separator character,
    and the labeling a collector derives once from its `datasetLabel`. */
module Labels {
  import opened Wrappers

  /** The separator the collector splits a dataset label on. */
  const Separator: char := '_'

  /** `s.split(sep)`: the pieces of s between occurrences of sep. There is
      always at least one piece and no piece contains sep. */
  function Split(s: string, sep: char): (parts: seq<string>)
    ensures |parts| >= 1
    ensures forall i :: 0 <= i < |parts| ==> sep !in parts[i]
  {
    if |s| == 0 then [""]
    else
      var rest := Split(s[1..], sep);
      if s[0] == sep then [""] + rest
      else [[s[0]] + rest[0]] + rest[1..]
  }

  /** `parts.join(sep)`, the inverse of Split. */
  function Join(parts: seq<string>, sep: char): string
    requires |parts| >= 1
  {
    if |parts| == 1 then parts[0] else parts[0] + [sep] + Join(parts[1..], sep)
  }

  /** Joining the pieces gives back the split string. */
  lemma {:induction false} SplitJoin(s: string, sep: char)
    ensures Join(Split(s, sep), sep) == s
  {
    if |s| > 0 {
      var rest := Split(s[1..], sep);
      SplitJoin(s[1..], sep);
      if s[0] == sep {
        assert ([""] + rest)[1..] == rest;
      } else if |rest| > 1 {
        var parts := [[s[0]] + rest[0]] + rest[1..];
        assert parts[1..] == rest[1..];
        assert s == [s[0]] + s[1..];
      } else {
        assert s == [s[0]] + s[1..];
      }
    }
  }

  /** Splitting a separator-free prefix followed by anything. */
  lemma {:induction false} SplitFreePrefix(a: string, t: string, sep: char)
    requires sep !in a
    ensures Split(a + t, sep) == [a + Split(t, sep)[0]] + Split(t, sep)[1..]
  {
    if |a| > 0 {
      SplitFreePrefix(a[1..], t, sep);
      assert (a + t)[0] == a[0];
      assert (a + t)[1..] == a[1..] + t;
      assert [a[0]] + (a[1..] + Split(t, sep)[0]) == a + Split(t, sep)[0];
    } else {
      assert a + t == t;
      assert a + Split(t, sep)[0] == Split(t, sep)[0];
      assert Split(t, sep) == [Split(t, sep)[0]] + Split(t, sep)[1..];
    }
  }

  /** Splitting joined separator-free pieces gives back the pieces. */
  lemma {:induction false} JoinSplit(parts: seq<string>, sep: char)
    requires |parts| >= 1
    requires forall i :: 0 <= i < |parts| ==> sep !in parts[i]
    ensures Split(Join(parts, sep), sep) == parts
  {
    if |parts| == 1 {
      SplitFreePrefix(parts[0], "", sep);
      assert parts[0] + "" == parts[0];
    } else {
      var tail := Join(parts[1..], sep);
      JoinSplit(parts[1..], sep);
      SplitFreePrefix(parts[0], [sep] + tail, sep);
      assert parts[0] + [sep] + tail == parts[0] + ([sep] + tail);
      assert Split([sep] + tail, sep) == [""] + Split(tail, sep) by {
        assert ([sep] + tail)[1..] == tail;
      }
      var sp := Split([sep] + tail, sep);
      assert sp[0] == "" && sp[1..] == parts[1..];
      assert parts[0] + sp[0] == parts[0];
      assert parts == [parts[0]] + parts[1..];
    }
  }

  /** The labeling sent with every batch of a collector. */
  datatype Labeling = Labeling(labelingName: string, labelName: Option<string>)

  /** `if (datasetLabel) labeling = {labelingName: split[0], labelName: split[1]}`.
      A missing or empty label is falsy and gives no labeling; index 1 of the
      split is undefined when the label holds no separator. */
  function ParseLabel(datasetLabel: Option<string>): (r: Option<Labeling>)
    ensures r.None? <==> datasetLabel.None? || datasetLabel.value == ""
  {
    if datasetLabel.None? || datasetLabel.value == "" then None
    else
      var parts := Split(datasetLabel.value, Separator);
      Some(Labeling(parts[0], if |parts| > 1 then Some(parts[1]) else None))
  }

  /** What the labeling is, in terms of the label text: labelingName is the
      text before the first separator (all of it if there is none); labelName
      is absent exactly when there is no separator, and otherwise is the text
      between the first separator and the next one, or the end. */
  lemma LabelingMeaning(s: string)
    requires s != ""
    ensures ParseLabel(Some(s)).Some?
    ensures var l := ParseLabel(Some(s)).value;
      && Separator !in l.labelingName
      && |l.labelingName| <= |s| && s[..|l.labelingName|] == l.labelingName
      && (l.labelName.None? <==> Separator !in s)
      && (l.labelName.None? ==> l.labelingName == s)
      && (l.labelName.Some? ==>
            var n, m := |l.labelingName|, |l.labelName.value|;
            && Separator !in l.labelName.value
            && n + 1 + m <= |s|
            && s[..n + 1 + m] == l.labelingName + [Separator] + l.labelName.value
            && (n + 1 + m < |s| ==> s[n + 1 + m] == Separator))
  {
    var parts := Split(s, Separator);
    SplitJoin(s, Separator);
    if |parts| > 1 {
      var rest := parts[1..];
      assert s == parts[0] + [Separator] + Join(rest, Separator);
      assert s[|parts[0]|] == Separator;
      if |rest| > 1 {
        assert Join(rest, Separator) == rest[0] + [Separator] + Join(rest[1..], Separator);
        assert s == parts[0] + [Separator] + rest[0] + [Separator] + Join(rest[1..], Separator);
      } else {
        assert s == parts[0] + [Separator] + rest[0];
      }
    }
  }

  /** "sensorset_roomA" gives labelingName "sensorset" and labelName "roomA". */
  lemma LabelExample()
    ensures ParseLabel(Some("sensorset_roomA")) == Some(Labeling("sensorset", Some("roomA")))
  {
    var parts := ["sensorset", "roomA"];
    assert Join(parts, Separator) == "sensorset_roomA";
    JoinSplit(parts, Separator);
  }

  /** With two separators the labelName is only the middle piece, not the
      remainder after the first separator. */
  lemma LabelSecondSegmentOnly()
    ensures ParseLabel(Some("a_b_c")) == Some(Labeling("a", Some("b")))
  {
    var parts := ["a", "b", "c"];
    assert Join(parts, Separator) == "a_b_c";
    JoinSplit(parts, Separator);
  }

  /** A label without a separator is accepted: it becomes the labelingName
      and there is no labelName. */
  lemma LabelWithoutSeparator()
    ensures ParseLabel(Some("room")) == Some(Labeling("room", None))
  {
    JoinSplit(["room"], Separator);
  }
}
