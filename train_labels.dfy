/** The label handling of `backend/train_model.py`: the seven dataset
    categories consolidated to four by `label_map`, then `labels`, `label2id`
    and `id2label` built from the sorted distinct labels; and the table
    `backend/src/predict.py` hard-codes for inference. Python compares
    strings code point by code point, which `Below` spells out. */
module TrainLabels {
  import opened Wrappers

  /** The four classes the model is trained on. */
  const Kept: seq<string> := ["no_bias", "demographic_bias", "clinical_stigma_bias", "assessment_bias"]

  /** The seven keys of `label_map`: the dataset's categories. */
  const RawLabels: seq<string> :=
    ["no_bias", "demographic_bias", "structural_bias", "algorithmic_bias",
     "clinical_stigma_bias", "documentation_bias", "assessment_bias"]

  /** `label_map`; `None` for a label outside its seven keys (pandas makes
      it `NaN`). */
  function LabelMap(raw: string): (m: Option<string>)
    ensures m.None? <==> raw !in RawLabels
    ensures m.Some? ==> m.value in Kept
    ensures raw in Kept ==> m == Some(raw)
    ensures raw == "structural_bias" || raw == "algorithmic_bias" ==> m == Some("demographic_bias")
    ensures raw == "documentation_bias" ==> m == Some("clinical_stigma_bias")
  {
    if raw == "no_bias" then Some("no_bias")
    else if raw == "demographic_bias" || raw == "structural_bias" || raw == "algorithmic_bias" then Some("demographic_bias")
    else if raw == "clinical_stigma_bias" || raw == "documentation_bias" then Some("clinical_stigma_bias")
    else if raw == "assessment_bias" then Some("assessment_bias")
    else None
  }

  /** Mapping an already consolidated label changes nothing. */
  lemma LabelMapIdempotent(raw: string)
    requires LabelMap(raw).Some?
    ensures LabelMap(LabelMap(raw).value) == LabelMap(raw)
  {
  }

  /** Python's `<` on strings. */
  predicate Below(a: string, b: string)
    decreases |a|
  {
    if a == [] then b != []
    else if b == [] then false
    else if a[0] != b[0] then a[0] < b[0]
    else Below(a[1..], b[1..])
  }

  lemma {:induction false} BelowIrreflexive(a: string)
    ensures !Below(a, a)
    decreases |a|
  {
    if a != [] {
      BelowIrreflexive(a[1..]);
    }
  }

  lemma {:induction false} BelowTransitive(a: string, b: string, c: string)
    requires Below(a, b) && Below(b, c)
    ensures Below(a, c)
    decreases |a|
  {
    if a != [] && b != [] && c != [] && a[0] == b[0] && b[0] == c[0] {
      BelowTransitive(a[1..], b[1..], c[1..]);
    }
  }

  lemma {:induction false} BelowTotal(a: string, b: string)
    requires a != b
    ensures Below(a, b) || Below(b, a)
    decreases |a|
  {
    if a != [] && b != [] && a[0] == b[0] {
      assert a == [a[0]] + a[1..] && b == [b[0]] + b[1..];
      BelowTotal(a[1..], b[1..]);
    }
  }

  /** Strictly increasing, hence without repeats. */
  predicate StrictlySorted(s: seq<string>) {
    forall i, j :: 0 <= i < j < |s| ==> Below(s[i], s[j])
  }

  /** `x` put into its place in a strictly sorted list, once. */
  function Insert(x: string, s: seq<string>): (r: seq<string>)
    requires StrictlySorted(s)
    ensures StrictlySorted(r)
    ensures forall e :: e in r <==> e in s || e == x
    decreases |s|
  {
    if s == [] then [x]
    else if x == s[0] then s
    else if Below(x, s[0]) then
      assert forall j :: 0 < j < |s| ==> Below(x, s[j]) by {
        forall j | 0 < j < |s| ensures Below(x, s[j]) {
          BelowTransitive(x, s[0], s[j]);
        }
      }
      [x] + s
    else
      BelowTotal(x, s[0]);
      var rest := Insert(x, s[1..]);
      assert forall e :: e in rest ==> Below(s[0], e);
      [s[0]] + rest
  }

  /** `sorted(set(xs))`. */
  function SortUnique(xs: seq<string>): (r: seq<string>)
    ensures StrictlySorted(r)
    ensures forall e :: e in r <==> e in xs
  {
    if xs == [] then [] else Insert(xs[|xs| - 1], SortUnique(xs[..|xs| - 1]))
  }

  lemma HeadIsMember(t: seq<string>)
    ensures t != [] ==> t[0] in t
  {
  }

  /** Two strictly sorted lists with the same elements are the same list:
      `sorted(set(...))` depends only on the set. */
  lemma {:induction false} SortedIsUnique(s: seq<string>, t: seq<string>)
    requires StrictlySorted(s) && StrictlySorted(t)
    requires forall e :: e in s <==> e in t
    ensures s == t
    decreases |s|
  {
    if s != [] {
      assert s[0] in t;
      assert t != [] && t[0] in s;
      if s[0] != t[0] {
        var i :| 0 <= i < |s| && s[i] == t[0];
        var j :| 0 <= j < |t| && t[j] == s[0];
        assert Below(s[0], t[0]);
        assert Below(t[0], s[0]);
        BelowTransitive(s[0], t[0], s[0]);
        BelowIrreflexive(s[0]);
      }
      forall e ensures e in s[1..] <==> e in t[1..] {
        assert s == [s[0]] + s[1..] && t == [t[0]] + t[1..];
        if e in s[1..] {
          var i :| 1 <= i < |s| && s[i] == e;
          assert Below(s[0], s[i]);
          BelowIrreflexive(e);
          assert e != t[0] && e in t;
        }
        if e in t[1..] {
          var j :| 1 <= j < |t| && t[j] == e;
          assert Below(t[0], t[j]);
          BelowIrreflexive(e);
          assert e != s[0] && e in s;
        }
      }
      SortedIsUnique(s[1..], t[1..]);
    } else {
      HeadIsMember(t);
    }
  }

  /** The mapped column, when every label is one of the seven. */
  function MapAll(raw: seq<string>): (r: Option<seq<string>>)
    ensures r.Some? <==> forall i :: 0 <= i < |raw| ==> LabelMap(raw[i]).Some?
    ensures r.Some? ==> |r.value| == |raw| && forall i :: 0 <= i < |raw| ==> r.value[i] == LabelMap(raw[i]).value
  {
    if raw == [] then Some([])
    else match (LabelMap(raw[0]), MapAll(raw[1..]))
      case (Some(l), Some(rest)) => Some([l] + rest)
      case _ => None
  }

  /** `labels = sorted(df['bias_label'].unique())` after the mapping;
      `None` where a `NaN` meets a string in `sorted`, or where no label of
      the column is one of the seven. */
  function Labels(raw: seq<string>): (r: Option<seq<string>>)
    ensures r.Some? <==> forall i :: 0 <= i < |raw| ==> LabelMap(raw[i]).Some?
    ensures r.Some? ==> StrictlySorted(r.value)
    ensures r.Some? ==> forall l :: l in r.value <==> exists i :: 0 <= i < |raw| && LabelMap(raw[i]) == Some(l)
  {
    match MapAll(raw)
    case None => None
    case Some(mapped) =>
      assert forall l :: l in mapped <==> exists i :: 0 <= i < |raw| && LabelMap(raw[i]) == Some(l) by {
        forall l ensures l in mapped <==> exists i :: 0 <= i < |raw| && LabelMap(raw[i]) == Some(l) {
          if l in mapped {
            var i :| 0 <= i < |mapped| && mapped[i] == l;
            assert LabelMap(raw[i]) == Some(l);
          }
        }
      }
      Some(SortUnique(mapped))
  }

  function IndexOf(s: seq<string>, x: string): (i: nat)
    requires x in s
    ensures i < |s| && s[i] == x
    ensures forall j :: 0 <= j < i ==> s[j] != x
  {
    if s[0] == x then 0 else 1 + IndexOf(s[1..], x)
  }

  /** `{l: i for i, l in enumerate(labels)}`. */
  function Label2Id(labels: seq<string>): map<string, nat> {
    map l | l in labels :: IndexOf(labels, l)
  }

  /** `{i: l for i, l in enumerate(labels)}`. */
  function Id2Label(labels: seq<string>): map<nat, string> {
    map i: nat | i < |labels| :: labels[i]
  }

  /** The two maps are inverse to each other: ids run over `0..n-1`, the
      labels over `labels`, and following one map then the other returns the
      starting key. */
  lemma LabelIdsBijective(labels: seq<string>)
    requires StrictlySorted(labels)
    ensures forall i: nat :: i in Id2Label(labels) <==> i < |labels|
    ensures forall l :: l in Label2Id(labels) <==> l in labels
    ensures forall i: nat :: i < |labels| ==>
      (Id2Label(labels)[i] in Label2Id(labels) && Label2Id(labels)[Id2Label(labels)[i]] == i)
    ensures forall l :: l in labels ==>
      (Label2Id(labels)[l] in Id2Label(labels) && Id2Label(labels)[Label2Id(labels)[l]] == l)
  {
    forall i: nat | i < |labels| ensures IndexOf(labels, labels[i]) == i {
      var k := IndexOf(labels, labels[i]);
      if k != i {
        assert k < i;
        assert Below(labels[k], labels[i]);
        BelowIrreflexive(labels[i]);
      }
    }
  }

  /** `id2label` as `backend/src/predict.py` writes it. */
  const PredictId2Label: map<nat, string> :=
    map[0 := "assessment_bias", 1 := "clinical_stigma_bias", 2 := "demographic_bias", 3 := "no_bias"]

  /** The classes in Python's sort order. */
  const SortedKept: seq<string> := ["assessment_bias", "clinical_stigma_bias", "demographic_bias", "no_bias"]

  lemma SortedKeptIsSorted()
    ensures StrictlySorted(SortedKept)
    ensures forall l :: l in SortedKept <==> l in Kept
  {
    var t := SortedKept;
    assert Below(t[0], t[1]) && Below(t[1], t[2]) && Below(t[2], t[3]);
    BelowTransitive(t[0], t[1], t[2]);
    BelowTransitive(t[1], t[2], t[3]);
    BelowTransitive(t[0], t[2], t[3]);
  }

  lemma SortedKeptIsPredictTable()
    ensures Id2Label(SortedKept) == PredictId2Label
  {
    assert Id2Label(SortedKept).Keys == PredictId2Label.Keys;
  }

  /** When all four classes occur in the training column, training produces
      exactly the table inference uses. */
  lemma TrainingMatchesInferenceTable(raw: seq<string>)
    requires forall i :: 0 <= i < |raw| ==> LabelMap(raw[i]).Some?
    requires forall k :: k in Kept ==> exists i :: 0 <= i < |raw| && LabelMap(raw[i]) == Some(k)
    ensures Labels(raw).Some? && Id2Label(Labels(raw).value) == PredictId2Label
  {
    var labels := Labels(raw).value;
    SortedKeptIsSorted();
    forall l ensures l in labels <==> l in SortedKept {
      if l in labels {
        var i :| 0 <= i < |raw| && LabelMap(raw[i]) == Some(l);
        assert l in Kept;
      }
    }
    SortedIsUnique(labels, SortedKept);
    SortedKeptIsPredictTable();
  }
}
