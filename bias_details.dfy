/** `BiasDetailsCard` (`frontend/components/analyze/BiasDetailsCard.tsx`): the
    display names of categories and sub-types, the level badge, the
    confidence band of each finding, and the choice between the "No Biases
    Detected" view and the detailed list. */
module BiasDetails {
  import opened Wrappers
  import opened Text
  import opened Numbers
  import opened BiasTypes

  /** `s.split(sep)`: the pieces between separators; `""` splits to `[""]`. */
  function Split(s: string, sep: char): (parts: seq<string>)
    ensures |parts| >= 1
    decreases |s|
  {
    if s == [] then [[]]
    else
      var rest := Split(s[1..], sep);
      if s[0] == sep then [[]] + rest
      else [[s[0]] + rest[0]] + rest[1..]
  }

  /** `parts.join(sep)`. */
  function Join(parts: seq<string>, sep: string): string {
    if |parts| == 0 then []
    else if |parts| == 1 then parts[0]
    else parts[0] + sep + Join(parts[1..], sep)
  }

  /** `word.charAt(0).toUpperCase() + word.slice(1)`. */
  function Capitalize(word: string): string {
    if word == [] then [] else [Upper(word[0])] + word[1..]
  }

  function CapitalizeAll(words: seq<string>): (r: seq<string>)
    ensures |r| == |words|
  {
    if words == [] then [] else [Capitalize(words[0])] + CapitalizeAll(words[1..])
  }

  /** `formatSubType`. */
  function FormatSubType(subType: string): string {
    Join(CapitalizeAll(Split(subType, '_')), " ")
  }

  /** `formatCategory`: the same function under another name. */
  function FormatCategory(category: string): (r: string)
    ensures r == FormatSubType(category)
  {
    Join(CapitalizeAll(Split(category, '_')), " ")
  }

  /** The character that position `i` of `s` becomes: `_` turns into a space,
      the first character of a word is upper-cased, the rest stay; `atStart`
      says whether position 0 begins a word. */
  function FormattedChar(s: string, i: nat, atStart: bool): char
    requires i < |s|
  {
    if s[i] == '_' then ' '
    else if (i == 0 && atStart) || (i > 0 && s[i - 1] == '_') then Upper(s[i])
    else s[i]
  }

  /** A reference definition, one character at a time. */
  function FormatFrom(s: string, atStart: bool): (r: string)
    ensures |r| == |s|
    ensures forall i :: 0 <= i < |s| ==> r[i] != '_'
    decreases |s|
  {
    if s == [] then []
    else if s[0] == '_' then " " + FormatFrom(s[1..], true)
    else [if atStart then Upper(s[0]) else s[0]] + FormatFrom(s[1..], false)
  }

  lemma {:induction false} FormatFromPointwise(s: string, atStart: bool)
    ensures forall i :: 0 <= i < |s| ==> FormatFrom(s, atStart)[i] == FormattedChar(s, i, atStart)
    decreases |s|
  {
    if s != [] {
      var r := FormatFrom(s, atStart);
      var rest := FormatFrom(s[1..], s[0] == '_');
      FormatFromPointwise(s[1..], s[0] == '_');
      assert r == [r[0]] + rest;
      forall i | 0 <= i < |s| ensures r[i] == FormattedChar(s, i, atStart) {
        if i > 0 {
          assert r[i] == rest[i - 1];
          assert rest[i - 1] == FormattedChar(s[1..], i - 1, s[0] == '_');
          assert s[1..][i - 1] == s[i];
          if i > 1 {
            assert s[1..][i - 2] == s[i - 1];
          }
        }
      }
    }
  }

  /** Putting a character in front of the first part of a join. */
  lemma {:induction false} JoinConsFirst(c: char, w: string, rest: seq<string>, sep: string)
    ensures Join([[c] + w] + rest, sep) == [c] + Join([w] + rest, sep)
  {
    if |rest| == 0 {
      assert [[c] + w] + rest == [[c] + w];
      assert [w] + rest == [w];
    } else {
      assert ([[c] + w] + rest)[1..] == rest;
      assert ([w] + rest)[1..] == rest;
    }
  }

  /** The split-capitalise-join pipeline, with the first word capitalised
      only when `atStart` holds. */
  function Pipeline(s: string, atStart: bool): string {
    var parts := Split(s, '_');
    Join([if atStart then Capitalize(parts[0]) else parts[0]] + CapitalizeAll(parts[1..]), " ")
  }

  lemma {:induction false} PipelineIsFormatFrom(s: string, atStart: bool)
    ensures Pipeline(s, atStart) == FormatFrom(s, atStart)
    decreases |s|
  {
    var parts := Split(s, '_');
    if s == [] {
      assert parts == [[]];
      assert CapitalizeAll(parts[1..]) == [];
    } else if s[0] == '_' {
      var q := Split(s[1..], '_');
      assert parts == [[]] + q;
      assert parts[1..] == q;
      var first: string := if atStart then Capitalize(parts[0]) else parts[0];
      assert first == [];
      var caps := CapitalizeAll(q);
      assert caps == [Capitalize(q[0])] + CapitalizeAll(q[1..]);
      assert ([first] + caps)[1..] == caps;
      assert Join([first] + caps, " ") == [] + " " + Join(caps, " ");
      PipelineIsFormatFrom(s[1..], true);
    } else {
      var q := Split(s[1..], '_');
      assert parts == [[s[0]] + q[0]] + q[1..];
      assert parts[1..] == q[1..];
      var c := if atStart then Upper(s[0]) else s[0];
      var first: string := if atStart then Capitalize(parts[0]) else parts[0];
      assert first == [c] + q[0];
      JoinConsFirst(c, q[0], CapitalizeAll(q[1..]), " ");
      PipelineIsFormatFrom(s[1..], false);
    }
  }

  /** `formatSubType` replaces each `_` by a space and upper-cases the first
      character of every word, keeping the length: its output holds no `_`. */
  lemma FormatSubTypeSpec(s: string)
    ensures |FormatSubType(s)| == |s|
    ensures forall i :: 0 <= i < |s| ==> FormatSubType(s)[i] == FormattedChar(s, i, true)
    ensures forall i :: 0 <= i < |s| ==> FormatSubType(s)[i] != '_'
  {
    var parts := Split(s, '_');
    assert CapitalizeAll(parts) == [Capitalize(parts[0])] + CapitalizeAll(parts[1..]);
    assert FormatSubType(s) == Pipeline(s, true);
    PipelineIsFormatFrom(s, true);
    FormatFromPointwise(s, true);
  }

  /** One entry of `levelConfig`; the icon is named by its component. */
  datatype LevelStyle = LevelStyle(color: string, bg: string, icon: string)

  const NoneStyle := LevelStyle("text-success", "bg-success/10", "CheckCircle")
  const LowStyle := LevelStyle("text-yellow-500", "bg-yellow-500/10", "Info")
  const ModerateStyle := LevelStyle("text-orange-500", "bg-orange-500/10", "AlertTriangle")
  const HighStyle := LevelStyle("text-danger", "bg-danger/10", "AlertTriangle")
  const CriticalStyle := LevelStyle("text-red-700", "bg-red-700/10", "AlertTriangle")

  predicate IsLevel(level: string) {
    level == "NONE" || level == "LOW" || level == "MODERATE" || level == "HIGH" || level == "CRITICAL"
  }

  /** `levelConfig[biasLevel] || levelConfig.NONE`. */
  function LevelConfig(level: string): (st: LevelStyle)
    ensures !IsLevel(level) ==> st == NoneStyle
    ensures st == NoneStyle <==> !IsLevel(level) || level == "NONE"
  {
    if level == "LOW" then LowStyle
    else if level == "MODERATE" then ModerateStyle
    else if level == "HIGH" then HighStyle
    else if level == "CRITICAL" then CriticalStyle
    else NoneStyle
  }

  /** The five levels have five different colours. */
  lemma LevelColoursDistinct(a: string, b: string)
    requires IsLevel(a) && IsLevel(b) && a != b
    ensures LevelConfig(a).color != LevelConfig(b).color
  {
  }

  /** The colour of a finding's confidence bar and percentage. */
  datatype Band = Danger | Orange | Yellow

  function ConfidenceBand(confidence: real): (b: Band)
    ensures b == Danger <==> confidence >= 0.8
    ensures b == Orange <==> 0.6 <= confidence < 0.8
    ensures b == Yellow <==> confidence < 0.6
  {
    if confidence >= 0.8 then Danger else if confidence >= 0.6 then Orange else Yellow
  }

  /** Higher confidence never gives a milder band. */
  function Severity(b: Band): nat {
    match b
    case Yellow => 0
    case Orange => 1
    case Danger => 2
  }

  lemma BandMonotone(c1: real, c2: real)
    requires c1 <= c2
    ensures Severity(ConfidenceBand(c1)) <= Severity(ConfidenceBand(c2))
  {
  }

  /** `Math.round(confidence * 100)`. */
  function Percent(confidence: real): (p: int)
    ensures 0.0 <= confidence <= 1.0 ==> 0 <= p <= 100
  {
    PercentWithin(confidence);
    Round(confidence * 100.0)
  }

  lemma PercentWithin(confidence: real)
    ensures 0.0 <= confidence <= 1.0 ==> 0 <= Round(confidence * 100.0) <= 100
  {
    if 0.0 <= confidence <= 1.0 {
      RoundWithin(confidence * 100.0, 0, 100);
    }
  }

  /** One rendered finding. */
  datatype Card = Card(
    category: string,
    subType: string,
    band: Band,
    percent: int,
    evidence: string,
    problematicText: string,
    recommendation: string)

  function CardFor(b: BiasFound): Card {
    Card(FormatCategory(b.category), FormatSubType(b.sub_type), ConfidenceBand(b.confidence),
         Percent(b.confidence), b.evidence, b.problematic_text, b.recommendation)
  }

  /** What the card renders. */
  datatype View =
    | NoBiasesView(style: LevelStyle, sections: seq<string>)
    | DetailedView(level: string, style: LevelStyle, cards: seq<Card>, freeSections: Option<seq<string>>)

  function Render(biases: seq<BiasFound>, biasLevel: string, biasFreeSection: seq<string>): (v: View)
    ensures v.NoBiasesView? <==> |biases| == 0 && |biasFreeSection| > 0
    ensures v.NoBiasesView? ==> v.sections == biasFreeSection
    ensures v.style == LevelConfig(biasLevel)
    ensures v.DetailedView? ==>
      && v.level == biasLevel
      && |v.cards| == |biases|
      && (forall i :: 0 <= i < |biases| ==> v.cards[i] == CardFor(biases[i]))
      && (v.freeSections.Some? <==> |biasFreeSection| > 0)
      && (v.freeSections.Some? ==> v.freeSections.value == biasFreeSection)
  {
    var style := LevelConfig(biasLevel);
    if |biases| == 0 && |biasFreeSection| > 0 then NoBiasesView(style, biasFreeSection)
    else
      DetailedView(biasLevel, style, seq(|biases|, i requires 0 <= i < |biases| => CardFor(biases[i])),
                   if |biasFreeSection| > 0 then Some(biasFreeSection) else None)
  }

  /** No findings and no bias-free sections still give the detailed view,
      with a level badge, no cards and no bias-free block. */
  lemma EmptyInputIsDetailed(biasLevel: string)
    ensures Render([], biasLevel, []) == DetailedView(biasLevel, LevelConfig(biasLevel), [], None)
  {
  }
}
