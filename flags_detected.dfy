/** `FlagsDetected` (`frontend/components/analyze/FlagsDetected.tsx`): the
    original text with every flag highlighted. Each flag becomes the regular
    expression `(flag)` with flags `gi`, and every match is replaced by the
    `<mark …>$1</mark>` markup, one flag after the other on the text built so
    far. */
module FlagHighlight {
  import opened Wrappers
  import opened Text

  const MarkOpen: string := "<mark class=\"bg-red-200 text-red-900 px-1 rounded\">"
  const MarkClose: string := "</mark>"

  /** A character with a meaning in a regular expression source. */
  predicate IsMetachar(c: char) {
    c == '\\' || c == '^' || c == '$' || c == '.' || c == '|' || c == '?' || c == '*'
    || c == '+' || c == '(' || c == ')' || c == '[' || c == ']' || c == '{' || c == '}'
  }

  /** A flag whose regular expression matches exactly its own text. */
  predicate IsLiteral(flag: string) {
    forall i :: 0 <= i < |flag| ==> !IsMetachar(flag[i])
  }

  /** One `replace(new RegExp("(" + flag + ")", "gi"), …)`. */
  function Mark(text: string, flag: string): string {
    ReplaceAll(text, flag, Wrap(MarkOpen, MarkClose), true)
  }

  /** The flags applied in list order, each to the previous result. */
  function HighlightAll(text: string, flags: seq<string>): string
    decreases |flags|
  {
    if flags == [] then text else HighlightAll(Mark(text, flags[0]), flags[1..])
  }

  /** The component: nothing for an empty list, otherwise the highlighted
      text the `forEach` loop builds. */
  method Highlight(flags: seq<string>, originalText: string) returns (html: Option<string>)
    requires forall i :: 0 <= i < |flags| ==> IsLiteral(flags[i])
    ensures flags == [] <==> html == None
    ensures flags != [] ==> html == Some(HighlightAll(originalText, flags))
  {
    if |flags| == 0 {
      return None;
    }
    var highlightedText := originalText;
    var i := 0;
    while i < |flags|
      invariant 0 <= i <= |flags|
      invariant HighlightAll(highlightedText, flags[i..]) == HighlightAll(originalText, flags)
    {
      assert flags[i..][1..] == flags[i + 1..];
      highlightedText := Mark(highlightedText, flags[i]);
      i := i + 1;
    }
    assert flags[i..] == [];
    html := Some(highlightedText);
  }

  /** Flags that are non-empty and absent from the text, in any case, leave it
      as it was. */
  lemma {:induction false} AbsentFlagsLeaveText(text: string, flags: seq<string>)
    requires forall i :: 0 <= i < |flags| ==> |flags[i]| > 0 && !Occurs(text, flags[i], true)
    ensures HighlightAll(text, flags) == text
    decreases |flags|
  {
    if flags != [] {
      ReplaceAbsent(text, flags[0], Wrap(MarkOpen, MarkClose), true);
      AbsentFlagsLeaveText(text, flags[1..]);
    }
  }

  /** A single occurrence, after a stretch where no match can start, is
      wrapped in the markup with its own characters, whatever their case. */
  lemma MarkKeepsMatchedText(u: string, m: string, v: string, flag: string)
    requires |flag| > 0 && NoStartChar(u, flag, true)
    requires |m| == |flag| && MatchesAt(m, 0, flag, true)
    requires !Occurs(v, flag, true)
    ensures Mark(u + m + v, flag) == u + MarkOpen + m + MarkClose + v
  {
    HighlightOne(u, m, v, flag, MarkOpen, MarkClose, true);
    ReplaceAbsent(v, flag, Wrap(MarkOpen, MarkClose), true);
  }

  /** Worked example: "drug-seeking" is found in "Likely DRUG-SEEKING." and
      keeps its capitals inside the markup. */
  lemma MarkExample()
    ensures Mark("Likely DRUG-SEEKING.", "drug-seeking")
         == "Likely " + MarkOpen + "DRUG-SEEKING" + MarkClose + "."
  {
    var flag := "drug-seeking";
    assert "Likely DRUG-SEEKING." == "Likely " + "DRUG-SEEKING" + ".";
    assert NoStartChar("Likely ", flag, true) by {
      assert flag[0] == 'd';
      forall i | 0 <= i < |"Likely "| ensures !CharEq("Likely "[i], flag[0], true) {
      }
    }
    assert MatchesAt("DRUG-SEEKING", 0, flag, true);
    assert !Occurs(".", flag, true) by {
      forall i: nat ensures !MatchesAt(".", i, flag, true) {
      }
    }
    MarkKeepsMatchedText("Likely ", "DRUG-SEEKING", ".", flag);
  }
}
