/** `ArtifactConsole` (`frontend/components/analyze/ArtifactConsole.tsx`): a
    text area whose `text` state starts as the `initialText` prop, is edited by
    the user and re-synchronised by an effect when the prop changes; a submit
    button that hands the text to the parent's `onAnalyze`. */
module Console {
  import opened Wrappers
  import opened Text
  import opened BiasTypes

  /** What JavaScript's `length` counts: UTF-16 code units, two for a
      character outside the Basic Multilingual Plane. */
  function Utf16Length(s: string): (n: nat)
    ensures |s| <= n <= 2 * |s|
    ensures n == |s| <==> forall i :: 0 <= i < |s| ==> s[i] as int < 0x1_0000
  {
    if s == [] then 0
    else (if s[0] as int < 0x1_0000 then 1 else 2) + Utf16Length(s[1..])
  }

  const ProcessingLabel: string := "Processing diagnostics..."
  const OfflineLabel: string := "Engine Offline"
  const StartLabel: string := "Start Analysis Engine"

  class ArtifactConsole {
    /** The `text` state. */
    var text: string
    /** The `initialText` prop as of the last render (the effect's dependency). */
    var initialText: string

    /** Mounting with a given `initialText` (`""` when the prop is omitted).
        The effect's first run copies a non-empty prop onto a text that
        already equals it, so it changes nothing. */
    constructor (initial: string)
      ensures text == initial && initialText == initial
    {
      text := initial;
      initialText := initial;
    }

    /** The text area's `onChange`. */
    method Edit(value: string)
      modifies this
      ensures text == value && initialText == old(initialText)
    {
      text := value;
    }

    /** A render with prop `value`: the effect runs only when the prop differs
        from the previous one, and then overwrites `text` only with a non-empty
        value; an emptied prop never clears the text. */
    method SyncInitialText(value: string)
      modifies this
      ensures initialText == value
      ensures value != old(initialText) && value != [] ==> text == value
      ensures value == old(initialText) || value == [] ==> text == old(text)
    {
      if value != initialText && value != [] {
        text := value;
      }
      initialText := value;
    }

    /** `handleAnalyze`: the `(text, type)` handed to `onAnalyze`, untrimmed,
        or nothing when the text is blank. */
    function Submission(): (r: Option<(string, SourceType)>)
      reads this
      ensures r.Some? <==> !IsBlank(text)
      ensures r.Some? ==> r.value == (text, Vignette)
    {
      if Trim(text) != [] then Some((text, Vignette)) else None
    }

    /** The button's `disabled`. */
    function Disabled(isLoading: bool, isOffline: bool): (d: bool)
      reads this
      ensures d <==> IsBlank(text) || isLoading || isOffline
    {
      Trim(text) == [] || isLoading || isOffline
    }

    /** The button's caption: loading wins over offline. */
    function ButtonLabel(isLoading: bool, isOffline: bool): (caption: string)
      ensures isLoading ==> caption == ProcessingLabel
      ensures !isLoading && isOffline ==> caption == OfflineLabel
      ensures !isLoading && !isOffline ==> caption == StartLabel
    {
      if isLoading then ProcessingLabel else if isOffline then OfflineLabel else StartLabel
    }

    /** The counter under the text area, before `toLocaleString` formatting. */
    function CharCount(): (n: nat)
      reads this
      ensures |text| <= n <= 2 * |text|
    {
      Utf16Length(text)
    }
  }

  /** An enabled button always submits: a click on it reaches `onAnalyze`. */
  lemma EnabledButtonSubmits(c: ArtifactConsole, isLoading: bool, isOffline: bool)
    requires !c.Disabled(isLoading, isOffline)
    ensures c.Submission() == Some((c.text, Vignette))
  {
  }

  /** For text in the Basic Multilingual Plane the counter is the number of
      characters. */
  lemma CharCountOfPlainText(c: ArtifactConsole)
    requires forall i :: 0 <= i < |c.text| ==> c.text[i] as int < 0x1_0000
    ensures c.CharCount() == |c.text|
  {
  }
}
