/** `Badge` (`frontend/components/ui/Badge.tsx`): a label's pill. Its two
    tables are keyed by five strings (the first four taxonomy labels and
    `"error"`); any other label gets the `error` style and shows its raw name. */
module BadgeView {
  import opened BiasTypes

  const NoBiasBadge: string := "bg-emerald-50 text-emerald-700 border-emerald-200 dark:bg-emerald-900/30 dark:text-emerald-300 dark:border-emerald-800"
  const DemographicBadge: string := "bg-rose-50 text-rose-700 border-rose-200 dark:bg-rose-900/30 dark:text-rose-300 dark:border-rose-800"
  const ClinicalStigmaBadge: string := "bg-amber-50 text-amber-700 border-amber-200 dark:bg-amber-900/30 dark:text-amber-300 dark:border-amber-800"
  const AssessmentBadge: string := "bg-violet-50 text-violet-700 border-violet-200 dark:bg-violet-900/30 dark:text-violet-300 dark:border-violet-800"
  const ErrorBadge: string := "bg-neutral-50 text-neutral-700 border-neutral-200 dark:bg-neutral-800 dark:text-neutral-300 dark:border-neutral-700"

  /** The keys of `badgeStyles` and `labelNames`. */
  predicate IsKeyed(l: BiasLabel) {
    l == NoBias || l == DemographicBias || l == ClinicalStigmaBias || l == AssessmentBias
    || l == Other("error")
  }

  /** `badgeStyles[label] || badgeStyles.error`. */
  function Style(l: BiasLabel): (style: string)
    ensures !IsKeyed(l) ==> style == ErrorBadge
  {
    match l
    case NoBias => NoBiasBadge
    case DemographicBias => DemographicBadge
    case ClinicalStigmaBias => ClinicalStigmaBadge
    case AssessmentBias => AssessmentBadge
    case _ => ErrorBadge
  }

  /** `labelNames[label] || label`. */
  function Name(l: BiasLabel): (name: string)
    ensures !IsKeyed(l) ==> name == LabelName(l)
    ensures l == Other("error") ==> name == "Error"
    ensures IsKeyed(l) ==> name != LabelName(l)
  {
    match l
    case NoBias => "No Bias"
    case DemographicBias => "Demographic Bias"
    case ClinicalStigmaBias => "Clinical Stigma"
    case AssessmentBias => "Assessment Bias"
    case Other(n) => if n == "error" then "Error" else n
    case _ => LabelName(l)
  }

  /** The three labels the tables miss are drawn like an error but keep their
      wire names. */
  lemma ExtendedLabelsFallBack(l: BiasLabel)
    requires l == AlgorithmicBias || l == DocumentationBias || l == StructuralBias
    ensures Style(l) == Style(Other("error"))
    ensures Name(l) == LabelName(l) && Name(l) != Name(Other("error"))
  {
  }

  /** The five keyed labels get five different styles and five different names. */
  lemma KeyedLabelsDistinct(a: BiasLabel, b: BiasLabel)
    requires IsKeyed(a) && IsKeyed(b) && a != b
    ensures Style(a) != Style(b) && Name(a) != Name(b)
  {
  }
}
