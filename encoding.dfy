/** The categorical encoder: the form's textual answers become the numeric
    codes the classifier was trained on.  Every encoder is total: an answer
    that is not one of the offered options is still encoded, never rejected. */
module Encoding {

  /** The options each radio button and the sleep select box offer, in the order shown. */
  const GenderOptions: seq<string> := ["Male", "Female"]
  const DietOptions: seq<string> := ["Healthy", "Unhealthy"]
  const YesNoOptions: seq<string> := ["Yes", "No"]
  const SleepOptions: seq<string> :=
    ["Less than 5 hours", "5-6 hours", "7-8 hours", "More than 8 hours"]

  /** Index of the sleep option the select box shows before the user chooses. */
  const DefaultSleepOption: nat := 2

  /** A one-or-zero flag: 1 exactly when the answer is the designated literal. */
  function Flag(answer: string, designated: string): (code: int)
    ensures code == 0 || code == 1
    ensures code == 1 <==> answer == designated
  {
    if answer == designated then 1 else 0
  }

  function EncodeGender(answer: string): (code: int)
    ensures code == 0 || code == 1
    ensures code == 1 <==> answer == "Male"
  {
    Flag(answer, "Male")
  }

  function EncodeDiet(answer: string): (code: int)
    ensures code == 0 || code == 1
    ensures code == 1 <==> answer == "Healthy"
  {
    Flag(answer, "Healthy")
  }

  function EncodeSuicidalThoughts(answer: string): (code: int)
    ensures code == 0 || code == 1
    ensures code == 1 <==> answer == "Yes"
  {
    Flag(answer, "Yes")
  }

  function EncodeFamilyHistory(answer: string): (code: int)
    ensures code == 0 || code == 1
    ensures code == 1 <==> answer == "Yes"
  {
    Flag(answer, "Yes")
  }

  /** On the two options each radio button offers, the encoding is one-to-one:
      the first option is 1 and the second 0. */
  lemma BinaryOptionsSeparated()
    ensures EncodeGender(GenderOptions[0]) == 1 && EncodeGender(GenderOptions[1]) == 0
    ensures EncodeDiet(DietOptions[0]) == 1 && EncodeDiet(DietOptions[1]) == 0
    ensures EncodeSuicidalThoughts(YesNoOptions[0]) == 1 && EncodeSuicidalThoughts(YesNoOptions[1]) == 0
    ensures EncodeFamilyHistory(YesNoOptions[0]) == 1 && EncodeFamilyHistory(YesNoOptions[1]) == 0
  {
  }

  /** The sleep-duration table: each choice to a representative number of hours. */
  const SleepMapping: map<string, real> := map[
    "Less than 5 hours" := 4.0,
    "5-6 hours" := 5.5,
    "7-8 hours" := 7.5,
    "More than 8 hours" := 9.0
  ]

  /** What a choice missing from the table decodes to, instead of an error. */
  const SleepFallback: real := 7.5

  /** Dictionary lookup with a default: a known choice gets its table entry,
      any other choice the fallback. */
  function DecodeSleep(choice: string): (hours: real)
    ensures hours == 4.0 || hours == 5.5 || hours == 7.5 || hours == 9.0
    ensures choice in SleepMapping ==> hours == SleepMapping[choice]
    ensures choice !in SleepMapping ==> hours == SleepFallback
  {
    if choice in SleepMapping then SleepMapping[choice] else SleepFallback
  }

  /** The four table entries, each a known choice decoded without the fallback. */
  lemma SleepTableEntries()
    ensures DecodeSleep("Less than 5 hours") == 4.0
    ensures DecodeSleep("5-6 hours") == 5.5
    ensures DecodeSleep("7-8 hours") == 7.5
    ensures DecodeSleep("More than 8 hours") == 9.0
  {
  }

  /** The table's keys are exactly the options the select box offers, and the
      decoded hours rise strictly with the option's position, so the decoding
      is one-to-one and keeps the labels' order. */
  lemma SleepDecodingOrdinal()
    ensures forall choice :: choice in SleepMapping <==> choice in SleepOptions
    ensures forall i, j :: 0 <= i < j < |SleepOptions| ==>
      DecodeSleep(SleepOptions[i]) < DecodeSleep(SleepOptions[j])
  {
  }

  /** The fallback is the value of the option the select box starts on, so an
      unrecognised choice is read as the default answer. */
  lemma SleepFallbackIsDefaultOption(choice: string)
    requires choice !in SleepOptions
    ensures DecodeSleep(choice) == DecodeSleep(SleepOptions[DefaultSleepOption]) == 7.5
  {
  }
}
