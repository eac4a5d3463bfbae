/** The choice tables of the relational models and Django's `get_<field>_display`,
    which looks the stored value up in `dict(choices)`. */
module Choices {

  /** Stored value to human-readable label. */
  type ChoiceTable = map<string, string>

  const GenderChoices: ChoiceTable := map["M" := "Male", "F" := "Female", "O" := "Other"]

  const RoleChoices: ChoiceTable := map["patient" := "Patient", "psychologist" := "Psychologist"]

  const StatusChoices: ChoiceTable :=
    map["scheduled" := "Scheduled", "confirmed" := "Confirmed", "completed" := "Completed",
        "cancelled" := "Cancelled", "no_show" := "No Show"]

  const SpecialtyChoices: ChoiceTable :=
    map["clinical" := "Clinical Psychology", "cognitive" := "Cognitive Psychology",
        "developmental" := "Developmental Psychology", "social" := "Social Psychology",
        "neuropsychology" := "Neuropsychology", "counseling" := "Counseling Psychology"]

  /** The role code the serializer and the forms compare against. */
  const Psychologist: string := "psychologist"

  /** The status a new appointment form starts with. */
  const InitialStatus: string := "scheduled"

  /** `get_<field>_display()`: the label of the stored value, or the stored value
      itself when the table does not list it. */
  function Display(t: ChoiceTable, code: string): (r: string)
    ensures code in t ==> r == t[code] && r in t.Values
    ensures code !in t ==> r == code
  {
    if code in t then t[code] else code
  }

  /** Every gender code shows as its label. */
  lemma GenderLabels()
    ensures Display(GenderChoices, "M") == "Male" && Display(GenderChoices, "F") == "Female"
    ensures Display(GenderChoices, "O") == "Other"
  {
  }

  /** Every role code shows as its label. */
  lemma RoleLabels()
    ensures Display(RoleChoices, Psychologist) == "Psychologist" && Display(RoleChoices, "patient") == "Patient"
  {
  }

  /** The status labels, among them `no_show` as `No Show`. */
  lemma StatusLabels()
    ensures Display(StatusChoices, InitialStatus) == "Scheduled"
    ensures Display(StatusChoices, "confirmed") == "Confirmed" && Display(StatusChoices, "completed") == "Completed"
    ensures Display(StatusChoices, "cancelled") == "Cancelled" && Display(StatusChoices, "no_show") == "No Show"
  {
  }

  /** The specialty labels. */
  lemma SpecialtyLabels()
    ensures Display(SpecialtyChoices, "clinical") == "Clinical Psychology"
    ensures Display(SpecialtyChoices, "cognitive") == "Cognitive Psychology"
    ensures Display(SpecialtyChoices, "developmental") == "Developmental Psychology"
    ensures Display(SpecialtyChoices, "social") == "Social Psychology"
    ensures Display(SpecialtyChoices, "neuropsychology") == "Neuropsychology"
    ensures Display(SpecialtyChoices, "counseling") == "Counseling Psychology"
  {
  }
}
