/**
 * The proof engine's guest program: it reads a patient record and a host token from its
 * standard input and writes a summary string together with the unchanged token to its
 * standard output (it commits nothing to the proof's journal). Reading stdin and the
 * bincode encoding are library I/O; the decoder is a parameter.
 */
module Guest {
  import opened Wrappers

  datatype PatientRecord = PatientRecord(diagnosis: string, treatment: string)

  datatype GuestInput = GuestInput(patient: PatientRecord, hostToken: string)

  /** The output: exactly a summary and a token, nothing else of the input. */
  datatype GuestOutput = GuestOutput(anonymizedSummary: string, hostToken: string)

  const DiagnosisLabel := "Diagnosis: "
  const TreatmentLabel := " | Treatment: "

  /** The `format!` of the summary: both fields are copied verbatim between the two labels. */
  function Summarize(p: PatientRecord): (s: string)
    ensures |s| == |DiagnosisLabel| + |p.diagnosis| + |TreatmentLabel| + |p.treatment|
  {
    DiagnosisLabel + p.diagnosis + TreatmentLabel + p.treatment
  }

  /** The summary splits into four segments at offsets fixed by the diagnosis's length. */
  lemma SummaryLayout(p: PatientRecord)
    ensures var s, d := Summarize(p), |p.diagnosis|;
      && s[..11] == DiagnosisLabel
      && s[11..11 + d] == p.diagnosis
      && s[11 + d..25 + d] == TreatmentLabel
      && s[25 + d..] == p.treatment
  {
  }

  /** Given the diagnosis's length, the summary gives back the whole record. */
  lemma SummaryDeterminesRecord(p: PatientRecord, q: PatientRecord)
    requires Summarize(p) == Summarize(q)
    requires |p.diagnosis| == |q.diagnosis|
    ensures p == q
  {
    SummaryLayout(p);
    SummaryLayout(q);
  }

  /** Without that length the summary is ambiguous: a label inside a field merges two records. */
  lemma SummaryConflatesRecords()
    ensures var p := PatientRecord("flu | Treatment: rest", "tea");
      var q := PatientRecord("flu", "rest | Treatment: tea");
      p != q && Summarize(p) == Summarize(q)
  {
    var p := PatientRecord("flu | Treatment: rest", "tea");
    var q := PatientRecord("flu", "rest | Treatment: tea");
    assert |p.diagnosis| != |q.diagnosis|;
  }

  /** The guest's transformation: the summary of the patient and the token, copied. */
  function Anonymize(input: GuestInput): (out: GuestOutput)
    ensures out.hostToken == input.hostToken
    ensures |out.anonymizedSummary| == 25 + |input.patient.diagnosis| + |input.patient.treatment|
    ensures out.anonymizedSummary[..|DiagnosisLabel|] == DiagnosisLabel
  {
    GuestOutput(Summarize(input.patient), input.hostToken)
  }

  /**
   * The whole guest over its input bytes: an input that does not decode makes `expect`
   * panic before anything is written (None); otherwise the value whose bincode encoding
   * the guest writes to its standard output is Anonymize's.
   */
  function GuestMain(decode: seq<bv8> -> Option<GuestInput>, input: seq<bv8>): (written: Option<GuestOutput>)
    ensures decode(input).None? <==> written.None?
    ensures written.Some? ==> written.value == Anonymize(decode(input).value)
    ensures written.Some? ==> written.value.hostToken == decode(input).value.hostToken
  {
    match decode(input)
    case None => None
    case Some(guestInput) => Some(Anonymize(guestInput))
  }
}
