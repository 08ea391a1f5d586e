/** The selectors and display fallbacks of the dashboard tab. The component is a pure function of
    its `patient` prop; `Render` gives what it shows, leaving layout and styling aside. */
module Dashboard {
  import opened Records

  const NoUpcomingText := "No upcoming appointments."
  const FallbackName := "User"
  const LoadingText := "Loading patient data..."

  /** A piece of text shown on screen. `LocaleDateTime(iso)` stands for the US-English, 12-hour
      rendering of `new Date(iso)`, which is library formatting and is not computed here. */
  datatype DisplayText = Literal(text: string) | LocaleDateTime(iso: string)

  /** The "Next Appointment" card: a time and a doctor line, or the no-appointment message. */
  datatype NextCard = Upcoming(when: DisplayText, withDoctor: string) | NoneUpcoming(message: string)

  datatype View =
    | LoadingPlaceholder(text: string)
    | Summary(welcome: string, next: NextCard, painScore: string, appointmentCount: nat)

  /** `formatDateTime`: only the empty case yields a fixed text. */
  function FormatDateTime(iso: Option<string>): (t: DisplayText)
    ensures t.Literal? <==> !Truthy(iso)
    ensures t.Literal? ==> t.text == NoUpcomingText
    ensures t.LocaleDateTime? ==> iso == Some(t.iso)
  {
    if !Truthy(iso) then Literal(NoUpcomingText) else LocaleDateTime(iso.value)
  }

  /** The appointment the card shows: the first list entry, with no ordering by date. */
  function NextAppointment(p: PatientRecord): (a: Option<Appointment>)
    ensures a.Some? <==> p.appointments.Some? && |p.appointments.value| > 0
    ensures a.Some? ==> a.value == p.appointments.value[0]
  {
    match p.appointments
    case Some(list) => if |list| > 0 then Some(list[0]) else None
    case None => None
  }

  /** `patient.appointments?.length || 0`. */
  function AppointmentCount(p: PatientRecord): (n: nat)
    ensures p.appointments.Some? ==> n == |p.appointments.value|
    ensures p.appointments.None? ==> n == 0
  {
    match p.appointments
    case Some(list) => |list|
    case None => 0
  }

  /** The card and the counter agree: a next appointment is shown exactly when the count is
      positive, and it is the entry at position 0 of the counted list. */
  lemma NextAppointmentIffCount(p: PatientRecord)
    ensures NextAppointment(p).Some? <==> AppointmentCount(p) > 0
    ensures NextAppointment(p).Some? ==> NextAppointment(p).value == p.appointments.value[0]
  {
  }

  /** Whatever follows the first entry, including an earlier-dated one, the first is chosen. */
  lemma NextIgnoresLaterEntries(p: PatientRecord, first: Appointment, rest: seq<Appointment>)
    ensures NextAppointment(p.(appointments := Some([first] + rest))) == Some(first)
  {
  }

  /** `patient.patient_name || 'User'`: never empty, and the patient's own name whenever it has one. */
  function WelcomeName(p: PatientRecord): (w: string)
    ensures w != ""
    ensures Truthy(p.patientName) ==> w == p.patientName.value
    ensures !Truthy(p.patientName) ==> w == FallbackName
  {
    if Truthy(p.patientName) then p.patientName.value else FallbackName
  }

  /** The decimal digit for `d`. */
  function DigitChar(d: nat): (c: char)
    requires d < 10
    ensures '0' <= c <= '9'
  {
    ('0' as int + d) as char
  }

  /** The value of a decimal digit character. */
  function DigitValue(c: char): (d: nat)
    requires '0' <= c <= '9'
    ensures d < 10
  {
    c as int - '0' as int
  }

  predicate AllDigits(s: string) {
    forall k :: 0 <= k < |s| ==> '0' <= s[k] <= '9'
  }

  /** JavaScript's `String(n)` for a non-negative integer: shortest decimal digits. */
  function NatText(n: nat): (s: string)
    ensures s != [] && AllDigits(s)
    decreases n
  {
    if n < 10 then [DigitChar(n)] else NatText(n / 10) + [DigitChar(n % 10)]
  }

  /** JavaScript's `String(n)` for an integer (below 10^21, where exponent notation starts). */
  function IntText(n: int): (s: string)
    ensures s != []
  {
    if n < 0 then "-" + NatText(-n) else NatText(n)
  }

  /** Reads a string of decimal digits back as a number; the reference for `NatText`. */
  function DigitsValue(s: string): (v: nat)
    requires AllDigits(s)
  {
    if s == [] then 0 else 10 * DigitsValue(s[..|s| - 1]) + DigitValue(s[|s| - 1])
  }

  /** Reads the text of an integer back: an optional minus sign then digits. */
  function ParseIntText(s: string): (r: Option<int>)
  {
    if s != [] && s[0] == '-' && |s| > 1 && AllDigits(s[1..]) then Some(-(DigitsValue(s[1..]) as int))
    else if s != [] && AllDigits(s) then Some(DigitsValue(s))
    else None
  }

  lemma {:induction false} NatTextRoundTrip(n: nat)
    ensures DigitsValue(NatText(n)) == n
    ensures |NatText(n)| > 1 ==> NatText(n)[0] != '0'
    decreases n
  {
    var s := NatText(n);
    if n >= 10 {
      NatTextRoundTrip(n / 10);
      assert s[..|s| - 1] == NatText(n / 10);
      assert s[|s| - 1] == DigitChar(n % 10);
      assert s[0] == NatText(n / 10)[0];
    }
  }

  lemma IntTextRoundTrip(n: int)
    ensures ParseIntText(IntText(n)) == Some(n)
  {
    if n < 0 {
      var d := NatText(-n);
      NatTextRoundTrip(-n);
      var s := "-" + d;
      assert s[0] == '-' && |s| > 1 && s[1..] == d;
      assert ParseIntText(s) == Some(-(DigitsValue(d) as int));
    } else {
      var d := NatText(n);
      NatTextRoundTrip(n);
      assert d[0] != '-';
      assert ParseIntText(d) == Some(DigitsValue(d));
    }
  }

  /** The text a template literal gives a number field. */
  function NumberText(x: NumberField): (s: string)
    ensures x.Number? ==> ParseIntText(s) == Some(x.n)
    ensures x.Undefined? ==> s == "undefined"
    ensures x.Null? ==> s == "null"
  {
    match x
    case Undefined => "undefined"
    case Null => "null"
    case Number(n) => IntTextRoundTrip(n); IntText(n)
  }

  /** `${patient.pain_scale}%`: the pain scale's text followed by a percent sign. */
  function PainScoreText(p: PatientRecord): (s: string)
    ensures |s| >= 2 && s[|s| - 1] == '%'
    ensures s[..|s| - 1] == NumberText(p.painScale)
  {
    NumberText(p.painScale) + "%"
  }

  /** The doctor line: "with " followed by `doctor_name`, which JSX renders as nothing when absent. */
  function DoctorLine(a: Appointment): (s: string)
    ensures |s| >= 5 && s[..5] == "with "
    ensures a.doctorName.Some? ==> s[5..] == a.doctorName.value
    ensures a.doctorName.None? ==> s == "with "
  {
    "with " + match a.doctorName case Some(n) => n case None => ""
  }

  /** The "Next Appointment" card: the first entry's time text and doctor line, or the
      no-appointment message. */
  function Card(p: PatientRecord): (c: NextCard)
    ensures c.Upcoming? <==> AppointmentCount(p) > 0
    ensures c.Upcoming? ==>
      && c.when == FormatDateTime(p.appointments.value[0].appointmentDate)
      && c.withDoctor == DoctorLine(p.appointments.value[0])
    ensures c.NoneUpcoming? ==> c.message == NoUpcomingText
  {
    match NextAppointment(p)
    case Some(a) => Upcoming(FormatDateTime(a.appointmentDate), DoctorLine(a))
    case None => NoneUpcoming(NoUpcomingText)
  }

  /** What the dashboard shows for its `patient` prop. */
  function Render(patient: Option<PatientRecord>): (v: View)
    ensures v.LoadingPlaceholder? <==> patient.None?
    ensures v.LoadingPlaceholder? ==> v.text == LoadingText
    ensures v.Summary? ==> v.welcome != "" && v.appointmentCount == AppointmentCount(patient.value)
    ensures v.Summary? ==> (v.next.Upcoming? <==> v.appointmentCount > 0)
    ensures v.Summary? ==>
      && v.welcome == WelcomeName(patient.value) && v.next == Card(patient.value)
      && v.painScore == PainScoreText(patient.value)
  {
    match patient
    case None => LoadingPlaceholder(LoadingText)
    case Some(p) => Summary(WelcomeName(p), Card(p), PainScoreText(p), AppointmentCount(p))
  }

  /** An appointment that has no `appointment_date` is counted and selected, yet its card shows
      the same text as an empty list. */
  lemma UndatedNextAppointmentReadsAsNone(p: PatientRecord, a: Appointment, rest: seq<Appointment>)
    requires p.appointments == Some([a] + rest) && !Truthy(a.appointmentDate)
    ensures Render(Some(p)).appointmentCount >= 1
    ensures Render(Some(p)).next.when == Literal(NoUpcomingText)
  {
  }
}
