/** The patient record the app fetches from `GET /api/patient/{id}` and the values it is made of.
    A JSON field that may be absent or `null` is an `Option`; JavaScript's falsiness of such a
    text field is `Truthy`. */
module Records {

  datatype Option<+T> = None | Some(value: T)

  /** `!!x` in JavaScript for a text field: present, not null and not the empty string. */
  predicate Truthy(x: Option<string>) {
    x.Some? && x.value != ""
  }

  /** A JSON number field, as a template literal renders it (`${x}`):
      absent is "undefined", null is "null". Only integral values are modelled. */
  datatype NumberField = Undefined | Null | Number(n: int)

  /** One entry of the record's `appointments` array. The dashboard reads `appointment_date`
      and `doctor_name`; the appointments list reads `specialty`, `doctor`, `time`, `status`. */
  datatype Appointment = Appointment(
    id: int,
    specialty: Option<string>,
    doctor: Option<string>,
    time: Option<string>,
    status: Option<string>,
    appointmentDate: Option<string>,
    doctorName: Option<string>)

  /** One entry of `chatbot_conversations`. */
  datatype Message = Message(id: int, sender: string, message: string)

  /** The patient row joined with its doctor, plus the two arrays the server attaches.
      `otherColumns` stands for the remaining columns (date of birth, complaints, medication, ...),
      which the core only passes along. */
  datatype PatientRecord = PatientRecord(
    id: int,
    patientName: Option<string>,
    email: Option<string>,
    mobileNumber: Option<string>,
    gender: Option<string>,
    occupation: Option<string>,
    doctorId: Option<string>,
    painScale: NumberField,
    appointments: Option<seq<Appointment>>,
    chatbotConversations: Option<seq<Message>>,
    otherColumns: map<string, string>)
}
