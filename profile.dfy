/** The profile edit form: an editable copy of the patient record, single-field edits, the
    reset when the `patient` prop changes, and the required-field check before `onSave`. */
module Profile {
  import opened Records

  /** The five text inputs of the form. */
  datatype FormField = PatientName | Email | MobileNumber | Gender | Occupation

  /** What pressing "Save Changes" does. */
  datatype SaveOutcome =
    | Disabled                          // the button is disabled while the parent is saving
    | Rejected                          // the validation alert is shown, `onSave` is not called
    | Submitted(record: PatientRecord)  // `onSave` is called with this record

  /** The value an input shows for its field. */
  function FieldValue(r: PatientRecord, f: FormField): Option<string> {
    match f
    case PatientName => r.patientName
    case Email => r.email
    case MobileNumber => r.mobileNumber
    case Gender => r.gender
    case Occupation => r.occupation
  }

  /** `{ ...editablePatient, <field>: text }`: the record with one field replaced. */
  function WithField(r: PatientRecord, f: FormField, text: string): (r': PatientRecord)
    ensures FieldValue(r', f) == Some(text)
    ensures forall g :: g != f ==> FieldValue(r', g) == FieldValue(r, g)
    ensures r'.id == r.id && r'.doctorId == r.doctorId && r'.painScale == r.painScale
    ensures r'.appointments == r.appointments && r'.chatbotConversations == r.chatbotConversations
    ensures r'.otherColumns == r.otherColumns
  {
    match f
    case PatientName => r.(patientName := Some(text))
    case Email => r.(email := Some(text))
    case MobileNumber => r.(mobileNumber := Some(text))
    case Gender => r.(gender := Some(text))
    case Occupation => r.(occupation := Some(text))
  }

  /** The validation of `handleSave`: a plain falsiness test of name and mobile number,
      without trimming. */
  predicate HasRequiredFields(r: PatientRecord)
    ensures HasRequiredFields(r) <==>
      FieldValue(r, PatientName) !in {None, Some("")} && FieldValue(r, MobileNumber) !in {None, Some("")}
  {
    Truthy(r.patientName) && Truthy(r.mobileNumber)
  }

  /** Editing the email, gender or occupation never changes whether a save is accepted. */
  lemma OtherEditsKeepRequiredFields(r: PatientRecord, f: FormField, text: string)
    requires f != PatientName && f != MobileNumber
    ensures HasRequiredFields(WithField(r, f, text)) == HasRequiredFields(r)
  {
  }

  /** Clearing the name or the mobile number makes the save rejected, and typing any non-empty
      text into both makes it accepted. */
  lemma RequiredFieldsDecideSave(r: PatientRecord, f: FormField, a: string, b: string)
    requires f == PatientName || f == MobileNumber
    ensures !HasRequiredFields(WithField(r, f, ""))
    ensures a != "" && b != "" ==>
      HasRequiredFields(WithField(WithField(r, PatientName, a), MobileNumber, b))
  {
  }

  /** A name or mobile number made only of spaces passes the check. */
  lemma WhitespaceOnlyPasses(r: PatientRecord, spaces: string)
    requires spaces != [] && forall k :: 0 <= k < |spaces| ==> spaces[k] == ' '
    ensures HasRequiredFields(r.(patientName := Some(spaces), mobileNumber := Some(spaces)))
  {
  }

  /** Edits to two different fields give the same record in either order. */
  lemma {:induction false} EditsCommuteOnDistinctFields(r: PatientRecord, f: FormField, g: FormField, a: string, b: string)
    requires f != g
    ensures WithField(WithField(r, f, a), g, b) == WithField(WithField(r, g, b), f, a)
  {
    var x := WithField(WithField(r, f, a), g, b);
    var y := WithField(WithField(r, g, b), f, a);
    assert FieldValue(x, PatientName) == FieldValue(y, PatientName);
    assert FieldValue(x, Email) == FieldValue(y, Email);
    assert FieldValue(x, MobileNumber) == FieldValue(y, MobileNumber);
    assert FieldValue(x, Gender) == FieldValue(y, Gender);
    assert FieldValue(x, Occupation) == FieldValue(y, Occupation);
  }

  class ProfileScreen {
    /** The `patient` prop the form was last given. */
    var patient: PatientRecord
    /** `editablePatient`: the copy the inputs show and edit. */
    var editablePatient: PatientRecord

    /** Mounting: the editable copy starts equal to the prop. */
    constructor (patient: PatientRecord)
      ensures this.patient == patient && editablePatient == patient
    {
      this.patient := patient;
      editablePatient := patient;
    }

    /** The prop-sync effect, run when the parent passes a different `patient` object:
        unsaved edits are discarded. */
    method PropChanged(p: PatientRecord)
      modifies this
      ensures patient == p && editablePatient == p
    {
      patient := p;
      editablePatient := p;
    }

    /** `onChangeText` of the input for `f`. */
    method ChangeText(f: FormField, text: string)
      modifies this`editablePatient
      ensures editablePatient == WithField(old(editablePatient), f, text)
      ensures FieldValue(editablePatient, f) == Some(text)
      ensures forall g :: g != f ==> FieldValue(editablePatient, g) == FieldValue(old(editablePatient), g)
    {
      editablePatient := WithField(editablePatient, f, text);
    }

    /** Pressing "Save Changes" while the parent's `isSaving` is `isLoading`. */
    method PressSave(isLoading: bool) returns (outcome: SaveOutcome)
      ensures isLoading <==> outcome.Disabled?
      ensures outcome.Rejected? <==> !isLoading && !HasRequiredFields(editablePatient)
      ensures outcome.Submitted? ==> outcome.record == editablePatient
      ensures outcome.Submitted? ==> Truthy(outcome.record.patientName) && Truthy(outcome.record.mobileNumber)
    {
      if isLoading {
        return Disabled;
      }
      if !Truthy(editablePatient.patientName) || !Truthy(editablePatient.mobileNumber) {
        return Rejected;
      }
      outcome := Submitted(editablePatient);
    }
  }
}
