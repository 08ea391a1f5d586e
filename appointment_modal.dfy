/** The "New Appointment" modal: a reason field, the blank-reason check, the fixed booking
    request it hands to its parent, and the reset after a submit. */
module AppointmentModal {
  import opened Records

  /** The object passed to `onAddAppointment`. */
  datatype Request = Request(specialty: string, doctorId: string, date: string, time: string)

  const FixedDoctorId := "D002"
  const FixedDate := "2025-09-15"
  const FixedTime := "14:00:00"

  /** The characters `String.prototype.trim` removes: the ECMAScript WhiteSpace and
      LineTerminator code points (tab, vertical tab, form feed, no-break space, byte order mark,
      the space separators, line feed, carriage return, line and paragraph separators). */
  predicate IsJsWhitespace(c: char)
    ensures c as int < 128 ==> (IsJsWhitespace(c) <==> c == ' ' || '\t' <= c <= '\r')
  {
    || c == '\t' || c == '\n' || c == '\U{B}' || c == '\U{C}' || c == '\r'
    || c == ' ' || c == '\U{A0}' || c == '\U{1680}'
    || ('\U{2000}' <= c <= '\U{200A}')
    || c == '\U{2028}' || c == '\U{2029}' || c == '\U{202F}' || c == '\U{205F}'
    || c == '\U{3000}' || c == '\U{FEFF}'
  }

  /** Every character of `s` is whitespace (true of the empty string). */
  predicate IsBlank(s: string) {
    forall k :: 0 <= k < |s| ==> IsJsWhitespace(s[k])
  }

  /** `s` with its leading whitespace removed. */
  function TrimStart(s: string): (t: string)
    ensures |t| <= |s| && t == s[|s| - |t|..]
    ensures t != [] ==> !IsJsWhitespace(t[0])
  {
    if s != [] && IsJsWhitespace(s[0]) then TrimStart(s[1..]) else s
  }

  /** `s` with its trailing whitespace removed. */
  function TrimEnd(s: string): (t: string)
    ensures |t| <= |s| && t == s[..|t|]
    ensures t != [] ==> !IsJsWhitespace(t[|t| - 1])
  {
    if s != [] && IsJsWhitespace(s[|s| - 1]) then TrimEnd(s[..|s| - 1]) else s
  }

  /** `s.trim()`. */
  function Trim(s: string): (t: string)
    ensures t != [] ==> !IsJsWhitespace(t[0]) && !IsJsWhitespace(t[|t| - 1])
  {
    var t := TrimEnd(TrimStart(s));
    assert t != [] ==> t[0] == TrimStart(s)[0];
    t
  }

  lemma {:induction false} TrimStartEmptyIffBlank(s: string)
    ensures TrimStart(s) == [] <==> IsBlank(s)
  {
    if s != [] && IsJsWhitespace(s[0]) {
      TrimStartEmptyIffBlank(s[1..]);
      assert forall k :: 1 <= k < |s| ==> s[k] == s[1..][k - 1];
    }
  }

  lemma {:induction false} TrimEndEmptyIffBlank(s: string)
    ensures TrimEnd(s) == [] <==> IsBlank(s)
  {
    if s != [] && IsJsWhitespace(s[|s| - 1]) {
      TrimEndEmptyIffBlank(s[..|s| - 1]);
      assert forall k :: 0 <= k < |s| - 1 ==> s[k] == s[..|s| - 1][k];
    }
  }

  /** `!s.trim()` holds exactly for the strings made only of whitespace. */
  lemma TrimEmptyIffBlank(s: string)
    ensures Trim(s) == [] <==> IsBlank(s)
  {
    TrimStartEmptyIffBlank(s);
    var u := TrimStart(s);
    TrimEndEmptyIffBlank(u);
  }

  lemma {:induction false} TrimStartDropsBlankPrefix(s: string)
    ensures IsBlank(s[..|s| - |TrimStart(s)|])
  {
    if s != [] && IsJsWhitespace(s[0]) {
      TrimStartDropsBlankPrefix(s[1..]);
      var n := |s| - |TrimStart(s)|;
      assert forall k :: 1 <= k < n ==> s[..n][k] == s[1..][..n - 1][k - 1];
    }
  }

  lemma {:induction false} TrimEndDropsBlankSuffix(s: string)
    ensures IsBlank(s[|TrimEnd(s)|..])
  {
    if s != [] && IsJsWhitespace(s[|s| - 1]) {
      TrimEndDropsBlankSuffix(s[..|s| - 1]);
      var n := |TrimEnd(s)|;
      assert forall k :: 0 <= k < |s| - 1 - n ==> s[n..][k] == s[..|s| - 1][n..][k];
    }
  }

  /** `s.trim()` is the part of `s` left after cutting a blank prefix and a blank suffix, and
      it neither starts nor ends with whitespace. */
  lemma TrimIsInfix(s: string)
    ensures exists i, j :: 0 <= i <= j <= |s| && Trim(s) == s[i..j] && IsBlank(s[..i]) && IsBlank(s[j..])
  {
    var u := TrimStart(s);
    var i := |s| - |u|;
    TrimStartDropsBlankPrefix(s);
    TrimEndDropsBlankSuffix(u);
    var j := i + |TrimEnd(u)|;
    assert Trim(s) == s[i..j];
    assert s[j..] == u[|TrimEnd(u)|..];
  }

  /** The reason check of `handleAdd`: accepted when some character is not whitespace. */
  predicate ReasonAccepted(text: string)
    ensures ReasonAccepted(text) <==> exists k :: 0 <= k < |text| && !IsJsWhitespace(text[k])
  {
    TrimEmptyIffBlank(text);
    Trim(text) != []
  }

  /** The booking request built from the typed text: the text as entered, untrimmed, and a fixed
      doctor, date and time whatever was typed. */
  function BuildRequest(text: string): (r: Request)
    ensures r.specialty == text
    ensures r.doctorId == FixedDoctorId && r.date == FixedDate && r.time == FixedTime
  {
    Request(text, FixedDoctorId, FixedDate, FixedTime)
  }

  class AddAppointmentForm {
    /** `specialty`: the text of the reason field. */
    var specialty: string

    constructor ()
      ensures specialty == ""
    {
      specialty := "";
    }

    /** `onChangeText={setSpecialty}`. */
    method ChangeText(text: string)
      modifies this
      ensures specialty == text
    {
      specialty := text;
    }

    /** Pressing "Confirm Booking" (`handleAdd`): `submitted` is what is passed to
        `onAddAppointment`, or `None` when the alert is shown instead. */
    method PressAdd() returns (submitted: Option<Request>)
      modifies this
      ensures submitted.Some? <==> ReasonAccepted(old(specialty))
      ensures submitted.None? ==> specialty == old(specialty)
      ensures submitted.Some? ==> submitted.value == BuildRequest(old(specialty)) && specialty == ""
    {
      if Trim(specialty) == [] {
        submitted := None;
        return;
      }
      submitted := Some(BuildRequest(specialty));
      specialty := "";
    }
  }
}
