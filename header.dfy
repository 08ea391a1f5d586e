/** The avatar letter the header shows for the patient (`getInitials`). */
module Header {
  import opened Records

  predicate IsAsciiLower(c: char) {
    'a' <= c <= 'z'
  }

  /** `toUpperCase` restricted to one character and to the ASCII letters; every other
      character is returned unchanged. */
  function UpperAscii(c: char): (u: char)
    ensures IsAsciiLower(c) ==> u as int == c as int - 32 && 'A' <= u <= 'Z'
    ensures !IsAsciiLower(c) ==> u == c
  {
    if IsAsciiLower(c) then (c as int - 32) as char else c
  }

  /** The initial shown in the avatar: "?" for a missing or empty name, otherwise the first
      character of the name in upper case. */
  function Initials(name: Option<string>): (r: string)
    ensures |r| == 1
    ensures !Truthy(name) ==> r == "?"
    ensures Truthy(name) ==> r[0] == UpperAscii(name.value[0])
    ensures !IsAsciiLower(r[0])
  {
    if !Truthy(name) then "?" else [UpperAscii(name.value[0])]
  }

  /** Two names that start with the same character get the same initial. */
  lemma SameFirstCharSameInitial(a: string, b: string)
    requires a != [] && b != [] && a[0] == b[0]
    ensures Initials(Some(a)) == Initials(Some(b))
  {
  }

  /** Upper and lower case forms of an ASCII letter give the same initial. */
  lemma InitialIgnoresCase(a: string, b: string)
    requires a != [] && b != []
    requires IsAsciiLower(a[0]) && b[0] as int == a[0] as int - 32
    ensures Initials(Some(a)) == Initials(Some(b))
  {
  }

  /** Taking the initial of an initial changes nothing. */
  lemma InitialsIdempotent(name: Option<string>)
    ensures Initials(Some(Initials(name))) == Initials(name)
  {
  }
}
