/** Domain records of the SDK (domain/models/Challenge.kt, Document.kt, ValidationSession.kt) and the
    challenge-type tag parser and serialiser. */
module Models {
  import opened Wrappers

  /** An identity document; type and country are optional. */
  datatype Document = Document(number: string, docType: Option<string>, country: Option<string>)

  /** One challenge of a session, with its type as the backend's raw tag. */
  datatype Challenge = Challenge(id: string, challengeType: string, status: string, expirationDate: string)

  /** A validation or association session as the backend returns it. The payload's values are typed
      `Any` in the source and are kept here as their string renderings. */
  datatype ValidationSession = ValidationSession(
    id: string, sessionType: string, status: string, createdAt: string, expirationDate: string,
    challenges: seq<Challenge>, payload: map<string, string>)

  /** A stored device association. `idToken` is the field the association store fills in; the
      record declared next to ValidationSession has no such field. */
  datatype DeviceAssociation = DeviceAssociation(token: string, document: Document, createdAt: string, idToken: string)

  /** The two kinds of challenge the SDK can run. */
  datatype ChallengeType = Liveness | Pin

  predicate IsUpperAscii(c: char) {
    'A' <= c <= 'Z'
  }

  /** Lowercasing of one character, for the ASCII letters. */
  function LowerChar(c: char): (d: char)
    ensures !IsUpperAscii(d)
    ensures !IsUpperAscii(c) ==> d == c
  {
    if IsUpperAscii(c) then (c as int + 32) as char else c
  }

  /** `String.lowercase()`, restricted to ASCII letters. */
  function Lowercase(s: string): (r: string)
    ensures |r| == |s|
    ensures forall i :: 0 <= i < |s| ==> r[i] == LowerChar(s[i])
  {
    if s == [] then [] else [LowerChar(s[0])] + Lowercase(s[1..])
  }

  predicate HasNoUpper(s: string) {
    forall i :: 0 <= i < |s| ==> !IsUpperAscii(s[i])
  }

  /** Lowercasing leaves a string without upper-case letters unchanged. */
  lemma LowercaseFixesLower(s: string)
    requires HasNoUpper(s)
    ensures Lowercase(s) == s
  {
  }

  /** Lowercasing is idempotent. */
  lemma LowercaseIdempotent(s: string)
    ensures Lowercase(Lowercase(s)) == Lowercase(s)
  {
    LowercaseFixesLower(Lowercase(s));
  }

  /** `ChallengeType.toString`. */
  function ToString(t: ChallengeType): (r: string)
    ensures r == "liveness" || r == "pin"
    ensures HasNoUpper(r)
  {
    match t
    case Liveness => "liveness"
    case Pin => "pin"
  }

  /** `ChallengeType.fromString`: the tag is lowercased and then matched exactly. */
  function FromString(s: string): (r: Option<ChallengeType>)
    ensures r.Some? ==> ToString(r.value) == Lowercase(s)
  {
    var l := Lowercase(s);
    if l == "liveness" then Some(Liveness)
    else if l == "pin" then Some(Pin)
    else None
  }

  /** Parsing the serialised tag gives the type back. */
  lemma FromStringToString(t: ChallengeType)
    ensures FromString(ToString(t)) == Some(t)
  {
    LowercaseFixesLower(ToString(t));
  }

  /** A tag is rejected exactly when its lowercase form is neither known tag. */
  lemma FromStringNoneIff(s: string)
    ensures FromString(s).None? <==> (Lowercase(s) != "liveness" && Lowercase(s) != "pin")
  {
  }

  /** Matching ignores case: a tag and its lowercase form parse alike. */
  lemma FromStringIgnoresCase(s: string)
    ensures FromString(s) == FromString(Lowercase(s))
  {
    LowercaseIdempotent(s);
  }

  /** Serialising a parsed tag gives the lowercased input. */
  lemma ToStringFromString(s: string)
    requires FromString(s).Some?
    ensures ToString(FromString(s).value) == Lowercase(s)
  {
  }

  /** Parsing is injective on the serialised forms: two types with the same tag are equal. */
  lemma ToStringInjective(t1: ChallengeType, t2: ChallengeType)
    requires ToString(t1) == ToString(t2)
    ensures t1 == t2
  {
  }
}
