/** Session acquisition against the SIS registry (app/services/sis_service.py):
    classification of the GetSession reply and the clearing of the held token. */
module Sis {
  import opened Wrappers
  import opened Exceptions
  import opened Requests

  /** What the registry's GetSession call produced: it raised, it returned a
      string, or it returned something that is not a string. */
  datatype SessionReply = Raised | Text(text: string) | NotText

  /** The rejection markers the registry puts in its reply. */
  const ErrorMessages: seq<string> := ["INVALIDO", "INCORRECTA"]

  /** Python's `sub in s`: a case-sensitive substring test. */
  function Contains(s: string, sub: string): bool
    decreases |s|
  {
    if |sub| > |s| then false
    else if s[..|sub|] == sub then true
    else Contains(s[1..], sub)
  }

  /** `sub` occurs in `s` starting at position `i`. */
  ghost predicate OccursAt(s: string, sub: string, i: int)
  {
    0 <= i && i + |sub| <= |s| && s[i..i + |sub|] == sub
  }

  /** The substring test is true exactly when `sub` occurs somewhere in `s`. */
  lemma {:induction false} ContainsIffOccurs(s: string, sub: string)
    ensures Contains(s, sub) <==> exists i :: OccursAt(s, sub, i)
    decreases |s|
  {
    if |sub| > |s| {
    } else if s[..|sub|] == sub {
      assert OccursAt(s, sub, 0);
    } else {
      ContainsIffOccurs(s[1..], sub);
      if Contains(s[1..], sub) {
        var i :| OccursAt(s[1..], sub, i);
        assert s[1..][i..i + |sub|] == s[i + 1..i + 1 + |sub|];
        assert OccursAt(s, sub, i + 1);
      }
      if exists i :: OccursAt(s, sub, i) {
        var i :| OccursAt(s, sub, i);
        assert i != 0;
        assert s[1..][i - 1..i - 1 + |sub|] == s[i..i + |sub|];
        assert OccursAt(s[1..], sub, i - 1);
      }
    }
  }

  /** A non-empty string whose first character never appears in `s` is not contained in it. */
  lemma AbsentFirstCharacter(s: string, sub: string)
    requires |sub| > 0 && forall i :: 0 <= i < |s| ==> s[i] != sub[0]
    ensures !Contains(s, sub)
  {
    ContainsIffOccurs(s, sub);
    forall i | 0 <= i
      ensures !OccursAt(s, sub, i)
    {
      if i + |sub| <= |s| {
        assert s[i..i + |sub|][0] == s[i];
      }
    }
  }

  /** `any(msg in response for msg in error_messages)`. */
  predicate HasRejectionMarker(response: string)
  {
    exists k :: 0 <= k < |ErrorMessages| && Contains(response, ErrorMessages[k])
  }

  /** The outcome `get_session` reports for a reply: the non-string check runs
      before the marker check, and only a marker-free string is a token. */
  function ClassifySession(reply: SessionReply): (r: Result<string, ErrorCode>)
    ensures r == Err(GetSessionError) <==> reply.Raised?
    ensures r == Err(BadResponse) <==> reply.NotText?
    ensures r == Err(InvalidCredentials) <==> reply.Text? && HasRejectionMarker(reply.text)
    ensures r.Ok? <==> reply.Text? && !HasRejectionMarker(reply.text)
    ensures r.Ok? ==> r.value == reply.text
  {
    match reply
    case Raised => Err(GetSessionError)
    case NotText => Err(BadResponse)
    case Text(response) =>
      if HasRejectionMarker(response) then Err(InvalidCredentials) else Ok(response)
  }

  class SISService {
    var sessionToken: Option<string>
    var sessionExpires: Option<int>

    constructor ()
      ensures sessionToken == None && sessionExpires == None
    {
      sessionToken := None;
      sessionExpires := None;
    }

    /** `get_session`. The registry's reply to `GetSession(request.usuario,
        request.clave)` is the parameter `reply`. Only a rejection writes the
        held token, clearing it. */
    method GetSession(request: CredencialesRequest, reply: SessionReply) returns (r: Result<string, ErrorCode>)
      modifies this
      ensures r == ClassifySession(reply)
      ensures sessionToken == (if r == Err(InvalidCredentials) then None else old(sessionToken))
      ensures sessionExpires == old(sessionExpires)
    {
      match reply
      case Raised =>
        r := Err(GetSessionError);
      case NotText =>
        r := Err(BadResponse);
      case Text(response) =>
        if HasRejectionMarker(response) {
          sessionToken := None;
          r := Err(InvalidCredentials);
        } else {
          r := Ok(response);
        }
    }
  }

  /** A reply naming a wrong password is a credentials rejection. */
  lemma WrongPasswordIsRejected()
    ensures ClassifySession(Text("CLAVE INCORRECTA")) == Err(InvalidCredentials)
  {
    assert OccursAt("CLAVE INCORRECTA", ErrorMessages[1], 6);
    ContainsIffOccurs("CLAVE INCORRECTA", ErrorMessages[1]);
  }

  /** The markers are matched case-sensitively: a lower-case reply is a token. */
  lemma MarkersAreCaseSensitive()
    ensures ClassifySession(Text("clave incorrecta")) == Ok("clave incorrecta")
  {
    var reply := "clave incorrecta";
    forall k | 0 <= k < |ErrorMessages|
      ensures !Contains(reply, ErrorMessages[k])
    {
      AbsentFirstCharacter(reply, ErrorMessages[k]);
    }
  }
}
