/**
  Claims-based identity as the authentication code sees it, and IdentityService,
  which turns the current principal back into the application's User.
 */
module Identity {
  import opened Wrappers

  /** ClaimTypes.Name of System.Security.Claims. */
  const NameClaimType: string := "http://schemas.xmlsoap.org/ws/2005/05/identity/claims/name"
  /** ClaimTypes.UserData of System.Security.Claims. */
  const UserDataClaimType: string := "http://schemas.microsoft.com/ws/2008/06/identity/claims/userdata"

  datatype Claim = Claim(claimType: string, value: string)

  /**
    A claims identity. As ClaimsIdentity.Name does, its name is the value of its
    first claim whose type equals the identity's name claim type (ClaimTypes.Name
    unless the identity was built with another one), ignoring letter case.
   */
  datatype ClaimsIdentity = ClaimsIdentity(claims: seq<Claim>, authenticationType: Option<string>, nameClaimType: string)
  {
    function Name(): Option<string>
    {
      FirstValueOfIgnoringCase(claims, nameClaimType)
    }
  }

  function AsciiUpper(c: char): char
  {
    if 'a' <= c <= 'z' then (c as int - 32) as char else c
  }

  /** Ordinal equality ignoring case (ASCII letters are folded). */
  predicate SameIgnoringCase(a: string, b: string)
  {
    |a| == |b| && forall i :: 0 <= i < |a| ==> AsciiUpper(a[i]) == AsciiUpper(b[i])
  }

  /** A principal with a single identity; its claims are that identity's claims. */
  datatype ClaimsPrincipal = ClaimsPrincipal(identity: ClaimsIdentity)
  {
    function Claims(): seq<Claim>
    {
      identity.claims
    }
  }

  /** The application's User; both fields are nullable strings in the source. */
  datatype User = User(username: Option<string>, password: Option<string>)

  /** Index i holds the first claim of type t in cs. */
  predicate IsFirstOfType(cs: seq<Claim>, t: string, i: int)
  {
    0 <= i < |cs| && cs[i].claimType == t && forall j :: 0 <= j < i ==> cs[j].claimType != t
  }

  /** The value of the first claim of type t, or None: `FirstOrDefault(c => c.Type == t)?.Value`. */
  function FirstValueOf(cs: seq<Claim>, t: string): (r: Option<string>)
    ensures r.None? <==> forall i :: 0 <= i < |cs| ==> cs[i].claimType != t
    ensures forall i :: IsFirstOfType(cs, t, i) ==> r == Some(cs[i].value)
  {
    if |cs| == 0 then None
    else if cs[0].claimType == t then Some(cs[0].value)
    else
      var r := FirstValueOf(cs[1..], t);
      assert forall i :: IsFirstOfType(cs, t, i) ==> IsFirstOfType(cs[1..], t, i - 1);
      r
  }

  /** Index i holds the first claim whose type equals t ignoring case. */
  predicate IsFirstOfTypeIgnoringCase(cs: seq<Claim>, t: string, i: int)
  {
    0 <= i < |cs| && SameIgnoringCase(cs[i].claimType, t) && forall j :: 0 <= j < i ==> !SameIgnoringCase(cs[j].claimType, t)
  }

  /** The value of the first claim whose type equals t ignoring case, or None: `FindFirst(t)?.Value`. */
  function FirstValueOfIgnoringCase(cs: seq<Claim>, t: string): (r: Option<string>)
    ensures r.None? <==> forall i :: 0 <= i < |cs| ==> !SameIgnoringCase(cs[i].claimType, t)
    ensures forall i :: IsFirstOfTypeIgnoringCase(cs, t, i) ==> r == Some(cs[i].value)
  {
    if |cs| == 0 then None
    else if SameIgnoringCase(cs[0].claimType, t) then Some(cs[0].value)
    else
      var r := FirstValueOfIgnoringCase(cs[1..], t);
      assert forall i :: IsFirstOfTypeIgnoringCase(cs, t, i) ==> IsFirstOfTypeIgnoringCase(cs[1..], t, i - 1);
      r
  }

  /** The values of the claims of type t, in claim order. */
  function ValuesOfType(cs: seq<Claim>, t: string): seq<string>
  {
    if |cs| == 0 then []
    else if cs[0].claimType == t then [cs[0].value] + ValuesOfType(cs[1..], t)
    else ValuesOfType(cs[1..], t)
  }

  /** The first value of type t is the head of the values of type t: claims of other types play no part. */
  lemma {:induction false} FirstValueIsHeadOfValues(cs: seq<Claim>, t: string)
    ensures FirstValueOf(cs, t) == if ValuesOfType(cs, t) == [] then None else Some(ValuesOfType(cs, t)[0])
  {
    if |cs| > 0 && cs[0].claimType != t {
      FirstValueIsHeadOfValues(cs[1..], t);
    }
  }

  /** Claims appended after a claim of type t never change the first value of type t. */
  lemma {:induction false} LaterClaimsIgnored(a: seq<Claim>, b: seq<Claim>, t: string)
    ensures FirstValueOf(a + b, t) == if FirstValueOf(a, t).Some? then FirstValueOf(a, t) else FirstValueOf(b, t)
  {
    if |a| > 0 {
      assert (a + b)[1..] == a[1..] + b;
      LaterClaimsIgnored(a[1..], b, t);
    } else {
      assert a + b == b;
    }
  }

  /**
    IdentityService.GetCurrentUser: the user name is the identity's name and the
    password is the value of the first UserData claim, or None when there is none.
   */
  function GetCurrentUser(principal: ClaimsPrincipal): (u: User)
    ensures u.username == principal.identity.Name()
    ensures u.password.None? <==> forall i :: 0 <= i < |principal.Claims()| ==> principal.Claims()[i].claimType != UserDataClaimType
    ensures forall i :: IsFirstOfType(principal.Claims(), UserDataClaimType, i) ==> u.password == Some(principal.Claims()[i].value)
  {
    User(principal.identity.Name(), FirstValueOf(principal.Claims(), UserDataClaimType))
  }

  /** IdentityService.CurrentUser: the synchronous property waits for GetCurrentUser and returns its result. */
  function CurrentUser(principal: ClaimsPrincipal): (u: User)
    ensures u == GetCurrentUser(principal)
  {
    GetCurrentUser(principal)
  }

  /** Two principals whose UserData claims agree, in order, get the same password, whatever their other claims. */
  lemma PasswordIgnoresOtherClaimTypes(p: ClaimsPrincipal, q: ClaimsPrincipal)
    requires ValuesOfType(p.Claims(), UserDataClaimType) == ValuesOfType(q.Claims(), UserDataClaimType)
    ensures GetCurrentUser(p).password == GetCurrentUser(q).password
  {
    FirstValueIsHeadOfValues(p.Claims(), UserDataClaimType);
    FirstValueIsHeadOfValues(q.Claims(), UserDataClaimType);
  }

  /** Once a principal carries a UserData claim, further claims of any type leave the current user's password alone. */
  lemma PasswordIgnoresLaterClaims(id: ClaimsIdentity, extra: seq<Claim>)
    requires FirstValueOf(id.claims, UserDataClaimType).Some?
    ensures GetCurrentUser(ClaimsPrincipal(id.(claims := id.claims + extra))).password
         == GetCurrentUser(ClaimsPrincipal(id)).password
  {
    LaterClaimsIgnored(id.claims, extra, UserDataClaimType);
  }
}
