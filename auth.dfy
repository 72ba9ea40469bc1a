/** The mock session authentication of lib/auth.ts: three fixed users and
    a session cookie that holds the logged-in user's id. The request's
    cookie store is a map from cookie names to values. */
module Auth {
  import opened Wrappers

  datatype Role = ItotBoard | Viewer

  datatype User = User(id: string, name: string, email: string, rolle: Role)

  const SessionCookie: string := "itot_session"

  /** `mockUsers`. */
  const MockUsers: map<string, User> := map[
    "itot1" := User("itot1", "Max Mustermann", "max.mustermann@example.com", ItotBoard),
    "itot2" := User("itot2", "Anna Schmidt", "anna.schmidt@example.com", ItotBoard),
    "viewer1" := User("viewer1", "Peter Zuschauer", "peter.zuschauer@example.com", Viewer)
  ]

  /** The insertion order of `mockUsers`, which `Object.values` follows. */
  const MockUserIds: seq<string> := ["itot1", "itot2", "viewer1"]

  /** Own-property lookup of a user id. */
  function UserById(id: string): (r: Option<User>)
    ensures r.Some? <==> id in MockUsers
    ensures r.Some? ==> r.value.id == id
  {
    if id in MockUsers then Some(MockUsers[id]) else None
  }

  /** `getCurrentUser` on a cookie store: no cookie or an empty value is
      no user; otherwise the user with that id, if any. */
  function CurrentUser(cookies: map<string, string>): (r: Option<User>)
    ensures SessionCookie !in cookies || cookies[SessionCookie] == "" ==> r.None?
    ensures SessionCookie in cookies && cookies[SessionCookie] != "" ==> r == UserById(cookies[SessionCookie])
  {
    if SessionCookie !in cookies || cookies[SessionCookie] == "" then None
    else UserById(cookies[SessionCookie])
  }

  /** `isAuthenticated`. */
  predicate IsAuthenticated(cookies: map<string, string>)
    ensures IsAuthenticated(cookies) <==> SessionCookie in cookies && cookies[SessionCookie] in MockUsers
  {
    CurrentUser(cookies).Some?
  }

  /** `isITOTBoardMember`. */
  predicate IsITOTBoardMember(cookies: map<string, string>)
    ensures IsITOTBoardMember(cookies) <==> SessionCookie in cookies && cookies[SessionCookie] in {"itot1", "itot2"}
  {
    CurrentUser(cookies).Some? && CurrentUser(cookies).value.rolle == ItotBoard
  }

  /** `getMockUsers`: all three users in declaration order. */
  function GetMockUsers(): (r: seq<User>)
    ensures |r| == 3
    ensures forall k :: 0 <= k < 3 ==> r[k] == MockUsers[MockUserIds[k]]
  {
    seq(3, k requires 0 <= k < 3 => MockUsers[MockUserIds[k]])
  }

  /** The request's cookie store. */
  class CookieStore {
    var cookies: map<string, string>

    constructor (initial: map<string, string>)
      ensures cookies == initial
    {
      cookies := initial;
    }

    /** `mockLogin`: an unknown id is refused and sets nothing. */
    method MockLogin(userId: string) returns (success: bool, error: Option<string>)
      modifies this
      ensures success <==> userId in MockUsers
      ensures !success ==> error == Some("Benutzer nicht gefunden") && cookies == old(cookies)
      ensures success ==> error.None? && cookies == old(cookies)[SessionCookie := userId]
    {
      var user := UserById(userId);
      if user.None? {
        return false, Some("Benutzer nicht gefunden");
      }
      cookies := cookies[SessionCookie := userId];
      return true, None;
    }

    /** `logout`: the session cookie is deleted. */
    method Logout()
      modifies this
      ensures cookies == old(cookies) - {SessionCookie}
    {
      cookies := cookies - {SessionCookie};
    }
  }

  // ---------------------------------------------------------------- properties

  /** After a successful login the current user is the one logged in. */
  lemma LoginThenCurrentUser(cookies: map<string, string>, id: string)
    requires id in MockUsers
    ensures CurrentUser(cookies[SessionCookie := id]) == Some(MockUsers[id])
    ensures IsAuthenticated(cookies[SessionCookie := id])
  {
  }

  /** After logout nobody is logged in. */
  lemma LogoutThenNoUser(cookies: map<string, string>)
    ensures CurrentUser(cookies - {SessionCookie}).None?
    ensures !IsAuthenticated(cookies - {SessionCookie})
  {
  }

  /** Board membership by user: the two board members, not the viewer. */
  lemma BoardMembers(cookies: map<string, string>, id: string)
    requires id in MockUsers
    ensures IsITOTBoardMember(cookies[SessionCookie := id]) <==> id == "itot1" || id == "itot2"
  {
  }

  /** A board member is always authenticated. */
  lemma BoardMemberIsAuthenticated(cookies: map<string, string>)
    requires IsITOTBoardMember(cookies)
    ensures IsAuthenticated(cookies)
  {
  }

  // ---------------------------------------------------------------- as written

  /** Names every plain JavaScript object inherits from `Object.prototype`;
      `mockUsers[name]` yields a (truthy) function or object for them. */
  const InheritedNames: set<string> := {
    "constructor", "__proto__", "toString", "toLocaleString", "valueOf",
    "hasOwnProperty", "isPrototypeOf", "propertyIsEnumerable",
    "__defineGetter__", "__defineSetter__", "__lookupGetter__", "__lookupSetter__"
  }

  /** What `mockUsers[userId]` yields in the source. */
  datatype Lookup = OwnUser(user: User) | InheritedMember(name: string) | NoEntry

  function LookupAsWritten(id: string): (r: Lookup)
    ensures id in MockUsers ==> r == OwnUser(MockUsers[id])
    ensures id !in MockUsers && id in InheritedNames ==> r == InheritedMember(id)
    ensures id !in MockUsers && id !in InheritedNames ==> r == NoEntry
  {
    if id in MockUsers then OwnUser(MockUsers[id])
    else if id in InheritedNames then InheritedMember(id)
    else NoEntry
  }

  /** `mockLogin`'s `!user` test as written. */
  predicate LoginAcceptsAsWritten(id: string)
    ensures LoginAcceptsAsWritten(id) <==> id in MockUsers || id in InheritedNames
  {
    !LookupAsWritten(id).NoEntry?
  }

  /** `isAuthenticated` as written: the cookie's id finds a truthy value. */
  predicate IsAuthenticatedAsWritten(cookies: map<string, string>)
    ensures IsAuthenticatedAsWritten(cookies) <==>
      SessionCookie in cookies && (cookies[SessionCookie] in MockUsers || cookies[SessionCookie] in InheritedNames)
  {
    SessionCookie in cookies && cookies[SessionCookie] != "" && !LookupAsWritten(cookies[SessionCookie]).NoEntry?
  }

  /** As written, logging in as "constructor" succeeds and the session then
      counts as authenticated although no such user exists; the own-property
      lookup refuses the login and authenticates nobody. */
  lemma InheritedNameLogsIn(cookies: map<string, string>)
    ensures LoginAcceptsAsWritten("constructor")
    ensures LoginAcceptsAsWritten("__lookupGetter__")
    ensures IsAuthenticatedAsWritten(cookies[SessionCookie := "constructor"])
    ensures "constructor" !in MockUsers
    ensures UserById("constructor").None?
    ensures !IsAuthenticated(cookies[SessionCookie := "constructor"])
  {
  }

  /** The own-property lookup agrees with the source on every id that is
      not an inherited member name. */
  lemma LookupAgreesOffPrototype(id: string)
    requires id !in InheritedNames
    ensures LookupAsWritten(id).OwnUser? <==> UserById(id).Some?
    ensures LookupAsWritten(id).NoEntry? <==> UserById(id).None?
  {
  }
}
