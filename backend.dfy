/** What the components see of the hosted backend: optional values, the
    outcome of a call that may throw, and the loosely typed field values of
    stored documents together with JavaScript's truthiness on them. */
module Backend {

  datatype Option<T> = None | Some(value: T)

  /** A backend call that either completes or throws an error whose
      `message` may be empty (a missing message is modelled as ""). */
  datatype Outcome = Completed | Threw(message: string)

  /** Result of reading one document by id: it exists or not, or the read
      throws. */
  datatype DocLookup = Exists | Missing | LookupFailed

  /** A field value of a stored document. Numbers are kept as integers. */
  datatype Value = Str(s: string) | Bool(b: bool) | Num(n: int) | Null

  /** JavaScript truthiness of a field value. */
  predicate Truthy(v: Value) {
    match v
    case Str(s) => s != ""
    case Bool(b) => b
    case Num(n) => n != 0
    case Null => false
  }

  /** Truthiness of an optional string (`null`, `undefined` and "" are
      falsy). */
  predicate Present(o: Option<string>) {
    o.Some? && o.value != ""
  }

  /** `a || b` on optional strings. */
  function OrElse(a: Option<string>, b: Option<string>): (r: Option<string>)
    ensures Present(a) ==> r == a
    ensures !Present(a) ==> r == b
    ensures Present(r) <==> Present(a) || Present(b)
  {
    if Present(a) then a else b
  }
}

/** The signed-in account as the components read it, and the name
    fallbacks they derive from it. */
module Account {
  import opened Backend
  import Text

  datatype User = User(uid: string, displayName: Option<string>, email: Option<string>, photoURL: Option<string>)

  /** `user.email?.split("@")[0]`: undefined without an email, otherwise the
      part before the first "@". */
  function EmailPrefix(u: User): (r: Option<string>)
    ensures r.Some? <==> u.email.Some?
    ensures r.Some? ==> '@' !in r.value && Text.StartsWith(u.email.value, r.value)
    ensures r.Some? && |r.value| < |u.email.value| ==> u.email.value[|r.value|] == '@'
  {
    match u.email
    case None => None
    case Some(e) => Some(Text.BeforeFirst(e, '@'))
  }

  /** `user.displayName || user.email?.split("@")[0]`: the handle shown on
      the profile page and in the header menu. */
  function Handle(u: User): (r: Option<string>)
    ensures Present(u.displayName) ==> r == u.displayName
    ensures !Present(u.displayName) ==> r == EmailPrefix(u)
    ensures r.None? <==> !Present(u.displayName) && u.email.None?
  {
    OrElse(u.displayName, EmailPrefix(u))
  }

  /** `user.displayName ? user.displayName.charAt(0) : fallback`: one
      character of the display name, or the fallback text. */
  function AvatarLetter(u: User, fallback: string): (r: string)
    ensures Present(u.displayName) ==> |r| == 1 && r[0] == u.displayName.value[0]
    ensures !Present(u.displayName) ==> r == fallback
  {
    if Present(u.displayName) then [u.displayName.value[0]] else fallback
  }
}
