/** The admin context: `isAdmin` and `loading` derived from the signed-in
    user and the lookup of that user's document in the "admins" collection
    (src/context/AdminContext.tsx). */
module AdminContext {
  import opened Backend
  import opened Account

  datatype AdminValue = AdminValue(isAdmin: bool, loading: bool)

  /** The context's default value, also the provider's initial state. */
  const Default: AdminValue := AdminValue(false, true)

  /** One run of the provider's effect for the current user, with the
      outcome of the document lookup (consulted only when there is a
      user). */
  function Check(user: Option<User>, lookup: DocLookup): (r: AdminValue)
    ensures !r.loading
    ensures r.isAdmin ==> user.Some? && lookup == Exists
    ensures user.Some? && lookup == Exists ==> r.isAdmin
  {
    match user
    case None => AdminValue(false, false)
    case Some(_) => AdminValue(lookup == Exists, false)
  }

  /** Every completed check clears `loading`; `isAdmin` holds exactly for a
      signed-in user whose admins document exists, so both a missing user
      and a failed lookup give false. */
  lemma CheckResolves(user: Option<User>, lookup: DocLookup)
    ensures !Check(user, lookup).loading
    ensures Check(user, lookup).isAdmin <==> user.Some? && lookup == Exists
    ensures lookup == LookupFailed ==> !Check(user, lookup).isAdmin
  {
  }

  /** An effect event: the user the effect sees and its lookup outcome. */
  datatype Change = Change(user: Option<User>, lookup: DocLookup)

  /** The state after the effect has run once per change, in order. */
  function AfterChanges(s: AdminValue, cs: seq<Change>): AdminValue
    decreases |cs|
  {
    if cs == [] then s else AfterChanges(Check(cs[0].user, cs[0].lookup), cs[1..])
  }

  /** `loading` is true only until the first check completes and is never
      set back, whatever users follow; the value then reflects the last
      check alone. */
  lemma {:induction false} LoadingSettlesForGood(s: AdminValue, cs: seq<Change>)
    ensures cs != [] ==> AfterChanges(s, cs) == Check(cs[|cs| - 1].user, cs[|cs| - 1].lookup)
    ensures cs != [] || !s.loading ==> !AfterChanges(s, cs).loading
    ensures cs == [] ==> AfterChanges(s, cs) == s
    decreases |cs|
  {
    if cs != [] {
      LoadingSettlesForGood(Check(cs[0].user, cs[0].lookup), cs[1..]);
      if |cs| > 1 {
        assert cs[1..][|cs[1..]| - 1] == cs[|cs| - 1];
      }
    }
  }

  /** What `useAdmin` produces: the context value, or the error it would
      throw. */
  datatype Lookup = Provided(value: AdminValue) | Raised(message: string)

  /** `useAdmin()`: the provider's value, or the default outside a provider.
      The "must be used within an AdminProvider" error is never thrown,
      because the context value is always an object. */
  function UseAdmin(provided: Option<AdminValue>): (r: Lookup)
    ensures r.Provided?
    ensures provided.None? ==> r.value == Default && !r.value.isAdmin && r.value.loading
    ensures provided.Some? ==> r.value == provided.value
  {
    var context := match provided case Some(v) => v case None => Default;
    Provided(context)
  }

  class AdminProvider {
    var isAdmin: bool
    var loading: bool

    function State(): AdminValue
      reads this
    {
      AdminValue(isAdmin, loading)
    }

    constructor ()
      ensures State() == Default
    {
      isAdmin := false;
      loading := true;
    }

    /** The effect, run when the user changes; the lookup is awaited in
        place. */
    method OnUserChange(user: Option<User>, lookup: DocLookup)
      modifies this
      ensures State() == Check(user, lookup)
    {
      if user.None? {
        isAdmin := false;
        loading := false;
        return;
      }
      if lookup == LookupFailed {
        isAdmin := false;
      } else {
        isAdmin := lookup == Exists;
      }
      loading := false;
    }
  }
}
