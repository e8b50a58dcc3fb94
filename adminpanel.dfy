/** The admin panel page: the redirect decision taken on every
    authentication change, the user list it loads, what it shows of that
    list, and logout (src/pages/admin/AdminPanel.tsx). */
module AdminPanel {
  import opened Backend
  import opened Account
  import Text

  /** A document of the "users" collection: its id and its fields. */
  datatype UserDoc = UserDoc(id: string, data: map<string, Value>)

  /** The outcome of reading the whole "users" collection. */
  datatype UsersFetch = Fetched(docs: seq<UserDoc>) | FetchFailed

  /** `{ id: doc.id, ...doc.data() }`: the document's fields with its id
      added; a stored field named "id" wins over the document id. */
  function WithId(d: UserDoc): (r: map<string, Value>)
    ensures r.Keys == d.data.Keys + {"id"}
    ensures forall k :: k in d.data ==> r[k] == d.data[k]
    ensures "id" !in d.data ==> r["id"] == Str(d.id)
  {
    map["id" := Str(d.id)] + d.data
  }

  /** The user list stored for an admin: one entry per document, in
      collection order. */
  function WithIds(docs: seq<UserDoc>): (r: seq<map<string, Value>>)
    ensures |r| == |docs|
    ensures forall i :: 0 <= i < |docs| ==> r[i] == WithId(docs[i])
  {
    if docs == [] then [] else [WithId(docs[0])] + WithIds(docs[1..])
  }

  datatype PanelState = PanelState(users: seq<map<string, Value>>, loading: bool, navigations: seq<string>)

  const Initial: PanelState := PanelState([], true, [])

  /** The authentication callback: the signed-in user, the lookup of
      `admins/<uid>`, and the users fetch (each consulted only when
      reached). */
  function OnAuthState(s: PanelState, current: Option<User>, admin: DocLookup, fetch: UsersFetch): (r: PanelState)
    ensures |s.navigations| <= |r.navigations| <= |s.navigations| + 1
    ensures r.navigations[..|s.navigations|] == s.navigations
    ensures r.users == s.users || (fetch.Fetched? && r.users == WithIds(fetch.docs))
    ensures r.loading ==> s.loading
  {
    match current
    case None => s.(navigations := s.navigations + ["/admin/login"], loading := false)
    case Some(_) =>
      match admin
      case LookupFailed => s.(navigations := s.navigations + ["/"], loading := false)
      case Missing => s.(navigations := s.navigations + ["/"])
      case Exists =>
        match fetch
        case FetchFailed => s.(navigations := s.navigations + ["/"], loading := false)
        case Fetched(docs) => s.(users := WithIds(docs), loading := false)
  }

  /** The decision tree: no user goes to the login page; a user without an
      admins document, or any failed read, goes home; an admin stays and
      gets the user list. `loading` is cleared on every path except the
      non-admin one, which returns before clearing it. */
  lemma AuthDecision(s: PanelState, current: Option<User>, admin: DocLookup, fetch: UsersFetch)
    ensures var t := OnAuthState(s, current, admin, fetch);
      && (current.None? ==> t.navigations == s.navigations + ["/admin/login"] && t.users == s.users)
      && (current.Some? && admin != Exists ==> t.navigations == s.navigations + ["/"] && t.users == s.users)
      && (current.Some? && admin == Exists && fetch.FetchFailed? ==>
            t.navigations == s.navigations + ["/"] && t.users == s.users)
      && (current.Some? && admin == Exists && fetch.Fetched? ==>
            t.navigations == s.navigations && t.users == WithIds(fetch.docs))
      && (t.loading <==> s.loading && current.Some? && admin == Missing)
  {
  }

  /** A non-admin is sent home and `loading` is left as it was, true on
      the first callback. */
  lemma NonAdminKeepsSpinner(u: User, fetch: UsersFetch)
    ensures OnAuthState(Initial, Some(u), Missing, fetch).loading
    ensures OnAuthState(Initial, Some(u), Missing, fetch).navigations == ["/"]
  {
  }

  /** The "Total Users" card: the number of loaded users. */
  function TotalUsers(s: PanelState): (r: nat)
    ensures r == 0 <==> s.users == []
    ensures r >= |ShownUsers(s.users)|
  {
    |s.users|
  }

  /** The management list: the first five users, in order. */
  function ShownUsers(users: seq<map<string, Value>>): (r: seq<map<string, Value>>)
    ensures |r| == Text.Min(5, |users|)
    ensures r == users[..|r|]
  {
    users[..Text.Min(5, |users|)]
  }

  /** The avatar text of a listed entry: the first two letters of a truthy
      `username`, upper-cased, else "U". `None` is the render error a
      truthy username that is not a string would raise (it has no
      `slice`). */
  function EntryAvatar(r: map<string, Value>): (t: Option<string>)
    ensures t.None? <==> "username" in r && Truthy(r["username"]) && !r["username"].Str?
    ensures "username" !in r || !Truthy(r["username"]) ==> t == Some("U")
    ensures "username" in r && r["username"].Str? && r["username"].s != "" ==>
      t == Some(Text.Initials(r["username"].s)) && 1 <= |t.value| <= 2
  {
    if "username" !in r || !Truthy(r["username"]) then Some("U")
    else match r["username"]
      case Str(name) => Some(Text.Initials(name))
      case _ => None
  }

  /** For an admin, the card counts every document of the collection while
      the list shows at most five of them, in the intended page. */
  lemma AdminSeesCounts(s: PanelState, u: User, docs: seq<UserDoc>)
    ensures var t := OnAuthState(s, Some(u), Exists, Fetched(docs));
      TotalUsers(t) == |docs| && |ShownUsers(t.users)| <= 5 &&
      forall i :: 0 <= i < |ShownUsers(t.users)| ==> ShownUsers(t.users)[i] == WithId(docs[i])
    ensures var v := Page(OnAuthState(s, Some(u), Exists, Fetched(docs)));
      v.Dashboard? ==>
        && v.total == |docs| && |v.entries| == Text.Min(5, |docs|)
        && forall i :: 0 <= i < |v.entries| ==> v.entries[i].status == StatusLabel(WithId(docs[i]))
  {
  }

  /** A user entry counts as verified when its `isVerified` field is truthy. */
  predicate IsVerified(r: map<string, Value>)
    ensures "isVerified" !in r ==> !IsVerified(r)
    ensures "isVerified" in r && r["isVerified"] in {Null, Bool(false), Num(0), Str("")} ==> !IsVerified(r)
    ensures "isVerified" in r && r["isVerified"] == Bool(true) ==> IsVerified(r)
  {
    "isVerified" in r && Truthy(r["isVerified"])
  }

  /** The status badge text of an entry. */
  function StatusLabel(r: map<string, Value>): (t: string)
    ensures t == "Verified" || t == "Not Verified"
    ensures t == "Verified" <==> IsVerified(r)
  {
    if IsVerified(r) then "Verified" else "Not Verified"
  }

  /** The verify button text of an entry. */
  function VerifyButtonLabel(r: map<string, Value>): (t: string)
    ensures t == "Remove" || t == "Verify"
    ensures t == "Remove" <==> IsVerified(r)
  {
    if IsVerified(r) then "Remove" else "Verify"
  }

  /** The button offers the opposite of what the badge reports. */
  lemma ButtonMatchesBadge(r: map<string, Value>)
    ensures VerifyButtonLabel(r) == "Remove" <==> StatusLabel(r) == "Verified"
    ensures VerifyButtonLabel(r) == "Verify" <==> StatusLabel(r) == "Not Verified"
  {
  }

  /** One row of the management list: avatar text, status badge and
      verify button label. */
  datatype EntryView = EntryView(avatar: string, status: string, button: string)

  /** What the page shows: the spinner while loading, the dashboard (the
      "Total Users" figure and the listed rows), or nothing because the
      render threw. */
  datatype PanelView = Spinner | RenderFailed | Dashboard(total: nat, entries: seq<EntryView>)

  /** The rows of the list; `None` when some row's avatar throws. */
  function EntryViews(users: seq<map<string, Value>>): (r: Option<seq<EntryView>>)
    ensures r.Some? <==> forall i :: 0 <= i < |users| ==> EntryAvatar(users[i]).Some?
    ensures r.Some? ==> |r.value| == |users|
    ensures r.Some? ==> forall i :: 0 <= i < |users| ==>
      r.value[i] == EntryView(EntryAvatar(users[i]).value, StatusLabel(users[i]), VerifyButtonLabel(users[i]))
  {
    if users == [] then Some([])
    else match (EntryAvatar(users[0]), EntryViews(users[1..]))
      case (Some(a), Some(rest)) =>
        Some([EntryView(a, StatusLabel(users[0]), VerifyButtonLabel(users[0]))] + rest)
      case (None, _) => None
      case (_, None) =>
        assert forall i :: 0 <= i < |users[1..]| ==> users[1..][i] == users[i + 1];
        None
  }

  /** The page as intended, with the avatar components available: the
      spinner while loading, otherwise the total and the first five rows,
      unless a row's avatar throws. */
  function Page(s: PanelState): (v: PanelView)
    ensures v.Spinner? <==> s.loading
    ensures v.RenderFailed? <==>
      !s.loading && exists i :: 0 <= i < |ShownUsers(s.users)| && EntryAvatar(ShownUsers(s.users)[i]).None?
    ensures v.Dashboard? ==> v.total == |s.users| && |v.entries| == Text.Min(5, |s.users|)
    ensures v.Dashboard? ==> forall i :: 0 <= i < |v.entries| ==>
      v.entries[i].status == StatusLabel(s.users[i]) && v.entries[i].button == VerifyButtonLabel(s.users[i])
  {
    if s.loading then Spinner
    else match EntryViews(ShownUsers(s.users))
      case Some(rows) => Dashboard(TotalUsers(s), rows)
      case None => RenderFailed
  }

  /** The page as written: the list's row markup uses `Avatar`,
      `AvatarImage` and `AvatarFallback`, which the file never imports, so
      rendering the first row throws. Only an empty list renders. */
  function PageAsWritten(s: PanelState): (v: PanelView)
    ensures v.Spinner? <==> s.loading
    ensures !s.loading ==> (v.RenderFailed? <==> s.users != [])
    ensures v.Dashboard? ==> v == Dashboard(0, [])
  {
    if s.loading then Spinner
    else if ShownUsers(s.users) != [] then RenderFailed
    else Dashboard(TotalUsers(s), [])
  }

  /** The discrepancy: an admin whose "users" collection holds at least one
      document gets no page as written, while the intended page shows the
      dashboard whenever no stored username is a truthy non-string. */
  lemma AdminListRenderFails(s: PanelState, u: User, docs: seq<UserDoc>)
    requires docs != []
    ensures PageAsWritten(OnAuthState(s, Some(u), Exists, Fetched(docs))) == RenderFailed
    ensures (forall i :: 0 <= i < |docs| ==> "username" !in docs[i].data) ==>
      Page(OnAuthState(s, Some(u), Exists, Fetched(docs))).Dashboard?
  {
    var t := OnAuthState(s, Some(u), Exists, Fetched(docs));
    assert t.users == WithIds(docs);
    assert ShownUsers(t.users) != [] by {
      assert |ShownUsers(t.users)| == Text.Min(5, |docs|);
    }
    if forall i :: 0 <= i < |docs| ==> "username" !in docs[i].data {
      forall i | 0 <= i < |ShownUsers(t.users)|
        ensures EntryAvatar(ShownUsers(t.users)[i]).Some?
      {
        assert ShownUsers(t.users)[i] == WithId(docs[i]);
      }
    }
  }

  /** With no user documents the two renders agree. */
  lemma PagesAgreeWithoutUsers(s: PanelState)
    requires s.users == []
    ensures Page(s) == PageAsWritten(s)
  {
    assert ShownUsers(s.users) == [];
  }

  class AdminPanelPage {
    var users: seq<map<string, Value>>
    var loading: bool
    /** Paths passed to `navigate`, oldest first. */
    var navigations: seq<string>

    function State(): PanelState
      reads this
    {
      PanelState(users, loading, navigations)
    }

    constructor ()
      ensures State() == Initial
    {
      users := [];
      loading := true;
      navigations := [];
    }

    /** The callback registered with the authentication service. */
    method OnAuthStateChanged(current: Option<User>, admin: DocLookup, fetch: UsersFetch)
      modifies this
      ensures State() == OnAuthState(old(State()), current, admin, fetch)
    {
      if current.Some? {
        if admin == LookupFailed {
          navigations := navigations + ["/"];
        } else if admin == Missing {
          navigations := navigations + ["/"];
          return;
        } else {
          match fetch
          case FetchFailed =>
            navigations := navigations + ["/"];
          case Fetched(docs) =>
            var usersData := WithIds(docs);
            users := usersData;
        }
      } else {
        navigations := navigations + ["/admin/login"];
      }
      loading := false;
    }

    /** Logout: to the login page only when signing out succeeds. */
    method HandleLogout(signOut: Outcome)
      modifies this
      ensures navigations == old(navigations) + (if signOut == Completed then ["/admin/login"] else [])
      ensures users == old(users) && loading == old(loading)
    {
      if signOut == Completed {
        navigations := navigations + ["/admin/login"];
      }
    }

    /** The verify button's handler only logs; no state changes. */
    method HandleVerifyUser(userId: string, currentStatus: bool)
      ensures State() == old(State())
    {
    }
  }
}
