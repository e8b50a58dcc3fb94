/** The profile page's follow button with its follower counter and the
    names it shows for the signed-in account (src/pages/Profile.tsx). */
module Profile {
  import opened Backend
  import opened Account

  /** The follower count the page starts from. */
  const BaseFollowers: int := 12500

  datatype FollowState = FollowState(isFollowing: bool, followersCount: int)

  const Initial: FollowState := FollowState(false, BaseFollowers)

  /** `handleFollow`: flip the flag, move the counter the matching way. */
  function Follow(s: FollowState): (r: FollowState)
    ensures r.isFollowing != s.isFollowing
    ensures r.followersCount - s.followersCount == (if r.isFollowing then 1 else -1)
    ensures Consistent(s) ==> Consistent(r)
  {
    FollowState(!s.isFollowing, if s.isFollowing then s.followersCount - 1 else s.followersCount + 1)
  }

  /** The counter is the base count plus one while following. */
  predicate Consistent(s: FollowState) {
    s.followersCount == BaseFollowers + (if s.isFollowing then 1 else 0)
  }

  /** `k` clicks on the follow button. */
  function FollowTimes(s: FollowState, k: nat): FollowState {
    if k == 0 then s else Follow(FollowTimes(s, k - 1))
  }

  /** Following flips the flag and changes the count by exactly one. */
  lemma FollowFlipsAndCounts(s: FollowState)
    ensures Follow(s).isFollowing == !s.isFollowing
    ensures Follow(s).followersCount == s.followersCount + (if s.isFollowing then -1 else 1)
    ensures Follow(Follow(s)) == s
  {
  }

  /** After any number of clicks the counter is consistent with the flag,
      and the state depends only on whether the number is odd. */
  lemma {:induction false} FollowTimesFromInitial(k: nat)
    ensures Consistent(FollowTimes(Initial, k))
    ensures FollowTimes(Initial, k) == (if k % 2 == 0 then Initial else FollowState(true, BaseFollowers + 1))
  {
    if k > 0 {
      FollowTimesFromInitial(k - 1);
    }
  }

  /** The heading: `user.displayName || user.email?.split("@")[0]`; nothing
      is shown when both are missing. */
  function DisplayName(u: User): (r: Option<string>)
    ensures Present(u.displayName) ==> r == u.displayName
    ensures !Present(u.displayName) ==> r == EmailPrefix(u)
    ensures !Present(u.displayName) && u.email.Some? ==> r.Some? && '@' !in r.value
    ensures r.None? <==> !Present(u.displayName) && u.email.None?
  {
    Handle(u)
  }

  /** The avatar fallback: first character of the display name, else "U". */
  function AvatarFallback(u: User): (r: string)
    ensures |r| == 1
    ensures Present(u.displayName) ==> r[0] == u.displayName.value[0]
    ensures !Present(u.displayName) ==> r == "U"
  {
    AvatarLetter(u, "U")
  }

  class ProfilePage {
    var isFollowing: bool
    var followersCount: int

    function State(): FollowState
      reads this
    {
      FollowState(isFollowing, followersCount)
    }

    ghost predicate Valid()
      reads this
    {
      Consistent(State())
    }

    constructor ()
      ensures Valid() && State() == Initial
    {
      isFollowing := false;
      followersCount := BaseFollowers;
    }

    method HandleFollow()
      requires Valid()
      modifies this
      ensures Valid()
      ensures State() == Follow(old(State()))
    {
      var wasFollowing := isFollowing;
      isFollowing := !wasFollowing;
      followersCount := if wasFollowing then followersCount - 1 else followersCount + 1;
    }
  }
}
