/** The explore page's follow buttons: the set of followed usernames and
    the label each suggested user's button shows (src/pages/Explore.tsx). */
module Explore {
  import Text

  /** A suggested account (the page's own list). */
  datatype Suggestion = Suggestion(username: string, fullName: string, isVerified: bool, followers: int)

  /** `handleFollow(u)` on a copy of the set: delete `u` if present, add it
      otherwise. Exactly the membership of `u` flips. */
  function Toggle(s: set<string>, u: string): (r: set<string>)
    ensures u in r <==> u !in s
    ensures forall v :: v != u ==> (v in r <==> v in s)
  {
    if u in s then s - {u} else s + {u}
  }

  /** Following twice restores the set, and follows of two users commute. */
  lemma ToggleTwiceRestores(s: set<string>, u: string, v: string)
    ensures Toggle(Toggle(s, u), u) == s
    ensures Toggle(Toggle(s, u), v) == Toggle(Toggle(s, v), u)
  {
  }

  /** A sequence of follow clicks, one username per click. */
  function ToggleAll(s: set<string>, us: seq<string>): set<string>
    decreases |us|
  {
    if us == [] then s else ToggleAll(Toggle(s, us[0]), us[1..])
  }

  /** How often `v` was clicked. */
  function Clicks(us: seq<string>, v: string): nat {
    if us == [] then 0 else (if us[0] == v then 1 else 0) + Clicks(us[1..], v)
  }

  /** After any sequence of clicks a user is followed exactly when they
      were followed before and were clicked an even number of times, or
      were not and were clicked an odd number of times. */
  lemma {:induction false} ToggleAllParity(s: set<string>, us: seq<string>, v: string)
    ensures v in ToggleAll(s, us) <==> (v in s <==> Clicks(us, v) % 2 == 0)
    decreases |us|
  {
    if us != [] {
      ToggleAllParity(Toggle(s, us[0]), us[1..], v);
    }
  }

  /** The button text of a suggested user. */
  function FollowLabel(followed: set<string>, username: string): (r: string)
    ensures r == "Following" <==> username in followed
    ensures r == "Following" || r == "Follow"
  {
    if username in followed then "Following" else "Follow"
  }

  /** Clicking a user's button swaps that button's label and no other. */
  lemma ClickSwapsOneLabel(followed: set<string>, u: string, v: string)
    ensures FollowLabel(Toggle(followed, u), u) != FollowLabel(followed, u)
    ensures v != u ==> FollowLabel(Toggle(followed, u), v) == FollowLabel(followed, v)
  {
  }

  /** Avatar initials of a suggested user. */
  function AvatarFallback(user: Suggestion): (r: string)
    ensures |r| == Text.Min(2, |user.username|)
    ensures forall i :: 0 <= i < |r| ==> r[i] == Text.UpperChar(user.username[i])
  {
    Text.Initials(user.username)
  }

  class ExplorePage {
    var searchQuery: string
    var followedUsers: set<string>

    constructor ()
      ensures searchQuery == "" && followedUsers == {}
    {
      searchQuery := "";
      followedUsers := {};
    }

    method HandleFollow(username: string)
      modifies this
      ensures followedUsers == Toggle(old(followedUsers), username)
      ensures searchQuery == old(searchQuery)
    {
      var newSet := followedUsers;
      if username in newSet {
        newSet := newSet - {username};
      } else {
        newSet := newSet + {username};
      }
      followedUsers := newSet;
    }
  }
}
