/** The reel viewer's three independent switches (src/pages/Reels.tsx). */
module Reels {

  datatype ReelState = ReelState(isPlaying: bool, liked: bool, bookmarked: bool)

  datatype Toggle = PlayToggled | LikeToggled | BookmarkToggled

  const Initial: ReelState := ReelState(true, false, false)

  /** One button press flips its own switch only. */
  function Press(s: ReelState, t: Toggle): (r: ReelState)
    ensures r.isPlaying != s.isPlaying <==> t == PlayToggled
    ensures r.liked != s.liked <==> t == LikeToggled
    ensures r.bookmarked != s.bookmarked <==> t == BookmarkToggled
  {
    match t
    case PlayToggled => s.(isPlaying := !s.isPlaying)
    case LikeToggled => s.(liked := !s.liked)
    case BookmarkToggled => s.(bookmarked := !s.bookmarked)
  }

  function PressAll(s: ReelState, ts: seq<Toggle>): ReelState
    decreases |ts|
  {
    if ts == [] then s else PressAll(Press(s, ts[0]), ts[1..])
  }

  /** How often button `t` was pressed. */
  function Count(ts: seq<Toggle>, t: Toggle): nat {
    if ts == [] then 0 else (if ts[0] == t then 1 else 0) + Count(ts[1..], t)
  }

  /** Each press flips exactly its own switch, and pressing twice is the
      identity. */
  lemma PressFlipsOwnSwitch(s: ReelState)
    ensures Press(s, PlayToggled) == ReelState(!s.isPlaying, s.liked, s.bookmarked)
    ensures Press(s, LikeToggled) == ReelState(s.isPlaying, !s.liked, s.bookmarked)
    ensures Press(s, BookmarkToggled) == ReelState(s.isPlaying, s.liked, !s.bookmarked)
    ensures forall t :: Press(Press(s, t), t) == s
  {
  }

  /** After any sequence of presses each switch has been flipped once per
      press of its own button and is unaffected by the other two. */
  lemma {:induction false} PressAllParity(s: ReelState, ts: seq<Toggle>)
    ensures PressAll(s, ts).isPlaying == (s.isPlaying != (Count(ts, PlayToggled) % 2 == 1))
    ensures PressAll(s, ts).liked == (s.liked != (Count(ts, LikeToggled) % 2 == 1))
    ensures PressAll(s, ts).bookmarked == (s.bookmarked != (Count(ts, BookmarkToggled) % 2 == 1))
    decreases |ts|
  {
    if ts != [] {
      assert Count(ts, PlayToggled) == (if ts[0] == PlayToggled then 1 else 0) + Count(ts[1..], PlayToggled);
      assert Count(ts, LikeToggled) == (if ts[0] == LikeToggled then 1 else 0) + Count(ts[1..], LikeToggled);
      assert Count(ts, BookmarkToggled) == (if ts[0] == BookmarkToggled then 1 else 0) + Count(ts[1..], BookmarkToggled);
      PressAllParity(Press(s, ts[0]), ts[1..]);
    }
  }

  class ReelViewer {
    var isPlaying: bool
    var liked: bool
    var bookmarked: bool

    function State(): ReelState
      reads this
    {
      ReelState(isPlaying, liked, bookmarked)
    }

    constructor ()
      ensures State() == Initial
    {
      isPlaying, liked, bookmarked := true, false, false;
    }

    method TogglePlay()
      modifies this
      ensures State() == Press(old(State()), PlayToggled)
    {
      isPlaying := !isPlaying;
    }

    method ToggleLike()
      modifies this
      ensures State() == Press(old(State()), LikeToggled)
    {
      liked := !liked;
    }

    method ToggleBookmark()
      modifies this
      ensures State() == Press(old(State()), BookmarkToggled)
    {
      bookmarked := !bookmarked;
    }
  }
}
