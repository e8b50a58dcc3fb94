/** The interaction state of one feed post card: like toggle with its
    counter, bookmark toggle, the comment box and the image carousel
    (src/components/PostCard.tsx). */
module PostCard {
  import opened Backend
  import Text

  datatype Author = Author(username: string, avatar: string, isVerified: bool)

  /** The post a card is rendered for (the `post` prop). */
  datatype Post = Post(
    id: string, user: Author, images: seq<string>, caption: string,
    location: Option<string>, likes: int, comments: int, timeAgo: string,
    isLiked: bool, isBookmarked: bool)

  /** The five state fields of a card. */
  datatype CardState = CardState(
    isLiked: bool, isBookmarked: bool, likesCount: int, comment: string, imageIndex: int)

  /** The user actions a card reacts to. */
  datatype Event =
    | LikeClicked
    | BookmarkClicked
    | CommentTyped(text: string)
    | CommentSubmitted
    | NextClicked
    | PrevClicked

  /** State on mount: copied from the post, empty comment, first image. */
  function Initial(post: Post): CardState {
    CardState(post.isLiked, post.isBookmarked, post.likes, "", 0)
  }

  /** Carousel forward step over `n` images: wraps from the last to 0. */
  function NextIndex(i: int, n: int): (j: int)
    ensures 0 <= i < n ==> 0 <= j < n
    ensures 0 <= i < n && n > 1 ==> j != i
  {
    if i == n - 1 then 0 else i + 1
  }

  /** Carousel backward step over `n` images: wraps from 0 to the last. */
  function PrevIndex(i: int, n: int): (j: int)
    ensures 0 <= i < n ==> 0 <= j < n
    ensures 0 <= i < n && n > 1 ==> j != i
  {
    if i == 0 then n - 1 else i - 1
  }

  /** One handler run on the card's state; `n` is the number of images.
      Each handler touches only its own fields: the like button the flag
      and the count, the bookmark button the bookmark, the comment box the
      comment, the arrows the image index. */
  function Step(s: CardState, e: Event, n: int): (r: CardState)
    ensures !e.LikeClicked? ==> r.isLiked == s.isLiked && r.likesCount == s.likesCount
    ensures !e.BookmarkClicked? ==> r.isBookmarked == s.isBookmarked
    ensures !(e.CommentTyped? || e.CommentSubmitted?) ==> r.comment == s.comment
    ensures !(e.NextClicked? || e.PrevClicked?) ==> r.imageIndex == s.imageIndex
  {
    match e
    case LikeClicked =>
      s.(isLiked := !s.isLiked,
         likesCount := if s.isLiked then s.likesCount - 1 else s.likesCount + 1)
    case BookmarkClicked => s.(isBookmarked := !s.isBookmarked)
    case CommentTyped(text) => s.(comment := text)
    case CommentSubmitted => if !Text.IsBlank(s.comment) then s.(comment := "") else s
    case NextClicked => s.(imageIndex := NextIndex(s.imageIndex, n))
    case PrevClicked => s.(imageIndex := PrevIndex(s.imageIndex, n))
  }

  /** Handlers run one after another. */
  function Run(s: CardState, es: seq<Event>, n: int): CardState
    decreases |es|
  {
    if es == [] then s else Run(Step(s, es[0], n), es[1..], n)
  }

  /** Liking flips `isLiked` and moves the counter by one in the matching
      direction; nothing else changes. */
  lemma LikeFlipsAndCounts(s: CardState, n: int)
    ensures Step(s, LikeClicked, n).isLiked == !s.isLiked
    ensures Step(s, LikeClicked, n).likesCount == s.likesCount + (if s.isLiked then -1 else 1)
    ensures Step(s, LikeClicked, n).(isLiked := s.isLiked, likesCount := s.likesCount) == s
  {
  }

  /** Liking twice (like then unlike, or unlike then like) restores both
      fields. */
  lemma LikeTwiceRestores(s: CardState, n: int)
    ensures Step(Step(s, LikeClicked, n), LikeClicked, n) == s
  {
  }

  /** Bookmarking flips only `isBookmarked`. */
  lemma BookmarkFlipsOnly(s: CardState, n: int)
    ensures Step(s, BookmarkClicked, n) == s.(isBookmarked := !s.isBookmarked)
    ensures Step(Step(s, BookmarkClicked, n), BookmarkClicked, n) == s
  {
  }

  /** Submitting a comment clears it exactly when its trimmed text is
      non-empty, that is when it holds a non-space character; otherwise
      nothing changes. */
  lemma CommentSubmitClearsIffNotBlank(s: CardState, n: int)
    ensures Step(s, CommentSubmitted, n).comment == "" <==> s.comment == "" || !Text.IsBlank(s.comment)
    ensures Text.IsBlank(s.comment) ==> Step(s, CommentSubmitted, n) == s
    ensures !Text.IsBlank(s.comment) <==> exists i :: 0 <= i < |s.comment| && !Text.IsSpace(s.comment[i])
    ensures Step(s, CommentSubmitted, n) == s.(comment := Step(s, CommentSubmitted, n).comment)
  {
    Text.BlankIffAllSpace(s.comment);
  }

  /** Back undoes forward and forward undoes back on a non-empty carousel. */
  lemma PrevUndoesNext(i: int, n: int)
    requires 0 <= i < n
    ensures PrevIndex(NextIndex(i, n), n) == i
    ensures NextIndex(PrevIndex(i, n), n) == i
  {
  }

  /** `k` forward steps from image `i`. */
  function Forward(i: int, n: int, k: nat): int {
    if k == 0 then i else NextIndex(Forward(i, n, k - 1), n)
  }

  /** Forward steps that do not reach the end just add up. */
  lemma {:induction false} ForwardWithoutWrap(i: int, n: int, k: nat)
    requires 0 <= i && i + k < n
    ensures Forward(i, n, k) == i + k
  {
    if k > 0 {
      ForwardWithoutWrap(i, n, k - 1);
    }
  }

  /** `a` steps then `b` steps are `a + b` steps. */
  lemma {:induction false} ForwardAdds(i: int, n: int, a: nat, b: nat)
    ensures Forward(Forward(i, n, a), n, b) == Forward(i, n, a + b)
  {
    if b > 0 {
      ForwardAdds(i, n, a, b - 1);
    }
  }

  /** From any image, the steps up to the end land on image 0. */
  lemma ForwardToStart(i: int, n: int)
    requires 0 <= i < n
    ensures Forward(i, n, n - i) == 0
  {
    ForwardWithoutWrap(i, n, n - 1 - i);
    ForwardAdds(i, n, n - 1 - i, 1);
    assert Forward(n - 1, n, 1) == NextIndex(n - 1, n);
  }

  /** `n` steps from image `i` come back to `i`. */
  lemma ForwardComesBack(i: int, n: int)
    requires 0 <= i < n
    ensures Forward(i, n, n) == i
  {
    ForwardToStart(i, n);
    ForwardWithoutWrap(0, n, i);
    ForwardAdds(i, n, n - i, i);
  }

  /** The carousel is a rotation: from any image, `n` forward steps come
      back to it, and every image is reached in fewer than `n` steps. */
  lemma ForwardCycles(i: int, n: int, j: int)
    requires 0 <= i < n && 0 <= j < n
    ensures Forward(i, n, n) == i
    ensures exists k :: 0 <= k < n && Forward(i, n, k) == j
  {
    ForwardComesBack(i, n);
    if j >= i {
      ForwardWithoutWrap(i, n, j - i);
      assert Forward(i, n, j - i) == j;
    } else {
      ForwardToStart(i, n);
      ForwardWithoutWrap(0, n, j);
      ForwardAdds(i, n, n - i, j);
      assert Forward(i, n, n - i + j) == j;
    }
  }

  /** With at least one image and a valid index, every sequence of
      handlers keeps the index valid. */
  lemma {:induction false} RunKeepsIndexInRange(s: CardState, es: seq<Event>, n: int)
    requires 0 <= s.imageIndex < n
    ensures 0 <= Run(s, es, n).imageIndex < n
    decreases |es|
  {
    if es != [] {
      StepKeepsIndexInRange(s, es[0], n);
      RunKeepsIndexInRange(Step(s, es[0], n), es[1..], n);
    }
  }

  /** One handler keeps a valid index valid: only the arrows move it. */
  lemma StepKeepsIndexInRange(s: CardState, e: Event, n: int)
    requires 0 <= s.imageIndex < n
    ensures 0 <= Step(s, e, n).imageIndex < n
  {
    match e
    case CommentSubmitted =>
      assert Step(s, e, n).imageIndex == s.imageIndex;
    case _ =>
  }

  /** The counter minus the card's own like: what the other users
      contributed. */
  function Balance(s: CardState): int {
    s.likesCount - (if s.isLiked then 1 else 0)
  }

  /** No sequence of handlers changes the likes the card did not add
      itself. */
  lemma {:induction false} RunKeepsBalance(s: CardState, es: seq<Event>, n: int)
    ensures Balance(Run(s, es, n)) == Balance(s)
    decreases |es|
  {
    if es != [] {
      StepKeepsBalance(s, es[0], n);
      RunKeepsBalance(Step(s, es[0], n), es[1..], n);
    }
  }

  /** One handler keeps the balance: only a like click touches the count,
      and it moves the flag with it. */
  lemma StepKeepsBalance(s: CardState, e: Event, n: int)
    ensures Balance(Step(s, e, n)) == Balance(s)
  {
    match e
    case CommentSubmitted =>
      assert Step(s, e, n).likesCount == s.likesCount && Step(s, e, n).isLiked == s.isLiked;
    case _ =>
  }

  /** A post whose count includes its own like never shows a negative
      count, whatever the user clicks. */
  lemma CountNeverNegative(post: Post, es: seq<Event>)
    requires post.likes >= (if post.isLiked then 1 else 0)
    ensures Run(Initial(post), es, |post.images|).likesCount >= 0
  {
    RunKeepsBalance(Initial(post), es, |post.images|);
  }

  /** With no images the carousel steps leave the index range; this is
      harmless only because the arrows are not offered then. */
  lemma EmptyCarouselEscapes()
    ensures NextIndex(0, 0) == 1 && PrevIndex(0, 0) == -1
    ensures !ShowArrows(0)
  {
  }

  /** The previous/next arrows exist only when there is more than one
      image: on a non-empty carousel they are shown exactly when a click
      would move the index, and never when there is no image. */
  predicate ShowArrows(imageCount: int)
    ensures imageCount >= 1 ==> (ShowArrows(imageCount) <==> NextIndex(0, imageCount) != 0)
    ensures imageCount >= 1 ==> (ShowArrows(imageCount) <==> PrevIndex(0, imageCount) != 0)
    ensures imageCount <= 0 ==> !ShowArrows(imageCount)
  {
    imageCount > 1
  }

  /** The "Post" button next to the comment box exists only when the
      comment has a character that is not whitespace. */
  predicate ShowPostButton(s: CardState)
    ensures ShowPostButton(s) <==> exists i :: 0 <= i < |s.comment| && !Text.IsSpace(s.comment[i])
  {
    Text.BlankIffAllSpace(s.comment);
    !Text.IsBlank(s.comment)
  }

  /** The Post button is offered exactly when pressing it (or Enter) would
      do something: whenever it is shown, submitting clears the comment,
      and whenever it is hidden, submitting changes nothing. */
  lemma PostButtonMatchesSubmit(s: CardState, n: int)
    ensures ShowPostButton(s) <==> Step(s, CommentSubmitted, n) != s
    ensures ShowPostButton(s) ==> Step(s, CommentSubmitted, n).comment == ""
  {
    if ShowPostButton(s) {
      assert s.comment != "";
    }
  }

  /** The likes line under the actions. */
  datatype LikesLine = Hidden | Shown(count: int, word: string)

  /** Hidden unless the count is positive; the word is singular exactly
      for a count of one. */
  function LikesLabel(count: int): (r: LikesLine)
    ensures r.Shown? <==> count > 0
    ensures r.Shown? ==> r.count == count
    ensures r.Shown? ==> (r.word == "like" <==> count == 1)
    ensures r.Shown? ==> (r.word == "like" || r.word == "likes")
  {
    if count > 0 then Shown(count, if count == 1 then "like" else "likes") else Hidden
  }

  /** Avatar initials of the post's author. */
  function AvatarFallback(post: Post): (r: string)
    ensures |r| <= 2 && |r| == Text.Min(2, |post.user.username|)
    ensures forall i :: 0 <= i < |r| ==> r[i] == Text.UpperChar(post.user.username[i])
  {
    Text.Initials(post.user.username)
  }

  /** A mounted card: the post it shows and the five state fields. */
  class Card {
    const post: Post
    var isLiked: bool
    var isBookmarked: bool
    var likesCount: int
    var comment: string
    var currentImageIndex: int

    function State(): CardState
      reads this
    {
      CardState(isLiked, isBookmarked, likesCount, comment, currentImageIndex)
    }

    constructor (post: Post)
      ensures this.post == post
      ensures State() == Initial(post)
    {
      this.post := post;
      isLiked := post.isLiked;
      isBookmarked := post.isBookmarked;
      likesCount := post.likes;
      comment := "";
      currentImageIndex := 0;
    }

    /** Heart button or double click on the image. */
    method HandleLike()
      modifies this
      ensures State() == Step(old(State()), LikeClicked, |post.images|)
    {
      var wasLiked := isLiked;
      isLiked := !wasLiked;
      likesCount := if wasLiked then likesCount - 1 else likesCount + 1;
    }

    method HandleBookmark()
      modifies this
      ensures State() == Step(old(State()), BookmarkClicked, |post.images|)
    {
      isBookmarked := !isBookmarked;
    }

    /** The comment box's change handler. */
    method SetComment(text: string)
      modifies this
      ensures State() == Step(old(State()), CommentTyped(text), |post.images|)
    {
      comment := text;
    }

    /** "Post" button or Enter in the comment box. */
    method HandleCommentSubmit()
      modifies this
      ensures State() == Step(old(State()), CommentSubmitted, |post.images|)
    {
      if !Text.IsBlank(comment) {
        comment := "";
      }
    }

    method NextImage()
      modifies this
      ensures State() == Step(old(State()), NextClicked, |post.images|)
    {
      currentImageIndex := if currentImageIndex == |post.images| - 1 then 0 else currentImageIndex + 1;
    }

    method PrevImage()
      modifies this
      ensures State() == Step(old(State()), PrevClicked, |post.images|)
    {
      currentImageIndex := if currentImageIndex == 0 then |post.images| - 1 else currentImageIndex - 1;
    }
  }
}
