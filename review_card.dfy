/** One review in a location's review list: its five-star row, the poster's
    avatar (photo or initial) and the lookup of the poster's public info. */
module ReviewCard {
  import opened Js
  import opened Text
  import opened Effects

  /** The members of a review object that the card reads. */
  datatype Review = Review(
    userId: Option<string>,
    username: Option<string>,
    rating: int,
    comment: Option<string>)

  /** The poster's public info, as far as the card uses it. */
  datatype UserInfo = UserInfo(profilePhoto: Option<string>)

  /** `n` glyphs; glyph `i` (from 0) is filled iff `i < rating`. */
  function Glyphs(n: nat, rating: int): (r: seq<bool>)
    ensures |r| == n
    ensures forall i :: 0 <= i < n ==> (r[i] <==> i < rating)
  {
    seq(n, i requires 0 <= i < n => i < rating)
  }

  /** The card's star row: `[...Array(5)].map((_, index) => index < rating)`. */
  function StarRow(rating: int): seq<bool> {
    Glyphs(5, rating)
  }

  /** The number of filled glyphs. */
  function CountFilled(s: seq<bool>): nat
    decreases |s|
  {
    if s == [] then 0 else CountFilled(s[..|s| - 1]) + (if s[|s| - 1] then 1 else 0)
  }

  function Clamp(x: int, lo: int, hi: int): int
    requires lo <= hi
  {
    if x < lo then lo else if x > hi then hi else x
  }

  /** Of `n` glyphs, `rating` clamped to 0..n are filled. */
  lemma {:induction false} GlyphsCount(n: nat, rating: int)
    ensures CountFilled(Glyphs(n, rating)) == Clamp(rating, 0, n)
  {
    if n > 0 {
      assert Glyphs(n, rating)[..n - 1] == Glyphs(n - 1, rating);
      GlyphsCount(n - 1, rating);
    }
  }

  /** Exactly five stars are drawn, and `rating` clamped to 0..5 of them are filled. */
  lemma StarRowCount(rating: int)
    ensures |StarRow(rating)| == 5
    ensures CountFilled(StarRow(rating)) == Clamp(rating, 0, 5)
  {
    GlyphsCount(5, rating);
  }

  /** No empty star comes before a filled one. */
  lemma FilledBeforeEmpty(rating: int, i: int, j: int)
    requires 0 <= i < j < 5 && StarRow(rating)[j]
    ensures StarRow(rating)[i]
  {
  }

  /** The placeholder's letter: `username?.charAt(0).toUpperCase() || "?"`. */
  function Initial(username: Option<string>): (r: string)
    ensures |r| == 1 && !IsLowerAscii(r[0])
    ensures !Truthy(username) ==> r == "?"
    ensures Truthy(username) ==> r[0] == UpperChar(username.value[0])
  {
    if username.Some? && username.value != "" then Upper(username.value[..1]) else "?"
  }

  /** What the card shows for the poster. */
  datatype Avatar = Photo(uri: string) | Placeholder(initial: string)

  /** `userInfo?.profilePhoto ? <Image/> : <placeholder/>`. */
  function AvatarFor(info: Option<UserInfo>, review: Review): (a: Avatar)
    ensures a.Photo? <==> info.Some? && Truthy(info.value.profilePhoto)
    ensures a.Photo? ==> a.uri == info.value.profilePhoto.value
    ensures a.Placeholder? ==> a.initial == Initial(review.username)
  {
    if info.Some? && Truthy(info.value.profilePhoto) then Photo(info.value.profilePhoto.value)
    else Placeholder(Initial(review.username))
  }

  const PosterPrefix := "/locations/getPoster/"

  /** The requests `getPoster` makes: one, and only for a review with a user id. */
  function PosterEffects(review: Review): (r: seq<Effect>)
    ensures |r| <= 1 && !Writes(r, TokenKey) && !Writes(r, ProfileKey)
    ensures SendsRequest(r) <==> Truthy(review.userId)
    ensures r != [] ==> r[0].Request? && r[0].path == PosterPrefix + review.userId.value
    ensures r != [] ==> r[0] == Request(Get, PosterPrefix + review.userId.value, NoBody)
  {
    if review.userId.Some? && review.userId.value != "" then
      var r := [Request(Get, PosterPrefix + review.userId.value, NoBody)];
      assert r[0].Request?;
      r
    else []
  }

  /** `userInfo` after `getPoster`: replaced only by a looked-up `userInfo`;
      a failed or empty lookup keeps what was there. */
  function PosterAfter(review: Review, reply: Reply<Option<UserInfo>>, current: Option<UserInfo>): (r: Option<UserInfo>)
    ensures r != current ==> Truthy(review.userId) && reply.Ok? && reply.body == r && r.Some?
    ensures Truthy(review.userId) && reply.Ok? && reply.body.Some? ==> r == reply.body
  {
    if review.userId.Some? && review.userId.value != "" && reply.Ok? && reply.body.Some? then reply.body
    else current
  }

  /** A mounted review card. */
  class ReviewCardView {
    const review: Review
    var userInfo: Option<UserInfo>
    const device: Device

    constructor (review: Review, device: Device)
      ensures this.review == review && this.device == device && userInfo == None
    {
      this.review := review;
      this.device := device;
      userInfo := None;
    }

    /** `getPoster`, run once on mount; `reply` is the lookup's outcome. */
    method GetPoster(reply: Reply<Option<UserInfo>>)
      modifies this, device
      ensures device.trace == old(device.trace) + PosterEffects(review)
      ensures device.store == old(device.store)
      ensures userInfo == PosterAfter(review, reply, old(userInfo))
    {
      if review.userId.Some? && review.userId.value != "" {
        device.Emit(Request(Get, PosterPrefix + review.userId.value, NoBody));
        if reply.Ok? && reply.body.Some? {
          userInfo := reply.body;
        }
      }
    }
  }
}
