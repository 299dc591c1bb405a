/** The "Rate this spot" modal: a star selector holding 0..5 and an
    optional comment, submitted to the parent and then cleared. */
module RatingModal {
  import opened Js
  import ReviewCard

  /** What `handleSubmit` passes to `onSubmit`. */
  datatype RatingData = RatingData(rating: int, comment: string, locationId: Option<string>)

  /** The values of the five star buttons, left to right. */
  const StarValues: seq<int> := [1, 2, 3, 4, 5]

  /** The selector's stars: star `StarValues[i]` is filled iff `rating >= StarValues[i]`. */
  function Stars(rating: int): (r: seq<bool>)
    ensures |r| == |StarValues|
  {
    seq(|StarValues|, i requires 0 <= i < |StarValues| => rating >= StarValues[i])
  }

  /** The filled stars are a prefix whose length is the rating, for any
      rating the selector can hold. */
  lemma StarsFillPrefix(rating: int)
    requires 0 <= rating <= 5
    ensures forall i :: 0 <= i < 5 ==> (Stars(rating)[i] <==> i < rating)
    ensures ReviewCard.CountFilled(Stars(rating)) == rating
  {
    assert Stars(rating) == ReviewCard.StarRow(rating);
    ReviewCard.StarRowCount(rating);
  }

  /** The selector shows a rating the same way a review card will show it. */
  lemma StarsAgreeWithReviewCard(rating: int)
    ensures Stars(rating) == ReviewCard.StarRow(rating)
  {
  }

  /** `disabled={!rating}`: Submit can be pressed iff a star was chosen. */
  function SubmitEnabled(rating: int): (r: bool)
    ensures 0 <= rating <= 5 ==> (r <==> rating in StarValues)
  {
    rating != 0
  }

  /** The modal's form state (`rating`, `comment`), its `locationId` prop,
      and what it has handed to `onSubmit` so far. */
  class RatingForm {
    var rating: int
    var comment: string
    var submitted: seq<RatingData>
    var locationId: Option<string>

    /** The rating is one the stars can set, and only ratings 1..5 were submitted. */
    ghost predicate Valid()
      reads this
    {
      0 <= rating <= 5
      && forall k :: 0 <= k < |submitted| ==> 1 <= submitted[k].rating <= 5
    }

    constructor (locationId: Option<string>)
      ensures Valid()
      ensures rating == 0 && comment == "" && submitted == []
      ensures this.locationId == locationId
    {
      rating := 0;
      comment := "";
      submitted := [];
      this.locationId := locationId;
    }

    /** Pressing star `star` sets the rating to exactly `star`. */
    method TapStar(star: int)
      requires Valid() && star in StarValues
      modifies this
      ensures Valid()
      ensures rating == star && comment == old(comment) && submitted == old(submitted)
      ensures locationId == old(locationId)
    {
      rating := star;
    }

    method EditComment(text: string)
      requires Valid()
      modifies this
      ensures Valid()
      ensures comment == text && rating == old(rating) && submitted == old(submitted)
      ensures locationId == old(locationId)
    {
      comment := text;
    }

    /** The parent re-renders with another `locationId` (Home passes
        `selectedLocation?.id`); the form's values stay. */
    method SetLocationId(id: Option<string>)
      requires Valid()
      modifies this
      ensures Valid()
      ensures locationId == id
      ensures rating == old(rating) && comment == old(comment) && submitted == old(submitted)
    {
      locationId := id;
    }

    /** Pressing Submit: ignored while disabled; otherwise `handleSubmit`
        hands the current values on unchanged, then clears the form. */
    method PressSubmit() returns (sent: Option<RatingData>)
      requires Valid()
      modifies this
      ensures Valid()
      ensures !SubmitEnabled(old(rating)) ==>
        sent == None && rating == old(rating) && comment == old(comment) && submitted == old(submitted)
      ensures SubmitEnabled(old(rating)) ==>
        sent == Some(RatingData(old(rating), old(comment), locationId))
        && submitted == old(submitted) + [sent.value]
        && rating == 0 && comment == ""
      ensures locationId == old(locationId)
      ensures sent.Some? ==> 1 <= sent.value.rating <= 5
    {
      if !SubmitEnabled(rating) {
        return None;
      }
      var data := RatingData(rating, comment, locationId);
      submitted := submitted + [data];
      sent := Some(data);
      rating := 0;
      comment := "";
    }
  }
}
