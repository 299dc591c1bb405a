/** The Home screen: the list/map toggle, the search box, the detail drawer
    for the selected location, the "Rate this spot" gate and the submission
    of a rating for the selected location. */
module Home {
  import opened Js
  import opened Text
  import opened Effects
  import opened Locations
  import opened RatingModal

  const AddReviewPrefix := "/locations/addReview/"
  const ReviewFailed := "Failed to submit review. Please try again."

  /** The request body `handleRatingSubmit` builds: rating, username and
      userId always; the comment, untrimmed, only if it has a non-blank character. */
  function BuildReviewBody(data: RatingData, profile: JsonObject): (b: ReviewBody)
    ensures b.rating == data.rating
    ensures b.username == Member(profile, "username") && b.userId == Member(profile, "_id")
    ensures b.comment.Some? <==> !Blank(data.comment)
    ensures b.comment.Some? ==> b.comment.value == data.comment
  {
    TrimEmptyIffBlank(data.comment);
    ReviewBody(
      data.rating,
      Member(profile, "username"),
      Member(profile, "_id"),
      if data.comment != "" && Trim(data.comment) != "" then Some(data.comment) else None)
  }

  /** The URL path of the review request; a missing `_id` is interpolated as "undefined". */
  function ReviewPath(loc: Location): (p: string)
    ensures |AddReviewPrefix| <= |p| && p[..|AddReviewPrefix|] == AddReviewPrefix
    ensures p[|AddReviewPrefix|..] == if loc.dbId.Some? then loc.dbId.value else "undefined"
  {
    AddReviewPrefix + loc.dbId.GetOr("undefined")
  }

  /** The effects of `handleRatingSubmit`: nothing without a selected
      location and a profile; otherwise one PUT, and an alert if it fails. */
  function RatingSubmitEffects(selected: Option<Location>, profile: Option<JsonObject>,
                               data: RatingData, reply: Reply<Option<Location>>): (r: seq<Effect>)
    ensures selected.None? || profile.None? ==> r == []
    ensures selected.Some? && profile.Some? ==>
      |r| >= 1 && r[0] == Request(Put, ReviewPath(selected.value), Review(BuildReviewBody(data, profile.value)))
    ensures selected.Some? && profile.Some? && reply.Ok? ==> r == [r[0]]
    ensures selected.Some? && profile.Some? && reply.Fail? ==>
      r == [r[0], Alert(FailureText(reply.error, ReviewFailed))]
    ensures SendsRequest(r) <==> selected.Some? && profile.Some?
    ensures forall i :: 0 <= i < |r| ==> !r[i].SetItem? && !r[i].Navigate?
  {
    if selected.None? || profile.None? then []
    else
      var put := Request(Put, ReviewPath(selected.value), Review(BuildReviewBody(data, profile.value)));
      var r := [put] + (if reply.Fail? then [Alert(FailureText(reply.error, ReviewFailed))] else []);
      assert r[0] == put;
      r
  }

  /** The review goes to the selected location's `_id`; the `locationId`
      the modal hands back (which Home fills from `id`) plays no part. */
  lemma ReviewIgnoresModalLocationId(selected: Option<Location>, profile: Option<JsonObject>,
                                     data: RatingData, other: Option<string>, reply: Reply<Option<Location>>)
    ensures RatingSubmitEffects(selected, profile, data, reply)
         == RatingSubmitEffects(selected, profile, data.(locationId := other), reply)
  {
  }

  /** `selectedLocation?.createdById !== userProfile?._id`: an absent
      selection or profile, and a profile without `_id`, give `undefined`. */
  function RateButtonVisible(selected: Option<Location>, profile: Option<JsonObject>): (r: bool)
    ensures selected.Some? && selected.value.createdById.Defined? && profile.Some? ==>
      (r <==> Member(profile.value, "_id") != Some(selected.value.createdById.value))
    ensures selected.None? && profile.None? ==> !r
  {
    (if selected.Some? then selected.value.createdById else Undefined)
      != (if profile.Some? then AsProp(Member(profile.value, "_id")) else Undefined)
  }

  /** The creator of a spot is never offered to rate it. */
  lemma CreatorCannotRate(loc: Location, profile: JsonObject)
    requires loc.createdById == AsProp(Member(profile, "_id"))
    ensures !RateButtonVisible(Some(loc), Some(profile))
  {
  }

  /** A logged-in user whose id differs from the spot's creator is offered to rate it. */
  lemma OthersCanRate(loc: Location, profile: JsonObject)
    requires loc.createdById.Defined? && AsProp(Member(profile, "_id")) != loc.createdById
    ensures RateButtonVisible(Some(loc), Some(profile))
  {
  }

  /** An undefined creator and a missing profile both give `undefined`,
      so the button is hidden then. */
  lemma UnattributedSpotHiddenWithoutProfile(loc: Location)
    requires loc.createdById.Undefined?
    ensures !RateButtonVisible(Some(loc), None)
  {
  }

  /** A creator id of `null` differs from the `undefined` of a missing
      profile, so the button is offered although nobody is logged in. */
  lemma NullCreatorRateableWithoutProfile(loc: Location)
    requires loc.createdById.Null?
    ensures RateButtonVisible(Some(loc), None)
  {
  }

  class HomeScreen {
    var showMap: bool
    var searchTerm: string
    var selectedLocation: Option<Location>
    var drawerVisible: bool
    var isRatingModalVisible: bool
    var userProfile: Option<JsonObject>
    const device: Device

    constructor (device: Device)
      ensures this.device == device
      ensures !showMap && searchTerm == "" && selectedLocation == None
      ensures !drawerVisible && !isRatingModalVisible && userProfile == None
    {
      this.device := device;
      showMap := false;
      searchTerm := "";
      selectedLocation := None;
      drawerVisible := false;
      isRatingModalVisible := false;
      userProfile := None;
    }

    /** The locations passed to the list or the map. */
    function FilteredLocations(locations: seq<Location>): (r: seq<Location>)
      reads this
      ensures IsSubsequence(r, locations)
      ensures forall l :: l in r <==> l in locations && Matches(l, searchTerm)
      ensures searchTerm == "" ==> r == locations
    {
      FilterIsSubsequence(locations, searchTerm);
      Filter(locations, searchTerm)
    }

    /** The mount effect: adopt the profile stored under "userProfile", if any. */
    method LoadUserProfile()
      modifies this
      ensures ProfileKey in device.store && device.store[ProfileKey].Object? ==>
        userProfile == Some(device.store[ProfileKey].fields)
      ensures !(ProfileKey in device.store && device.store[ProfileKey].Object?) ==>
        userProfile == old(userProfile)
      ensures showMap == old(showMap) && searchTerm == old(searchTerm)
      ensures selectedLocation == old(selectedLocation) && drawerVisible == old(drawerVisible)
      ensures isRatingModalVisible == old(isRatingModalVisible)
    {
      if ProfileKey in device.store && device.store[ProfileKey].Object? {
        userProfile := Some(device.store[ProfileKey].fields);
      }
    }

    method SetSearchTerm(term: string)
      modifies this
      ensures searchTerm == term
      ensures showMap == old(showMap) && selectedLocation == old(selectedLocation)
      ensures drawerVisible == old(drawerVisible) && isRatingModalVisible == old(isRatingModalVisible)
      ensures userProfile == old(userProfile)
    {
      searchTerm := term;
    }

    /** `toggleView`: switch between the list and the map. */
    method ToggleView()
      modifies this
      ensures showMap == !old(showMap)
      ensures searchTerm == old(searchTerm) && selectedLocation == old(selectedLocation)
      ensures drawerVisible == old(drawerVisible) && isRatingModalVisible == old(isRatingModalVisible)
      ensures userProfile == old(userProfile)
    {
      showMap := !showMap;
    }

    /** `handleLocationSelect`: select a location and open the drawer. */
    method HandleLocationSelect(loc: Location)
      modifies this
      ensures selectedLocation == Some(loc) && drawerVisible
      ensures showMap == old(showMap) && searchTerm == old(searchTerm)
      ensures isRatingModalVisible == old(isRatingModalVisible) && userProfile == old(userProfile)
    {
      selectedLocation := Some(loc);
      drawerVisible := true;
    }

    /** `closeDrawer`, once its closing animation has finished: only hides
        the drawer; the selection stays. */
    method CloseDrawer()
      modifies this
      ensures !drawerVisible
      ensures selectedLocation == old(selectedLocation)
      ensures showMap == old(showMap) && searchTerm == old(searchTerm)
      ensures isRatingModalVisible == old(isRatingModalVisible) && userProfile == old(userProfile)
    {
      drawerVisible := false;
    }

    /** Pressing "Rate this spot", which the open drawer shows only when the
        viewer is not the spot's creator. */
    method PressRateButton()
      requires drawerVisible && RateButtonVisible(selectedLocation, userProfile)
      modifies this
      ensures isRatingModalVisible
      ensures selectedLocation == old(selectedLocation) && drawerVisible == old(drawerVisible)
      ensures showMap == old(showMap) && searchTerm == old(searchTerm) && userProfile == old(userProfile)
    {
      isRatingModalVisible := true;
    }

    /** The modal's `onClose`. */
    method CloseRatingModal()
      modifies this
      ensures !isRatingModalVisible
      ensures selectedLocation == old(selectedLocation) && drawerVisible == old(drawerVisible)
      ensures showMap == old(showMap) && searchTerm == old(searchTerm) && userProfile == old(userProfile)
    {
      isRatingModalVisible := false;
    }

    /** `handleRatingSubmit`, with `reply` the outcome of the PUT. On
        success the modal closes and the location the server returns, if
        any, replaces the selection; on failure an alert is shown. */
    method HandleRatingSubmit(data: RatingData, reply: Reply<Option<Location>>)
      modifies this, device
      ensures device.trace == old(device.trace) + RatingSubmitEffects(old(selectedLocation), userProfile, data, reply)
      ensures device.store == old(device.store)
      ensures old(selectedLocation).Some? && userProfile.Some? && reply.Ok? ==>
        !isRatingModalVisible
        && selectedLocation == (if reply.body.Some? then reply.body else old(selectedLocation))
      ensures !(old(selectedLocation).Some? && userProfile.Some? && reply.Ok?) ==>
        isRatingModalVisible == old(isRatingModalVisible) && selectedLocation == old(selectedLocation)
      ensures userProfile == old(userProfile) && drawerVisible == old(drawerVisible)
      ensures showMap == old(showMap) && searchTerm == old(searchTerm)
    {
      if selectedLocation.None? {
        return;
      }
      if userProfile.None? {
        return;
      }
      var body := BuildReviewBody(data, userProfile.value);
      device.Emit(Request(Put, ReviewPath(selectedLocation.value), Review(body)));
      match reply {
        case Ok(updated) =>
          isRatingModalVisible := false;
          if updated.Some? {
            selectedLocation := updated;
          }
        case Fail(error) =>
          device.Emit(Alert(FailureText(error, ReviewFailed)));
      }
    }

    /** The modal's Submit button wired to `handleRatingSubmit`: whatever
        request results carries a rating the stars can set. */
    method SubmitFromModal(form: RatingForm, reply: Reply<Option<Location>>)
      requires form.Valid()
      modifies this, device, form
      ensures form.Valid()
      ensures form.locationId == old(form.locationId)
      ensures form.submitted == old(form.submitted) +
        if SubmitEnabled(old(form.rating))
        then [RatingData(old(form.rating), old(form.comment), old(form.locationId))]
        else []
      ensures SubmitEnabled(old(form.rating)) ==> form.rating == 0 && form.comment == ""
      ensures !SubmitEnabled(old(form.rating)) ==>
        form.rating == old(form.rating) && form.comment == old(form.comment)
      ensures device.trace == old(device.trace) +
        if SubmitEnabled(old(form.rating))
        then RatingSubmitEffects(old(selectedLocation), userProfile,
                                 RatingData(old(form.rating), old(form.comment), old(form.locationId)), reply)
        else []
      ensures SubmitEnabled(old(form.rating)) && old(selectedLocation).Some? && userProfile.Some? && reply.Ok? ==>
        !isRatingModalVisible
        && selectedLocation == (if reply.body.Some? then reply.body else old(selectedLocation))
      ensures !(SubmitEnabled(old(form.rating)) && old(selectedLocation).Some? && userProfile.Some? && reply.Ok?) ==>
        isRatingModalVisible == old(isRatingModalVisible) && selectedLocation == old(selectedLocation)
      ensures userProfile == old(userProfile) && drawerVisible == old(drawerVisible)
      ensures showMap == old(showMap) && searchTerm == old(searchTerm)
      ensures forall i :: old(|device.trace|) <= i < |device.trace| && device.trace[i].Request? ==>
        device.trace[i].payload.Review? && 1 <= device.trace[i].payload.review.rating <= 5
      ensures device.store == old(device.store)
    {
      var sent := form.PressSubmit();
      if sent.Some? {
        HandleRatingSubmit(sent.value, reply);
      }
    }
  }
}
