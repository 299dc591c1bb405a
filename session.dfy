/** How the screens meet through storage: the profile that Register or
    Login stores is the one Home reads to sign a review. */
module Session {
  import opened Js
  import opened Effects
  import Register
  import Login
  import Home
  import RatingModal

  /** After signing up, a review is signed with the `_id` and `username`
      of the registration response. */
  lemma RegisteredProfileSignsReviews(store: Store, f: Register.RegisterForm, d: Register.Registered,
                                      data: RatingModal.RatingData)
    requires Register.Validate(f).Passed?
    ensures var s := Apply(store, Register.RegisterEffects(f, Ok(Some(d))));
      ProfileKey in s && s[ProfileKey].Object?
      && Home.BuildReviewBody(data, s[ProfileKey].fields).userId == Member(d.data, "_id")
      && Home.BuildReviewBody(data, s[ProfileKey].fields).username == Member(d.data, "username")
  {
    Register.RegisterStores(store, f, d);
    Register.ReducedProfileLookups(d.data, "_id");
    Register.ReducedProfileLookups(d.data, "username");
  }

  /** After logging in, a review is signed with the `_id` and `username`
      of the fetched profile. */
  lemma LoggedInProfileSignsReviews(store: Store, email: string, password: string, token: string,
                                    profile: JsonObject, data: RatingModal.RatingData)
    requires email != "" && password != ""
    ensures var s := Apply(store, Login.LogInEffects(email, password, Ok(Some(token)), Ok(profile)));
      ProfileKey in s && s[ProfileKey] == Object(profile)
      && Home.BuildReviewBody(data, s[ProfileKey].fields).userId == Member(profile, "_id")
      && Home.BuildReviewBody(data, s[ProfileKey].fields).username == Member(profile, "username")
  {
    Login.LogInStores(store, email, password, token, Ok(profile));
  }
}
