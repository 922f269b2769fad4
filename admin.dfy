/**
  The booking/profile join of `getRecentBookings` (js/admin.js): the distinct user ids of
  the fetched bookings, a dictionary from profile id to profile, and each booking annotated
  with its user's profile or `null`.

  The two database queries are the inputs: each is a `{data, error}` pair as the client
  library returns it. What the queries select, order and limit is left to the database.
*/
module Admin {
  import opened Wrappers

  /** A booking row; `fields` stands for every column besides `user_id`, services included. */
  datatype Booking<F> = Booking(userId: string, fields: F)

  /** A profile row; `fields` stands for `full_name` and `email`. */
  datatype Profile<P> = Profile(id: string, fields: P)

  /** A booking with all its own fields and the `profiles` field the merge adds. */
  datatype BookingWithProfile<F, P> = BookingWithProfile(booking: Booking<F>, profiles: Option<Profile<P>>)

  /** The `{data, error}` pair of a database query. */
  datatype Fetch<T, E> = Fetch(data: Option<T>, error: Option<E>)

  /** The `{data, error}` pair `getRecentBookings` returns. */
  datatype Response<R, E> = Response(data: Option<seq<R>>, error: Option<E>)

  /** `[...new Set(bookings.map(b => b.user_id))]`: each booking's user id, once. */
  function UserIds<F>(bookings: seq<Booking<F>>): (ids: seq<string>)
    ensures forall i, j :: 0 <= i < j < |ids| ==> ids[i] != ids[j]
    ensures forall b :: b in bookings ==> b.userId in ids
    ensures forall i :: 0 <= i < |ids| ==> exists b :: b in bookings && b.userId == ids[i]
    ensures |ids| <= |bookings|
    ensures ids == [] <==> bookings == []
  {
    if bookings == [] then []
    else
      var earlier := UserIds(bookings[..|bookings| - 1]);
      var last := bookings[|bookings| - 1];
      assert forall b :: b in bookings ==> b in bookings[..|bookings| - 1] || b == last;
      if last.userId in earlier then earlier else earlier + [last.userId]
  }

  /** The profile the dictionary keeps for `id`: the last one in the list with that id. */
  function LastProfile<P>(profiles: seq<Profile<P>>, id: string): Option<Profile<P>>
  {
    if profiles == [] then None
    else if profiles[|profiles| - 1].id == id then Some(profiles[|profiles| - 1])
    else LastProfile(profiles[..|profiles| - 1], id)
  }

  /**
    A profile is found for `id` exactly when one in the list has that id, and when several do,
    the one kept is the latest of them.
  */
  lemma {:induction false} LastProfileWins<P>(profiles: seq<Profile<P>>, i: nat)
    requires i < |profiles|
    requires forall j :: i < j < |profiles| ==> profiles[j].id != profiles[i].id
    ensures LastProfile(profiles, profiles[i].id) == Some(profiles[i])
    decreases |profiles|
  {
    if i < |profiles| - 1 {
      LastProfileWins(profiles[..|profiles| - 1], i);
    }
  }

  lemma {:induction false} LastProfileMissing<P>(profiles: seq<Profile<P>>, id: string)
    ensures LastProfile(profiles, id).None? <==> forall j :: 0 <= j < |profiles| ==> profiles[j].id != id
    ensures LastProfile(profiles, id).Some? ==> LastProfile(profiles, id).value in profiles
                                                && LastProfile(profiles, id).value.id == id
    decreases |profiles|
  {
    if profiles != [] {
      LastProfileMissing(profiles[..|profiles| - 1], id);
    }
  }

  /** The `profileMap` dictionary, filled in list order so that a later profile overwrites an earlier one. */
  method BuildProfileMap<P>(profiles: seq<Profile<P>>) returns (profileMap: map<string, Profile<P>>)
    ensures forall id :: id in profileMap <==> LastProfile(profiles, id).Some?
    ensures forall id :: id in profileMap ==> LastProfile(profiles, id) == Some(profileMap[id])
  {
    profileMap := map[];
    for i := 0 to |profiles|
      invariant forall id :: id in profileMap <==> LastProfile(profiles[..i], id).Some?
      invariant forall id :: id in profileMap ==> LastProfile(profiles[..i], id) == Some(profileMap[id])
    {
      assert profiles[..i + 1][..i] == profiles[..i];
      profileMap := profileMap[profiles[i].id := profiles[i]];
    }
    assert profiles[..|profiles|] == profiles;
  }

  /** `getRecentBookings` once both queries have answered. */
  method GetRecentBookings<F, P, E>(bookingsFetch: Fetch<seq<Booking<F>>, E>, profilesFetch: Fetch<seq<Profile<P>>, E>)
    returns (r: Response<BookingWithProfile<F, P>, E>)
    ensures bookingsFetch.error.Some? ==> r == Response(None, bookingsFetch.error)
    ensures bookingsFetch.error.None? ==>
              var bookings := OrElse(bookingsFetch.data, []);
              && r.error.None? && r.data.Some? && |r.data.value| == |bookings|
              && forall i :: 0 <= i < |bookings| ==>
                   && r.data.value[i].booking == bookings[i]
                   && r.data.value[i].profiles == LastProfile(OrElse(profilesFetch.data, []), bookings[i].userId)
    ensures bookingsFetch.error.None? && profilesFetch.data.None? ==>
              forall i :: 0 <= i < |r.data.value| ==> r.data.value[i].profiles.None?
  {
    if bookingsFetch.error.Some? {
      return Response(None, bookingsFetch.error);
    }
    var bookings := OrElse(bookingsFetch.data, []);
    var userIds := UserIds(bookings);
    if |userIds| == 0 {
      // no user ids means no bookings: the bookings list returned as it is is empty
      return Response(Some([]), None);
    }
    // a failed profile query is only reported; the merge goes on with whatever data came back
    var profileMap := BuildProfileMap(OrElse(profilesFetch.data, []));
    var merged := seq(|bookings|, i requires 0 <= i < |bookings| =>
      BookingWithProfile(bookings[i],
                         if bookings[i].userId in profileMap then Some(profileMap[bookings[i].userId]) else None));
    r := Response(Some(merged), None);
  }
}
