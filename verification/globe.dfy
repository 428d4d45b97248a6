/**
 * The `flattenedUserNodes` mapping of `src/components/Globe.tsx`: one marker of
 * type "user" per participant, placed at the participant's `coordinates`.
 */
module Globe {
  import opened Wrappers
  import opened Types
  import Utils

  const UserType: string := "user"

  /**
   * `userNodes` defaults to the empty list when the prop is omitted (`None`).
   * The marker's `isNew` is not set.
   */
  function FlattenUserNodes(userNodes: Option<seq<UserNode>>): (nodes: seq<Node>)
    ensures userNodes.None? ==> nodes == []
    ensures var us := userNodes.GetOr([]);
      |nodes| == |us| &&
      forall i :: 0 <= i < |us| ==>
        nodes[i].value == Utils.MarkerValue && nodes[i].nodeType == Some(UserType) &&
        nodes[i].userData == Some(us[i]) && nodes[i].isNew == None
  {
    var us := userNodes.GetOr([]);
    seq(|us|, i requires 0 <= i < |us| =>
      var c := us[i].coordinates;
      Node(if c.Some? then Some(c.value.longitude) else None,
           if c.Some? then Some(c.value.latitude) else None,
           Utils.MarkerValue, Some(UserType), Some(us[i]), None))
  }

  /**
   * A marker has a position exactly when its participant has coordinates, and
   * then `long` is the longitude and `lat` the latitude.
   */
  lemma FlattenPositions(users: seq<UserNode>, i: nat)
    requires i < |users|
    ensures var n := FlattenUserNodes(Some(users))[i];
      (n.long.Some? <==> users[i].coordinates.Some?) && (n.lat.Some? <==> users[i].coordinates.Some?) &&
      (users[i].coordinates.Some? ==>
        n.long == Some(users[i].coordinates.value.longitude) && n.lat == Some(users[i].coordinates.value.latitude))
  {
  }

  /** Reading `userData` back off the markers gives the participants, in order. */
  lemma FlattenRoundTrip(users: seq<UserNode>)
    ensures Utils.UserData(FlattenUserNodes(Some(users))) == users
  {
  }
}
