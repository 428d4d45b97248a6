/**
 * `mapUserNodesToGlobeNodes` of `src/lib/utils.ts`: one globe marker per
 * participant, reading the participant's own `longitude`, `latitude` and
 * `type` properties.
 */
module Utils {
  import opened Wrappers
  import opened Types

  const MarkerValue: real := 5.0

  function MapUserNodesToGlobeNodes(userNodes: seq<UserNode>): (nodes: seq<Node>)
    ensures |nodes| == |userNodes|
    ensures forall i :: 0 <= i < |userNodes| ==>
      nodes[i].long == userNodes[i].longitude && nodes[i].lat == userNodes[i].latitude &&
      nodes[i].nodeType == userNodes[i].nodeType
    ensures forall i :: 0 <= i < |userNodes| ==>
      nodes[i].value == MarkerValue && nodes[i].isNew == Some(false) && nodes[i].userData == Some(userNodes[i])
  {
    seq(|userNodes|, i requires 0 <= i < |userNodes| =>
      Node(userNodes[i].longitude, userNodes[i].latitude, MarkerValue, userNodes[i].nodeType, Some(userNodes[i]), Some(false)))
  }

  /** The participants carried by markers that all have one. */
  function UserData(nodes: seq<Node>): (users: seq<UserNode>)
    requires forall i :: 0 <= i < |nodes| ==> nodes[i].userData.Some?
    ensures |users| == |nodes|
  {
    seq(|nodes|, i requires 0 <= i < |nodes| => nodes[i].userData.value)
  }

  /** The mapping keeps every participant, in order: reading `userData` back gives the input. */
  lemma UserDataRoundTrip(userNodes: seq<UserNode>)
    ensures UserData(MapUserNodesToGlobeNodes(userNodes)) == userNodes
  {
  }
}
