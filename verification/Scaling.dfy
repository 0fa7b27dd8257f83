// Expanding the volume claims of a cluster (internal/scaling/scaling.go).
module Scaling {
  import opened Spec
  import opened ApiServer

  datatype Claim = Claim(name: string, capacity: int)

  datatype Outcome = Done | EphemeralToPersistent | Shrinking | Failure

  const RETRIES: nat := 10

  function CapacityOf(sts: Sts): int {
    if sts.storage.Some? then sts.storage.value else 0
  }

  // Reads the claims of replicas i..n-1; those that do not exist are passed over.
  function GetClusterClaims(s: Sys, name: string, i: nat, n: int): (Sys, Reply<seq<Claim>>)
    decreases n - i
  {
    if i >= n then (s, Ok([]))
    else
      var (s1, r) := ReadClaim(s, PVCName(name, i));
      if r.Failed? then (s1, Failed)
      else
        var (s2, rest) := GetClusterClaims(s1, name, i + 1, n);
        (s2, if !rest.Ok? then Failed else Ok((if r.Ok? then [Claim(PVCName(name, i), r.value)] else []) + rest.value))
  }

  function ClaimsNeedingScaling(claims: seq<Claim>, desired: int): seq<Claim> {
    if claims == [] then []
    else (if claims[0].capacity < desired then [claims[0]] else []) + ClaimsNeedingScaling(claims[1..], desired)
  }

  lemma {:induction false} NeedingScaling(claims: seq<Claim>, desired: int, c: Claim)
    ensures c in ClaimsNeedingScaling(claims, desired) <==> c in claims && c.capacity < desired
  {
    if claims != [] { NeedingScaling(claims[1..], desired, c); }
  }

  // Waits until the StatefulSet is not found; other errors count as still there.
  function PollGone(s: Sys, retries: nat): (Sys, bool)
    decreases retries
  {
    if retries == 0 then (s, false)
    else
      var (s1, r) := ReadSts(s);
      if r.NotFound? then (s1, true) else PollGone(s1, retries - 1)
  }

  function RemoveSts(s: Sys, rmq: RabbitmqCluster, desired: int): (Sys, bool) {
    var (s1, r) := ReadSts(s);
    if r.NotFound? then (s1, true)
    else if !r.Ok? then (s1, false)
    else
      var (s2, d) := DeleteSts(s1, rmq, desired);
      if d.Ok? then PollGone(s2, RETRIES) else (s2, false)
  }

  function ScaleUp(s: Sys, claims: seq<Claim>, desired: int): (Sys, bool)
    decreases |claims|
  {
    if claims == [] then (s, true)
    else
      var (s1, r) := ReadClaim(s, claims[0].name);
      if !r.Ok? then (s1, false)
      else
        var (s2, u) := UpdateClaim(s1, claims[0].name, desired);
        if u.Ok? then ScaleUp(s2, claims[1..], desired) else (s2, false)
  }

  function Names(claims: seq<Claim>): (r: seq<string>)
    ensures |r| == |claims| && forall i :: 0 <= i < |r| ==> r[i] == claims[i].name
  {
    seq(|claims|, i requires 0 <= i < |claims| => claims[i].name)
  }

  // The guards of Scale, which only an existing StatefulSet can trip.
  function Guard(r: Reply<Sts>, desired: int): Outcome {
    if r.Ok? && CapacityOf(r.value) == 0 && desired != 0 then EphemeralToPersistent
    else if r.Ok? && CapacityOf(r.value) > desired then Shrinking
    else Done
  }

  function Scale(s: Sys, rmq: RabbitmqCluster, desired: int): (Sys, Outcome) {
    var (s1, r) := ReadSts(s);
    if r.Failed? then (s1, Failure)
    else if Guard(r, desired) != Done then (s1, Guard(r, desired))
    else
      var (s2, claims) := GetClusterClaims(s1, rmq.name, 0, rmq.spec.replicas);
      if !claims.Ok? then (s2, Failure)
      else
        var small := ClaimsNeedingScaling(claims.value, desired);
        var done := Scaled(rmq.name, rmq.spec.replicas, desired, s1.w.claims, Names(claims.value));
        if small == [] then (Note(s2, done), Done)
        else
          var (s3, gone) := RemoveSts(s2, rmq, desired);
          if !gone then (s3, Failure)
          else
            var (s4, grown) := ScaleUp(s3, small, desired);
            if grown then (Note(s4, done), Done) else (s4, Failure)
  }
}
