// The scaler of internal/scaling/scaling.go, call by call, against Scaling.
module Scaler {
  import opened Spec
  import opened ApiServer
  import opened Client
  import opened Scaling

  class PersistenceScaler {
    const client: Client

    constructor (client: Client)
      ensures this.client == client
    {
      this.client := client;
    }

    method Scale(rmq: RabbitmqCluster, desired: int) returns (outcome: Outcome)
      modifies client
      ensures (client.sys, outcome) == Scaling.Scale(old(client.sys), rmq, desired)
    {
      hide ReadSts, Scaling.GetClusterClaims, RemoveSts, Scaling.ScaleUp, ClaimsNeedingScaling;
      var r := client.GetSts();
      if r.Failed? { return Failure; }
      if r.Ok? && CapacityOf(r.value) == 0 && desired != 0 { return EphemeralToPersistent; }
      if r.Ok? && CapacityOf(r.value) > desired { return Shrinking; }
      var before := client.sys.w.claims; // for the audit log
      var claims := GetClusterClaims(rmq);
      if !claims.Ok? { return Failure; }
      var small := SmallClaims(claims.value, desired);
      if small != [] {
        var gone := DeleteSts(rmq, desired);
        if !gone { return Failure; }
        var grown := ScaleUp(small, desired);
        if !grown { return Failure; }
      }
      client.Record(Scaled(rmq.name, rmq.spec.replicas, desired, before, Names(claims.value)));
      return Done;
    }

    method GetClusterClaims(rmq: RabbitmqCluster) returns (claims: Reply<seq<Claim>>)
      modifies client
      ensures (client.sys, claims) == Scaling.GetClusterClaims(old(client.sys), rmq.name, 0, rmq.spec.replicas)
    {
      var found: seq<Claim> := [];
      var i := 0;
      ghost var all := Scaling.GetClusterClaims(client.sys, rmq.name, 0, rmq.spec.replicas);
      assert all.1.Ok? ==> found + all.1.value == all.1.value;
      while i < rmq.spec.replicas
        invariant 0 <= i
        invariant Scaling.GetClusterClaims(old(client.sys), rmq.name, 0, rmq.spec.replicas)
               == After(found, Scaling.GetClusterClaims(client.sys, rmq.name, i, rmq.spec.replicas))
        decreases rmq.spec.replicas - i
      {
        ghost var rest := Scaling.GetClusterClaims(client.sys, rmq.name, i, rmq.spec.replicas);
        var r := client.GetClaim(PVCName(rmq.name, i));
        if r.Failed? { return Failed; }
        ghost var was := found;
        if r.Ok? { found := found + [Claim(PVCName(rmq.name, i), r.value)]; }
        i := i + 1;
        ghost var tail := Scaling.GetClusterClaims(client.sys, rmq.name, i, rmq.spec.replicas);
        assert tail.1.Ok? ==> was + rest.1.value == found + tail.1.value;
      }
      assert found + [] == found;
      return Ok(found);
    }

    // The result of listing the rest, after the claims already found.
    static function After(found: seq<Claim>, rest: (Sys, Reply<seq<Claim>>)): (Sys, Reply<seq<Claim>>) {
      (rest.0, if rest.1.Ok? then Ok(found + rest.1.value) else rest.1)
    }

    static method SmallClaims(claims: seq<Claim>, desired: int) returns (small: seq<Claim>)
      ensures small == ClaimsNeedingScaling(claims, desired)
    {
      small := [];
      assert claims[0..] == claims;
      for i := 0 to |claims|
        invariant ClaimsNeedingScaling(claims, desired) == small + ClaimsNeedingScaling(claims[i..], desired)
      {
        NeedingStep(claims, i, desired);
        hide ClaimsNeedingScaling;
        if claims[i].capacity < desired { small := small + [claims[i]]; }
      }
      assert claims[|claims|..] == [];
    }

    static lemma NeedingStep(claims: seq<Claim>, i: nat, desired: int)
      requires i < |claims|
      ensures ClaimsNeedingScaling(claims[i..], desired)
           == (if claims[i].capacity < desired then [claims[i]] else []) + ClaimsNeedingScaling(claims[i + 1..],
             desired)
    {
      assert claims[i..][1..] == claims[i + 1..];
    }

    method DeleteSts(rmq: RabbitmqCluster, desired: int) returns (gone: bool)
      modifies client
      ensures (client.sys, gone) == RemoveSts(old(client.sys), rmq, desired)
    {
      hide ReadSts, ApiServer.DeleteSts, PollGone;
      var r := client.GetSts();
      if r.NotFound? { return true; }
      if !r.Ok? { return false; }
      var d := client.OrphanSts(rmq, desired);
      if !d.Ok? { return false; }
      gone := RetryUntilGone();
    }

    method RetryUntilGone() returns (gone: bool)
      modifies client
      ensures (client.sys, gone) == PollGone(old(client.sys), RETRIES)
    {
      hide ReadSts;
      for i := 0 to RETRIES
        invariant PollGone(old(client.sys), RETRIES) == PollGone(client.sys, RETRIES - i)
      {
        var r := client.GetSts();
        if r.NotFound? { return true; }
      }
      return false;
    }

    method ScaleUp(claims: seq<Claim>, desired: int) returns (grown: bool)
      modifies client
      ensures (client.sys, grown) == Scaling.ScaleUp(old(client.sys), claims, desired)
    {
      hide ReadClaim, UpdateClaim;
      for i := 0 to |claims|
        invariant Scaling.ScaleUp(old(client.sys), claims, desired) == Scaling.ScaleUp(client.sys, claims[i..], desired)
      {
        assert claims[i..][1..] == claims[i + 1..];
        var r := client.GetClaim(claims[i].name);
        if !r.Ok? { return false; }
        var u := client.PutClaim(claims[i].name, desired);
        if !u.Ok? { return false; }
      }
      assert claims[|claims|..] == [];
      return true;
    }
  }
}
