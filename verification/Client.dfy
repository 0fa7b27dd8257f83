// The client through which the operator reaches the API server, and its log.
module Client {
  import opened Spec
  import opened ConfigMaps
  import opened ApiServer

  class Client {
    var sys: Sys

    constructor (sys: Sys)
      ensures this.sys == sys
    {
      this.sys := sys;
    }

    method Record(e: Event)
      modifies this
      ensures sys == Note(old(sys), e)
    {
      sys := Note(sys, e);
    }

    method RunInPod(cmd: Command, pod: int) returns (ok: bool)
      modifies this
      ensures (sys, ok) == Exec(old(sys), cmd, pod)
    {
      var (s, a) := Exec(sys, cmd, pod);
      sys, ok := s, a;
    }

    method GetCluster() returns (r: Reply<RabbitmqCluster>)
      modifies this
      ensures (sys, r) == ReadCluster(old(sys))
    {
      var (s, a) := ReadCluster(sys);
      sys, r := s, a;
    }

    method PutCluster(obj: RabbitmqCluster) returns (r: Reply<RabbitmqCluster>)
      modifies this
      ensures (sys, r) == UpdateCluster(old(sys), obj)
    {
      var (s, a) := UpdateCluster(sys, obj);
      sys, r := s, a;
    }

    method PutStatus(obj: RabbitmqCluster) returns (r: Reply<RabbitmqCluster>)
      modifies this
      ensures (sys, r) == UpdateStatus(old(sys), obj)
    {
      var (s, a) := UpdateStatus(sys, obj);
      sys, r := s, a;
    }

    method GetSts() returns (r: Reply<Sts>)
      modifies this
      ensures (sys, r) == ReadSts(old(sys))
    {
      var (s, a) := ReadSts(sys);
      sys, r := s, a;
    }

    method PostSts(obj: Sts) returns (r: Reply<Sts>)
      modifies this
      ensures (sys, r) == CreateSts(old(sys), obj)
    {
      var (s, a) := CreateSts(sys, obj);
      sys, r := s, a;
    }

    method PutSts(obj: Sts, why: Purpose) returns (r: Reply<Sts>)
      modifies this
      ensures (sys, r) == UpdateSts(old(sys), obj, why)
    {
      var (s, a) := UpdateSts(sys, obj, why);
      sys, r := s, a;
    }

    method OrphanSts(rmq: RabbitmqCluster, desired: int) returns (r: Reply<()>)
      modifies this
      ensures (sys, r) == DeleteSts(old(sys), rmq, desired)
    {
      var (s, a) := DeleteSts(sys, rmq, desired);
      sys, r := s, a;
    }

    method GetClaim(name: string) returns (r: Reply<int>)
      modifies this
      ensures (sys, r) == ReadClaim(old(sys), name)
    {
      var (s, a) := ReadClaim(sys, name);
      sys, r := s, a;
    }

    method PutClaim(name: string, capacity: int) returns (r: Reply<()>)
      modifies this
      ensures (sys, r) == UpdateClaim(old(sys), name, capacity)
    {
      var (s, a) := UpdateClaim(sys, name, capacity);
      sys, r := s, a;
    }

    method GetMap(which: Which) returns (r: Reply<StoredMap>)
      modifies this
      ensures (sys, r) == ReadMap(old(sys), which)
    {
      var (s, a) := ReadMap(sys, which);
      sys, r := s, a;
    }

    method PostMap(which: Which, data: Data, annotations: Annotations) returns (r: Reply<StoredMap>)
      modifies this
      ensures (sys, r) == CreateMap(old(sys), which, data, annotations)
    {
      var (s, a) := CreateMap(sys, which, data, annotations);
      sys, r := s, a;
    }

    method PutMap(which: Which, obj: StoredMap, why: Purpose) returns (r: Reply<StoredMap>)
      modifies this
      ensures (sys, r) == UpdateMap(old(sys), which, obj, why)
    {
      var (s, a) := UpdateMap(sys, which, obj, why);
      sys, r := s, a;
    }

    method GetSecret(name: string) returns (r: Reply<set<string>>)
      modifies this
      ensures (sys, r) == ReadSecret(old(sys), name)
    {
      var (s, a) := ReadSecret(sys, name);
      sys, r := s, a;
    }

    method GetEndpoints() returns (r: Reply<seq<nat>>)
      modifies this
      ensures (sys, r) == ReadEndpoints(old(sys))
    {
      var (s, a) := ReadEndpoints(sys);
      sys, r := s, a;
    }

    method GetOther(kind: Kind) returns (r: Reply<ClusterSpec>)
      modifies this
      ensures (sys, r) == ReadOther(old(sys), kind)
    {
      var (s, a) := ReadOther(sys, kind);
      sys, r := s, a;
    }

    method PutOther(kind: Kind, spec: ClusterSpec) returns (r: Reply<()>)
      modifies this
      ensures (sys, r) == WriteOther(old(sys), kind, spec)
    {
      var (s, a) := WriteOther(sys, kind, spec);
      sys, r := s, a;
    }
  }
}
