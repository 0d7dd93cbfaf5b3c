/** The Docker container description a job can carry, built by chained appends. */
module Containers {
  import opened Slices

  datatype Volume = Volume(HostPath: string, ContainerPath: string, Mode: string)

  datatype Parameter = Parameter(Key: string, Value: string)

  class Container {
    var Type: string
    var Image: string
    var Network: string
    var Volumes: Slice<Volume>
    var Parameters: Slice<Parameter>
    var ForcePullImage: bool

    /** A composite literal naming every field. */
    constructor (typ: string, image: string, network: string,
                 volumes: Slice<Volume>, parameters: Slice<Parameter>, forcePullImage: bool)
      ensures Type == typ && Image == image && Network == network
      ensures Volumes == volumes && Parameters == parameters && ForcePullImage == forcePullImage
    {
      Type, Image, Network := typ, image, network;
      Volumes, Parameters, ForcePullImage := volumes, parameters, forcePullImage;
    }

    /**
     * Appends one volume at the end of Volumes, allocating the list if it is
     * nil; every other field is left alone. Returns the receiver for chaining.
     */
    method AddVolume(hostPath: string, containerPath: string, mode: string) returns (r: Container)
      modifies this`Volumes
      ensures r == this
      ensures Volumes.Made?
      ensures Volumes.Elements() == old(Volumes.Elements()) + [Volume(hostPath, containerPath, mode)]
    {
      if Volumes.Nil? {
        Volumes := Made([]);
      }
      Volumes := Volumes.Append(Volume(hostPath, containerPath, mode));
      r := this;
    }

    /**
     * Appends one key/value parameter at the end of Parameters, allocating
     * the list if it is nil; every other field is left alone. Returns the
     * receiver for chaining.
     */
    method AddParameter(key: string, value: string) returns (r: Container)
      modifies this`Parameters
      ensures r == this
      ensures Parameters.Made?
      ensures Parameters.Elements() == old(Parameters.Elements()) + [Parameter(key, value)]
    {
      if Parameters.Nil? {
        Parameters := Made([]);
      }
      Parameters := Parameters.Append(Parameter(key, value));
      r := this;
    }

    /**
     * A caller's chain c.AddVolume(..).AddVolume(..)..., one call per entry of
     * volumes, each on the receiver the previous call returned: the list grows
     * by exactly those entries, in order.
     */
    method AddVolumes(volumes: seq<Volume>) returns (r: Container)
      modifies this`Volumes
      ensures r == this
      ensures Volumes.Elements() == old(Volumes.Elements()) + volumes
    {
      r := this;
      var i := 0;
      while i < |volumes|
        invariant 0 <= i <= |volumes|
        invariant r == this
        invariant Volumes.Elements() == old(Volumes.Elements()) + volumes[..i]
      {
        r := r.AddVolume(volumes[i].HostPath, volumes[i].ContainerPath, volumes[i].Mode);
        assert volumes[..i + 1] == volumes[..i] + [volumes[i]];
        i := i + 1;
      }
      assert volumes[..i] == volumes;
    }

    /** The same chain for parameters. */
    method AddParameters(parameters: seq<Parameter>) returns (r: Container)
      modifies this`Parameters
      ensures r == this
      ensures Parameters.Elements() == old(Parameters.Elements()) + parameters
    {
      r := this;
      var i := 0;
      while i < |parameters|
        invariant 0 <= i <= |parameters|
        invariant r == this
        invariant Parameters.Elements() == old(Parameters.Elements()) + parameters[..i]
      {
        r := r.AddParameter(parameters[i].Key, parameters[i].Value);
        assert parameters[..i + 1] == parameters[..i] + [parameters[i]];
        i := i + 1;
      }
      assert parameters[..i] == parameters;
    }
  }

  /** A Docker container on the bridge network, no image yet, nil volume and parameter lists. */
  method NewDockerContainer() returns (c: Container)
    ensures fresh(c)
    ensures c.Type == "DOCKER" && c.Network == "BRIDGE" && c.Image == "" && !c.ForcePullImage
    ensures c.Volumes == Nil && c.Parameters == Nil
    ensures c.Volumes.Elements() == [] && c.Parameters.Elements() == []
  {
    c := new Container("DOCKER", "", "BRIDGE", Nil, Nil, false);
  }
}
