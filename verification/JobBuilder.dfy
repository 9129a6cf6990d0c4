/** The job made for a fencing method (pkg/stub/fencing.go:280-363). */
module JobBuilder {
  import opened Options
  import opened ConfigTree
  import opened Mechanisms
  import opened Requests

  const SECRETS_DIR := "/etc/fencing/secrets/"

  /** A pod volume backed by a secret. */
  datatype Volume = Volume(name: string, secretName: string)

  datatype Job = Job(
    generateName: string, owner: string, labels: map<string, string>, backoffLimit: int,
    containers: seq<Container>, volumes: seq<Volume>)

  function VolumeName(key: string): string {
    "secret-" + key
  }

  function MountFor(key: string, secret: string): VolumeMount {
    VolumeMount(VolumeName(key), true, SECRETS_DIR + secret)
  }

  function VolumesFor(order: seq<string>, secrets: map<string, string>): (r: seq<Volume>)
    requires forall k :: k in order ==> k in secrets
    ensures |r| == |order|
    ensures forall i :: 0 <= i < |r| ==> r[i] == Volume(VolumeName(order[i]), secrets[order[i]])
  {
    seq(|order|, i requires 0 <= i < |order| =>
      assert order[i] in order; Volume(VolumeName(order[i]), secrets[order[i]]))
  }

  function MountsFor(order: seq<string>, secrets: map<string, string>): (r: seq<VolumeMount>)
    requires forall k :: k in order ==> k in secrets
    ensures |r| == |order|
    ensures forall i :: 0 <= i < |r| ==> r[i] == MountFor(order[i], secrets[order[i]])
  {
    seq(|order|, i requires 0 <= i < |order| => assert order[i] in order; MountFor(order[i], secrets[order[i]]))
  }

  /** A container once its secrets are attached, in one order of the secrets. */
  function WithSecrets(c: Container, order: seq<string>, secrets: map<string, string>): Container
    requires forall k :: k in order ==> k in secrets
  {
    c.(env := c.env + SecretPaths(order, secrets, SECRETS_DIR), mounts := c.mounts + MountsFor(order, secrets))
  }

  method ProcessSecrets(mech: Mechanism, c: Container)
    returns (volumes: seq<Volume>, c': Container, ghost order: seq<string>)
    ensures Enumerates(order, mech.secrets)
    ensures volumes == VolumesFor(order, mech.secrets)
    ensures c' == WithSecrets(c, order, mech.secrets)
    ensures |volumes| == |mech.secrets| == |c'.mounts| - |c.mounts|
  {
    volumes, order := [], [];
    var env, mounts := [], [];
    var rest := mech.secrets.Keys;
    while rest != {}
      invariant rest <= mech.secrets.Keys
      invariant forall k :: k in order <==> k in mech.secrets && k !in rest
      invariant forall i, j :: 0 <= i < j < |order| ==> order[i] != order[j]
      invariant volumes == VolumesFor(order, mech.secrets)
      invariant env == SecretPaths(order, mech.secrets, SECRETS_DIR)
      invariant mounts == MountsFor(order, mech.secrets)
      decreases |rest|
    {
      var key :| key in rest;
      var s := mech.secrets[key];
      volumes := volumes + [Volume("secret-" + key, s)];
      env := env + [EnvVar("SECRETPATH_" + key, SECRETS_DIR + "/" + s)];
      mounts := mounts + [VolumeMount("secret-" + key, true, SECRETS_DIR + s)];
      order := order + [key];
      rest := rest - {key};
    }
    c' := c.(env := c.env + env, mounts := c.mounts + mounts);
    EnumerationLength(order, mech.secrets);
  }

  /** One mechanism's share of a job: the orders its maps were ranged over,
      when making the container and when attaching the secrets. */
  datatype Part = Part(orders: Orders, attached: seq<string>)

  ghost predicate PartOf(mech: Mechanism, p: Part) {
    OrdersOf(mech, p.orders) && Enumerates(p.attached, mech.secrets)
  }

  function PartContainer(mech: Mechanism, p: Part, target: string): Container
    requires CanCreate(mech, target)
    requires forall k :: k in p.orders.secrets ==> k in mech.secrets
    requires forall k :: k in p.orders.config ==> k in mech.config
    requires forall k :: k in p.attached ==> k in mech.secrets
  {
    WithSecrets(ContainerFor(mech, p.orders, target, SECRETS_DIR), p.attached, mech.secrets)
  }

  predicate CanBuild(plan: Method, target: string) {
    forall i :: 0 <= i < |plan.mechanisms| ==> CanCreate(plan.mechanisms[i], target)
  }

  ghost predicate PartsOf(mechs: seq<Mechanism>, parts: seq<Part>) {
    |parts| == |mechs| && forall i :: 0 <= i < |parts| ==> PartOf(mechs[i], parts[i])
  }

  /** The volumes of all mechanisms, in document order. */
  ghost function AllVolumes(mechs: seq<Mechanism>, parts: seq<Part>): seq<Volume>
    requires PartsOf(mechs, parts)
  {
    if mechs == [] then []
    else
      var n := |mechs| - 1;
      AllVolumes(mechs[..n], parts[..n]) + VolumesFor(parts[n].attached, mechs[n].secrets)
  }

  /** The containers of the job of these mechanisms. */
  ghost predicate ContainersOf(mechs: seq<Mechanism>, parts: seq<Part>, target: string, cs: seq<Container>)
    requires PartsOf(mechs, parts)
    requires forall i :: 0 <= i < |mechs| ==> CanCreate(mechs[i], target)
  {
    |cs| == |mechs| && forall i :: 0 <= i < |cs| ==> cs[i] == PartContainer(mechs[i], parts[i], target)
  }

  /** The container of a mechanism in a job: made as CreateContainer does, with a
      path variable and a read-only mount behind for each secret. */
  ghost predicate PartMade(mech: Mechanism, p: Part, target: string, c: Container)
    requires PartOf(mech, p) && CanCreate(mech, target)
  {
    var n, k, e := |mech.container.mounts|, |p.attached|, |c.env| - |p.attached|;
    && e >= 0 && |c.mounts| == n + k
    && ContainerMade(mech, p.orders, target, "/etc/fencing/secrets/", c.(env := c.env[..e], mounts := c.mounts[..n]))
    && forall i :: 0 <= i < k ==>
         && p.attached[i] in mech.secrets
         && AttachedAs(p.attached[i], mech.secrets[p.attached[i]], c.env[e + i], c.mounts[n + i])
  }

  predicate AttachedAs(key: string, secret: string, path: EnvVar, mount: VolumeMount) {
    && path == EnvVar("SECRETPATH_" + key, "/etc/fencing/secrets/" + "/" + secret)
    && mount == VolumeMount("secret-" + key, true, "/etc/fencing/secrets/" + secret)
  }

  lemma AttachedIs(order: seq<string>, secrets: map<string, string>, i: nat)
    requires i < |order| && forall k :: k in order ==> k in secrets
    ensures order[i] in secrets
    ensures AttachedAs(order[i], secrets[order[i]],
                       SecretPaths(order, secrets, SECRETS_DIR)[i], MountsFor(order, secrets)[i])
  {
    assert order[i] in order;
  }

  lemma PartIsMade(mech: Mechanism, p: Part, target: string)
    requires PartOf(mech, p) && CanCreate(mech, target)
    ensures PartMade(mech, p, target, PartContainer(mech, p, target))
  {
    hide ContainerMade, AttachedAs, ContainerFor, DynamicValue, SecretPath, MountFor, WithSecrets;
    hide SecretPaths, MountsFor;
    var base, c := ContainerFor(mech, p.orders, target, SECRETS_DIR), PartContainer(mech, p, target);
    ContainerIsMade(mech, p.orders, target, SECRETS_DIR);
    OwnMounts(mech, p.orders, target);
    WithSecretsIs(base, p.attached, mech.secrets);
    assert |c.env| - |p.attached| == |base.env| && |mech.container.mounts| == |base.mounts|;
    forall i | 0 <= i < |p.attached|
      ensures p.attached[i] in mech.secrets
      ensures AttachedAs(p.attached[i], mech.secrets[p.attached[i]],
                         c.env[|base.env| + i], c.mounts[|base.mounts| + i])
    {
      AttachedIs(p.attached, mech.secrets, i);
    }
  }

  lemma WithSecretsIs(base: Container, order: seq<string>, secrets: map<string, string>)
    requires forall k :: k in order ==> k in secrets
    ensures var c := WithSecrets(base, order, secrets);
            && |c.env| == |base.env| + |order| && |c.mounts| == |base.mounts| + |order|
            && c.(env := c.env[..|base.env|], mounts := c.mounts[..|base.mounts|]) == base
            && (forall i :: 0 <= i < |order| ==>
                  && c.env[|base.env| + i] == SecretPaths(order, secrets, SECRETS_DIR)[i]
                  && c.mounts[|base.mounts| + i] == MountsFor(order, secrets)[i])
  {
    hide SecretPath, MountFor;
    var c := WithSecrets(base, order, secrets);
    assert c.env[..|base.env|] == base.env && c.mounts[..|base.mounts|] == base.mounts;
  }

  method BuildContainer(mech: Mechanism, target: string)
    returns (made: Option<(Container, seq<Volume>)>, ghost part: Part)
    ensures made.Some? <==> CanCreate(mech, target)
    ensures made.Some? ==>
              && PartOf(mech, part)
              && made.value.0 == PartContainer(mech, part, target)
              && made.value.1 == VolumesFor(part.attached, mech.secrets)
  {
    var c, orders := CreateContainer(mech, target, SECRETS_DIR);
    part := Part(orders, []);
    if c.None? {
      return None, part;
    }
    var vs, c', attached := ProcessSecrets(mech, c.value);
    return Some((c', vs)), Part(orders, attached);
  }

  /** One container per mechanism, in order, or none when some mechanism cannot have one. */
  method BuildContainers(mechs: seq<Mechanism>, target: string)
    returns (built: Option<(seq<Container>, seq<Volume>)>, ghost parts: seq<Part>)
    ensures built.Some? <==> forall i :: 0 <= i < |mechs| ==> CanCreate(mechs[i], target)
    ensures built.Some? ==>
              && PartsOf(mechs, parts)
              && ContainersOf(mechs, parts, target, built.value.0)
              && built.value.1 == AllVolumes(mechs, parts)
  {
    hide PartContainer, CanCreate, OrdersOf, Enumerates;
    var volumes: seq<Volume> := [];
    var containers: seq<Container> := [];
    parts := [];
    for i := 0 to |mechs|
      invariant forall j :: 0 <= j < i ==> CanCreate(mechs[j], target)
      invariant PartsOf(mechs[..i], parts)
      invariant ContainersOf(mechs[..i], parts, target, containers)
      invariant volumes == AllVolumes(mechs[..i], parts)
    {
      var made, part := BuildContainer(mechs[i], target);
      if made.None? {
        return None, parts;
      }
      volumes := volumes + made.value.1;
      containers := containers + [made.value.0];
      assert mechs[..i + 1][..i] == mechs[..i];
      assert (parts + [part])[..i] == parts;
      parts := parts + [part];
    }
    assert mechs[..|mechs|] == mechs;
    return Some((containers, volumes)), parts;
  }

  /** All or nothing: a job that carries every container and volume, or no job. */
  method CreateFencingJob(req: Copy, plan: Method) returns (job: Option<Job>, ghost parts: seq<Part>)
    ensures job.Some? <==> CanBuild(plan, req.target)
    ensures job.Some? ==>
              && PartsOf(plan.mechanisms, parts)
              && ContainersOf(plan.mechanisms, parts, req.target, job.value.containers)
              && job.value.volumes == AllVolumes(plan.mechanisms, parts)
    ensures job.Some? ==>
              forall i :: 0 <= i < |parts| ==>
                PartMade(plan.mechanisms[i], parts[i], req.target, job.value.containers[i])
    ensures job.Some? ==>
              && job.value.generateName == req.name + "-job-"
              && job.value.owner == req.name
              && job.value.labels == JobLabels(req, plan.name)
              && job.value.backoffLimit == plan.retries
  {
    hide PartMade, PartContainer, CanCreate, PartOf;
    var labels := JobLabels(req, plan.name);
    var built;
    built, parts := BuildContainers(plan.mechanisms, req.target);
    if built.None? {
      return None, parts;
    }
    forall i | 0 <= i < |parts|
      ensures PartMade(plan.mechanisms[i], parts[i], req.target, built.value.0[i])
    {
      PartIsMade(plan.mechanisms[i], parts[i], req.target);
    }
    return Some(Job(req.name + "-job-", req.name, labels, plan.retries, built.value.0, built.value.1)), parts;
  }

  // ------------------------------------------------ secrets of a job

  function SecretCount(mechs: seq<Mechanism>): nat {
    if mechs == [] then 0 else SecretCount(mechs[..|mechs| - 1]) + |mechs[|mechs| - 1].secrets|
  }

  function MountCount(cs: seq<Container>): nat {
    if cs == [] then 0 else MountCount(cs[..|cs| - 1]) + |cs[|cs| - 1].mounts|
  }

  /** As the configuration reader builds them: no mounts of their own. */
  predicate NoOwnMounts(mechs: seq<Mechanism>) {
    forall i :: 0 <= i < |mechs| ==> mechs[i].container.mounts == []
  }

  /** One volume and one mount per secret. */
  lemma {:induction false} VolumesMatchMounts(mechs: seq<Mechanism>, parts: seq<Part>,
                                              target: string, cs: seq<Container>)
    requires PartsOf(mechs, parts) && NoOwnMounts(mechs)
    requires forall i :: 0 <= i < |mechs| ==> CanCreate(mechs[i], target)
    requires ContainersOf(mechs, parts, target, cs)
    ensures |AllVolumes(mechs, parts)| == SecretCount(mechs) == MountCount(cs)
  {
    if mechs != [] {
      var n := |mechs| - 1;
      EnumerationLength(parts[n].attached, mechs[n].secrets);
      VolumesMatchMounts(mechs[..n], parts[..n], target, cs[..n]);
    }
  }

  /** v is the volume of a mechanism's key: named after the key, and backed by its secret. */
  predicate KeyVolume(mech: Mechanism, k: string, v: Volume) {
    k in mech.secrets && v == Volume("secret-" + k, mech.secrets[k])
  }

  /** The volumes are those of the keys of the mechanisms, and no others. */
  lemma {:induction false} VolumeOf(mechs: seq<Mechanism>, parts: seq<Part>, v: Volume)
    requires PartsOf(mechs, parts)
    ensures v in AllVolumes(mechs, parts) <==> exists i, k :: 0 <= i < |mechs| && KeyVolume(mechs[i], k, v)
  {
    hide KeyVolume;
    if mechs != [] {
      var n := |mechs| - 1;
      VolumeOf(mechs[..n], parts[..n], v);
      OwnVolumes(mechs[n], parts[n].attached, v);
      assert forall i :: 0 <= i < n ==> mechs[..n][i] == mechs[i];
    }
  }

  lemma OwnVolumes(mech: Mechanism, order: seq<string>, v: Volume)
    requires Enumerates(order, mech.secrets)
    ensures v in VolumesFor(order, mech.secrets) <==> exists k :: KeyVolume(mech, k, v)
  {
    var vs := VolumesFor(order, mech.secrets);
    if v in vs {
      var j :| 0 <= j < |vs| && vs[j] == v;
      assert order[j] in order;
      assert KeyVolume(mech, order[j], v);
    }
    if k :| KeyVolume(mech, k, v) {
      assert k in order;
      var j :| 0 <= j < |order| && order[j] == k;
      assert vs[j] == v;
    }
  }

  /** Attaching secrets adds a path variable and a mount for each, and no other mount. */
  lemma SecretsAttached(c: Container, order: seq<string>, secrets: map<string, string>)
    requires Enumerates(order, secrets) && c.mounts == []
    ensures forall k :: k in secrets ==>
              && SecretPath(SECRETS_DIR, k, secrets[k]) in WithSecrets(c, order, secrets).env
              && MountFor(k, secrets[k]) in WithSecrets(c, order, secrets).mounts
    ensures forall mount :: mount in WithSecrets(c, order, secrets).mounts ==>
              exists k :: k in secrets && mount == MountFor(k, secrets[k])
  {
    hide SecretPath, MountFor;
    forall k | k in secrets
      ensures SecretPath(SECRETS_DIR, k, secrets[k]) in SecretPaths(order, secrets, SECRETS_DIR)
      ensures MountFor(k, secrets[k]) in MountsFor(order, secrets)
    {
      assert k in order;
      var j :| 0 <= j < |order| && order[j] == k;
      assert SecretPaths(order, secrets, SECRETS_DIR)[j] == SecretPath(SECRETS_DIR, k, secrets[k]);
      assert MountsFor(order, secrets)[j] == MountFor(k, secrets[k]);
    }
    forall mount | mount in MountsFor(order, secrets)
      ensures exists k :: k in secrets && mount == MountFor(k, secrets[k])
    {
      var j :| 0 <= j < |order| && MountsFor(order, secrets)[j] == mount;
      assert order[j] in secrets;
    }
  }

  lemma OwnMounts(mech: Mechanism, o: Orders, target: string)
    requires OrdersOf(mech, o) && CanCreate(mech, target)
    ensures ContainerFor(mech, o, target, SECRETS_DIR).mounts == mech.container.mounts
  {
  }

  /** A mount gives a container the secret of key k: read-only, at the secret's
      place, from a volume that the job declares for just that secret. */
  ghost predicate Provides(mount: VolumeMount, k: string, secret: string, volumes: seq<Volume>) {
    && mount.readOnly
    && mount.mountPath == "/etc/fencing/secrets/" + secret
    && mount.name == "secret-" + k
    && exists v :: v in volumes && v.name == mount.name && v.secretName == secret
  }

  lemma MountProvides(mechs: seq<Mechanism>, parts: seq<Part>, i: nat, k: string)
    requires PartsOf(mechs, parts) && i < |mechs| && k in mechs[i].secrets
    ensures Provides(MountFor(k, mechs[i].secrets[k]), k, mechs[i].secrets[k], AllVolumes(mechs, parts))
  {
    var v := Volume("secret-" + k, mechs[i].secrets[k]);
    assert KeyVolume(mechs[i], k, v);
    VolumeOf(mechs, parts, v);
  }

  /** Every secret of a mechanism reaches its container as a path variable and
      a mount of a declared volume, and there is no other mount. */
  lemma SecretsReachContainers(mechs: seq<Mechanism>, parts: seq<Part>, target: string, cs: seq<Container>, i: nat)
    requires PartsOf(mechs, parts) && NoOwnMounts(mechs)
    requires forall j :: 0 <= j < |mechs| ==> CanCreate(mechs[j], target)
    requires ContainersOf(mechs, parts, target, cs) && i < |mechs|
    ensures forall k :: k in mechs[i].secrets ==>
              && EnvVar("SECRETPATH_" + k, "/etc/fencing/secrets/" + "/" + mechs[i].secrets[k]) in cs[i].env
              && exists mount :: mount in cs[i].mounts
                                 && Provides(mount, k, mechs[i].secrets[k], AllVolumes(mechs, parts))
    ensures forall mount :: mount in cs[i].mounts ==>
              exists k :: k in mechs[i].secrets && Provides(mount, k, mechs[i].secrets[k], AllVolumes(mechs, parts))
  {
    hide MountFor, ContainerFor, WithSecrets, VolumeName, Provides, AllVolumes;
    assert PartOf(mechs[i], parts[i]);
    OwnMounts(mechs[i], parts[i].orders, target);
    SecretsAttached(ContainerFor(mechs[i], parts[i].orders, target, SECRETS_DIR), parts[i].attached, mechs[i].secrets);
    forall k | k in mechs[i].secrets
      ensures Provides(MountFor(k, mechs[i].secrets[k]), k, mechs[i].secrets[k], AllVolumes(mechs, parts))
    {
      MountProvides(mechs, parts, i, k);
    }
  }

  /** A mechanism read from a configuration has no mounts of its own. */
  lemma ParsedHasNoMounts(cfg: Entries)
    ensures NoOwnMounts(MethodOf(cfg).mechanisms)
  {
    hide GetString, GetInt, ListAt, ToInt32, FirstStrings, GetBoolWithDefault;
    EachAt(ListAt(cfg, "mechanisms"), MechanismOf);
  }

  /** The same for any method that is read from a configuration: as many volumes
      as secrets as mounts, and every container has exactly its own. */
  lemma ParsedJobSecrets(cfg: Entries, parts: seq<Part>, target: string, cs: seq<Container>, i: nat)
    requires var mechs := MethodOf(cfg).mechanisms;
             && PartsOf(mechs, parts) && CanBuild(MethodOf(cfg), target)
             && ContainersOf(mechs, parts, target, cs) && i < |mechs|
    ensures var mechs := MethodOf(cfg).mechanisms;
            && |AllVolumes(mechs, parts)| == SecretCount(mechs) == MountCount(cs)
            && (forall k :: k in mechs[i].secrets ==>
                  && EnvVar("SECRETPATH_" + k, "/etc/fencing/secrets/" + "/" + mechs[i].secrets[k]) in cs[i].env
                  && exists mount :: mount in cs[i].mounts
                                     && Provides(mount, k, mechs[i].secrets[k], AllVolumes(mechs, parts)))
            && (forall mount :: mount in cs[i].mounts ==>
                  exists k :: k in mechs[i].secrets
                              && Provides(mount, k, mechs[i].secrets[k], AllVolumes(mechs, parts)))
  {
    hide MethodOf, Provides, PartContainer, CanCreate, PartOf, AllVolumes;
    ParsedHasNoMounts(cfg);
    VolumesMatchMounts(MethodOf(cfg).mechanisms, parts, target, cs);
    SecretsReachContainers(MethodOf(cfg).mechanisms, parts, target, cs, i);
  }

  /** Two mechanisms give one secret key different secrets. */
  ghost predicate KeyClash(mechs: seq<Mechanism>, i: nat, j: nat, k: string)
    requires i < |mechs| && j < |mechs|
  {
    k in mechs[i].secrets && k in mechs[j].secrets && mechs[i].secrets[k] != mechs[j].secrets[k]
  }

  /** A volume name stands for one secret exactly when no two mechanisms use a
      key for different secrets: the names carry the key alone. */
  lemma VolumeNamesUnambiguous(mechs: seq<Mechanism>, parts: seq<Part>)
    requires PartsOf(mechs, parts)
    ensures (forall v, w :: v in AllVolumes(mechs, parts) && w in AllVolumes(mechs, parts) && v.name == w.name ==>
               v == w)
       <==> (forall i: nat, j: nat, k :: i < |mechs| && j < |mechs| ==> !KeyClash(mechs, i, j, k))
  {
    var all := AllVolumes(mechs, parts);
    if i: nat, j: nat, k :| i < |mechs| && j < |mechs| && KeyClash(mechs, i, j, k) {
      var v, w := Volume("secret-" + k, mechs[i].secrets[k]), Volume("secret-" + k, mechs[j].secrets[k]);
      assert KeyVolume(mechs[i], k, v) && KeyVolume(mechs[j], k, w);
      VolumeOf(mechs, parts, v);
      VolumeOf(mechs, parts, w);
      assert v in all && w in all && v.name == w.name && v != w;
    } else {
      forall v, w | v in all && w in all && v.name == w.name ensures v == w {
        VolumeOf(mechs, parts, v);
        VolumeOf(mechs, parts, w);
        var i, k :| 0 <= i < |mechs| && KeyVolume(mechs[i], k, v);
        var j, l :| 0 <= j < |mechs| && KeyVolume(mechs[j], l, w);
        assert ("secret-" + k)[7..] == k && ("secret-" + l)[7..] == l;
        assert !KeyClash(mechs, i, j, k);
      }
    }
  }
}
