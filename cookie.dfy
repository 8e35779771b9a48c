/** The Docker driver's cookie: the per-task object that fills in the
    container's launch configuration one attribute at a time and then takes
    the container through validate, pull, create, run, pause/unpause and
    close, holding at most one pool or network grant and one image-cache
    claim, all of which Close gives back. */
module Docker {

  import opened Base
  import opened Text
  import opened Model
  import opened Collaborators
  import opened Options

  const FN_USER_ID: nat := 1000
  const FN_GROUP_ID: nat := 1000

  /** The user and group every unprivileged container runs as,
      `fmt.Sprintf("%v:%v", FnUserId, FnGroupId)`. */
  function FnDockerUser(): (r: string)
    ensures r == "1000:1000"
  {
    assert Decimal(1) == "1" && Decimal(10) == "10" && Decimal(100) == "100";
    Decimal(FN_USER_ID) + ":" + Decimal(FN_GROUP_ID)
  }

  class Cookie {
    /** The task this cookie runs. */
    const task: Task
    /** The driver the cookie belongs to. */
    const drv: Driver
    /** The task's Auther capability; null when the task has none. */
    const auther: Auther?

    /** The pre-fork pool container whose namespaces the task joins, or "". */
    var poolId: string
    /** The Docker network allocated to the task, or "". */
    var netId: string
    var opts: Config
    var hostOpts: HostConfig
    /** The registry of the task's image, for the auth lookup. */
    var imgReg: string
    /** The image record taken by ValidateImage (nil until then). */
    var image: Option<CachedImage>
    /** Set by the first CreateContainer, whatever the create call answered. */
    var containerCreated: bool

    /** The cookie holds at most one of a pool grant and a network grant, the
        network mode names the grant it holds, and a container is only ever
        created from a validated image. */
    ghost predicate Valid()
      reads this
    {
      && (poolId == "" || netId == "")
      && (poolId != "" ==> hostOpts.networkMode == PoolNetworkMode(poolId))
      && (netId != "" ==> hostOpts.networkMode == netId)
      && (containerCreated ==> image.Some?)
    }

    constructor (task: Task, drv: Driver, auther: Auther?, opts: Config, hostOpts: HostConfig)
      ensures Valid()
      ensures this.task == task && this.drv == drv && this.auther == auther
      ensures this.opts == opts && this.hostOpts == hostOpts
      ensures poolId == "" && netId == "" && imgReg == ""
      ensures image == None && !containerCreated
    {
      this.task := task;
      this.drv := drv;
      this.auther := auther;
      this.opts := opts;
      this.hostOpts := hostOpts;
      poolId, netId, imgReg := "", "", "";
      image := None;
      containerCreated := false;
    }

    // ---------------------------------------------------------------------
    // Configuration steps: each reads one task attribute and writes only its
    // own fields of the launch records.
    // ---------------------------------------------------------------------

    method ConfigureImage()
      requires Valid()
      modifies this`imgReg
      ensures Valid()
      ensures imgReg == drv.parseRegistry(task.image)
    {
      imgReg := drv.parseRegistry(task.image);
    }

    method ConfigureLabels()
      requires Valid()
      modifies this`opts
      ensures Valid()
      ensures drv.conf.containerLabelTag == "" ==> opts == old(opts)
      ensures drv.conf.containerLabelTag != "" ==>
        opts == old(opts).(labels := old(opts.labels)[drv.classifierLabel := drv.conf.containerLabelTag]
                                                     [drv.instanceLabel := drv.instanceId])
    {
      if drv.conf.containerLabelTag == "" {
        return;
      }
      var labels := opts.labels[drv.classifierLabel := drv.conf.containerLabelTag];
      labels := labels[drv.instanceLabel := drv.instanceId];
      opts := opts.(labels := labels);
    }

    method ConfigureLogger()
      requires Valid()
      modifies this`hostOpts
      ensures Valid()
      ensures task.loggerConfig.url == "" ==> hostOpts == old(hostOpts).(logConfig := LogConfig("none", map[]))
      ensures task.loggerConfig.url != "" ==>
        var syslog := map["syslog-address" := task.loggerConfig.url, "syslog-facility" := "user",
                          "syslog-format" := "rfc5424"];
        hostOpts == old(hostOpts).(logConfig := LogConfig("syslog",
          if task.loggerConfig.tags == [] then syslog
          else syslog["tag" := Join(TagLines(task.loggerConfig.tags), ',')]))
    {
      var conf := task.loggerConfig;
      if conf.url == "" {
        hostOpts := hostOpts.(logConfig := LogConfig("none", map[]));
        return;
      }
      hostOpts := hostOpts.(logConfig := LogConfig("syslog",
        map["syslog-address" := conf.url, "syslog-facility" := "user", "syslog-format" := "rfc5424"]));
      var tags := TagStrings(conf.tags);
      if |tags| > 0 {
        var config := hostOpts.logConfig.config["tag" := Join(tags, ',')];
        hostOpts := hostOpts.(logConfig := hostOpts.logConfig.(config := config));
      }
    }

    /** A memory limit sets memory, memory+swap and kernel memory to the
        same value and turns swapping off; without one nothing changes. */
    method ConfigureMem()
      requires Valid()
      modifies this`hostOpts
      ensures Valid()
      ensures task.memory == 0 ==> hostOpts == old(hostOpts)
      ensures task.memory != 0 ==>
        var mem := Int64OfUint64(task.memory);
        hostOpts == old(hostOpts).(memory := mem, memorySwap := mem, kernelMemory := mem,
                                   memorySwappiness := Some(0))
      ensures 0 < task.memory <= MAX_INT64 ==>
        hostOpts.memory == hostOpts.memorySwap == hostOpts.kernelMemory == task.memory
    {
      if task.memory == 0 {
        return;
      }
      var mem := Int64OfUint64(task.memory);
      hostOpts := hostOpts.(memory := mem, memorySwap := mem, kernelMemory := mem,
                            memorySwappiness := Some(0));
    }

    method ConfigureFsSize()
      requires Valid()
      modifies this`hostOpts
      ensures Valid()
      ensures task.fsSize == 0 ==> hostOpts == old(hostOpts)
      ensures task.fsSize != 0 ==>
        hostOpts == old(hostOpts).(storageOpt := old(hostOpts.storageOpt)["size" := StorageSize(task.fsSize)])
    {
      if task.fsSize == 0 {
        return;
      }
      hostOpts := hostOpts.(storageOpt := hostOpts.storageOpt["size" := StorageSize(task.fsSize)]);
    }

    method ConfigurePIDs()
      requires Valid()
      modifies this`hostOpts
      ensures Valid()
      ensures task.pids == 0 ==> hostOpts == old(hostOpts)
      ensures task.pids != 0 ==> hostOpts == old(hostOpts).(pidsLimit := Some(Int64OfUint64(task.pids)))
    {
      if task.pids == 0 {
        return;
      }
      hostOpts := hostOpts.(pidsLimit := Some(Int64OfUint64(task.pids)));
    }

    /** Applies the four soft limits independently: one that is absent or
        too large for an int64 is skipped and the others still apply; the
        existing entries are kept. */
    method ConfigureULimits()
      requires Valid()
      modifies this`hostOpts
      ensures Valid()
      ensures hostOpts == old(hostOpts).(ulimits := old(hostOpts.ulimits)
        + UlimitEntry("nofile", task.openFiles) + UlimitEntry("memlock", task.lockedMemory)
        + UlimitEntry("sigpending", task.pendingSignals) + UlimitEntry("msgqueue", task.messageQueue))
    {
      ConfigureULimit("nofile", task.openFiles);
      ConfigureULimit("memlock", task.lockedMemory);
      ConfigureULimit("sigpending", task.pendingSignals);
      ConfigureULimit("msgqueue", task.messageQueue);
    }

    method ConfigureULimit(name: string, value: Option<uint64>)
      requires Valid()
      modifies this`hostOpts
      ensures Valid()
      ensures hostOpts == old(hostOpts).(ulimits := old(hostOpts.ulimits) + UlimitEntry(name, value))
    {
      if value.None? {
        return;
      }
      var value64 := Int64OfUint64(value.value);
      if value64 < 0 {
        return;
      }
      hostOpts := hostOpts.(ulimits := hostOpts.ulimits + [Ulimit(name, value64, value64)]);
    }

    /** /tmp gets a tmpfs when the task asks for a size or the root
        filesystem is read-only; the option is empty exactly when no size
        was asked for. */
    method ConfigureTmpFs()
      requires Valid()
      modifies this`hostOpts
      ensures Valid()
      ensures task.tmpFsSize == 0 && !drv.conf.enableReadOnlyRootFs ==> hostOpts == old(hostOpts)
      ensures task.tmpFsSize != 0 || drv.conf.enableReadOnlyRootFs ==>
        hostOpts == old(hostOpts).(tmpfs := old(hostOpts.tmpfs)["/tmp" := TmpFsOption(task.tmpFsSize, drv.conf.maxTmpFsInodes)])
    {
      if task.tmpFsSize == 0 && !drv.conf.enableReadOnlyRootFs {
        return;
      }
      var option := TmpFsOption(task.tmpFsSize, drv.conf.maxTmpFsInodes);
      hostOpts := hostOpts.(tmpfs := hostOpts.tmpfs["/tmp" := option]);
    }

    /** Binds the host's unix-socket directory into the container. */
    method ConfigureIOFS()
      requires Valid()
      modifies this`hostOpts
      ensures Valid()
      ensures task.udsDockerPath == "" ==> hostOpts == old(hostOpts)
      ensures task.udsDockerPath != "" ==>
        hostOpts == old(hostOpts).(binds := old(hostOpts.binds) + [Bind(task.udsDockerPath, task.udsDockerDest)])
    {
      if task.udsDockerPath == "" {
        return;
      }
      hostOpts := hostOpts.(binds := hostOpts.binds + [Bind(task.udsDockerPath, task.udsDockerDest)]);
    }

    /** Declares every container directory as a volume and appends one bind
        per mapping, in the task's order. */
    method ConfigureVolumes()
      requires Valid()
      modifies this`opts, this`hostOpts
      ensures Valid()
      ensures opts == old(opts).(volumes := old(opts.volumes) + ContainerDirs(task.volumes))
      ensures hostOpts == old(hostOpts).(binds := old(hostOpts.binds) + VolumeBinds(task.volumes))
    {
      if |task.volumes| == 0 {
        assert ContainerDirs(task.volumes) == {} && VolumeBinds(task.volumes) == [];
        return;
      }
      for i := 0 to |task.volumes|
        invariant Valid()
        invariant opts == old(opts).(volumes := old(opts.volumes) + ContainerDirs(task.volumes[..i]))
        invariant hostOpts == old(hostOpts).(binds := old(hostOpts.binds) + VolumeBinds(task.volumes[..i]))
      {
        var mapping := task.volumes[i];
        ghost var done := task.volumes[..i];
        assert task.volumes[..i + 1] == done + [mapping];
        ContainerDirsAppend(done, mapping);
        opts := opts.(volumes := opts.volumes + {mapping.containerDir});
        hostOpts := hostOpts.(binds := hostOpts.binds + [Bind(mapping.hostDir, mapping.containerDir)]);
      }
      assert task.volumes[..|task.volumes|] == task.volumes;
    }

    /** Translates milli-CPUs into a CFS quota over a fixed 100000 µs period. */
    method ConfigureCPU()
      requires Valid()
      modifies this`hostOpts
      ensures Valid()
      ensures task.cpus == 0 ==> hostOpts == old(hostOpts)
      ensures task.cpus != 0 ==> hostOpts == old(hostOpts).(cpuQuota := CpuQuota(task.cpus), cpuPeriod := CPU_PERIOD)
      ensures 0 < task.cpus && task.cpus * 100 <= MAX_INT64 ==>
        hostOpts.cpuQuota == task.cpus * 100 && hostOpts.cpuPeriod == 100000
    {
      if task.cpus == 0 {
        return;
      }
      hostOpts := hostOpts.(cpuQuota := CpuQuota(task.cpus), cpuPeriod := CPU_PERIOD);
    }

    method ConfigureWorkDir()
      requires Valid()
      modifies this`opts
      ensures Valid()
      ensures task.workDir == "" ==> opts == old(opts)
      ensures task.workDir != "" ==> opts == old(opts).(workingDir := task.workDir)
    {
      if task.workDir == "" {
        return;
      }
      opts := opts.(workingDir := task.workDir);
    }

    /** Picks the network mode: an existing mode is kept, a task without
        network gets "none", else a pool container's namespaces are tried
        first and a pre-existing network second. At most one grant is taken
        and the network mode names it. */
    method ConfigureNetwork()
      requires Valid()
      modifies this`hostOpts, this`poolId, this`netId, drv.pool, drv.network
      ensures Valid()
      ensures old(hostOpts.networkMode) != "" || task.disableNet ==>
        && poolId == old(poolId) && netId == old(netId)
        && (drv.pool != null ==> drv.pool.calls == old(drv.pool.calls))
        && drv.network.calls == old(drv.network.calls)
      ensures old(hostOpts.networkMode) != "" ==> hostOpts == old(hostOpts)
      ensures old(hostOpts.networkMode) == "" && task.disableNet ==>
        hostOpts == old(hostOpts).(networkMode := "none")
      ensures old(hostOpts.networkMode) == "" && !task.disableNet ==>
        && (drv.pool == null ==> poolId == "")
        && (drv.pool != null ==>
              && drv.pool.calls != [] && LastCall(drv.pool.calls).PoolAllocated?
              && drv.pool.calls == old(drv.pool.calls) + [LastCall(drv.pool.calls)]
              && LastCall(drv.pool.calls).poolId == poolId)
        && (poolId != "" ==> netId == "" && drv.network.calls == old(drv.network.calls))
        && (poolId == "" ==> drv.network.calls == old(drv.network.calls) + [NetworkAllocated(netId)])
        && hostOpts == old(hostOpts).(networkMode := if poolId != "" then PoolNetworkMode(poolId) else netId)
    {
      if hostOpts.networkMode != "" {
        return;
      }
      if task.disableNet {
        hostOpts := hostOpts.(networkMode := "none");
        return;
      }
      if drv.pool != null {
        var id, err := drv.pool.AllocPoolId();
        if id != "" {
          hostOpts := hostOpts.(networkMode := PoolNetworkMode(id));
          poolId := id;
          return;
        }
      }
      var id := drv.network.AllocNetwork();
      if id != "" {
        hostOpts := hostOpts.(networkMode := id);
        netId := id;
      }
    }

    /** The hostname is only set while no network mode is, as Docker refuses
        the two together. */
    method ConfigureHostname()
      requires Valid()
      modifies this`opts
      ensures Valid()
      ensures hostOpts.networkMode != "" ==> opts == old(opts)
      ensures hostOpts.networkMode == "" ==> opts == old(opts).(hostname := drv.hostname)
    {
      if hostOpts.networkMode != "" {
        return;
      }
      opts := opts.(hostname := drv.hostname);
    }

    /** The command line becomes its white-space separated words. */
    method ConfigureCmd()
      requires Valid()
      modifies this`opts
      ensures Valid()
      ensures task.command == "" ==> opts == old(opts)
      ensures task.command != "" ==> opts == old(opts).(cmd := Fields(task.command))
    {
      if task.command == "" {
        return;
      }
      opts := opts.(cmd := Fields(task.command));
    }

    /** Appends one `NAME=VALUE` entry per environment variable. Go visits
        the map in no fixed order; `order` is the order this run took, and
        lists every variable exactly once. */
    method ConfigureEnv() returns (ghost order: seq<string>)
      requires Valid()
      modifies this`opts
      ensures Valid()
      ensures forall i :: 0 <= i < |order| ==> order[i] in task.envVars
      ensures forall name :: name in task.envVars ==> name in order
      ensures forall i, j :: 0 <= i < j < |order| ==> order[i] != order[j]
      ensures multiset(order) == multiset(task.envVars.Keys)
      ensures opts == old(opts).(env := old(opts.env) + EnvLines(order, task.envVars))
    {
      order := [];
      if |task.envVars| == 0 {
        assert EnvLines(order, task.envVars) == [];
        assert task.envVars.Keys == {};
        ListsEachOnce(order, task.envVars.Keys);
        return;
      }
      var remaining := task.envVars.Keys;
      while remaining != {}
        invariant Valid()
        invariant remaining <= task.envVars.Keys
        invariant forall i :: 0 <= i < |order| ==> order[i] in task.envVars
        invariant multiset(order) + multiset(remaining) == multiset(task.envVars.Keys)
        invariant opts == old(opts).(env := old(opts.env) + EnvLines(order, task.envVars))
        decreases remaining
      {
        var name :| name in remaining;
        assert EnvLines(order + [name], task.envVars)
            == EnvLines(order, task.envVars) + [EnvLine(name, task.envVars[name])];
        opts := opts.(env := opts.env + [name + "=" + task.envVars[name]]);
        order := order + [name];
        remaining := remaining - {name};
      }
      ListsEachOnce(order, task.envVars.Keys);
    }

    /** Unless the driver allows privileged containers, runs the task as the
        fixed unprivileged user with every capability dropped and privilege
        escalation forbidden. */
    method ConfigureSecurity()
      requires Valid()
      modifies this`opts, this`hostOpts
      ensures Valid()
      ensures drv.conf.disableUnprivilegedContainers ==> opts == old(opts) && hostOpts == old(hostOpts)
      ensures !drv.conf.disableUnprivilegedContainers ==>
        && opts == old(opts).(user := "1000:1000")
        && hostOpts == old(hostOpts).(capDrop := ["all"], securityOpt := ["no-new-privileges:true"])
    {
      if drv.conf.disableUnprivilegedContainers {
        return;
      }
      opts := opts.(user := FnDockerUser());
      hostOpts := hostOpts.(capDrop := ["all"], securityOpt := ["no-new-privileges:true"]);
    }

    // ---------------------------------------------------------------------
    // Lifecycle
    // ---------------------------------------------------------------------

    /** Removes the container if one was (or may have been) created, then
        gives back the pool grant, the network grant and the image-cache
        claim, each whatever happened before; the result is the removal's
        error. */
    method Close() returns (err: Option<Error>)
      requires Valid()
      modifies drv.docker, drv.pool, drv.network, drv.imgCache
      ensures Valid()
      ensures drv.docker.calls == old(drv.docker.calls)
        + (if containerCreated then [Removed(task.id, true, true, err)] else [])
      ensures !containerCreated ==> err == None
      ensures drv.pool != null ==>
        drv.pool.calls == old(drv.pool.calls) + (if poolId != "" then [PoolFreed(poolId)] else [])
      ensures drv.network.calls == old(drv.network.calls) + (if netId != "" then [NetworkFreed(netId)] else [])
      ensures drv.imgCache != null ==>
        drv.imgCache.calls == old(drv.imgCache.calls) + (if image.Some? then [MarkedFree(image.value)] else [])
    {
      err := None;
      if containerCreated {
        err := drv.docker.RemoveContainer(task.id, true, true);
      }
      if poolId != "" && drv.pool != null {
        drv.pool.FreePoolId(poolId);
      }
      if netId != "" {
        drv.network.FreeNetwork(netId);
      }
      if image.Some? && drv.imgCache != null {
        drv.imgCache.MarkFree(image.value);
      }
    }

    method Run() returns (result: WaitResult, err: Option<Error>)
      modifies drv.docker
      ensures drv.docker.calls == old(drv.docker.calls) + [Ran(task.id, result, err)]
    {
      result, err := drv.docker.Run(task.id);
    }

    /** The launch configuration the cookie has built. */
    function ContainerOptions(): Config
      reads this
    {
      opts
    }

    method Freeze() returns (err: Option<Error>)
      modifies drv.docker
      ensures drv.docker.calls == old(drv.docker.calls) + [Paused(task.id, err)]
    {
      err := drv.docker.PauseContainer(task.id);
    }

    method Unfreeze() returns (err: Option<Error>)
      modifies drv.docker
      ensures drv.docker.calls == old(drv.docker.calls) + [Unpaused(task.id, err)]
    {
      err := drv.docker.UnpauseContainer(task.id);
    }

    /** The credentials for pulling the task's image: the registry's static
        ones, replaced by the task's own when it has an Auther that answers
        with a config. An Auther error is returned with the static ones. */
    method AuthImage() returns (config: AuthConfig, err: Option<Error>)
      modifies auther
      ensures auther == null ==> config == drv.findRegistryConfig(imgReg) && err == None
      ensures auther != null ==>
        && auther.calls != [] && LastCall(auther.calls).Authenticated?
        && auther.calls == old(auther.calls) + [LastCall(auther.calls)]
        && LastCall(auther.calls).ref == task.image
        && err == LastCall(auther.calls).err
        && config == (if err.None? && LastCall(auther.calls).customAuth.Some?
                      then LastCall(auther.calls).customAuth.value
                      else drv.findRegistryConfig(imgReg))
    {
      config := drv.findRegistryConfig(imgReg);
      err := None;
      if auther != null {
        var authConfig, e := auther.DockerAuth(task.image);
        if e.Some? {
          return config, e;
        }
        if authConfig.Some? {
          config := authConfig.value;
        }
      }
    }

    /** Inspects the task's image unless an image record is already held.
        "No such image" asks for a pull; any other inspect error is returned
        with no record taken. An inspected image is recorded and claimed in
        the cache: by Update when it declares volumes the driver forbids
        (reported as ImageWithVolume), by MarkBusy otherwise. */
    method ValidateImage() returns (needsPull: bool, err: Option<Error>)
      requires Valid()
      modifies this`image, drv.docker, drv.imgCache
      ensures Valid()
      ensures old(image).Some? ==>
        && !needsPull && err == None && image == old(image)
        && drv.docker.calls == old(drv.docker.calls)
        && (drv.imgCache != null ==> drv.imgCache.calls == old(drv.imgCache.calls))
      ensures old(image).None? ==>
        && drv.docker.calls != [] && LastCall(drv.docker.calls).Inspected?
        && drv.docker.calls == old(drv.docker.calls) + [LastCall(drv.docker.calls)]
        && LastCall(drv.docker.calls).ref == task.image
      ensures old(image).None? && LastCall(drv.docker.calls).err.Some? ==>
        && needsPull == (LastCall(drv.docker.calls).err == Some(NoSuchImage))
        && err == (if needsPull then None else LastCall(drv.docker.calls).err)
        && image == None
        && (drv.imgCache != null ==> drv.imgCache.calls == old(drv.imgCache.calls))
      ensures old(image).None? && LastCall(drv.docker.calls).err.None? ==>
        var img := LastCall(drv.docker.calls).img;
        && !needsPull
        && err == (if HasForbiddenVolumes(drv.conf, img) then Some(ImageWithVolume) else None)
        && image == Some(CachedImageOf(img))
        && (drv.imgCache != null ==>
              drv.imgCache.calls == old(drv.imgCache.calls)
                + [if err.Some? then Updated(CachedImageOf(img)) else MarkedBusy(CachedImageOf(img))])
    {
      if image.Some? {
        return false, None;
      }
      var img, e := drv.docker.ImageInspectWithRaw(task.image);
      if e == Some(NoSuchImage) {
        return true, None;
      }
      if e.Some? {
        return false, e;
      }
      err := None;
      if !drv.conf.imageEnableVolume && img.config.Some? && |img.config.value.volumes| > 0 {
        err := Some(ImageWithVolume);
      }
      image := Some(CachedImage(img.id, img.parent, img.repoTags, Uint64OfInt64(img.size)));
      if drv.imgCache != null {
        if err == Some(ImageWithVolume) {
          drv.imgCache.Update(image.value);
        } else {
          drv.imgCache.MarkBusy(image.value);
        }
      }
      needsPull := false;
    }

    /** Pulls the task's image unless an image record is already held. An
        authentication error stops before the puller is asked; otherwise the
        result is the puller's. The pull does not record the image: a second
        ValidateImage does. */
    method PullImage() returns (err: Option<Error>)
      requires Valid()
      modifies drv.imgPuller, auther
      ensures Valid()
      ensures old(image).Some? ==>
        && err == None && drv.imgPuller.calls == old(drv.imgPuller.calls)
        && (auther != null ==> auther.calls == old(auther.calls))
      ensures old(image).None? && auther != null ==>
        && auther.calls != [] && LastCall(auther.calls).Authenticated?
        && auther.calls == old(auther.calls) + [LastCall(auther.calls)]
        && LastCall(auther.calls).ref == task.image
      ensures old(image).None? && auther != null && LastCall(auther.calls).err.Some? ==>
        err == LastCall(auther.calls).err && drv.imgPuller.calls == old(drv.imgPuller.calls)
      ensures old(image).None? && (auther == null || LastCall(auther.calls).err.None?) ==>
        var auth := if auther != null && LastCall(auther.calls).customAuth.Some?
                    then LastCall(auther.calls).customAuth.value
                    else drv.findRegistryConfig(imgReg);
        drv.imgPuller.calls == old(drv.imgPuller.calls) + [Pulled(auth, task.image, err)]
    {
      if image.Some? {
        return None;
      }
      var config, e := AuthImage();
      if e.Some? {
        return e;
      }
      err := drv.imgPuller.PullImage(config, task.image);
    }

    /** Creates the container once. The first call marks the container as
        created before it looks at the answer, so a failed create is still
        removed by Close and is not retried; "no such image" (the image was
        evicted after the pull) is reported as server-busy. */
    method CreateContainer() returns (err: Option<Error>)
      requires Valid()
      requires image.Some?
      modifies this`containerCreated, drv.docker
      ensures Valid()
      ensures containerCreated
      ensures old(containerCreated) ==> err == None && drv.docker.calls == old(drv.docker.calls)
      ensures !old(containerCreated) ==>
        && drv.docker.calls != [] && LastCall(drv.docker.calls).Created?
        && drv.docker.calls == old(drv.docker.calls) + [LastCall(drv.docker.calls)]
        && LastCall(drv.docker.calls) == Created(opts, hostOpts, task.id, LastCall(drv.docker.calls).err)
        && err == (if LastCall(drv.docker.calls).err == Some(NoSuchImage) then Some(CallTimeoutServerBusy)
                   else LastCall(drv.docker.calls).err)
    {
      if containerCreated {
        return None;
      }
      var e := drv.docker.ContainerCreate(opts, hostOpts, task.id);
      containerCreated := true;
      if e == Some(NoSuchImage) {
        return Some(CallTimeoutServerBusy);
      }
      if e.Some? {
        return e;
      }
      return None;
    }
  }

  /** The image declares volumes while the driver forbids them. */
  predicate HasForbiddenVolumes(conf: DriverConf, img: Image) {
    !conf.imageEnableVolume && img.config.Some? && |img.config.value.volumes| > 0
  }

  /** The record kept of an inspected image; Go converts its int64 size to
      uint64. */
  function CachedImageOf(img: Image): (r: CachedImage)
    ensures r.id == img.id && r.parentId == img.parent && r.repoTags == img.repoTags
    ensures img.size >= 0 ==> r.size == img.size
    ensures (r.size - img.size) % TWO_TO_64 == 0
  {
    CachedImage(img.id, img.parent, img.repoTags, Uint64OfInt64(img.size))
  }
}
