/** The values the cookie reads and writes: the task it runs, the driver's
    configuration, the two Docker launch records it fills in, the image
    records, the errors it tells apart, and the entries of the collaborators'
    call logs. */
module Model {

  import opened Base

  /** The errors the cookie tells apart. Go compares them by identity
      (`err == docker.ErrNoSuchImage`); every other error is `Failed`. */
  datatype Error =
    | NoSuchImage            // docker.ErrNoSuchImage
    | ImageWithVolume        // ErrImageWithVolume, an HTTP 400 API error
    | CallTimeoutServerBusy  // models.ErrCallTimeoutServerBusy, an HTTP 503 API error
    | Failed(reason: string) // any other error a collaborator returns

  datatype LoggerTag = LoggerTag(name: string, value: string)

  datatype LoggerConfig = LoggerConfig(url: string, tags: seq<LoggerTag>)

  /** One `[2]string` of a task's volumes: host directory, container directory. */
  datatype VolumeMapping = VolumeMapping(hostDir: string, containerDir: string)

  /** The task attributes the configurator and the lifecycle read
      (drivers.ContainerTask). */
  datatype Task = Task(
    id: string,
    image: string,
    memory: uint64,
    cpus: uint64,                 // milli-CPUs
    fsSize: uint64,               // MB
    pids: uint64,
    tmpFsSize: uint64,            // MB
    openFiles: Option<uint64>,
    lockedMemory: Option<uint64>,
    pendingSignals: Option<uint64>,
    messageQueue: Option<uint64>,
    udsDockerPath: string,
    udsDockerDest: string,
    volumes: seq<VolumeMapping>,
    workDir: string,
    command: string,
    envVars: map<string, string>,
    loggerConfig: LoggerConfig,
    disableNet: bool
  )

  /** The driver-wide settings the cookie consults. */
  datatype DriverConf = DriverConf(
    containerLabelTag: string,
    enableReadOnlyRootFs: bool,
    maxTmpFsInodes: uint64,
    imageEnableVolume: bool,
    disableUnprivilegedContainers: bool
  )

  /** units.Ulimit */
  datatype Ulimit = Ulimit(name: string, soft: int64, hard: int64)

  /** container.LogConfig; a nil `Config` map is the empty map. */
  datatype LogConfig = LogConfig(logType: string, config: map<string, string>)

  /** The fields of container.Config the cookie writes. A nil map or slice is
      the empty one; `volumes` is the key set of Go's map[string]struct{}. */
  datatype Config = Config(
    labels: map<string, string>,
    volumes: set<string>,
    workingDir: string,
    hostname: string,
    cmd: seq<string>,
    env: seq<string>,
    user: string
  )

  /** The fields of container.HostConfig the cookie writes; a nil pointer is
      `None`. */
  datatype HostConfig = HostConfig(
    memory: int64,
    memorySwap: int64,
    kernelMemory: int64,
    memorySwappiness: Option<int64>,
    storageOpt: map<string, string>,
    pidsLimit: Option<int64>,
    ulimits: seq<Ulimit>,
    tmpfs: map<string, string>,
    binds: seq<string>,
    cpuQuota: int64,
    cpuPeriod: int64,
    networkMode: string,
    logConfig: LogConfig,
    capDrop: seq<string>,
    securityOpt: seq<string>
  )

  /** The Config.Volumes of an inspected image (nil is `None`). */
  datatype ImageConfig = ImageConfig(volumes: set<string>)

  /** The parts of docker.Image that ImageInspectWithRaw reports and the
      cookie reads. */
  datatype Image = Image(
    id: string,
    parent: string,
    repoTags: seq<string>,
    size: int64,
    config: Option<ImageConfig>
  )

  /** The record the cookie keeps of a validated image and hands to the
      image cache. */
  datatype CachedImage = CachedImage(id: string, parentId: string, repoTags: seq<string>, size: uint64)

  /** types.AuthConfig, reduced to the fields the cookie passes on. */
  datatype AuthConfig = AuthConfig(username: string, password: string, serverAddress: string)

  /** drivers.WaitResult, which the cookie only passes through. */
  datatype WaitResult = WaitResult(status: string)

  /** One call made to a collaborator, with its arguments and what it
      answered. */
  datatype Call =
    | Inspected(ref: string, img: Image, err: Option<Error>)
    | Created(config: Config, hostConfig: HostConfig, name: string, err: Option<Error>)
    | Removed(id: string, force: bool, removeVolumes: bool, err: Option<Error>)
    | Paused(id: string, err: Option<Error>)
    | Unpaused(id: string, err: Option<Error>)
    | Ran(taskId: string, result: WaitResult, err: Option<Error>)
    | PoolAllocated(poolId: string, err: Option<Error>)
    | PoolFreed(poolId: string)
    | NetworkAllocated(netId: string)
    | NetworkFreed(netId: string)
    | MarkedBusy(image: CachedImage)
    | MarkedFree(image: CachedImage)
    | Updated(image: CachedImage)
    | Pulled(auth: AuthConfig, ref: string, err: Option<Error>)
    | Authenticated(ref: string, customAuth: Option<AuthConfig>, err: Option<Error>)

  /** The newest entry of a non-empty call log. */
  function LastCall(calls: seq<Call>): Call
    requires calls != []
  {
    calls[|calls| - 1]
  }
}
