/** The cookie's collaborators: the Docker client, the pre-fork pool, the
    network allocator, the image cache, the image puller and a task's
    authenticator. Their behaviour is not part of this model, so each call
    answers with an arbitrary result; every call, with its arguments and its
    answer, is appended to the collaborator's ghost log `calls`. */
module Collaborators {

  import opened Base
  import opened Model

  /** The Docker client (go-dockerclient). */
  class DockerClient {
    ghost var calls: seq<Call>

    constructor ()
      ensures calls == []
    {
      calls := [];
    }

    method ImageInspectWithRaw(ref: string) returns (img: Image, err: Option<Error>)
      modifies this
      ensures calls == old(calls) + [Inspected(ref, img, err)]
    {
      img :| true;
      err :| true;
      calls := calls + [Inspected(ref, img, err)];
    }

    method ContainerCreate(config: Config, hostConfig: HostConfig, name: string) returns (err: Option<Error>)
      modifies this
      ensures calls == old(calls) + [Created(config, hostConfig, name, err)]
    {
      err :| true;
      calls := calls + [Created(config, hostConfig, name, err)];
    }

    method RemoveContainer(id: string, force: bool, removeVolumes: bool) returns (err: Option<Error>)
      modifies this
      ensures calls == old(calls) + [Removed(id, force, removeVolumes, err)]
    {
      err :| true;
      calls := calls + [Removed(id, force, removeVolumes, err)];
    }

    method PauseContainer(id: string) returns (err: Option<Error>)
      modifies this
      ensures calls == old(calls) + [Paused(id, err)]
    {
      err :| true;
      calls := calls + [Paused(id, err)];
    }

    method UnpauseContainer(id: string) returns (err: Option<Error>)
      modifies this
      ensures calls == old(calls) + [Unpaused(id, err)]
    {
      err :| true;
      calls := calls + [Unpaused(id, err)];
    }

    /** The driver's `run`: starts the task's container and waits for it. */
    method Run(taskId: string) returns (result: WaitResult, err: Option<Error>)
      modifies this
      ensures calls == old(calls) + [Ran(taskId, result, err)]
    {
      result :| true;
      err :| true;
      calls := calls + [Ran(taskId, result, err)];
    }
  }

  /** The pre-fork pool, whose containers lend their network namespace. */
  class PoolAllocator {
    ghost var calls: seq<Call>

    constructor ()
      ensures calls == []
    {
      calls := [];
    }

    method AllocPoolId() returns (id: string, err: Option<Error>)
      modifies this
      ensures calls == old(calls) + [PoolAllocated(id, err)]
    {
      id :| true;
      err :| true;
      calls := calls + [PoolAllocated(id, err)];
    }

    method FreePoolId(id: string)
      modifies this
      ensures calls == old(calls) + [PoolFreed(id)]
    {
      calls := calls + [PoolFreed(id)];
    }
  }

  /** The allocator of pre-existing Docker networks; "" means none. */
  class NetworkAllocator {
    ghost var calls: seq<Call>

    constructor ()
      ensures calls == []
    {
      calls := [];
    }

    method AllocNetwork() returns (id: string)
      modifies this
      ensures calls == old(calls) + [NetworkAllocated(id)]
    {
      id :| true;
      calls := calls + [NetworkAllocated(id)];
    }

    method FreeNetwork(id: string)
      modifies this
      ensures calls == old(calls) + [NetworkFreed(id)]
    {
      calls := calls + [NetworkFreed(id)];
    }
  }

  /** The local image cache and its busy/free accounting. */
  class ImageCache {
    ghost var calls: seq<Call>

    constructor ()
      ensures calls == []
    {
      calls := [];
    }

    method MarkBusy(img: CachedImage)
      modifies this
      ensures calls == old(calls) + [MarkedBusy(img)]
    {
      calls := calls + [MarkedBusy(img)];
    }

    method MarkFree(img: CachedImage)
      modifies this
      ensures calls == old(calls) + [MarkedFree(img)]
    {
      calls := calls + [MarkedFree(img)];
    }

    method Update(img: CachedImage)
      modifies this
      ensures calls == old(calls) + [Updated(img)]
    {
      calls := calls + [Updated(img)];
    }
  }

  /** The image puller; the error its completion channel delivers is the
      method's result. */
  class ImagePuller {
    ghost var calls: seq<Call>

    constructor ()
      ensures calls == []
    {
      calls := [];
    }

    method PullImage(auth: AuthConfig, ref: string) returns (err: Option<Error>)
      modifies this
      ensures calls == old(calls) + [Pulled(auth, ref, err)]
    {
      err :| true;
      calls := calls + [Pulled(auth, ref, err)];
    }
  }

  /** The Auther capability a task may offer; `None` for the config means a
      nil *AuthConfig. */
  class Auther {
    ghost var calls: seq<Call>

    constructor ()
      ensures calls == []
    {
      calls := [];
    }

    method DockerAuth(ref: string) returns (auth: Option<AuthConfig>, err: Option<Error>)
      modifies this
      ensures calls == old(calls) + [Authenticated(ref, auth, err)]
    {
      auth :| true;
      err :| true;
      calls := calls + [Authenticated(ref, auth, err)];
    }
  }

  /** The parts of the Docker driver the cookie consults. Nothing here
      changes during a cookie's life. `pool` and `imgCache` may be nil;
      `network` may not. */
  class Driver {
    const conf: DriverConf
    const instanceId: string
    const hostname: string
    /** The label keys FnAgentClassifierLabel and FnAgentInstanceLabel. */
    const classifierLabel: string
    const instanceLabel: string
    /** drivers.ParseImage, reduced to the registry it returns. */
    const parseRegistry: string -> string
    /** findRegistryConfig applied to the driver's static registry auths. */
    const findRegistryConfig: string -> AuthConfig
    const docker: DockerClient
    const pool: PoolAllocator?
    const network: NetworkAllocator
    const imgCache: ImageCache?
    const imgPuller: ImagePuller

    constructor (conf: DriverConf, instanceId: string, hostname: string,
                 classifierLabel: string, instanceLabel: string,
                 parseRegistry: string -> string, findRegistryConfig: string -> AuthConfig,
                 docker: DockerClient, pool: PoolAllocator?, network: NetworkAllocator,
                 imgCache: ImageCache?, imgPuller: ImagePuller)
      ensures this.conf == conf && this.instanceId == instanceId && this.hostname == hostname
      ensures this.classifierLabel == classifierLabel && this.instanceLabel == instanceLabel
      ensures this.parseRegistry == parseRegistry && this.findRegistryConfig == findRegistryConfig
      ensures this.docker == docker && this.pool == pool && this.network == network
      ensures this.imgCache == imgCache && this.imgPuller == imgPuller
    {
      this.conf := conf;
      this.instanceId := instanceId;
      this.hostname := hostname;
      this.classifierLabel := classifierLabel;
      this.instanceLabel := instanceLabel;
      this.parseRegistry := parseRegistry;
      this.findRegistryConfig := findRegistryConfig;
      this.docker := docker;
      this.pool := pool;
      this.network := network;
      this.imgCache := imgCache;
      this.imgPuller := imgPuller;
    }
  }
}
