# Docker driver cookie

A model of the per-task *cookie* of fn's Docker driver
(`api/agent/drivers/docker/cookie.go`). The driver creates one cookie for each
task it accepts. The cookie fills in the container's launch configuration one
attribute at a time; this part is called the configurator. The configuration
covers:

- memory, CPU quota, PID limit and ulimits;
- tmpfs, storage size, binds and volumes;
- logger, labels, environment, command and working directory;
- network mode and hostname;
- security.

The cookie then takes the container through its lifecycle: validate the image,
pull it, authenticate the pull, create the container, run, freeze and
unfreeze, and close. While it does so it may hold:

- a pre-fork pool grant or a network grant, never both;
- an image-cache claim;
- a created container.

Close gives all of these back.

The project is organised as follows.

- `base.dfy` (`Base`): `Option`, Go's `uint64`/`int64`, and the conversions and
  wrapping multiplication the configurator uses.
- `text.dfy` (`Text`): `%d`/`%v` of an unsigned integer, `strings.Join` and
  `strings.Fields`, each with a reading-back lemma:
  - a printed number is read back whole;
  - `strings.Join` is undone by splitting, provided no item contains the
    separator;
  - `strings.Fields` drops exactly the white space and keeps everything else
    in order, and words joined by single blanks split back into those words.
- `model.dfy` (`Model`): the task, the driver configuration, the two Docker
  launch records (`Config`, `HostConfig`), image records, errors and
  collaborator call-log entries.
- `collaborators.dfy` (`Collaborators`): the Docker client, pool allocator,
  network allocator, image cache, image puller and a task's Auther. They are
  nondeterministic oracles: every call answers arbitrarily and is appended,
  with its arguments and answer, to a ghost call log. `Driver` holds the
  cookie's view of the driver.
- `options.dfy` (`Options`): the values the configuration steps compute before
  storing them. These are ulimit entries, the storage-size and tmpfs options
  (with a parser for the round trip), the CPU quota, and the tag, bind and
  environment entries.
- `cookie.dfy` (`Docker`): `class Cookie` with the cookie's fields, every
  `configure*` step and every lifecycle method, each updating the fields in
  place.
- `lifecycle.dfy` (`Lifecycle`): a claim ledger over the call logs and
  scenarios that call the cookie's methods in the order the code requires.
  The main result is `RunToClose`: whatever step fails, Close leaves every
  collaborator *settled*. That means each container created is removed, and
  each pool grant, network grant and cache claim is given back exactly once.

Three consequences of the code shape the lifecycle scenarios:

- `CreateContainer` sets `containerCreated` before it looks at the create's
  answer (`cookie.go:487-488`). A failed create therefore still counts as
  created: Close issues a forced remove and returns that removal's error, and
  a second `CreateContainer` succeeds without calling Docker
  (`Lifecycle.CreateTwiceThenClose`).
- `PullImage` never sets the image record (`cookie.go:451-468`), and
  `CreateContainer` stops the process without one (`cookie.go:475-477`). A
  caller must therefore validate the image again after a pull before it
  creates the container; `Lifecycle.Prepare` models such a caller.
- On the volume-policy path the cache claim is taken by `Update` and not by
  `MarkBusy`, yet Close still releases it with `MarkFree`. The ledger counts
  `Update` as a claim, so that path settles as well.

## Model

| member | source | states |
|---|---|---|
| Base.Int64OfUint64 | api/agent/drivers/docker/cookie.go:107 | Go's `int64(uint64)` keeps the bits: the result is negative exactly when the value exceeds the largest int64, and equals the value modulo 2^64 |
| Base.Uint64OfInt64 | api/agent/drivers/docker/cookie.go:437 | Go's `uint64(int64)`: non-negative sizes are kept; negative ones wrap above the largest int64, congruent modulo 2^64 |
| Base.MulUint64 | api/agent/drivers/docker/cookie.go:230 | uint64 multiplication wraps modulo 2^64 and is exact when the product fits |
| Base.Int64Uint64RoundTrip | api/agent/drivers/docker/cookie.go:437 | the two Go conversions invert each other in both directions |
| Text.Decimal | api/agent/drivers/docker/cookie.go:126 | `%v` of an unsigned integer is non-empty, all digits, with a leading zero only for zero |
| Text.ParseDecimalOfDecimal | api/agent/drivers/docker/cookie.go:126 | printing a number in decimal loses nothing: reading the digits back gives the number |
| Text.ParseLeadingNatOfDecimal | api/agent/drivers/docker/cookie.go:180-182 | a printed number followed by a non-digit is read back whole, and the following text is left intact |
| Text.Join | api/agent/drivers/docker/cookie.go:98 | Go's `strings.Join`: the items in order with one separator between neighbours; `Text.SplitJoin` is its inverse |
| Text.SplitJoin | api/agent/drivers/docker/cookie.go:98 | `strings.Join` of items free of the separator is undone by splitting: the items come back in order |
| Text.Fields | api/agent/drivers/docker/cookie.go:299 | every field of `strings.Fields` is non-empty and free of white space |
| Text.FieldsKeepEverythingButSpaces | api/agent/drivers/docker/cookie.go:299 | the fields put back together are the command without its white space: nothing but white space is dropped, and the order is kept |
| Text.FieldsOfJoin | api/agent/drivers/docker/cookie.go:299 | words joined by single blanks are split back into exactly those words |
| Options.UlimitEntry | api/agent/drivers/docker/cookie.go:149-164 | a nil limit, or one above the largest int64, adds no entry; otherwise exactly one entry is added, with soft == hard == the value |
| Options.StorageSize | api/agent/drivers/docker/cookie.go:116-129 | the storage option `"<n>M"` reads back as the requested size in MB followed by `M` |
| Options.CpuQuota | api/agent/drivers/docker/cookie.go:221-236 | when the product fits, the quota is milli-CPUs × 100, i.e. milliCpus/1000 CPUs of the 100000 µs period; otherwise it is the wrapped product |
| Options.TmpFsOption | api/agent/drivers/docker/cookie.go:166-188 | the /tmp option is empty exactly when no tmpfs size was asked for |
| Options.TmpFsOptionRoundTrip | api/agent/drivers/docker/cookie.go:177-184 | the option string carries exactly the size (unbounded for 0) and, when the driver caps inodes, the inode count |
| Options.TagLine | api/agent/drivers/docker/cookie.go:95 | one logger tag as `name=value` |
| Options.TagLines | api/agent/drivers/docker/cookie.go:93-96 | the tag entries, one per tag in the tags' order; `Options.TagStrings` is the loop that builds them |
| Options.TagStrings | api/agent/drivers/docker/cookie.go:93-96 | the tag loop produces one `name=value` per logger tag, in the tags' order |
| Options.TagOptionLists | api/agent/drivers/docker/cookie.go:93-99 | when no tag contains a comma, the comma-joined `tag` option lists every tag, in order, and nothing else |
| Options.PoolNetworkMode | api/agent/drivers/docker/cookie.go:264 | the pool network mode `container:<id>` is never empty and never `none`, and the pool id reads back from it |
| Options.Bind | api/agent/drivers/docker/cookie.go:197 | one bind `host:container`, as both the socket bind and the volume binds (215) write it |
| Options.BindParts | api/agent/drivers/docker/cookie.go:215 | when neither path contains a colon, cutting the bind at the colon gives back both paths |
| Options.VolumeBinds | api/agent/drivers/docker/cookie.go:211-217 | the binds of the task's mappings, one per mapping in the task's order |
| Options.ContainerDirs | api/agent/drivers/docker/cookie.go:211-217 | the set of the mappings' container directories, which become the declared volumes |
| Options.ContainerDirsAppend | api/agent/drivers/docker/cookie.go:211-217 | each mapping adds exactly its container directory to the declared volumes |
| Options.ListsEachOnce | api/agent/drivers/docker/cookie.go:313-315 | an order holding each variable once names every variable and repeats none |
| Options.EnvLine | api/agent/drivers/docker/cookie.go:314 | one environment entry `NAME=VALUE` |
| Options.EnvLines | api/agent/drivers/docker/cookie.go:313-315 | the entries of the variables in a given visiting order, one per variable |
| Options.EnvLinesAnyOrder | api/agent/drivers/docker/cookie.go:313-315 | whichever order Go's map iteration takes, the same multiset of `NAME=VALUE` entries is produced |
| Docker.FnDockerUser | api/agent/drivers/docker/cookie.go:21-31 | the unprivileged user is `"1000:1000"` |
| Docker.Cookie.Valid | api/agent/drivers/docker/cookie.go:259-280 | the cookie holds at most one of a pool grant and a network grant, and the network mode names the one it holds; a container is created only once an image record exists (475-488) |
| Docker.Cookie.constructor | api/agent/drivers/docker/cookie.go:33-55 | a fresh cookie holds no grant, no image record and no container |
| Docker.Cookie.ConfigureImage | api/agent/drivers/docker/cookie.go:57-59 | the image registry is the one parsed from the task's image |
| Docker.Cookie.ConfigureLabels | api/agent/drivers/docker/cookie.go:61-72 | with a container label tag, the classifier and instance labels are added and nothing else changes; without one, nothing changes |
| Docker.Cookie.ConfigureLogger | api/agent/drivers/docker/cookie.go:74-100 | no URL gives log driver `none`; otherwise syslog with address, facility `user`, format `rfc5424` and, when tags exist, the joined tag list |
| Docker.Cookie.ConfigureMem | api/agent/drivers/docker/cookie.go:102-114 | a non-zero memory sets memory, memory+swap and kernel memory to the same value and swappiness to 0; zero changes nothing |
| Docker.Cookie.ConfigureFsSize | api/agent/drivers/docker/cookie.go:116-129 | a non-zero size sets the storage option `size` and nothing else; zero changes nothing |
| Docker.Cookie.ConfigurePIDs | api/agent/drivers/docker/cookie.go:131-140 | a non-zero PID count sets the PID limit (the int64 conversion); zero changes nothing |
| Docker.Cookie.ConfigureULimits | api/agent/drivers/docker/cookie.go:142-147 | the four limits are applied independently, in order: a skipped one does not stop the others, and existing entries are kept |
| Docker.Cookie.ConfigureULimit | api/agent/drivers/docker/cookie.go:149-164 | only appends, with the entry UlimitEntry describes |
| Docker.Cookie.ConfigureTmpFs | api/agent/drivers/docker/cookie.go:166-188 | /tmp gets an entry iff a size is asked for or the root is read-only, and the entry is the tmpfs option; otherwise nothing changes |
| Docker.Cookie.ConfigureIOFS | api/agent/drivers/docker/cookie.go:190-200 | with a socket path, one bind `path:dest` is appended; without one, nothing changes |
| Docker.Cookie.ConfigureVolumes | api/agent/drivers/docker/cookie.go:202-219 | every container directory becomes a volume, and one bind per mapping is appended in the task's order |
| Docker.Cookie.ConfigureCPU | api/agent/drivers/docker/cookie.go:221-236 | non-zero CPUs set quota and the 100000 µs period (quota = CPUs × 100 when it fits); zero changes nothing |
| Docker.Cookie.ConfigureWorkDir | api/agent/drivers/docker/cookie.go:238-246 | a non-empty working directory is set; otherwise nothing changes |
| Docker.Cookie.ConfigureNetwork | api/agent/drivers/docker/cookie.go:248-281 | a set mode is kept with no allocation; disabled networking gives `none` with no allocation; otherwise a pool id wins (`container:<id>`), else a non-empty network id is used; at most one grant is taken and the mode names it |
| Docker.Cookie.ConfigureHostname | api/agent/drivers/docker/cookie.go:283-291 | the hostname is set exactly when no network mode is |
| Docker.Cookie.ConfigureCmd | api/agent/drivers/docker/cookie.go:293-302 | a non-empty command becomes its `strings.Fields` words |
| Docker.Cookie.ConfigureEnv | api/agent/drivers/docker/cookie.go:304-316 | one `NAME=VALUE` entry per variable is appended; the visiting order lists every variable exactly once |
| Docker.Cookie.ConfigureSecurity | api/agent/drivers/docker/cookie.go:318-326 | unless privileged containers are allowed, the user is 1000:1000, all capabilities are dropped and new privileges are forbidden |
| Docker.Cookie.Close | api/agent/drivers/docker/cookie.go:329-350 | a forced remove with volumes is issued iff a container was created, and its error is the result; the pool id, network id and cache claim are each freed iff set and the collaborator exists, whatever the removal answered |
| Docker.Cookie.Run | api/agent/drivers/docker/cookie.go:353-355 | one run call for the task, whose answer is passed through |
| Docker.Cookie.Freeze | api/agent/drivers/docker/cookie.go:363-373 | one pause call for the task, whose error is the result |
| Docker.Cookie.Unfreeze | api/agent/drivers/docker/cookie.go:375-384 | one unpause call for the task, whose error is the result |
| Docker.Cookie.AuthImage | api/agent/drivers/docker/cookie.go:386-407 | the registry config unless the task's Auther answers with a config; an Auther error is returned with the registry config |
| Docker.Cookie.ValidateImage | api/agent/drivers/docker/cookie.go:410-448 | a held record means no inspect and `(false, nil)`; "no such image" means pull; other errors propagate with no record; success records the image and claims it by exactly one of Update (volume policy violated, ImageWithVolume) or MarkBusy |
| Docker.Cookie.PullImage | api/agent/drivers/docker/cookie.go:451-468 | a held record makes it a no-op; an Auther error stops before the puller; otherwise one pull with the chosen credentials, whose error is the result |
| Docker.Cookie.CreateContainer | api/agent/drivers/docker/cookie.go:471-506 | requires a validated image; after the call a container counts as created even if the create failed; a repeat makes no call and succeeds; "no such image" becomes server-busy, other errors propagate |
| Docker.HasForbiddenVolumes | api/agent/drivers/docker/cookie.go:429 | the image declares volumes while the driver does not enable image volumes |
| Docker.CachedImageOf | api/agent/drivers/docker/cookie.go:433-438 | the kept record copies id, parent and tags; the size is `uint64(img.Size)`, equal to it when non-negative and congruent modulo 2^64 |
| Lifecycle.BalanceAppend | api/agent/drivers/docker/cookie.go:329-350 | the claim balance of a call log is additive over its parts |
| Lifecycle.SettledByAddedCalls | api/agent/drivers/docker/cookie.go:329-350 | a log is settled exactly when the calls added since the start take and release every claim equally often |
| Lifecycle.SettleBy | api/agent/drivers/docker/cookie.go:329-350 | releasing the one claim still held settles the log against its start |
| Lifecycle.Prepare | api/agent/drivers/docker/cookie.go:248-281 | network, then validate, then pull and re-validate when missing: every claim taken is the one the cookie records |
| Lifecycle.RunToClose | api/agent/drivers/docker/cookie.go:329-350 | whatever step fails, after Close each of the Docker, pool, network and cache logs is settled: nothing taken is left unreleased, nothing is released twice |
| Lifecycle.ConfigureNetworking | api/agent/drivers/docker/cookie.go:248-291 | network mode and hostname exclude each other; with networking on, the mode is empty iff no grant was taken, and otherwise it names the grant |
| Lifecycle.CreateTwiceThenClose | api/agent/drivers/docker/cookie.go:471-506 | a create is never retried: the second call makes no Docker call and succeeds, and Close then force-removes the container under the task's name even when the create failed |

## Left out

- The collaborators are nondeterministic oracles. These are the Docker client (inspect, create, remove, pause, unpause and the driver's `run`), the pool and network allocators, the image cache, the puller and the Auther. Their own policies (allocation, eviction, registry behaviour) are outside the model.
- The puller's completion channel (`<-errC`) is modelled as the single error the pull returns; the concurrency behind it is left out.
- Contexts, cancellation and deadlines are left out, and so are logging and trace spans, which are observability only.
- `drivers.ParseImage`, `findRegistryConfig` and the label keys `FnAgentClassifierLabel`/`FnAgentInstanceLabel` are defined outside cookie.go. They are modelled as fields of `Driver` (uninterpreted functions and constants).
- The order in which the driver calls the configuration steps is in `driver.go`, which is not part of this model. `Lifecycle` only composes the orders the code requires. The hostname step comes after the network step because it reads the network mode (`cookie.go:285`). The lifecycle runs validate, pull, validate, create, run, close because create needs an image record (`cookie.go:475-477`) that a pull does not record.
- Go's nil maps and slices are modelled as empty ones, and a nil `*int64`/`*CachedImage` as `None`.
- Docker.Cookie.ConfigureEnv: the order of the entries is a ghost out-value, as Go's map iteration order is unspecified. The contract fixes the entries and that each variable appears once, not their order.
- Docker.Cookie.ContainerOptions: it returns the launch `Config` as is and has no contract of its own. The Go version returns it as `interface{}`.
- Docker.Cookie.CreateContainer: the `log.Fatal` on a missing image record is a precondition, since the process exits and no caller can observe the result.
- Text.Fields: characters are Unicode scalar values; how Go's `strings.Fields` treats invalid UTF-8 bytes is not modelled.
- `drivers.WaitResult` is opaque: the cookie only passes it through.
- Freeze, Unfreeze and Run can occur any number of times between create and close. The ledger scenarios cover create, run and close; pause and unpause take and release no claim.
