/**
 * The Pod that main.go submits (main.go:46-113): an init container that
 * clones the repository into the shared "workdir" volume, a kaniko container
 * that builds `/workspace/<project>/Dockerfile` and pushes to the registry,
 * the registry credentials mounted from the "kaniko-secret" Secret, and
 * placement on the nodes labelled and tainted `kaniko=enabled`.
 */
module PodBuilder {
  import opened Wrappers
  import opened Registry
  import opened Kube

  const APP_LABEL: map<string, string> := map["app" := "kaniko"]
  const WORKDIR := "workdir"
  const SECRET := "kaniko-secret"
  const POOL_KEY := "kaniko"
  const POOL_VALUE := "enabled"

  /** The six arguments of the kaniko executor, in the order of main.go:74. */
  function DockerfileArg(project: string): string { "--dockerfile=/workspace/" + project + "/Dockerfile" }
  function ContextArg(project: string): string { "--context=dir://workspace/" + project }
  function DestinationArg(registry: string): string { "--destination=" + registry }
  const CACHE_ARG := "--cache=true"
  function CacheRepoArg(cacheRepo: string): string { "--cache-repo=" + cacheRepo }
  const CLEANUP_ARG := "--cleanup"

  function BuildArgs(project: string, registry: string, cacheRepo: string): seq<string> {
    [ DockerfileArg(project), ContextArg(project), DestinationArg(registry),
      CACHE_ARG, CacheRepoArg(cacheRepo), CLEANUP_ARG ]
  }

  /** The container that fetches the source (main.go:56-67). */
  function InitContainer(repo: string): Container {
    Container("init-repo", "alpine/git", PullIfNotPresent, ["git", "clone", repo], [],
              [VolumeMount(WORKDIR, "/git")])
  }

  /** The kaniko container (main.go:70-85); it has no command of its own. */
  function BuildContainer(project: string, registry: string, cacheRepo: string): Container {
    Container("kaniko", "gcr.io/kaniko-project/executor:debug", PullIfNotPresent, [],
              BuildArgs(project, registry, cacheRepo),
              [VolumeMount(WORKDIR, "/workspace"), VolumeMount(SECRET, "/kaniko/.docker/")])
  }

  /** The volumes of the Pod, the Secret first (main.go:99-111). */
  function Volumes(): seq<Volume> {
    [Volume(SECRET, SecretVolume(SECRET)), Volume(WORKDIR, NoSource)]
  }

  /** The taint that reserves the build nodes, the one the Pod's toleration is written for. */
  function PoolTaint(): Taint {
    Taint(POOL_KEY, POOL_VALUE, NoSchedule)
  }

  /**
   * The Pod literal of main.go:46-113. Evaluating it in Go panics when the
   * registry has no field; that case is the error result here.
   */
  function BuildPod(repo: string, project: string, registry: string, namespace: string): (r: Result<Pod, RegistryError>)
    ensures r.Ok? <==> HasField(registry)
    ensures r.Ok? ==> MountsDeclared(r.value.spec)
    ensures r.Ok? ==> forall k | k in r.value.spec.nodeSelector ::
                        Tolerated(r.value.spec.tolerations, Taint(k, r.value.spec.nodeSelector[k], NoSchedule))
  {
    match CacheRepo(registry)
    case Err(e) => Err(e)
    case Ok(cacheRepo) =>
      var spec := PodSpec(
        [InitContainer(repo)],
        [BuildContainer(project, registry, cacheRepo)],
        map[POOL_KEY := POOL_VALUE],
        [Toleration(POOL_KEY, OpEqual, POOL_VALUE, NoSchedule)],
        RestartNever,
        Volumes());
      assert VolumeNames(spec.volumes) == {SECRET, WORKDIR} by {
        assert spec.volumes[0].name == SECRET && spec.volumes[1].name == WORKDIR;
      }
      assert ToleratesTaint(spec.tolerations[0], PoolTaint());
      Ok(Pod(ObjectMeta(project, namespace, APP_LABEL), spec))
  }

  /** The Pod is named after the project, lives in the namespace and carries exactly the label app=kaniko (main.go:47-53). */
  lemma PodMetadata(repo: string, project: string, registry: string, namespace: string)
    requires HasField(registry)
    ensures BuildPod(repo, project, registry, namespace).Ok?
    ensures var m := BuildPod(repo, project, registry, namespace).value.metadata;
            m.name == project && m.namespace == namespace && m.labels == map["app" := "kaniko"]
  {
  }

  /** Exactly one init container, which runs `git clone <repo>` with the work volume at /git (main.go:55-68). */
  lemma PodInitContainer(repo: string, project: string, registry: string, namespace: string)
    requires HasField(registry)
    ensures BuildPod(repo, project, registry, namespace).Ok?
    ensures var spec := BuildPod(repo, project, registry, namespace).value.spec;
            && |spec.initContainers| == 1
            && spec.initContainers[0].image == "alpine/git"
            && spec.initContainers[0].command == ["git", "clone", repo]
            && spec.initContainers[0].volumeMounts == [VolumeMount("workdir", "/git")]
  {
  }

  /**
   * Exactly one build container, whose six arguments name the project's
   * Dockerfile and context, the registry as destination, turn the cache on,
   * put the cache under the registry's first field, and ask for cleanup
   * (main.go:69-74). The registry is any leading separators, a first field
   * `host` and a remainder that is empty or starts at a separator.
   */
  lemma PodBuildContainer(repo: string, project: string, pre: string, host: string, rest: string, namespace: string)
    requires AllSlashes(pre) && IsField(host)
    requires rest == [] || IsSeparator(rest[0])
    ensures BuildPod(repo, project, pre + host + rest, namespace).Ok?
    ensures var spec := BuildPod(repo, project, pre + host + rest, namespace).value.spec;
            && |spec.containers| == 1
            && spec.containers[0].image == "gcr.io/kaniko-project/executor:debug"
            && spec.containers[0].args == [
                 "--dockerfile=/workspace/" + project + "/Dockerfile",
                 "--context=dir://workspace/" + project,
                 "--destination=" + (pre + host + rest),
                 "--cache=true",
                 "--cache-repo=" + host + "/cache",
                 "--cleanup" ]
  {
    CacheRepoOfFirstField(pre, host, rest);
    assert "--cache-repo=" + (host + "/cache") == "--cache-repo=" + host + "/cache";
  }

  /**
   * Both containers mount "workdir", the init container at /git and the build
   * container at /workspace; only the build container mounts "kaniko-secret",
   * which is backed by the Secret of that name (main.go:61-66, 75-84, 99-111).
   */
  lemma PodVolumes(repo: string, project: string, registry: string, namespace: string)
    requires HasField(registry)
    ensures BuildPod(repo, project, registry, namespace).Ok?
    ensures var spec := BuildPod(repo, project, registry, namespace).value.spec;
            && VolumeNames(spec.volumes) == {"workdir", "kaniko-secret"}
            && (forall v | v in spec.volumes && v.name == "kaniko-secret" :: v.source == SecretVolume("kaniko-secret"))
            && (forall c | c in AllContainers(spec) :: Mounts(c, "workdir"))
            && (forall c | c in AllContainers(spec) :: Mounts(c, "kaniko-secret") <==> c == spec.containers[0])
            && VolumeMount("workdir", "/git") in spec.initContainers[0].volumeMounts
            && VolumeMount("workdir", "/workspace") in spec.containers[0].volumeMounts
  {
    var spec := BuildPod(repo, project, registry, namespace).value.spec;
    assert spec.volumes[0].name == SECRET && spec.volumes[1].name == WORKDIR;
    assert spec.containers[0].volumeMounts[0].name == WORKDIR;
    assert spec.containers[0].volumeMounts[1].name == SECRET;
    assert spec.initContainers[0].volumeMounts[0].name == WORKDIR;
    assert AllContainers(spec) == [spec.initContainers[0], spec.containers[0]];
  }

  /**
   * The Pod selects the nodes labelled kaniko=enabled, tolerates exactly the
   * taint kaniko=enabled:NoSchedule among taints of that effect, and is never
   * restarted (main.go:87-98).
   */
  lemma PodPlacement(repo: string, project: string, registry: string, namespace: string)
    requires HasField(registry)
    ensures BuildPod(repo, project, registry, namespace).Ok?
    ensures var spec := BuildPod(repo, project, registry, namespace).value.spec;
            && spec.nodeSelector == map["kaniko" := "enabled"]
            && spec.tolerations == [Toleration("kaniko", OpEqual, "enabled", NoSchedule)]
            && spec.restartPolicy == RestartNever
            && (forall taint: Taint :: Tolerated(spec.tolerations, taint) <==> taint == Taint("kaniko", "enabled", NoSchedule))
  {
    var spec := BuildPod(repo, project, registry, namespace).value.spec;
    forall taint: Taint
      ensures Tolerated(spec.tolerations, taint) <==> taint == Taint("kaniko", "enabled", NoSchedule)
    {
      assert Tolerated(spec.tolerations, taint) <==> ToleratesTaint(spec.tolerations[0], taint);
    }
  }
}
