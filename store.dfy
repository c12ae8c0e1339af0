/**
 * The replace step of main.go:115-123 against an in-memory stand-in for the
 * cluster's Pod API: the Pod of the given name is deleted unconditionally,
 * the outcome of the delete is only reported, and then the new Pod is
 * created; a failed create ends the run.
 */
module PodStore {
  import opened Wrappers
  import opened Registry
  import opened Kube
  import opened PodBuilder

  /** Pods are addressed by namespace and name. */
  type Key = (string, string)

  function KeyOf(pod: Pod): Key {
    (pod.metadata.namespace, pod.metadata.name)
  }

  datatype DeleteOutcome = Deleted | NotFound

  datatype CreateError = AlreadyExists(key: Key)

  datatype ProvisionError = BuildFailed(registryError: RegistryError) | CreateFailed(createError: CreateError)

  /** Every stored Pod sits under its own namespace and name. */
  ghost predicate Keyed(pods: map<Key, Pod>) {
    forall k | k in pods :: KeyOf(pods[k]) == k
  }

  /** The store after a successful replace of `pod`. */
  function Replaced(pods: map<Key, Pod>, pod: Pod): map<Key, Pod> {
    pods[KeyOf(pod) := pod]
  }

  class Store {
    var pods: map<Key, Pod>

    /** The store's invariant: each Pod is filed under its own namespace and name. */
    ghost predicate Valid()
      reads this
    {
      Keyed(pods)
    }

    constructor ()
      ensures Valid() && pods == map[]
    {
      pods := map[];
    }

    /** Pods(namespace).Delete(name): removes the Pod, or reports that there was none. */
    method Delete(namespace: string, name: string) returns (outcome: DeleteOutcome)
      requires Valid()
      modifies this
      ensures Valid()
      ensures outcome == (if (namespace, name) in old(pods) then Deleted else NotFound)
      ensures pods == old(pods) - {(namespace, name)}
      ensures forall k | k in pods :: KeyOf(pods[k]) != (namespace, name)
    {
      var key := (namespace, name);
      if key in pods {
        outcome := Deleted;
      } else {
        outcome := NotFound;
      }
      pods := pods - {key};
    }

    /** Pods(namespace).Create(pod): adds the Pod unless one of that name exists. */
    method Create(pod: Pod) returns (result: Result<Key, CreateError>)
      requires Valid()
      modifies this
      ensures Valid()
      ensures KeyOf(pod) in old(pods) ==> result == Err(AlreadyExists(KeyOf(pod))) && pods == old(pods)
      ensures KeyOf(pod) !in old(pods) ==> result == Ok(KeyOf(pod)) && pods == old(pods)[KeyOf(pod) := pod]
    {
      var key := KeyOf(pod);
      if key in pods {
        result := Err(AlreadyExists(key));
      } else {
        pods := pods[key := pod];
        result := Ok(key);
      }
    }

    /**
     * Delete, whatever its outcome, then create (main.go:116-123). In this
     * store a delete takes effect at once, so the create that follows cannot
     * fail; a real API server keeps a running Pod under its name until it
     * has terminated.
     */
    method Replace(pod: Pod) returns (deleted: DeleteOutcome, result: Result<Key, CreateError>)
      requires Valid()
      modifies this
      ensures Valid()
      ensures deleted == (if KeyOf(pod) in old(pods) then Deleted else NotFound)
      ensures result == Ok(KeyOf(pod))
      ensures pods == Replaced(old(pods), pod)
      ensures forall k | k in pods && KeyOf(pods[k]) == KeyOf(pod) :: pods[k] == pod
    {
      deleted := Delete(pod.metadata.namespace, pod.metadata.name);
      result := Create(pod);
      assert pods == old(pods) - {KeyOf(pod)} + map[KeyOf(pod) := pod];
    }

    /**
     * The whole run of main.go:44-123 after the client is set up: build the
     * Pod, then replace. A registry without a field stops the run before the
     * store is touched, as the panic at main.go:74 does.
     */
    method Provision(repo: string, project: string, registry: string, namespace: string)
      returns (result: Result<Key, ProvisionError>)
      requires Valid()
      modifies this
      ensures Valid()
      ensures !HasField(registry) ==> result == Err(BuildFailed(InvalidRegistryAddress)) && pods == old(pods)
      ensures HasField(registry) ==>
                && result == Ok((namespace, project))
                && pods == Replaced(old(pods), BuildPod(repo, project, registry, namespace).value)
    {
      var built := BuildPod(repo, project, registry, namespace);
      if built.Err? {
        return Err(BuildFailed(built.error));
      }
      var _, created := Replace(built.value);
      match created
      case Ok(key) => result := Ok(key);
      case Err(e) => result := Err(CreateFailed(e));
    }
  }

  /** After a replace the name maps to the new Pod, and every other entry is as before. */
  lemma ReplacedFrame(pods: map<Key, Pod>, pod: Pod)
    ensures KeyOf(pod) in Replaced(pods, pod) && Replaced(pods, pod)[KeyOf(pod)] == pod
    ensures Replaced(pods, pod).Keys == pods.Keys + {KeyOf(pod)}
    ensures forall k | k in pods && k != KeyOf(pod) :: Replaced(pods, pod)[k] == pods[k]
  {
  }

  /** Replacing the same Pod twice leaves the store as replacing it once. */
  lemma ReplacedIdempotent(pods: map<Key, Pod>, pod: Pod)
    ensures Replaced(Replaced(pods, pod), pod) == Replaced(pods, pod)
  {
  }

  /** Replacing keeps every Pod under its own namespace and name. */
  lemma ReplacedKeyed(pods: map<Key, Pod>, pod: Pod)
    requires Keyed(pods)
    ensures Keyed(Replaced(pods, pod))
  {
  }

  /**
   * Two runs in a row with the same flags have the same outcome, and leave
   * the store as one run does: with a usable registry both succeed.
   */
  method ProvisionTwice(store: Store, repo: string, project: string, registry: string, namespace: string)
    returns (first: Result<Key, ProvisionError>, second: Result<Key, ProvisionError>)
    requires store.Valid()
    modifies store
    ensures store.Valid()
    ensures second == first
    ensures HasField(registry) ==> first == Ok((namespace, project))
    ensures store.pods == if HasField(registry)
                          then Replaced(old(store.pods), BuildPod(repo, project, registry, namespace).value)
                          else old(store.pods)
  {
    first := store.Provision(repo, project, registry, namespace);
    second := store.Provision(repo, project, registry, namespace);
    if HasField(registry) {
      ReplacedIdempotent(old(store.pods), BuildPod(repo, project, registry, namespace).value);
    }
  }

  /** In an empty namespace the delete finds nothing and the create succeeds. */
  method ReplaceFresh(pod: Pod) returns (deleted: DeleteOutcome, result: Result<Key, CreateError>)
    ensures deleted == NotFound && result == Ok(KeyOf(pod))
  {
    var store := new Store();
    deleted, result := store.Replace(pod);
  }
}
