/**
 * How the kaniko executor reads the arguments main.go gives it
 * (main.go:74): a long flag `--name=value` is split at its first `=`, and
 * `--name` alone is a flag without a value. The decoder is independent of
 * the builder and shows that every argument hands kaniko exactly the value
 * put into it, whatever characters the project or registry contain.
 */
module KanikoFlags {
  import opened Wrappers
  import opened PodBuilder

  datatype Flag = Flag(name: string, value: Option<string>)

  /** A flag name cannot contain the `=` that ends it. */
  predicate FlagName(name: string) {
    '=' !in name
  }

  /** A flag as written on a command line. */
  function Render(f: Flag): string {
    match f.value
    case None => "--" + f.name
    case Some(v) => "--" + f.name + "=" + v
  }

  /** The index of the first `c` in `s`, or |s| when there is none. */
  function IndexOf(s: string, c: char): (i: nat)
    ensures i <= |s|
    ensures i < |s| ==> s[i] == c
    ensures forall j | 0 <= j < i :: s[j] != c
  {
    if s == [] then 0 else if s[0] == c then 0 else 1 + IndexOf(s[1..], c)
  }

  /** One command-line argument read as a long flag. */
  function ParseArg(arg: string): Option<Flag> {
    if |arg| < 2 || arg[..2] != "--" then None
    else
      var body := arg[2..];
      var i := IndexOf(body, '=');
      if i == |body| then Some(Flag(body, None))
      else Some(Flag(body[..i], Some(body[i + 1..])))
  }

  /** Every argument read on its own, in order. */
  function ParseArgs(args: seq<string>): seq<Option<Flag>> {
    seq(|args|, k requires 0 <= k < |args| => ParseArg(args[k]))
  }

  function Present(fs: seq<Flag>): seq<Option<Flag>> {
    seq(|fs|, k requires 0 <= k < |fs| => Some(fs[k]))
  }

  /** Reading a written flag gives the flag back. */
  lemma ParseRender(f: Flag)
    requires FlagName(f.name)
    ensures ParseArg(Render(f)) == Some(f)
  {
    var body := Render(f)[2..];
    match f.value
    case None =>
      assert body == f.name;
    case Some(v) =>
      assert body == f.name + "=" + v;
      assert body[|f.name|] == '=';
      var i := IndexOf(body, '=');
      assert i == |f.name|;
      assert body[..i] == f.name && body[i + 1..] == v;
  }

  /** The flags main.go hands kaniko (main.go:74), as kaniko understands them. */
  function BuildFlags(project: string, registry: string, cacheRepo: string): seq<Flag> {
    [ Flag("dockerfile", Some("/workspace/" + project + "/Dockerfile")),
      Flag("context", Some("dir://workspace/" + project)),
      Flag("destination", Some(registry)),
      Flag("cache", Some("true")),
      Flag("cache-repo", Some(cacheRepo)),
      Flag("cleanup", None) ]
  }

  lemma DockerfileArgDecode(project: string)
    ensures ParseArg(DockerfileArg(project)) == Some(Flag("dockerfile", Some("/workspace/" + project + "/Dockerfile")))
  {
    var f := Flag("dockerfile", Some("/workspace/" + project + "/Dockerfile"));
    assert DockerfileArg(project) == Render(f);
    ParseRender(f);
  }

  lemma ContextArgDecode(project: string)
    ensures ParseArg(ContextArg(project)) == Some(Flag("context", Some("dir://workspace/" + project)))
  {
    var f := Flag("context", Some("dir://workspace/" + project));
    assert ContextArg(project) == Render(f);
    ParseRender(f);
  }

  lemma DestinationArgDecode(registry: string)
    ensures ParseArg(DestinationArg(registry)) == Some(Flag("destination", Some(registry)))
  {
    var f := Flag("destination", Some(registry));
    assert DestinationArg(registry) == Render(f);
    ParseRender(f);
  }

  lemma CacheArgDecode()
    ensures ParseArg(CACHE_ARG) == Some(Flag("cache", Some("true")))
  {
    var f := Flag("cache", Some("true"));
    assert CACHE_ARG == Render(f);
    ParseRender(f);
  }

  lemma CacheRepoArgDecode(cacheRepo: string)
    ensures ParseArg(CacheRepoArg(cacheRepo)) == Some(Flag("cache-repo", Some(cacheRepo)))
  {
    var f := Flag("cache-repo", Some(cacheRepo));
    assert CacheRepoArg(cacheRepo) == Render(f);
    ParseRender(f);
  }

  lemma CleanupArgDecode()
    ensures ParseArg(CLEANUP_ARG) == Some(Flag("cleanup", None))
  {
    var f := Flag("cleanup", None);
    assert CLEANUP_ARG == Render(f);
    ParseRender(f);
  }

  /**
   * Kaniko reads from the build container's arguments the Dockerfile and the
   * context of the project, the registry as destination, the cache switch,
   * the cache repository and the cleanup switch, in that order.
   */
  lemma BuildArgsDecode(project: string, registry: string, cacheRepo: string)
    ensures ParseArgs(BuildArgs(project, registry, cacheRepo)) == Present(BuildFlags(project, registry, cacheRepo))
  {
    var args := BuildArgs(project, registry, cacheRepo);
    var fs := BuildFlags(project, registry, cacheRepo);
    forall k | 0 <= k < 6 ensures ParseArg(args[k]) == Some(fs[k]) {
      if k == 0 {
        DockerfileArgDecode(project);
      } else if k == 1 {
        ContextArgDecode(project);
      } else if k == 2 {
        DestinationArgDecode(registry);
      } else if k == 3 {
        CacheArgDecode();
      } else if k == 4 {
        CacheRepoArgDecode(cacheRepo);
      } else {
        CleanupArgDecode();
      }
    }
  }
}
