/** The Minikube status checks: the runtime guard wrapped around every probe that needs
    a running Minikube, and the two check tables. Probe bodies are plain strings. */
module MinikubeChecks {
  import opened Wrappers
  import opened Text
  import opened Checks

  /** What the guard looks for in the output of `minikube status --output json`. */
  const Markers: seq<string> := ["minikube start", "Nonexistent", "Stopped"]

  /** The message the guard writes to stderr when Minikube is not running. */
  const NotConfiguredMessage: string := "Minikube not configured"

  /** One glob test of the captured status for a marker. */
  function MarkerTest(marker: string): string
  {
    "[[ $MINIKUBE_STATUS == *\"" + marker + "\"* ]]"
  }

  /** The guard's opening text up to the point where the wrapped script is spliced in:
      capture the status, test each marker, reject, and open the `else` branch. */
  const GuardHead: string :=
    StatusCapture + MarkerTest(Markers[0]) + Or + MarkerTest(Markers[1]) + Or + MarkerTest(Markers[2])
    + Then + Rejection + Else

  /** The guard's closing text after the wrapped script. */
  const GuardTail: string := "\n    exit 0;\n  fi"

  /** The text that captures the status and opens the test. */
  const StatusCapture: string := "\n  MINIKUBE_STATUS=$(minikube status --output json);\n  if "

  const Or: string := " || "

  const Then: string := "; then\n    "

  const Else: string := "\n  else\n    "

  /** The rejecting branch: report on stderr and exit with 1. */
  const Rejection: string := "echo '" + NotConfiguredMessage + "' >&2;\n    exit 1;"

  /** The guard tests every marker and holds the rejecting branch; together with
      `RunGuarded` this ties the text of the guard to what it does. */
  lemma GuardHeadTestsMarkers()
    ensures forall k :: 0 <= k < |Markers| ==> Contains(GuardHead, MarkerTest(Markers[k]))
    ensures Contains(GuardHead, Rejection)
  {
    Layout(StatusCapture, MarkerTest(Markers[0]), Or, MarkerTest(Markers[1]), MarkerTest(Markers[2]), Then, Rejection, Else);
  }

  /** Where the parts of a guard sit in its text, for any parts. */
  lemma Layout(sc: string, t0: string, or: string, t1: string, t2: string, th: string, rj: string, el: string)
    ensures var h := sc + t0 + or + t1 + or + t2 + th + rj + el;
      Contains(h, t0) && Contains(h, t1) && Contains(h, t2) && Contains(h, rj)
  {
    var h := sc + t0 + or + t1 + or + t2 + th + rj + el;
    assert h == sc + t0 + (or + t1 + or + t2 + th + rj + el);
    ContainsMiddle(sc, t0, or + t1 + or + t2 + th + rj + el);
    assert h == (sc + t0 + or) + t1 + (or + t2 + th + rj + el);
    ContainsMiddle(sc + t0 + or, t1, or + t2 + th + rj + el);
    assert h == (sc + t0 + or + t1 + or) + t2 + (th + rj + el);
    ContainsMiddle(sc + t0 + or + t1 + or, t2, th + rj + el);
    assert h == (sc + t0 + or + t1 + or + t2 + th) + rj + el;
    ContainsMiddle(sc + t0 + or + t1 + or + t2 + th, rj, el);
  }

  /** A command is guard-wrapped when it is the head, some script, and the tail. */
  predicate IsWrapped(command: string)
  {
    |GuardHead| + |GuardTail| <= |command| && StartsWith(command, GuardHead) && EndsWith(command, GuardTail)
  }

  /** The script a wrapped command embeds. */
  function Unwrap(command: string): (r: Option<string>)
    ensures r.Some? <==> IsWrapped(command)
    ensures r.Some? ==> command == GuardHead + r.value + GuardTail
  {
    if IsWrapped(command) then
      var script := command[|GuardHead|..|command| - |GuardTail|];
      assert command == command[..|GuardHead|] + script + command[|command| - |GuardTail|..];
      Some(script)
    else None
  }

  /** `minikubeDependantScript`: the script is embedded verbatim between the guard's head
      and tail, with no escaping. */
  function DependantScript(script: string): (r: string)
    ensures IsWrapped(r)
    ensures |r| == |GuardHead| + |script| + |GuardTail|
    ensures r[|GuardHead|..|GuardHead| + |script|] == script
  {
    var r := GuardHead + script + GuardTail;
    assert r[..|GuardHead|] == GuardHead;
    assert r[|r| - |GuardTail|..] == GuardTail;
    r
  }

  /** Unwrapping recovers exactly the script that was wrapped. */
  lemma UnwrapDependantScript(script: string)
    ensures Unwrap(DependantScript(script)) == Some(script)
  {
    var r := DependantScript(script);
    var u := Unwrap(r);
    assert u.Some?;
    assert GuardHead + u.value + GuardTail == GuardHead + script + GuardTail;
    assert u.value == (GuardHead + u.value + GuardTail)[|GuardHead|..|GuardHead| + |u.value|];
  }

  /** How a guarded probe ends: rejected by the guard before the script runs, or ended by
      the script, either by its own `exit` or by the trailing `exit 0`. */
  datatype GuardedRun = NotConfigured(stderr: string, exitCode: int) | ScriptRan(exitCode: int)

  /** Running a wrapped probe given the captured status output; `scriptExit` is the code
      the script exits with itself, `None` when it falls through. */
  function RunGuarded(statusOutput: string, scriptExit: Option<int>): (r: GuardedRun)
    ensures r.NotConfigured? <==> exists k :: 0 <= k < |Markers| && Contains(statusOutput, Markers[k])
    ensures r.NotConfigured? ==> r.stderr == NotConfiguredMessage + "\n" && r.exitCode == 1
    ensures r.ScriptRan? && scriptExit.None? ==> r.exitCode == 0
    ensures r.ScriptRan? && scriptExit.Some? ==> r.exitCode == scriptExit.value
  {
    if Contains(statusOutput, Markers[0]) || Contains(statusOutput, Markers[1]) || Contains(statusOutput, Markers[2])
    then NotConfigured(NotConfiguredMessage + "\n", 1)
    else ScriptRan(if scriptExit.Some? then scriptExit.value else 0)
  }

  const HostfileScript: string := "\n      MINIKUBE_IP=$(minikube ip)\n      if grep -q \"local.ir-engine.org\" /etc/hosts; then\n          if grep -q \"$MINIKUBE_IP\" /etc/hosts; then\n              echo \"*.ir-engine.org entries exists\";\n              exit 0;\n          else\n              echo \"*.ir-engine.org entries outdated\" >&2;\n              exit 1;\n          fi\n      else\n        echo \"*.ir-engine.org entries does not exist\" >&2;\n        exit 1;\n      fi\n    "

  const IngressScript: string := "ingress_ns='ingress-nginx'; podname=$(kubectl get pods -n $ingress_ns -l app.kubernetes.io/name=ingress-nginx --field-selector=status.phase==Running -o jsonpath='{.items[0].metadata.name}'); kubectl exec -i -n $ingress_ns $podname -- /nginx-ingress-controller --version;"

  /** `MinikubeAppsStatus` */
  const MinikubeAppsStatus: seq<CheckDecl<string>> := [
    Plain("node", "Node", "node --version;"),
    Plain("npm", "npm", "npm --version;"),
    Plain("python", "Python", "pip3 --version && python3 --version;"),
    Plain("make", "Make", "make --version;"),
    Plain("git", "Git", "git --version;"),
    Plain("docker", "Docker", "docker --version;"),
    Plain("dockercompose", "Docker Compose", "docker-compose --version;"),
    Plain("mysql", "MySql", "docker top ir-engine_minikube_db;"),
    Plain("minio", "MinIO", "docker top ir-engine_minio_s3;"),
    Plain("virtualbox", "VirtualBox", "vboxmanage --version;"),
    Plain("kubectl", "kubectl", "kubectl version --client --output=yaml;"),
    Plain("helm", "Helm", "helm version;"),
    Plain("minikube", "Minikube", DependantScript("minikube version; minikube status;")),
    Plain("ingress", "Ingress", DependantScript(IngressScript)),
    Plain("redis", "Redis", DependantScript("helm status local-redis;")),
    Plain("agones", "Agones", DependantScript("helm status agones;")),
    Plain("hostfile", "Hostfile", DependantScript(HostfileScript)),
    Plain("engine", "Infinite Reality Engine", DependantScript("helm status local;"))
  ]

  /** `MinikubeRippleAppsStatus` */
  const MinikubeRippleAppsStatus: seq<CheckDecl<string>> := [
    Ripple("rippled", "Rippled", DependantScript("helm status local-rippled;")),
    Ripple("ipfs", "IPFS", DependantScript("helm status local-ipfs;"))
  ]

  /** The ids of the Minikube table, in the order the dashboard lists them. */
  const MinikubeIds: seq<string> := [
    "node", "npm", "python", "make", "git", "docker", "dockercompose", "mysql", "minio",
    "virtualbox", "kubectl", "helm", "minikube", "ingress", "redis", "agones", "hostfile", "engine"]

  /** No id of the Minikube table repeats, and neither ripple id is among them. */
  lemma MinikubeIdsDistinct()
    ensures forall i, j :: 0 <= i < j < |MinikubeIds| ==> MinikubeIds[i] != MinikubeIds[j]
    ensures forall i, j :: 0 <= i < |MinikubeIds| && 0 <= j < 2 ==> MinikubeIds[i] != ["rippled", "ipfs"][j]
  {
  }

  /** The table lists the checks under these ids. */
  lemma MinikubeTableIds()
    ensures |MinikubeAppsStatus| == 18 && IdsOf(MinikubeAppsStatus) == MinikubeIds
  {
    var t := MinikubeAppsStatus;
    assert forall k :: 0 <= k < 18 ==> t[k].id == MinikubeIds[k];
  }

  /** No id of the table repeats. */
  lemma MinikubeTableDistinct()
    ensures DistinctIds(MinikubeAppsStatus)
  {
    MinikubeTableIds();
    MinikubeIdsDistinct();
    DistinctByIds(MinikubeAppsStatus, MinikubeIds);
  }

  /** Every check of the table is an ordinary check: not marked as a Linux command and
      not tied to the ripple stack. */
  lemma MinikubeTableFlags()
    ensures forall k :: 0 <= k < |MinikubeAppsStatus| ==>
      MinikubeAppsStatus[k].isLinuxCommand.None? && MinikubeAppsStatus[k].rippleStackOnly.None?
  {
  }

  /** The checks from `minikube` on need a running cluster and are guard-wrapped; the
      tool checks before them are not. */
  lemma MinikubeTableGating()
    ensures forall k :: 0 <= k < |MinikubeAppsStatus| ==> (IsWrapped(MinikubeAppsStatus[k].command) <==> 12 <= k)
  {
    var t := MinikubeAppsStatus;
    forall k | 0 <= k < |t|
      ensures IsWrapped(t[k].command) <==> 12 <= k
    {
      if k < 12 {
        assert |t[k].command| < |GuardHead|;
      }
    }
  }

  /** The ripple checks are Linux commands that only run with the ripple stack enabled,
      and they are guard-wrapped. */
  lemma MinikubeRippleTableShape()
    ensures |MinikubeRippleAppsStatus| == 2 && IdsOf(MinikubeRippleAppsStatus) == ["rippled", "ipfs"]
    ensures forall k :: 0 <= k < 2 ==>
      MinikubeRippleAppsStatus[k].isLinuxCommand == Some(true)
      && MinikubeRippleAppsStatus[k].rippleStackOnly == Some(true)
      && IsWrapped(MinikubeRippleAppsStatus[k].command)
    ensures DistinctIds(MinikubeRippleAppsStatus)
  {
  }

  /** The ripple ids are new to the Minikube table. */
  lemma MinikubeRippleDisjoint()
    ensures DisjointIds(MinikubeAppsStatus, MinikubeRippleAppsStatus)
  {
    MinikubeTableIds();
    MinikubeIdsDistinct();
    MinikubeRippleTableShape();
    DisjointByIds(MinikubeAppsStatus, MinikubeRippleAppsStatus, MinikubeIds, ["rippled", "ipfs"]);
  }

  /** The guarded checks embed the probe scripts unchanged. */
  lemma MinikubeGuardedScripts()
    ensures Unwrap(MinikubeAppsStatus[12].command) == Some("minikube version; minikube status;")
    ensures Unwrap(MinikubeAppsStatus[16].command) == Some(HostfileScript)
    ensures Unwrap(MinikubeAppsStatus[17].command) == Some("helm status local;")
  {
    UnwrapDependantScript("minikube version; minikube status;");
    UnwrapDependantScript(HostfileScript);
    UnwrapDependantScript("helm status local;");
  }

  /** The ripple checks embed their probe scripts unchanged. */
  lemma MinikubeRippleScripts()
    ensures Unwrap(MinikubeRippleAppsStatus[0].command) == Some("helm status local-rippled;")
    ensures Unwrap(MinikubeRippleAppsStatus[1].command) == Some("helm status local-ipfs;")
  {
    UnwrapDependantScript("helm status local-rippled;");
    UnwrapDependantScript("helm status local-ipfs;");
  }
}
