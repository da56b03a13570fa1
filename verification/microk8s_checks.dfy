/** The MicroK8s status checks: the runtime guard, the `$` escaping it applies to the
    wrapped script, and the two check tables, which depend on the host's OS type. */
module MicroK8sChecks {
  import opened Wrappers
  import opened Text
  import opened Checks

  /** The OS type Node reports for Windows. */
  const WindowsType: string := "Windows_NT"

  /** The path put before `microk8s`: the snap path on Windows, nothing elsewhere. */
  function Prefix(osType: string): (r: string)
    ensures r == "/snap/bin/" <==> osType == WindowsType
    ensures r == "" <==> osType != WindowsType
  {
    if osType == WindowsType then "/snap/bin/" else ""
  }

  /** `replaceAll('$', '`$')`: every `$` gets a backtick in front of it. */
  function Escape(s: string): (r: string)
    ensures |r| == |s| + Count(s, '$')
    ensures forall i :: 0 <= i < |r| && r[i] == '$' ==> 0 < i && r[i - 1] == '`'
    ensures '$' !in s ==> r == s
  {
    if |s| == 0 then ""
    else if s[0] == '$' then
      var rest := Escape(s[1..]);
      assert forall i :: 2 <= i < 2 + |rest| ==> ("`$" + rest)[i] == rest[i - 2];
      "`$" + rest
    else
      var rest := Escape(s[1..]);
      assert forall i :: 1 <= i < 1 + |rest| ==> ([s[0]] + rest)[i] == rest[i - 1];
      [s[0]] + rest
  }

  /** Escaping works character by character, so it distributes over concatenation. */
  lemma {:induction false} EscapeAppend(a: string, b: string)
    ensures Escape(a + b) == Escape(a) + Escape(b)
    decreases |a|
  {
    if |a| == 0 {
      assert a + b == b;
    } else {
      assert (a + b)[0] == a[0];
      assert (a + b)[1..] == a[1..] + b;
      EscapeAppend(a[1..], b);
    }
  }

  /** Removes the backtick in front of each `$`; the inverse of `Escape`. */
  function Unescape(r: string): (s: string)
  {
    if |r| == 0 then ""
    else if |r| >= 2 && r[0] == '`' && r[1] == '$' then "$" + Unescape(r[2..])
    else [r[0]] + Unescape(r[1..])
  }

  /** Unescaping an escaped script gives the script back. */
  lemma {:induction false} UnescapeEscape(s: string)
    ensures Unescape(Escape(s)) == s
  {
    if |s| == 0 {
    } else if s[0] == '$' {
      UnescapeEscape(s[1..]);
      assert Escape(s) == "`$" + Escape(s[1..]);
      assert s == "$" + s[1..];
    } else {
      UnescapeEscape(s[1..]);
      var e := Escape(s);
      assert e == [s[0]] + Escape(s[1..]);
      assert e[1..] == Escape(s[1..]);
      if |e| >= 2 {
        assert e[1] != '$';
      }
      assert s == [s[0]] + s[1..];
    }
  }

  /** Escaping loses nothing: two scripts with the same escaped form are equal. */
  lemma EscapeInjective(a: string, b: string)
    requires Escape(a) == Escape(b)
    ensures a == b
  {
    UnescapeEscape(a);
    UnescapeEscape(b);
  }

  /** What the guard greps for in the output of `microk8s status`. */
  const NotRunningMarker: string := "microk8s is not running"

  /** The message the guard writes to stderr when MicroK8s is not running. */
  const NotConfiguredMessage: string := "MicroK8s not configured"

  /** The rejecting branch: report on stderr and exit with 1. */
  const Rejection: string := "echo '" + NotConfiguredMessage + "' >&2;\n    exit 1;"

  /** The status probe the guard runs. */
  function StatusProbe(osType: string): string
  {
    Prefix(osType) + "microk8s status | grep -q '" + NotRunningMarker + "'"
  }

  const Open: string := "\n  if "

  const Then: string := "; then\n    "

  const Else: string := "\n  else\n    "

  /** The guard's opening text up to the point where the escaped script is spliced in. */
  function GuardHead(osType: string): string
  {
    Open + StatusProbe(osType) + Then + Rejection + Else
  }

  /** The guard's closing text after the escaped script. */
  const GuardTail: string := "\n    exit 0;\n  fi\n  "

  /** The guard probes the status for the marker and holds the rejecting branch. */
  lemma GuardHeadTestsMarker(osType: string)
    ensures Contains(GuardHead(osType), NotRunningMarker)
    ensures Contains(GuardHead(osType), Rejection)
  {
    Layout(Open, Prefix(osType), "microk8s status | grep -q '", NotRunningMarker, "'", Then, Rejection, Else);
  }

  /** Where the marker and the rejecting branch sit in a guard, for any parts. */
  lemma Layout(op: string, p: string, q: string, marker: string, cl: string, th: string, rj: string, el: string)
    ensures var h := op + (p + q + marker + cl) + th + rj + el;
      Contains(h, marker) && Contains(h, rj)
  {
    var h := op + (p + q + marker + cl) + th + rj + el;
    assert h == (op + p + q) + marker + (cl + th + rj + el);
    ContainsMiddle(op + p + q, marker, cl + th + rj + el);
    assert h == (op + (p + q + marker + cl) + th) + rj + el;
    ContainsMiddle(op + (p + q + marker + cl) + th, rj, el);
  }

  /** A command is guard-wrapped for this OS type when it is the head, some text and the tail. */
  predicate IsWrapped(osType: string, command: string)
  {
    |GuardHead(osType)| + |GuardTail| <= |command|
    && StartsWith(command, GuardHead(osType)) && EndsWith(command, GuardTail)
  }

  /** The script a wrapped command embeds, with the escaping undone. */
  function Unwrap(osType: string, command: string): (r: Option<string>)
    ensures r.Some? <==> IsWrapped(osType, command)
  {
    if IsWrapped(osType, command) then
      Some(Unescape(command[|GuardHead(osType)|..|command| - |GuardTail|]))
    else None
  }

  /** `microk8sDependantScript`: the script, escaped, between the guard's head and tail. */
  function DependantScript(osType: string, script: string): (r: string)
    ensures IsWrapped(osType, r)
    ensures |r| == |GuardHead(osType)| + |script| + Count(script, '$') + |GuardTail|
    ensures r[|GuardHead(osType)|..|r| - |GuardTail|] == Escape(script)
  {
    var h, e := GuardHead(osType), Escape(script);
    var r := h + e + GuardTail;
    assert r[..|h|] == h;
    assert r[|r| - |GuardTail|..] == GuardTail;
    assert r[|h|..|r| - |GuardTail|] == e;
    r
  }

  /** Unwrapping recovers exactly the script that was wrapped. */
  lemma UnwrapDependantScript(osType: string, script: string)
    ensures Unwrap(osType, DependantScript(osType, script)) == Some(script)
  {
    UnescapeEscape(script);
  }

  /** How a guarded probe ends: rejected by the guard, or ended by the script, either by
      its own `exit` or by the trailing `exit 0`. */
  datatype GuardedRun = NotConfigured(stderr: string, exitCode: int) | ScriptRan(exitCode: int)

  /** Running a wrapped probe given the output of `microk8s status`; `scriptExit` is the
      code the script exits with itself, `None` when it falls through. */
  function RunGuarded(statusOutput: string, scriptExit: Option<int>): (r: GuardedRun)
    ensures r.NotConfigured? <==> Contains(statusOutput, NotRunningMarker)
    ensures r.NotConfigured? ==> r.stderr == NotConfiguredMessage + "\n" && r.exitCode == 1
    ensures r.ScriptRan? && scriptExit.None? ==> r.exitCode == 0
    ensures r.ScriptRan? && scriptExit.Some? ==> r.exitCode == scriptExit.value
  {
    if Contains(statusOutput, NotRunningMarker) then NotConfigured(NotConfiguredMessage + "\n", 1)
    else ScriptRan(if scriptExit.Some? then scriptExit.value else 0)
  }

  /** The ingress probe: a `kubectl exec` into the pod whose name a command substitution
      looks up. */
  const IngressScript: string := IngressLead + Substitution + IngressRest

  /** The start of the command substitution inside the ingress probe. */
  const Substitution: string := "$(kubectl"

  const IngressLead: string := "kubectl exec -i -n ingress "

  const IngressRest: string := " get pods -n ingress -l name=nginx-ingress-microk8s --field-selector=status.phase==Running -o jsonpath='{.items[0].metadata.name}') -- /nginx-ingress-controller --version;"

  const FileServerScript: string := "\n  if lsof -Pi :8642 -sTCP:LISTEN -t >/dev/null ; then\n    echo 'File server configured:';\n    lsof -Pi :8642 -sTCP:LISTEN;\n    exit 0;\n  else\n    echo 'File server not configured' >&2;\n    exit 1;\n  fi\n  "

  const HostfilePowerShell: string := "\n      $content = Get-Content \"$env:SystemRoot\\System32\\drivers\\etc\\hosts\" -Raw\n      $wslIps = wsl hostname -I\n\n      if ($wslIps -like \"* *\") {\n      \t$wslIp = $wslIps.split(\" \")[0]\n\n        if ($content -like \"*local.etherealengine.com*\") {\n          if ($content -like \"*$wslIp*\") {\n              Write-Host \"*.etherealengine.com entries exists\"\n          } else {\n              throw \"*.etherealengine.com entries outdated\"\n          }\n        } else {\n          throw \"*.etherealengine.com entries does not exist\"\n        }\n\n        if ($content -like \"*microk8s.registry*\") {\n          if ($content -like \"*$wslIp*\") {\n              Write-Host \"microk8s.registry entries exists\"\n          } else {\n              throw \"microk8s.registry entries outdated\"\n          }\n        } else {\n          throw \"microk8s.registry entries does not exist\"\n        }\n      } else {\n      \tthrow \"Kindly make sure WSL is installed and Ubuntu distro is set as default.\"\n      }\n      "

  const HostfileBash: string := "\n      if grep -q 'local.etherealengine.com' /etc/hosts; then\n          if grep -q '127.0.0.1 local.etherealengine.com' /etc/hosts; then\n              echo '*.etherealengine.com entries exists'\n              exit 0;\n          else\n            echo '*.etherealengine.com entries outdated' >&2;\n            exit 1;\n          fi\n      else\n        echo '*.etherealengine.com entries does not exist' >&2;\n        exit 1;\n      fi\n    "

  /** What a table entry runs: a script used as is, or a script that needs a running
      cluster and is escaped and guard-wrapped when the command is rendered. */
  datatype Probe = Raw(text: string) | Guarded(script: string)

  /** The command string a probe renders to on a host of the given OS type. */
  function Command(osType: string, p: Probe): (r: string)
    ensures p.Raw? ==> r == p.text
    ensures p.Guarded? ==> IsWrapped(osType, r) && Unwrap(osType, r) == Some(p.script)
  {
    match p
    case Raw(text) => text
    case Guarded(script) =>
      UnwrapDependantScript(osType, script);
      DependantScript(osType, script)
  }

  /** A table as `getAppModel` receives it: every probe rendered, nothing else changed. */
  function Render(osType: string, table: seq<CheckDecl<Probe>>): (r: seq<CheckDecl<string>>)
    ensures |r| == |table|
    ensures forall k :: 0 <= k < |table| ==>
      r[k] == CheckDecl(table[k].id, table[k].caption, Command(osType, table[k].command),
                        table[k].isLinuxCommand, table[k].rippleStackOnly)
  {
    if |table| == 0 then []
    else
      var d := table[0];
      [CheckDecl(d.id, d.caption, Command(osType, d.command), d.isLinuxCommand, d.rippleStackOnly)]
      + Render(osType, table[1..])
  }

  /** The hostfile check: a PowerShell script run as is on Windows, a guarded bash script
      marked as a Linux command elsewhere. */
  function HostfileCheck(osType: string): (r: CheckDecl<Probe>)
    ensures r.id == "hostfile" && r.rippleStackOnly.None?
    ensures r.isLinuxCommand == Some(osType != WindowsType)
    ensures osType == WindowsType ==> r.command == Raw(HostfilePowerShell)
    ensures osType != WindowsType ==> r.command == Guarded(HostfileBash)
  {
    if osType == WindowsType then CheckDecl("hostfile", "Hostfile", Raw(HostfilePowerShell), Some(false), None)
    else CheckDecl("hostfile", "Hostfile", Guarded(HostfileBash), Some(true), None)
  }

  /** The declared MicroK8s table for a host of the given OS type; the hostfile check is
      the sixteenth. */
  function MicroK8sProbes(osType: string): (r: seq<CheckDecl<Probe>>)
    ensures |r| == 17 && r[15] == HostfileCheck(osType)
  {
    var p := Prefix(osType);
    [
      Plain("node", "Node", Raw("node --version;")),
      Plain("npm", "npm", Raw("npm --version;")),
      Plain("python", "Python", Raw("pip3 --version; python3 --version;")),
      Plain("make", "Make", Raw("make --version;")),
      Plain("git", "Git", Raw("git --version;")),
      Plain("docker", "Docker", Raw("docker --version;")),
      Plain("dockercompose", "Docker Compose", Raw("docker-compose --version;")),
      Plain("mysql", "MySql", Raw("docker top xrengine_minikube_db;")),
      Plain("kubectl", "kubectl", Raw("kubectl version --client --output=yaml;")),
      Plain("helm", "Helm", Raw("helm version;")),
      Plain("microk8s", "MicroK8s", Guarded(p + "microk8s version;" + p + "microk8s status;")),
      Plain("ingress", "Ingress", Guarded(IngressScript)),
      Plain("redis", "Redis", Guarded("helm status local-redis;")),
      Plain("agones", "Agones", Guarded("helm status agones;")),
      Plain("fileserver", "Local File Server", Raw(FileServerScript)),
      HostfileCheck(osType),
      Plain("engine", "Ethereal Engine", Guarded("helm status local;"))
    ]
  }

  /** `MicroK8sAppsStatus` for a host of the given OS type: the declared checks in order,
      each with its command rendered for that OS type. */
  function MicroK8sAppsStatus(osType: string): (r: seq<CheckDecl<string>>)
    ensures |r| == 17 && IdsOf(r) == MicroK8sIds && DistinctIds(r)
  {
    var t := MicroK8sProbes(osType);
    MicroK8sProbeIds(osType);
    MicroK8sIdsDistinct();
    RenderKeepsIds(osType, t);
    RenderKeepsDistinct(osType, t, []);
    DistinctByIds(t, MicroK8sIds);
    Render(osType, t)
  }

  /** The declared ripple table. */
  const MicroK8sRippleProbes: seq<CheckDecl<Probe>> := [
    Ripple("rippled", "Rippled", Guarded("helm status local-rippled;")),
    Ripple("ipfs", "IPFS", Guarded("helm status local-ipfs;"))
  ]

  /** `MicroK8sRippleAppsStatus` for a host of the given OS type: `rippled` and `ipfs`. */
  function MicroK8sRippleAppsStatus(osType: string): (r: seq<CheckDecl<string>>)
    ensures |r| == 2 && IdsOf(r) == ["rippled", "ipfs"]
  {
    MicroK8sRippleProbeShape();
    RenderKeepsIds(osType, MicroK8sRippleProbes);
    Render(osType, MicroK8sRippleProbes)
  }

  /** The ids of the MicroK8s table, in the order the dashboard lists them. */
  const MicroK8sIds: seq<string> := [
    "node", "npm", "python", "make", "git", "docker", "dockercompose", "mysql", "kubectl",
    "helm", "microk8s", "ingress", "redis", "agones", "fileserver", "hostfile", "engine"]

  /** Rendering keeps every id and flag. */
  lemma RenderKeepsIds(osType: string, table: seq<CheckDecl<Probe>>)
    ensures IdsOf(Render(osType, table)) == IdsOf(table)
    ensures forall k :: 0 <= k < |table| ==>
      Render(osType, table)[k].isLinuxCommand == table[k].isLinuxCommand
      && Render(osType, table)[k].rippleStackOnly == table[k].rippleStackOnly
  {
    var r := Render(osType, table);
    assert forall k :: 0 <= k < |table| ==> r[k].id == table[k].id;
  }

  /** Ids that are distinct, or disjoint from another table's, stay so. */
  lemma RenderKeepsDistinct(osType: string, table: seq<CheckDecl<Probe>>, other: seq<CheckDecl<Probe>>)
    ensures DistinctIds(table) ==> DistinctIds(Render(osType, table))
    ensures DisjointIds(table, other) ==> DisjointIds(Render(osType, table), Render(osType, other))
  {
    var r, o := Render(osType, table), Render(osType, other);
    assert forall k :: 0 <= k < |table| ==> r[k].id == table[k].id;
    assert forall k :: 0 <= k < |other| ==> o[k].id == other[k].id;
  }

  /** No id of the MicroK8s table repeats. */
  lemma MicroK8sIdsDistinct()
    ensures forall i, j :: 0 <= i < j < |MicroK8sIds| ==> MicroK8sIds[i] != MicroK8sIds[j]
  {
  }

  /** On every OS type the declared table lists the same checks under these ids. */
  lemma MicroK8sProbeIds(osType: string)
    ensures |MicroK8sProbes(osType)| == 17 && IdsOf(MicroK8sProbes(osType)) == MicroK8sIds
  {
    var t := MicroK8sProbes(osType);
    assert forall k :: 0 <= k < 17 ==> t[k].id == MicroK8sIds[k];
  }

  /** No declared check is ripple-only, and only the hostfile check carries a
      Linux-command flag. */
  lemma MicroK8sProbeFlags(osType: string)
    ensures forall k :: 0 <= k < |MicroK8sProbes(osType)| ==> MicroK8sProbes(osType)[k].rippleStackOnly.None?
    ensures forall k :: 0 <= k < |MicroK8sProbes(osType)| ==> (MicroK8sProbes(osType)[k].isLinuxCommand.Some? <==> k == 15)
  {
  }

  /** The rendered table has the same ids and flags. */
  lemma MicroK8sTableIds(osType: string)
    ensures |MicroK8sAppsStatus(osType)| == 17 && IdsOf(MicroK8sAppsStatus(osType)) == MicroK8sIds
    ensures DistinctIds(MicroK8sAppsStatus(osType))
    ensures forall k :: 0 <= k < 17 ==> MicroK8sAppsStatus(osType)[k].rippleStackOnly.None?
    ensures forall k :: 0 <= k < 17 ==> (MicroK8sAppsStatus(osType)[k].isLinuxCommand.Some? <==> k == 15)
  {
    var t := MicroK8sProbes(osType);
    assert MicroK8sAppsStatus(osType) == Render(osType, t);
    MicroK8sProbeFlags(osType);
    RenderKeepsIds(osType, t);
  }

  /** The checks that need a running cluster are guarded: `microk8s` through `agones`,
      `engine`, and `hostfile` except on Windows; the tool checks, the file server check
      and the Windows hostfile script run as declared. */
  lemma MicroK8sTableGating(osType: string)
    ensures forall k :: 0 <= k < 17 ==>
      (MicroK8sProbes(osType)[k].command.Guarded?
       <==> (10 <= k <= 13 || k == 16 || (k == 15 && osType != WindowsType)))
  {
  }

  /** The hostfile check per platform: the PowerShell script unchanged on Windows, the
      bash script guard-wrapped and flagged as a Linux command elsewhere. */
  lemma MicroK8sHostfile(osType: string)
    ensures var d := MicroK8sAppsStatus(osType)[15];
      d.id == "hostfile" && d.isLinuxCommand == Some(osType != WindowsType)
      && (osType == WindowsType ==> d.command == HostfilePowerShell)
      && (osType != WindowsType ==> Unwrap(osType, d.command) == Some(HostfileBash))
  {
    MicroK8sHostfileProbe(osType);
    var p := MicroK8sProbes(osType)[15];
    assert MicroK8sAppsStatus(osType)[15] ==
      CheckDecl(p.id, p.caption, Command(osType, p.command), p.isLinuxCommand, p.rippleStackOnly);
  }

  /** The declared hostfile check is `HostfileCheck`. */
  lemma MicroK8sHostfileProbe(osType: string)
    ensures |MicroK8sProbes(osType)| == 17 && MicroK8sProbes(osType)[15] == HostfileCheck(osType)
  {
  }

  /** The guarded checks embed their probe scripts unchanged once the escaping is undone;
      the version probe calls `microk8s` through the OS type's prefix. */
  lemma MicroK8sGuardedScripts(osType: string)
    ensures Unwrap(osType, MicroK8sAppsStatus(osType)[10].command)
      == Some(Prefix(osType) + "microk8s version;" + Prefix(osType) + "microk8s status;")
    ensures Unwrap(osType, MicroK8sAppsStatus(osType)[11].command) == Some(IngressScript)
  {
    var t := MicroK8sProbes(osType);
    assert t[10].command == Guarded(Prefix(osType) + "microk8s version;" + Prefix(osType) + "microk8s status;");
    assert t[11].command == Guarded(IngressScript);
  }

  /** The ripple checks are declared guarded, and are Linux commands that only run with
      the ripple stack enabled. */
  lemma MicroK8sRippleProbeShape()
    ensures IdsOf(MicroK8sRippleProbes) == ["rippled", "ipfs"]
    ensures forall k :: 0 <= k < |MicroK8sRippleProbes| ==>
      MicroK8sRippleProbes[k].isLinuxCommand == Some(true)
      && MicroK8sRippleProbes[k].rippleStackOnly == Some(true)
      && MicroK8sRippleProbes[k].command.Guarded?
  {
  }

  /** Rendered, the ripple table keeps those ids and flags. */
  lemma MicroK8sRippleTableShape(osType: string)
    ensures |MicroK8sRippleAppsStatus(osType)| == 2 && IdsOf(MicroK8sRippleAppsStatus(osType)) == ["rippled", "ipfs"]
    ensures forall k :: 0 <= k < 2 ==>
      MicroK8sRippleAppsStatus(osType)[k].isLinuxCommand == Some(true)
      && MicroK8sRippleAppsStatus(osType)[k].rippleStackOnly == Some(true)
  {
    MicroK8sRippleProbeShape();
    RenderKeepsIds(osType, MicroK8sRippleProbes);
  }

  /** The rendered ripple checks embed their probe scripts unchanged once the escaping is
      undone. */
  lemma MicroK8sRippleScripts(osType: string)
    ensures Unwrap(osType, MicroK8sRippleAppsStatus(osType)[0].command) == Some("helm status local-rippled;")
    ensures Unwrap(osType, MicroK8sRippleAppsStatus(osType)[1].command) == Some("helm status local-ipfs;")
  {
    var t := MicroK8sRippleProbes;
    assert t[0].command == Guarded("helm status local-rippled;");
    assert t[1].command == Guarded("helm status local-ipfs;");
  }

  /** As written, the `$` of the ingress probe reaches the rendered command with a
      backtick in front of it on every OS type, so the guard's shell sees `` `$(kubectl ``
      where the script had `$(kubectl`. */
  lemma IngressCommandBacktick(osType: string)
    ensures Contains(MicroK8sAppsStatus(osType)[11].command, "`" + Substitution)
  {
    IngressCommand(osType);
    WrappedIngressBacktick(osType);
  }

  /** The guard-wrapped, escaped ingress probe holds `` `$(kubectl ``. */
  lemma WrappedIngressBacktick(osType: string)
    ensures Contains(GuardHead(osType) + Escape(IngressScript) + GuardTail, "`" + Substitution)
  {
    assert Substitution[1..] == "(kubectl";
    EscapedBacktick(GuardHead(osType), IngressLead, Substitution, IngressRest, GuardTail);
  }

  /** The rendered ingress check is the ingress probe guard-wrapped. */
  lemma IngressCommand(osType: string)
    ensures MicroK8sAppsStatus(osType)[11].command == GuardHead(osType) + Escape(IngressScript) + GuardTail
  {
    var t := MicroK8sProbes(osType);
    assert t[11].command == Guarded(IngressScript);
  }

  /** Escaping a script that starts with its only `$` puts one backtick in front. */
  lemma EscapeLeadingDollar(x: string)
    requires |x| > 0 && x[0] == '$' && '$' !in x[1..]
    ensures Escape(x) == "`" + x
  {
    var t := Escape(x[1..]);
    assert t == x[1..];
    assert Escape(x) == "`$" + t;
    assert x == "$" + x[1..];
    assert "`" + x == "`$" + x[1..];
  }

  /** Text around an escaped script that holds such a piece holds the piece with a
      backtick in front. */
  lemma EscapedBacktick(h: string, lead: string, sub: string, rest: string, tail: string)
    requires |sub| > 0 && sub[0] == '$' && '$' !in sub[1..]
    ensures Contains(h + Escape(lead + sub + rest) + tail, "`" + sub)
  {
    EscapeAppend(lead + sub, rest);
    EscapeAppend(lead, sub);
    EscapeLeadingDollar(sub);
    var l, r := Escape(lead), Escape(rest);
    assert h + Escape(lead + sub + rest) + tail == (h + l) + ("`" + sub) + (r + tail);
    ContainsMiddle(h + l, "`" + sub, r + tail);
  }

  /** The ripple ids are new to the MicroK8s table. */
  lemma MicroK8sRippleDisjoint(osType: string)
    ensures DisjointIds(MicroK8sAppsStatus(osType), MicroK8sRippleAppsStatus(osType))
  {
    MicroK8sTableIds(osType);
    MicroK8sRippleTableShape(osType);
    MicroK8sRippleIdsNew();
    DisjointByIds(MicroK8sAppsStatus(osType), MicroK8sRippleAppsStatus(osType), MicroK8sIds, ["rippled", "ipfs"]);
  }

  /** Neither ripple id is an id of the MicroK8s table. */
  lemma MicroK8sRippleIdsNew()
    ensures forall i, j :: 0 <= i < |MicroK8sIds| && 0 <= j < 2 ==> MicroK8sIds[i] != ["rippled", "ipfs"][j]
  {
  }
}
