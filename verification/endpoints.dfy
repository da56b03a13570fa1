/** The two pieces of `Endpoints` with logic in them: the hosts whose self-signed
    certificates the launcher trusts, and the launch-page URL builder. */
module Endpoints {
  import opened Text

  /** `ALLOW_CERTIFICATES`: client, API server, instance server, MinIO and the MicroK8s
      dashboard of a local deployment. */
  const AllowCertificates: seq<string> := [
    "local.ir-engine.org",
    "api-local.ir-engine.org",
    "instanceserver-local.ir-engine.org",
    "localhost:9000",
    "localhost:10443"
  ]

  /** The set holds exactly the five hosts, each once. */
  lemma AllowCertificatesShape()
    ensures |AllowCertificates| == 5
    ensures forall i, j :: 0 <= i < j < |AllowCertificates| ==> AllowCertificates[i] != AllowCertificates[j]
    ensures forall host :: host in AllowCertificates <==>
      host == "local.ir-engine.org" || host == "api-local.ir-engine.org"
      || host == "instanceserver-local.ir-engine.org" || host == "localhost:9000" || host == "localhost:10443"
  {
  }

  /** The certificate verification callback: `0` (trust) for a listed host name, `-3`
      (use Chromium's own verdict) for any other. */
  function VerifyCertificate(hostname: string): (r: int)
    ensures r == 0 <==> hostname in AllowCertificates
    ensures r != 0 ==> r == -3
  {
    if hostname in AllowCertificates then 0 else -3
  }

  /** No host outside the list is ever trusted, whatever it looks like. */
  lemma OnlyListedHostsTrusted(hostname: string)
    requires VerifyCertificate(hostname) == 0
    ensures exists k :: 0 <= k < 5 && AllowCertificates[k] == hostname
  {
    var k :| 0 <= k < |AllowCertificates| && AllowCertificates[k] == hostname;
    AllowCertificatesShape();
  }

  /** The path every launch page ends with. */
  const LaunchPath: string := "/location/apartment"

  /** The host part of a launch page: the host itself when it already starts with
      `https`, otherwise the host behind `https://`. */
  function SecureHost(host: string): (r: string)
    ensures StartsWith(r, "https")
    ensures EndsWith(r, host)
    ensures StartsWith(host, "https") <==> r == host
  {
    if StartsWith(host, "https") then host
    else
      var r := "https://" + host;
      assert r[..5] == "https";
      assert r[|r| - |host|..] == host;
      r
  }

  /** `Urls.LAUNCH_PAGE(host)` */
  function LaunchPage(host: string): (r: string)
    ensures StartsWith(r, "https")
    ensures EndsWith(r, LaunchPath)
    ensures |r| == |SecureHost(host)| + |LaunchPath| && r[..|SecureHost(host)|] == SecureHost(host)
  {
    var h := SecureHost(host);
    var r := h + LaunchPath;
    assert r[..5] == h[..5];
    assert r[|r| - |LaunchPath|..] == LaunchPath;
    assert r[..|h|] == h;
    r
  }

  /** Securing a host twice changes nothing, so building a launch page from the host
      part of another gives the same page. */
  lemma LaunchPageStable(host: string)
    ensures SecureHost(SecureHost(host)) == SecureHost(host)
    ensures LaunchPage(SecureHost(host)) == LaunchPage(host)
  {
  }

  /** Stripping the path from a launch page recovers its host part; when the host did
      not start with `https`, that is `https://` followed by the host unchanged. */
  lemma LaunchPageHost(host: string)
    ensures var r := LaunchPage(host);
      r[..|r| - |LaunchPath|] == SecureHost(host)
    ensures !StartsWith(host, "https") ==>
      LaunchPage(host)[..8] == "https://" && LaunchPage(host)[8..|LaunchPage(host)| - |LaunchPath|] == host
  {
    var r := LaunchPage(host);
    if !StartsWith(host, "https") {
      assert r == "https://" + host + LaunchPath;
      assert r[..8] == "https://";
      assert r[8..|r| - |LaunchPath|] == host;
    }
  }
}
