/** Deriving a NodeImage from a Release: the image name built from the
    release's flatcar, kubernetes and os-tooling components, the provider
    taken from the release name, and the NodeImage object that carries both. */
module Naming {
  import opened Types

  const FlatcarComponent := "flatcar"
  const KubernetesComponent := "kubernetes"
  const ToolingComponent := "os-tooling"

  // ------------------------------------------------------------ components

  /** Index of the first component named `name`, or |cs| if there is none. */
  function FirstNamed(cs: seq<Component>, name: string): (i: nat)
    ensures i <= |cs|
    ensures forall j :: 0 <= j < i ==> cs[j].name != name
    ensures i < |cs| ==> cs[i].name == name
  {
    if |cs| == 0 then 0
    else if cs[0].name == name then 0
    else 1 + FirstNamed(cs[1..], name)
  }

  /** The first component of `release` named `component`, or an error if the
      release has none. */
  function GetReleaseComponent(release: Release, component: string): (r: Result<Component>)
    ensures r.Err? <==> forall j :: 0 <= j < |release.components| ==> release.components[j].name != component
    ensures r.Err? ==> r.error == ComponentNotFound(component, release.name)
    ensures r.Ok? ==> exists i :: 0 <= i < |release.components| && release.components[i] == r.value
                        && r.value.name == component
                        && forall j :: 0 <= j < i ==> release.components[j].name != component
  {
    var i := FirstNamed(release.components, component);
    if i < |release.components| then Ok(release.components[i])
    else Err(ComponentNotFound(component, release.name))
  }

  predicate HasComponent(release: Release, component: string) {
    GetReleaseComponent(release, component).Ok?
  }

  /** Version of the first component named `component`; requires that there is one. */
  function VersionOf(release: Release, component: string): string
    requires HasComponent(release, component)
  {
    GetReleaseComponent(release, component).value.version
  }

  // ------------------------------------------------------------ image name

  /** Go's strings.TrimPrefix(s, "v"). */
  function TrimLeadingV(s: string): (r: string)
    ensures HasPrefix(s, "v") ==> s == "v" + r
    ensures !HasPrefix(s, "v") ==> r == s
  {
    if HasPrefix(s, "v") then s[1..] else s
  }

  /** The image name format shared with the image builder,
      "flatcar-<channel>-<flatcar>-kube-<kubernetes>-tooling-<tooling>-gs",
      written as its dash-separated fields. */
  function BuildImageName(flatcarChannel: string, flatcarVersion: string,
                          kubernetesVersion: string, toolingVersion: string): (name: string)
    ensures |name| == 27 + |flatcarChannel| + |flatcarVersion| + |TrimLeadingV(kubernetesVersion)| + |TrimLeadingV(toolingVersion)|
    ensures name[..8] == "flatcar-" && name[|name| - 3..] == "-gs"
  {
    "flatcar" + "-" + (flatcarChannel + "-" + (flatcarVersion + "-" + ("kube" + "-" + (TrimLeadingV(kubernetesVersion)
      + "-" + ("tooling" + "-" + (TrimLeadingV(toolingVersion) + "-" + "gs"))))))
  }

  /** The image name of `release`: the three components are looked up first,
      in the order flatcar, kubernetes, os-tooling; then their versions and the
      channel are checked for emptiness, in that order. */
  function GetImageName(release: Release, flatcarChannel: string): (r: Result<string>)
    ensures r.Ok? <==>
              && HasComponent(release, FlatcarComponent)
              && HasComponent(release, KubernetesComponent)
              && HasComponent(release, ToolingComponent)
              && VersionOf(release, FlatcarComponent) != ""
              && VersionOf(release, KubernetesComponent) != ""
              && VersionOf(release, ToolingComponent) != ""
              && flatcarChannel != ""
    ensures r.Ok? ==> r.value == BuildImageName(flatcarChannel, VersionOf(release, FlatcarComponent),
                                                VersionOf(release, KubernetesComponent),
                                                VersionOf(release, ToolingComponent))
    ensures !HasComponent(release, FlatcarComponent) ==>
              r == Err(ComponentNotFound(FlatcarComponent, release.name))
    ensures HasComponent(release, FlatcarComponent) && !HasComponent(release, KubernetesComponent) ==>
              r == Err(ComponentNotFound(KubernetesComponent, release.name))
    ensures HasComponent(release, FlatcarComponent) && HasComponent(release, KubernetesComponent)
              && !HasComponent(release, ToolingComponent) ==>
              r == Err(ComponentNotFound(ToolingComponent, release.name))
    ensures r.Err? && HasComponent(release, FlatcarComponent) && HasComponent(release, KubernetesComponent)
              && HasComponent(release, ToolingComponent) ==>
              r.error == (if VersionOf(release, FlatcarComponent) == "" then VersionEmpty(FlatcarComponent)
                          else if VersionOf(release, KubernetesComponent) == "" then VersionEmpty(KubernetesComponent)
                          else if VersionOf(release, ToolingComponent) == "" then VersionEmpty(ToolingComponent)
                          else ChannelEmpty)
  {
    var flatcar := GetReleaseComponent(release, FlatcarComponent);
    if flatcar.Err? then Err(flatcar.error)
    else
      var kubernetes := GetReleaseComponent(release, KubernetesComponent);
      if kubernetes.Err? then Err(kubernetes.error)
      else
        var tooling := GetReleaseComponent(release, ToolingComponent);
        if tooling.Err? then Err(tooling.error)
        else if flatcar.value.version == "" then Err(VersionEmpty(FlatcarComponent))
        else if kubernetes.value.version == "" then Err(VersionEmpty(KubernetesComponent))
        else if tooling.value.version == "" then Err(VersionEmpty(ToolingComponent))
        else if flatcarChannel == "" then Err(ChannelEmpty)
        else Ok(BuildImageName(flatcarChannel, flatcar.value.version,
                               kubernetes.value.version, tooling.value.version))
  }

  // ------------------------------------------------------------ provider

  predicate IsProviderChar(c: char) { 'a' <= c <= 'z' || c == '-' }

  predicate IsDigit(c: char) { '0' <= c <= '9' }

  /** Length of the longest prefix of `s` made of [a-z-]. */
  function ProviderRun(s: string): (n: nat)
    ensures n <= |s|
    ensures forall i :: 0 <= i < n ==> IsProviderChar(s[i])
    ensures n < |s| ==> !IsProviderChar(s[n])
  {
    if |s| == 0 || !IsProviderChar(s[0]) then 0 else 1 + ProviderRun(s[1..])
  }

  /** Length of the longest prefix of `s` made of decimal digits. */
  function DigitRun(s: string): (n: nat)
    ensures n <= |s|
    ensures forall i :: 0 <= i < n ==> IsDigit(s[i])
    ensures n < |s| ==> !IsDigit(s[n])
  {
    if |s| == 0 || !IsDigit(s[0]) then 0 else 1 + DigitRun(s[1..])
  }

  /** `s` starts with \d+\.\d+\.\d+ (what follows is not examined). */
  predicate StartsWithVersion(s: string) {
    var a := DigitRun(s);
    && 0 < a < |s| && s[a] == '.'
    && var t := s[a + 1..];
       var b := DigitRun(t);
       && 0 < b < |t| && t[b] == '.'
       && DigitRun(t[b + 1..]) > 0
  }

  /** The provider is the capture group of ^([a-z-]+)-\d+\.\d+\.\d+ on the
      release name. The digit after the separating '-' ends the run of [a-z-],
      so the group is that run without its final '-'. */
  function GetImageProvider(release: string): (r: Result<string>)
    ensures r.Err? ==> r.error == ProviderNameNotFound(release)
  {
    var n := ProviderRun(release);
    if n >= 2 && release[n - 1] == '-' && StartsWithVersion(release[n..]) then Ok(release[..n - 1])
    else Err(ProviderNameNotFound(release))
  }

  /** Reference meaning of the regular expression: `p` is a capture of
      ^([a-z-]+)-\d+\.\d+\.\d+ on `s` when `s` starts with `p` followed by '-'
      and a version, and `p` is a non-empty word over [a-z-]. */
  ghost predicate IsProviderCapture(s: string, p: string) {
    && 0 < |p| && |p| < |s|
    && s[..|p|] == p
    && (forall i :: 0 <= i < |p| ==> IsProviderChar(p[i]))
    && s[|p|] == '-'
    && StartsWithVersion(s[|p| + 1..])
  }

  /** The digit after the separating '-' ends the run of [a-z-]. */
  lemma ProviderRunOfCapture(s: string, p: string)
    requires IsProviderCapture(s, p)
    ensures ProviderRun(s) == |p| + 1
  {
    var m := |p| + 1;
    var t := s[m..];
    assert 0 < DigitRun(t);
    assert m < |s| && IsDigit(s[m]) by { assert s[m] == t[0]; }
    assert forall i :: 0 <= i < |p| ==> s[i] == p[i];
  }

  lemma CaptureIsProvider(s: string, p: string)
    requires IsProviderCapture(s, p)
    ensures GetImageProvider(s) == Ok(p)
  {
    ProviderRunOfCapture(s, p);
    var n := ProviderRun(s);
    assert s[..n - 1] == p;
    assert s[n..] == s[|p| + 1..];
  }

  lemma ProviderIsCapture(s: string, p: string)
    requires GetImageProvider(s) == Ok(p)
    ensures IsProviderCapture(s, p)
  {
    var n := ProviderRun(s);
    assert p == s[..n - 1];
    assert forall i :: 0 <= i < |p| ==> p[i] == s[i];
    assert s[|p| + 1..] == s[n..];
  }

  /** GetImageProvider returns exactly the capture of the regular expression. */
  lemma GetImageProviderIsCapture(s: string, p: string)
    ensures GetImageProvider(s) == Ok(p) <==> IsProviderCapture(s, p)
  {
    if IsProviderCapture(s, p) { CaptureIsProvider(s, p); }
    if GetImageProvider(s) == Ok(p) { ProviderIsCapture(s, p); }
  }

  /** GetImageProvider fails exactly when the regular expression does not match. */
  lemma GetImageProviderMatches(s: string)
    ensures GetImageProvider(s).Ok? <==> exists p :: IsProviderCapture(s, p)
  {
    if GetImageProvider(s).Ok? {
      GetImageProviderIsCapture(s, GetImageProvider(s).value);
    }
    forall p | IsProviderCapture(s, p) ensures GetImageProvider(s).Ok? {
      GetImageProviderIsCapture(s, p);
    }
  }

  /** A release name without a digit has no provider. */
  lemma NoDigitNoProvider(s: string)
    requires forall i :: 0 <= i < |s| ==> !IsDigit(s[i])
    ensures GetImageProvider(s).Err?
  {
  }

  lemma {:induction false} DigitRunOfDigits(d: string, rest: string)
    requires forall i :: 0 <= i < |d| ==> IsDigit(d[i])
    requires rest != [] && !IsDigit(rest[0])
    ensures DigitRun(d + rest) == |d|
  {
    if d != [] {
      assert (d + rest)[1..] == d[1..] + rest;
      DigitRunOfDigits(d[1..], rest);
    } else {
      assert d + rest == rest;
    }
  }

  /** Three dot-separated runs of digits make a version. */
  lemma VersionOfRuns(x: string, y: string, z: string)
    requires 0 < |x| && 0 < |y| && 0 < |z|
    requires forall i :: 0 <= i < |x| ==> IsDigit(x[i])
    requires forall i :: 0 <= i < |y| ==> IsDigit(y[i])
    requires forall i :: 0 <= i < |z| ==> IsDigit(z[i])
    ensures StartsWithVersion(x + "." + (y + "." + z))
  {
    var s := x + "." + (y + "." + z);
    DigitRunOfDigits(x, "." + (y + "." + z));
    assert s == x + ("." + (y + "." + z));
    assert s[|x|] == '.';
    var t := s[|x| + 1..];
    assert t == y + "." + z;
    DigitRunOfDigits(y, "." + z);
    assert t == y + ("." + z);
    assert t[|y| + 1..] == z;
  }

  /** The providers of release names the image tests use: "vsphere-1.2.3"
      gives "vsphere", while "vsphere" and "invalid-release-name" give none. */
  lemma VsphereExample(v: string)
    requires v == "vsphere-1.2.3"
    ensures GetImageProvider(v) == Ok("vsphere")
  {
    VersionOfRuns("1", "2", "3");
    assert v[..7] == "vsphere" && v[8..] == "1" + "." + ("2" + "." + "3");
    CaptureIsProvider(v, "vsphere");
  }

  lemma InvalidNameExamples(s: string, t: string)
    requires s == "vsphere" && t == "invalid-release-name"
    ensures GetImageProvider(s).Err? && GetImageProvider(t).Err?
  {
    NoDigitNoProvider(s);
    NoDigitNoProvider(t);
  }

  /** "cloud-director-0.10.5" gives "cloud-director": the provider may contain '-'. */
  lemma CloudDirectorExample(c: string)
    requires c == "cloud-director-0.10.5"
    ensures GetImageProvider(c) == Ok("cloud-director")
  {
    VersionOfRuns("0", "10", "5");
    assert c[..14] == "cloud-director" && c[15..] == "0" + "." + ("10" + "." + "5");
    CaptureIsProvider(c, "cloud-director");
  }

  // ------------------------------------------------------------ NodeImage

  /** The NodeImage for an image name and a provider: the object is named
      provider + "-" + image name; the release name is not used. */
  function GetNodeImage(imageName: string, providerName: string, releaseName: string): (img: NodeImage)
    ensures img.name == providerName + "-" + imageName
    ensures img.spec == NodeImageSpec(imageName, providerName)
    ensures img.status == NodeImageStatus([], Unset) && img.annotations == map[]
    ensures !img.finalizer && !img.deletionRequested
  {
    NodeImage(providerName + "-" + imageName, "", map[], false, false,
              NodeImageSpec(imageName, providerName), NodeImageStatus([], Unset))
  }

  /** The NodeImage for `release`; the image name is checked before the
      provider, and on either error the empty NodeImage comes with the error. */
  function GetNodeImageFromRelease(release: Release, flatcarChannel: string): (r: (NodeImage, Option<Failure>))
    ensures r.1.Some? ==> r.0 == EmptyNodeImage
    ensures GetImageName(release, flatcarChannel).Err? ==>
              r.1 == Some(GetImageName(release, flatcarChannel).error)
    ensures GetImageName(release, flatcarChannel).Ok? && GetImageProvider(release.name).Err? ==>
              r.1 == Some(ProviderNameNotFound(release.name))
    ensures r.1.None? <==> GetImageName(release, flatcarChannel).Ok? && GetImageProvider(release.name).Ok?
    ensures r.1.None? ==>
              && r.0.spec.name == GetImageName(release, flatcarChannel).value
              && r.0.spec.provider == GetImageProvider(release.name).value
              && r.0.name == r.0.spec.provider + "-" + r.0.spec.name
  {
    var imageName := GetImageName(release, flatcarChannel);
    if imageName.Err? then (EmptyNodeImage, Some(imageName.error))
    else
      var providerName := GetImageProvider(release.name);
      if providerName.Err? then (EmptyNodeImage, Some(providerName.error))
      else (GetNodeImage(imageName.value, providerName.value, release.name), None)
  }

  // ------------------------------------------------------------ name round trip

  predicate NoDash(s: string) { forall i :: 0 <= i < |s| ==> s[i] != '-' }

  /** Index of the first '-' in `s`, or |s|. */
  function DashIndex(s: string): (i: nat)
    ensures i <= |s| && NoDash(s[..i]) && (i < |s| ==> s[i] == '-')
  {
    if |s| == 0 then 0
    else if s[0] == '-' then 0
    else
      var j := DashIndex(s[1..]);
      assert s[1..][..j] == s[1..j + 1];
      1 + j
  }

  /** Go's strings.Split(s, "-"). */
  function Fields(s: string): seq<string>
    decreases |s|
  {
    var i := DashIndex(s);
    if i == |s| then [s] else [s[..i]] + Fields(s[i + 1..])
  }

  /** Reading an image name back: the channel, flatcar, kubernetes and tooling
      fields of a name in the BuildImageName format (used only to state what
      the format determines). */
  function ParseImageName(name: string): Option<(string, string, string, string)> {
    var f := Fields(name);
    if |f| == 8 && f[0] == "flatcar" && f[3] == "kube" && f[5] == "tooling" && f[7] == "gs"
    then Some((f[1], f[2], f[4], f[6]))
    else None
  }

  lemma FieldsNoDash(a: string)
    requires NoDash(a)
    ensures Fields(a) == [a]
  {
    assert a[..|a|] == a;
  }

  lemma FieldsCons(a: string, b: string)
    requires NoDash(a)
    ensures Fields(a + "-" + b) == [a] + Fields(b)
  {
    var s := a + "-" + b;
    assert forall j :: 0 <= j < |a| ==> s[j] == a[j];
    assert s[|a|] == '-';
    assert DashIndex(s) == |a|;
    assert s[..|a|] == a;
    assert s[|a| + 1..] == b;
  }

  lemma TrimLeadingVNoDash(s: string)
    requires NoDash(s)
    ensures NoDash(TrimLeadingV(s))
  {
    var r := TrimLeadingV(s);
    if HasPrefix(s, "v") { assert forall i :: 0 <= i < |r| ==> r[i] == s[i + 1]; }
  }

  lemma TailFields(k: string, t: string)
    requires NoDash(k) && NoDash(t)
    ensures Fields(k + "-" + ("tooling" + "-" + (t + "-" + "gs"))) == [k, "tooling", t, "gs"]
  {
    assert NoDash("tooling") && NoDash("gs");
    FourFields(k, "tooling", t, "gs");
  }

  lemma FourFields(a: string, b: string, c: string, d: string)
    requires NoDash(a) && NoDash(b) && NoDash(c) && NoDash(d)
    ensures Fields(a + "-" + (b + "-" + (c + "-" + d))) == [a, b, c, d]
  {
    FieldsNoDash(d);
    FieldsCons(c, d);
    FieldsCons(b, c + "-" + d);
    FieldsCons(a, b + "-" + (c + "-" + d));
  }

  lemma KubeFields(flatcar: string, rest: string)
    requires NoDash(flatcar)
    ensures Fields(flatcar + "-" + ("kube" + "-" + rest)) == [flatcar, "kube"] + Fields(rest)
  {
    assert NoDash("kube");
    FieldsCons("kube", rest);
    FieldsCons(flatcar, "kube" + "-" + rest);
  }

  lemma HeadFields(channel: string, rest: string)
    requires NoDash(channel)
    ensures Fields("flatcar" + "-" + (channel + "-" + rest)) == ["flatcar", channel] + Fields(rest)
  {
    assert NoDash("flatcar");
    FieldsCons(channel, rest);
    FieldsCons("flatcar", channel + "-" + rest);
  }

  /** Every field of a name built from dash-free parts can be read back: the
      channel and the flatcar version unchanged, the kubernetes and tooling
      versions with exactly one leading "v" removed. */
  lemma {:induction false} BuildImageNameRoundTrip(channel: string, flatcar: string, kubernetes: string, tooling: string)
    requires NoDash(channel) && NoDash(flatcar) && NoDash(kubernetes) && NoDash(tooling)
    ensures ParseImageName(BuildImageName(channel, flatcar, kubernetes, tooling))
            == Some((channel, flatcar, TrimLeadingV(kubernetes), TrimLeadingV(tooling)))
  {
    var k, t := TrimLeadingV(kubernetes), TrimLeadingV(tooling);
    TrimLeadingVNoDash(kubernetes);
    TrimLeadingVNoDash(tooling);
    var rest := k + "-" + ("tooling" + "-" + (t + "-" + "gs"));
    var name := BuildImageName(channel, flatcar, kubernetes, tooling);
    assert name == "flatcar" + "-" + (channel + "-" + (flatcar + "-" + ("kube" + "-" + rest)));
    TailFields(k, t);
    KubeFields(flatcar, rest);
    HeadFields(channel, flatcar + "-" + ("kube" + "-" + rest));
    ParseFields(name, channel, flatcar, k, t);
  }

  lemma ParseFields(name: string, channel: string, flatcar: string, k: string, t: string)
    requires Fields(name) == ["flatcar", channel] + ([flatcar, "kube"] + [k, "tooling", t, "gs"])
    ensures ParseImageName(name) == Some((channel, flatcar, k, t))
  {
    assert Fields(name) == ["flatcar", channel, flatcar, "kube", k, "tooling", t, "gs"];
  }

  /** A leading "v" on the kubernetes or tooling version does not change the
      name; on the channel or the flatcar version it does. */
  lemma BuildImageNameIgnoresVPrefix(channel: string, flatcar: string, kubernetes: string, tooling: string)
    requires !HasPrefix(kubernetes, "v") && !HasPrefix(tooling, "v")
    ensures BuildImageName(channel, flatcar, "v" + kubernetes, "v" + tooling)
            == BuildImageName(channel, flatcar, kubernetes, tooling)
  {
    assert ("v" + kubernetes)[1..] == kubernetes;
    assert ("v" + tooling)[1..] == tooling;
  }
}
