// The names odo gives to cluster objects (pkg/util/util.go NamespaceOpenShiftObject and
// TruncateString; the suffixes of pkg/occlient and pkg/storage).

module Names {
  import opened Results
  import opened Strings

  const APP_ROOT_SUFFIX := "-s2idata"
  const PVC_SUFFIX := "-pvc"
  const VOLUME_SUFFIX := "-volume"
  const MAX_NAMESPACED_LENGTH := 54  // 63, less the app root suffix, less one
  const RANDOM_LENGTH := 5
  const SUPERVISORD_VOLUME := "odo-supervisord-shared-data"

  function TruncateString(s: string, maxLen: int): (r: string)
    requires maxLen >= -1
    ensures r <= s && (maxLen >= 0 ==> |r| <= maxLen)
    ensures r == s <==> maxLen == -1 || |s| <= maxLen
  {
    if maxLen == -1 then s else if |s| > maxLen then s[..maxLen] else s
  }

  /** The hyphenated name before truncation. */
  function FullName(component: string, application: string): string {
    ReplaceChar(component, '/', '-') + "-" + application
  }

  function NamespaceOpenShiftObject(component: string, application: string): Result<string> {
    if component == "" then Err(Refused("namespacing: component name cannot be blank"))
    else if application == "" then Err(Refused("namespacing: application name cannot be blank"))
    else Ok(TruncateString(FullName(component, application), MAX_NAMESPACED_LENGTH))
  }

  /** Within one application, two untruncated names collide exactly when the components differ only
      by `/` against `-`; in particular the naming is injective on slash-free names. */
  lemma NamespacedCollideIff(a: string, b: string, application: string)
    requires a != "" && b != "" && application != ""
    requires |FullName(a, application)| <= MAX_NAMESPACED_LENGTH
    requires |FullName(b, application)| <= MAX_NAMESPACED_LENGTH
    ensures NamespaceOpenShiftObject(a, application) == NamespaceOpenShiftObject(b, application)
            <==> ReplaceChar(a, '/', '-') == ReplaceChar(b, '/', '-')
    ensures '/' !in a && '/' !in b ==>
              (NamespaceOpenShiftObject(a, application) == NamespaceOpenShiftObject(b, application) <==> a == b)
  {
    var x, y := ReplaceChar(a, '/', '-'), ReplaceChar(b, '/', '-');
    if x + "-" + application == y + "-" + application {
      assert |x| == |y|;
      assert (x + "-" + application)[..|x|] == x && (y + "-" + application)[..|y|] == y;
    }
    if '/' !in a && '/' !in b {
      assert x == a && y == b;
    }
  }

  /** Two components of different applications can share a name. */
  lemma NamespacedCollidesAcrossApplications()
    ensures NamespaceOpenShiftObject("a-b", "c") == NamespaceOpenShiftObject("a", "b-c")
  {
    assert ReplaceChar("a-b", '/', '-') == "a-b" && ReplaceChar("a", '/', '-') == "a";
    assert FullName("a-b", "c") == "a-b-c" == FullName("a", "b-c");
  }

  /** getAppRootVolumeName: names both the claim and the volume of a component's source data. */
  function AppRootVolumeName(dcName: string): string {
    dcName + APP_ROOT_SUFFIX
  }

  /** generatePVCNameFromStorageName. */
  function PVCNameFromStorageName(namespaced: string): string {
    namespaced + PVC_SUFFIX
  }

  /** generateVolumeNameFromPVC, with the random part supplied by the environment. */
  function VolumeNameFromPVC(pvc: string, random: string): string {
    pvc + "-" + random + VOLUME_SUFFIX
  }

  lemma AppRootInjective(a: string, b: string)
    requires AppRootVolumeName(a) == AppRootVolumeName(b)
    ensures a == b
  {
    assert AppRootVolumeName(a)[..|a|] == a && AppRootVolumeName(b)[..|b|] == b;
  }

  /** The source-data claim is never a storage claim. */
  lemma AppRootIsNoStorageClaim(dcName: string, namespaced: string)
    ensures AppRootVolumeName(dcName) != PVCNameFromStorageName(namespaced)
  {
    var a, b := AppRootVolumeName(dcName), PVCNameFromStorageName(namespaced);
    assert a[|a| - 1] == 'a' && b[|b| - 1] == 'c';
  }

  /** A generated volume name is never one of the two bootstrap volumes. */
  lemma GeneratedIsNoBootstrapVolume(pvc: string, random: string, dcName: string)
    ensures VolumeNameFromPVC(pvc, random) != SUPERVISORD_VOLUME
    ensures VolumeNameFromPVC(pvc, random) != AppRootVolumeName(dcName)
    ensures SUPERVISORD_VOLUME != AppRootVolumeName(dcName)
  {
    var v, a := VolumeNameFromPVC(pvc, random), AppRootVolumeName(dcName);
    assert v[|v| - 1] == 'e' && a[|a| - 1] == 'a' && SUPERVISORD_VOLUME[|SUPERVISORD_VOLUME| - 1] == 'a';
    assert a[|a| - 5] == 'i' && SUPERVISORD_VOLUME[|SUPERVISORD_VOLUME| - 5] == '-';
  }

  /** Volume names of different claims differ WHATEVER the random parts are, because the random part
      has a fixed length: no freshness of random names is needed. */
  lemma VolumeNameDeterminesClaim(p: string, r: string, q: string, s: string)
    requires |r| == |s| == RANDOM_LENGTH
    requires VolumeNameFromPVC(p, r) == VolumeNameFromPVC(q, s)
    ensures p == q && r == s
  {
    var v, w := VolumeNameFromPVC(p, r), VolumeNameFromPVC(q, s);
    assert |p| == |q|;
    assert v[..|p|] == p && w[..|q|] == q;
    assert v[|p| + 1..|p| + 6] == r && w[|q| + 1..|q| + 6] == s;
  }
}
