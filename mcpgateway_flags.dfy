/** The compose-provider flags of cmd/docker-mcpgateway/flags.go. Every flag
    arrives as a string; the three switches are on only when spelled `yes`. */
module McpGatewayFlags {
  import Strs

  datatype Flags = Flags(project: string, image: string, network: string, tools: string,
                         logCalls: string, scanSecrets: string, verifySignatures: string)
  {
    /** The container of provider `providerName`. */
    function ContainerName(providerName: string): (r: string)
      ensures Strs.HasPrefix(r, project + "-") && Strs.HasSuffix(r, "-" + network)
      ensures |r| == |project| + |providerName| + |network| + 2
    {
      project + "-" + providerName + "-" + network
    }

    function NetworkName(): (r: string)
      ensures Strs.HasPrefix(r, project + "_") && Strs.HasSuffix(r, network)
    {
      project + "_" + network
    }

    predicate LogCallsEnabled() {
      IsYes(logCalls)
    }

    predicate ScanSecretsEnabled() {
      IsYes(scanSecrets)
    }

    predicate VerifySignaturesEnabled() {
      IsYes(verifySignatures)
    }
  }

  /** `strings.EqualFold(s, "yes")`: three characters, each in the simple case
      folding orbit of the letter (`s` also folds with U+017F, LATIN SMALL LETTER
      LONG S). */
  predicate IsYes(s: string) {
    |s| == 3 && (s[0] == 'y' || s[0] == 'Y') && (s[1] == 'e' || s[1] == 'E')
    && (s[2] == 's' || s[2] == 'S' || s[2] == '\U{17F}')
  }

  /** On ASCII text `IsYes` is case-insensitive equality with `yes`. */
  lemma IsYesAscii(s: string)
    requires forall i :: 0 <= i < |s| ==> s[i] < '\U{80}'
    ensures IsYes(s) <==> Strs.EqualFold(s, "yes")
  {
    var l := Strs.Lower(s);
    assert Strs.Lower("yes") == "yes" by {
      assert Strs.Lower("yes")[0] == 'y' && Strs.Lower("yes")[1] == 'e' && Strs.Lower("yes")[2] == 's';
    }
    if Strs.EqualFold(s, "yes") {
      assert |s| == 3 && l[0] == 'y' && l[1] == 'e' && l[2] == 's';
    }
    if IsYes(s) {
      assert l[0] == 'y' && l[1] == 'e' && l[2] == 's';
      assert l == "yes";
    }
  }

  /** The other usual spellings of "on" leave a switch off. */
  lemma OnlyYesIsOn()
    ensures IsYes("yes") && IsYes("YES") && IsYes("Yes")
    ensures !IsYes("true") && !IsYes("1") && !IsYes("on") && !IsYes("y") && !IsYes("yes ")
  {
  }

  /** Each switch reads only its own field. */
  lemma SwitchesIndependent(f: Flags, v: string)
    ensures f.(scanSecrets := v, verifySignatures := v).LogCallsEnabled() == f.LogCallsEnabled()
    ensures f.(logCalls := v, verifySignatures := v).ScanSecretsEnabled() == f.ScanSecretsEnabled()
    ensures f.(logCalls := v, scanSecrets := v).VerifySignaturesEnabled() == f.VerifySignaturesEnabled()
  {
  }

  /** Providers get distinct containers. */
  lemma {:induction false} ContainerNamesDistinct(f: Flags, p: string, q: string)
    requires f.ContainerName(p) == f.ContainerName(q)
    ensures p == q
  {
    var a, b := f.ContainerName(p), f.ContainerName(q);
    assert |p| == |q|;
    var k := |f.project| + 1;
    forall i | 0 <= i < |p|
      ensures p[i] == q[i]
    {
      assert a[k + i] == p[i];
      assert b[k + i] == q[i];
    }
  }
}
