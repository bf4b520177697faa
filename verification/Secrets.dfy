// One secret per service port (pkg/occlient/occlient.go createSecrets) and finding the right one again
// (pkg/secret/secret.go DetermineSecretName).

module Secrets {
  import opened Cluster
  import opened Lists
  import opened Objects
  import opened Ports
  import opened Results
  import opened Strings

  type Annotations = map<string, string>

  const PORT_ANNOTATION := "component-port"

  /** secretKeyName. */
  function SecretKeyName(component: string, key: string): string {
    "COMPONENT_" + ReplaceChar(ToUpper(component), '-', '_') + "_" + ToUpper(key)
  }

  function SecretNameFor(name: string, port: int): string {
    name + "-" + PrintInt(port)
  }

  /** What all secrets of one call have in common. */
  datatype Owner = Owner(name: string, labels: Labels, component: string, service: string)

  function SecretFor(o: Owner, annotations: Annotations): int -> Secret {
    (port: int) =>
      Secret(SecretNameFor(o.name, port), o.labels, annotations[PORT_ANNOTATION := PrintInt(port)],
             map[SecretKeyName(o.component, "host") := o.service, SecretKeyName(o.component, "port") := PrintInt(port)])
  }

  datatype SecretRun = SecretRun(secrets: seq<Secret>, annotations: Annotations, ok: bool)

  /** The loop over the service ports; the annotation map is shared with the caller and overwritten. */
  function CreateEach(secrets: seq<Secret>, o: Owner, annotations: Annotations, ports: seq<int>): SecretRun
    decreases ports
  {
    if ports == [] then SecretRun(secrets, annotations, true)
    else
      var secret := SecretFor(o, annotations)(ports[0]);
      if secret.name in Map(NameOfSecret, secrets) then SecretRun(secrets, secret.annotations, false)
      else CreateEach(secrets + [secret], o, secret.annotations, ports[1..])
  }

  function CreatedSecrets(secrets: seq<Secret>, o: Owner, annotations: Annotations, ports: seq<int>): SecretRun {
    var p := CreateEach(secrets, o, annotations, ports);
    if p.ok then p.(annotations := p.annotations - {PORT_ANNOTATION}) else p
  }

  /** The annotation map that the object metadata share. */
  class SharedAnnotations {
    var entries: Annotations

    constructor (entries: Annotations)
      ensures this.entries == entries
    {
      this.entries := entries;
    }
  }

  method CreateSecrets(client: Client, o: Owner, annotations: SharedAnnotations, ports: seq<int>)
    returns (r: Result<()>)
    modifies client`secrets, annotations
    ensures SecretRun(client.secrets, annotations.entries, r.Ok?)
         == CreatedSecrets(old(client.secrets), o, old(annotations.entries), ports)
  {
    for i := 0 to |ports|
      invariant CreateEach(old(client.secrets), o, old(annotations.entries), ports)
             == CreateEach(client.secrets, o, annotations.entries, ports[i..])
    {
      assert ports[i..][1..] == ports[i + 1..];
      var portAsString := PrintInt(ports[i]);
      var name := o.name + "-" + portAsString;
      annotations.entries := annotations.entries[PORT_ANNOTATION := portAsString];
      var created := client.CreateSecret(Secret(name, o.labels, annotations.entries,
        map[SecretKeyName(o.component, "host") := o.service, SecretKeyName(o.component, "port") := portAsString]));
      if created.Err? {
        return created;
      }
    }
    annotations.entries := annotations.entries - {PORT_ANNOTATION};
    r := Ok(());
  }

  method DetermineSecretName(client: Client, component: string, application: string, port: string)
    returns (r: Result<string>)
    ensures r == Determined(client.secrets, component, application, port)
  {
    var found := SecretsOf(client.secrets, component, application);
    if |found| == 0 {
      return Err(SECRET_MISSING);
    }
    if |port| == 0 {
      if |found| == 1 {
        return Ok(found[0].name);
      }
      return Err(PORT_NEEDED);
    }
    for i := 0 to |found|
      invariant Search(found, port) == Search(found[i..], port)
    {
      assert found[i..][1..] == found[i + 1..];
      if PortOf(found[i]) == port {
        return Ok(found[i].name);
      }
    }
    r := Err(PORT_UNKNOWN);
  }

  // ------------------------------------------------------------ finding a secret

  const SECRET_MISSING := Refused("a secret should have been created for the component")
  const PORT_NEEDED := Refused("unable to properly link without a port")
  const PORT_UNKNOWN := Refused("unable to properly link using the port")

  function PortOf(s: Secret): string {
    if PORT_ANNOTATION in s.annotations then s.annotations[PORT_ANNOTATION] else ""
  }

  predicate BelongsTo(labels: Labels, component: string, application: string) {
    && ApplicationName in labels && labels[ApplicationName] == application
    && ComponentName in labels && labels[ComponentName] == component
  }

  function NotOf(component: string, application: string): Secret -> bool {
    (s: Secret) => !BelongsTo(s.labels, component, application)
  }

  function SecretsOf(secrets: seq<Secret>, component: string, application: string): seq<Secret> {
    Without(secrets, NotOf(component, application))
  }

  function Search(found: seq<Secret>, port: string): Result<string> {
    if found == [] then Err(PORT_UNKNOWN)
    else if PortOf(found[0]) == port then Ok(found[0].name)
    else Search(found[1..], port)
  }

  function Determined(secrets: seq<Secret>, component: string, application: string, port: string): Result<string> {
    var found := SecretsOf(secrets, component, application);
    if found == [] then Err(SECRET_MISSING)
    else if port == "" then (if |found| == 1 then Ok(found[0].name) else Err(PORT_NEEDED))
    else Search(found, port)
  }

  // ------------------------------------------------------------ creating

  lemma PrintIntInjective(a: int, b: int)
    requires PrintInt(a) == PrintInt(b)
    ensures a == b
  {
    if a >= 0 && b >= 0 {
      PrintNatInjective(a, b);
    } else if a < 0 && b < 0 {
      assert PrintInt(a)[1..] == PrintNat(-a) && PrintInt(b)[1..] == PrintNat(-b);
      PrintNatInjective(-a, -b);
    } else {
      PrintedSign(a);
      PrintedSign(b);
    }
  }

  lemma PrintedSign(n: int)
    ensures PrintInt(n) != "" && (PrintInt(n)[0] == '-' <==> n < 0)
  {
    if n >= 0 {
      DecimalRoundTrip(n);
    }
  }

  lemma SecretNameInjective(name: string, a: int, b: int)
    requires SecretNameFor(name, a) == SecretNameFor(name, b)
    ensures a == b
  {
    assert SecretNameFor(name, a)[|name| + 1..] == PrintInt(a);
    assert SecretNameFor(name, b)[|name| + 1..] == PrintInt(b);
    PrintIntInjective(a, b);
  }

  /** Each port is new: not among earlier ones and no secret of its name exists. */
  ghost predicate PortsFree(secrets: seq<Secret>, name: string, ports: seq<int>) {
    && Distinct(ports)
    && forall p :: p in ports ==> SecretNameFor(name, p) !in Map(NameOfSecret, secrets)
  }

  lemma SameApartFromPort(o: Owner, a: Annotations, b: Annotations, ports: seq<int>)
    requires a - {PORT_ANNOTATION} == b - {PORT_ANNOTATION}
    ensures Map(SecretFor(o, a), ports) == Map(SecretFor(o, b), ports)
  {
    forall p ensures SecretFor(o, a)(p) == SecretFor(o, b)(p) {
      var x, y := a[PORT_ANNOTATION := PrintInt(p)], b[PORT_ANNOTATION := PrintInt(p)];
      forall k ensures (k in x <==> k in y) && (k in x ==> x[k] == y[k]) {
        assert k != PORT_ANNOTATION ==> (k in a <==> k in a - {PORT_ANNOTATION});
        assert k != PORT_ANNOTATION ==> (k in b <==> k in b - {PORT_ANNOTATION});
      }
    }
  }

  lemma PortsFreeStep(secrets: seq<Secret>, o: Owner, ports: seq<int>, s: Secret)
    requires ports != [] && s.name == SecretNameFor(o.name, ports[0])
    ensures PortsFree(secrets, o.name, ports)
            <==> s.name !in Map(NameOfSecret, secrets) && PortsFree(secrets + [s], o.name, ports[1..])
  {
    var rest := ports[1..];
    assert ports == [ports[0]] + rest;
    assert Map(NameOfSecret, secrets + [s]) == Map(NameOfSecret, secrets) + [s.name];
    if PortsFree(secrets, o.name, ports) {
      forall p | p in rest ensures SecretNameFor(o.name, p) !in Map(NameOfSecret, secrets + [s]) {
        if SecretNameFor(o.name, p) == s.name {
          SecretNameInjective(o.name, p, ports[0]);
        }
      }
    }
    if s.name !in Map(NameOfSecret, secrets) && PortsFree(secrets + [s], o.name, rest) {
      forall i, j | 0 <= i < j < |ports| ensures ports[i] != ports[j] {
        if i == 0 {
          assert ports[j] in rest;
          assert SecretNameFor(o.name, ports[j]) !in Map(NameOfSecret, secrets) + [s.name];
        } else {
          assert rest[i - 1] != rest[j - 1];
        }
      }
    }
  }

  lemma {:induction false} CreateEachIff(secrets: seq<Secret>, o: Owner, annotations: Annotations, ports: seq<int>)
    ensures CreateEach(secrets, o, annotations, ports).ok <==> PortsFree(secrets, o.name, ports)
    decreases ports
  {
    if ports != [] {
      var s := SecretFor(o, annotations)(ports[0]);
      PortsFreeStep(secrets, o, ports, s);
      if s.name !in Map(NameOfSecret, secrets) {
        CreateEachIff(secrets + [s], o, s.annotations, ports[1..]);
      }
    }
  }

  lemma {:induction false} CreateEachAnnotates(secrets: seq<Secret>, o: Owner, annotations: Annotations,
                                               ports: seq<int>)
    ensures CreateEach(secrets, o, annotations, ports).annotations - {PORT_ANNOTATION}
         == annotations - {PORT_ANNOTATION}
    decreases ports
  {
    if ports != [] {
      var s := SecretFor(o, annotations)(ports[0]);
      assert s.annotations - {PORT_ANNOTATION} == annotations - {PORT_ANNOTATION};
      if s.name !in Map(NameOfSecret, secrets) {
        CreateEachAnnotates(secrets + [s], o, s.annotations, ports[1..]);
      }
    }
  }

  lemma {:induction false} CreateEachAdds(secrets: seq<Secret>, o: Owner, annotations: Annotations, ports: seq<int>)
    requires CreateEach(secrets, o, annotations, ports).ok
    ensures CreateEach(secrets, o, annotations, ports).secrets == secrets + Map(SecretFor(o, annotations), ports)
    decreases ports
  {
    if ports == [] {
      assert secrets + Map(SecretFor(o, annotations), []) == secrets;
    } else {
      var s, rest := SecretFor(o, annotations)(ports[0]), ports[1..];
      CreateEachAdds(secrets + [s], o, s.annotations, rest);
      SameApartFromPort(o, s.annotations, annotations, rest);
      AddedStep(secrets, SecretFor(o, annotations), ports);
    }
  }

  lemma AddedStep(secrets: seq<Secret>, f: int -> Secret, ports: seq<int>)
    requires ports != []
    ensures secrets + [f(ports[0])] + Map(f, ports[1..]) == secrets + Map(f, ports)
  {
    assert Map(f, ports) == [f(ports[0])] + Map(f, ports[1..]);
  }

  /** CREATING THE SECRETS, EXACTLY. It succeeds if and only if the ports are pairwise distinct and no
      secret has one of the names; then it adds one secret per port and restores the shared annotations
      if and only if they held no port annotation before. */
  lemma CreatedIff(secrets: seq<Secret>, o: Owner, annotations: Annotations, ports: seq<int>)
    ensures var p := CreatedSecrets(secrets, o, annotations, ports);
            (p.ok <==> PortsFree(secrets, o.name, ports)) &&
            (p.ok ==> p.secrets == secrets + Map(SecretFor(o, annotations), ports)) &&
            (p.ok ==> (p.annotations == annotations <==> PORT_ANNOTATION !in annotations))
  {
    CreateEachIff(secrets, o, annotations, ports);
    CreateEachAnnotates(secrets, o, annotations, ports);
    if PortsFree(secrets, o.name, ports) {
      CreateEachAdds(secrets, o, annotations, ports);
    }
    if PORT_ANNOTATION !in annotations {
      assert annotations - {PORT_ANNOTATION} == annotations;
    }
  }

  function NumberOf(p: ContainerPort): int {
    p.number
  }

  /** A port served over both TCP and UDP makes the creation fail. */
  lemma BothProtocolsFail(secrets: seq<Secret>, o: Owner, annotations: Annotations, ports: seq<ContainerPort>, i: nat,
                          j: nat)
    requires i < j < |ports| && ports[i].number == ports[j].number
    ensures !CreatedSecrets(secrets, o, annotations, Map(NumberOf, ports)).ok
  {
    CreatedIff(secrets, o, annotations, Map(NumberOf, ports));
    assert Map(NumberOf, ports)[i] == Map(NumberOf, ports)[j];
  }

  /** Searching the new secrets for a printed port finds the secret of that port. */
  lemma {:induction false} SearchFinds(o: Owner, annotations: Annotations, ports: seq<int>, p: int)
    requires p in ports
    ensures Search(Map(SecretFor(o, annotations), ports), PrintInt(p)) == Ok(SecretNameFor(o.name, p))
  {
    var made, rest := Map(SecretFor(o, annotations), ports), ports[1..];
    assert made[1..] == Map(SecretFor(o, annotations), rest);
    if PrintInt(ports[0]) == PrintInt(p) {
      PrintIntInjective(ports[0], p);
    } else {
      assert p in rest;
      SearchFinds(o, annotations, rest, p);
    }
  }

  lemma {:induction false} SearchMisses(o: Owner, annotations: Annotations, ports: seq<int>, port: string)
    requires forall p :: p in ports ==> port != PrintInt(p)
    ensures Search(Map(SecretFor(o, annotations), ports), port) == Err(PORT_UNKNOWN)
  {
    if ports != [] {
      assert Map(SecretFor(o, annotations), ports)[1..] == Map(SecretFor(o, annotations), ports[1..]);
      SearchMisses(o, annotations, ports[1..], port);
    }
  }

  /** ROUND TRIP. When the component had no secrets before, each port resolves to its own secret, any
      other port is refused, and no port at all resolves if and only if there is exactly one. */
  lemma CreatedIsFound(secrets: seq<Secret>, o: Owner, annotations: Annotations, ports: seq<int>, component: string,
                       application: string, port: string)
    requires BelongsTo(o.labels, component, application) && SecretsOf(secrets, component, application) == []
    requires CreatedSecrets(secrets, o, annotations, ports).ok && ports != []
    ensures var found := Determined(CreatedSecrets(secrets, o, annotations, ports).secrets, component, application,
                                    port);
            (forall p :: p in ports && port == PrintInt(p) ==> found == Ok(SecretNameFor(o.name, p))) &&
            (port != "" && (forall p :: p in ports ==> port != PrintInt(p)) ==> found == Err(PORT_UNKNOWN)) &&
            (port == "" ==> (found.Ok? <==> |ports| == 1)) &&
            (port == "" && found.Ok? ==> found.value == SecretNameFor(o.name, ports[0]))
  {
    CreatedIff(secrets, o, annotations, ports);
    var added := Map(SecretFor(o, annotations), ports);
    WithoutConcat(secrets, added, NotOf(component, application));
    forall s | s in added ensures !NotOf(component, application)(s) {
      var i :| 0 <= i < |added| && added[i] == s;
    }
    WithoutNothing(added, NotOf(component, application));
    assert [] + added == added;
    if port != "" && forall p :: p in ports ==> port != PrintInt(p) {
      SearchMisses(o, annotations, ports, port);
    }
    forall p | p in ports && port == PrintInt(p)
      ensures Determined(CreatedSecrets(secrets, o, annotations, ports).secrets, component, application, port)
           == Ok(SecretNameFor(o.name, p))
    {
      PrintedSign(p);
      SearchFinds(o, annotations, ports, p);
    }
  }
}
