// Linking services to components: pkg/occlient/occlient.go LinkSecret, UnlinkSecret and
// patchDCOfComponent, pkg/service/service.go DeleteServiceAndUnlinkComponents. Links are secret
// references in the EnvFrom list of a DC's first container, changed by JSON Patch (RFC 6902).

module Links {
  import opened Cluster
  import opened Lists
  import opened Names
  import opened Objects
  import opened Results

  // ------------------------------------------------------------ JSON Patch on the list

  datatype PatchOp =
    | AddMember(value: seq<EnvFromSource>)
    | AddAt(index: nat, element: EnvFromSource)
    | RemoveAt(index: nat)

  /** An empty list has no member in the JSON of the DC. */
  type Document = Option<seq<EnvFromSource>>

  function ToDocument(l: seq<EnvFromSource>): Document {
    if l == [] then None else Some(l)
  }

  function FromDocument(d: Document): seq<EnvFromSource> {
    match d case None => [] case Some(l) => l
  }

  const PATCH_FAILED := Refused("DeploymentConfig not patched")

  /** Sections 4.1 and 4.2 of RFC 6902: adding to an array inserts before the index, which may be its
      length; the array must exist; a removed element must exist. */
  function ApplyPatch(d: Document, op: PatchOp): Result<Document> {
    match op
    case AddMember(value) => Ok(Some(value))
    case AddAt(i, x) =>
      if d.Some? && i <= |d.value| then Ok(Some(d.value[..i] + [x] + d.value[i..])) else Err(PATCH_FAILED)
    case RemoveAt(i) =>
      if d.Some? && i < |d.value| then Ok(Some(d.value[..i] + d.value[i + 1..])) else Err(PATCH_FAILED)
  }

  // ------------------------------------------------------------ the two patches

  const NO_LINK := Refused("DeploymentConfig does not contain a link")

  function LinkPatch(l: seq<EnvFromSource>, secret: string): PatchOp {
    if |l| > 0 then AddAt(0, SecretRef(secret)) else AddMember([SecretRef(secret)])
  }

  /** The search loop: it reads the name of each secret reference it passes, and a source that is no
      secret reference has none to read. */
  function FindLink(l: seq<EnvFromSource>, secret: string, i: nat): Result<nat>
    requires i <= |l|
    decreases |l| - i
  {
    if i == |l| then Err(NO_LINK)
    else if !l[i].SecretRef? then Err(Panic)
    else if l[i].name == secret then Ok(i)
    else FindLink(l, secret, i + 1)
  }

  function Linked(l: seq<EnvFromSource>, secret: string): Result<seq<EnvFromSource>> {
    var d :- ApplyPatch(ToDocument(l), LinkPatch(l, secret));
    Ok(FromDocument(d))
  }

  function Unlinked(l: seq<EnvFromSource>, secret: string): Result<seq<EnvFromSource>> {
    var i :- FindLink(l, secret, 0);
    var d :- ApplyPatch(ToDocument(l), RemoveAt(i));
    Ok(FromDocument(d))
  }

  lemma {:induction false} FindLinkIs(l: seq<EnvFromSource>, secret: string, i: nat)
    requires i <= |l|
    ensures match FindLink(l, secret, i)
            case Ok(k) => i <= k < |l| && l[k] == SecretRef(secret) &&
                          forall j :: i <= j < k ==> l[j].SecretRef? && l[j] != SecretRef(secret)
            case Err(f) =>
              if f == Panic then exists k :: i <= k < |l| && !l[k].SecretRef? && SecretRef(secret) !in l[i..k]
              else SecretRef(secret) !in l[i..] && f == NO_LINK
    decreases |l| - i
  {
    if i < |l| {
      if !l[i].SecretRef? {
        assert l[i..i] == [];
      } else if l[i].name != secret {
        FindLinkIs(l, secret, i + 1);
        assert l[i..] == [l[i]] + l[i + 1..];
        if FindLink(l, secret, i + 1) == Err(Panic) {
          var k :| i + 1 <= k < |l| && !l[k].SecretRef? && SecretRef(secret) !in l[i + 1..k];
          assert l[i..k] == [l[i]] + l[i + 1..k];
        }
      }
    }
  }

  /** LINK, THEN UNLINK, restores the list, whatever is in it. */
  lemma LinkThenUnlink(l: seq<EnvFromSource>, secret: string)
    ensures Linked(l, secret).Ok? && Unlinked(Linked(l, secret).value, secret) == Ok(l)
  {
    var linked := Linked(l, secret).value;
    assert linked == [SecretRef(secret)] + l;
    assert linked[..0] + linked[1..] == l;
  }

  // ------------------------------------------------------------ on the cluster

  function EnvFromOf(dc: DC): seq<EnvFromSource>
    requires dc.containers != []
  {
    dc.containers[0].envFrom
  }

  function WithEnvFrom(dc: DC, l: seq<EnvFromSource>): DC
    requires dc.containers != []
  {
    dc.(containers := dc.containers[0 := dc.containers[0].(envFrom := l)])
  }

  function Patched(dcs: map<string, DC>, component: string, application: string,
                   change: seq<EnvFromSource> -> Result<seq<EnvFromSource>>): Result<map<string, DC>>
  {
    var n :- NamespaceOpenShiftObject(component, application);
    if n !in dcs then Err(Refused("unable to locate DeploymentConfig"))
    else if dcs[n].containers == [] then Err(Panic)
    else
      var l :- change(EnvFromOf(dcs[n]));
      Ok(dcs[n := WithEnvFrom(dcs[n], l)])
  }

  function Linking(secret: string): seq<EnvFromSource> -> Result<seq<EnvFromSource>> {
    (l: seq<EnvFromSource>) => Linked(l, secret)
  }

  function Unlinking(secret: string): seq<EnvFromSource> -> Result<seq<EnvFromSource>> {
    (l: seq<EnvFromSource>) => Unlinked(l, secret)
  }

  method LinkSecret(client: Client, secret: string, component: string, application: string) returns (r: Result<()>)
    modifies client`dcs
    ensures match Patched(old(client.dcs), component, application, Linking(secret))
            case Ok(dcs) => r.Ok? && client.dcs == dcs
            case Err(f) => r == Err(f) && client.dcs == old(client.dcs)
  {
    var n :- NamespaceOpenShiftObject(component, application);
    if n !in client.dcs {
      return Err(Refused("unable to locate DeploymentConfig"));
    }
    var dc := client.dcs[n];
    if |dc.containers| == 0 {
      return Err(Panic);
    }
    var patch := if |dc.containers[0].envFrom| > 0 then AddAt(0, SecretRef(secret)) else AddMember([SecretRef(secret)]);
    var d :- ApplyPatch(ToDocument(dc.containers[0].envFrom), patch);
    client.dcs := client.dcs[n := WithEnvFrom(dc, FromDocument(d))];
    r := Ok(());
  }

  method UnlinkSecret(client: Client, secret: string, component: string, application: string) returns (r: Result<()>)
    modifies client`dcs
    ensures match Patched(old(client.dcs), component, application, Unlinking(secret))
            case Ok(dcs) => r.Ok? && client.dcs == dcs
            case Err(f) => r == Err(f) && client.dcs == old(client.dcs)
  {
    var n :- NamespaceOpenShiftObject(component, application);
    if n !in client.dcs {
      return Err(Refused("unable to locate DeploymentConfig"));
    }
    var dc := client.dcs[n];
    if |dc.containers| == 0 {
      return Err(Panic);
    }
    var l := dc.containers[0].envFrom;
    var indexForRemoval := |l|;
    for i := 0 to |l|
      invariant indexForRemoval == |l|
      invariant FindLink(l, secret, 0) == FindLink(l, secret, i)
    {
      if !l[i].SecretRef? {
        return Err(Panic);
      }
      if l[i].name == secret {
        indexForRemoval := i;
        break;
      }
    }
    if indexForRemoval == |l| {
      return Err(NO_LINK);
    }
    var d :- ApplyPatch(ToDocument(l), RemoveAt(indexForRemoval));
    client.dcs := client.dcs[n := WithEnvFrom(dc, FromDocument(d))];
    r := Ok(());
  }

  // ------------------------------------------------------------ deleting a service

  function IsLink(secret: string): EnvFromSource -> bool {
    (x: EnvFromSource) => x == SecretRef(secret)
  }

  /** The inner loop, over the list as it was when the components were listed. An unlink that is
      refused is only logged. */
  function UnlinkEach(dcs: map<string, DC>, listed: seq<EnvFromSource>, labels: Labels, application: string,
                      service: string): Result<map<string, DC>>
    decreases listed
  {
    if listed == [] then Ok(dcs)
    else if !listed[0].SecretRef? then Err(Panic)
    else if listed[0].name == service && ComponentName in labels then
      match Patched(dcs, labels[ComponentName], application, Unlinking(service))
      case Ok(next) => UnlinkEach(next, listed[1..], labels, application, service)
      case Err(f) => if f == Panic then Err(Panic) else UnlinkEach(dcs, listed[1..], labels, application, service)
    else UnlinkEach(dcs, listed[1..], labels, application, service)
  }

  /** The outer loop, over the components of the application as listed. */
  function UnlinkAll(dcs: map<string, DC>, listed: seq<DC>, application: string,
                     service: string): Result<map<string, DC>>
    decreases listed
  {
    if listed == [] then Ok(dcs)
    else if listed[0].containers == [] then Err(Panic)
    else
      var next :- UnlinkEach(dcs, EnvFromOf(listed[0]), listed[0].meta.labels, application, service);
      UnlinkAll(next, listed[1..], application, service)
  }

  /** DeleteServiceAndUnlinkComponents; whether the service instance can be deleted is an input. */
  method DeleteServiceAndUnlinkComponents(client: Client, service: string, application: string, instanceDeleted: bool,
                                          listed: seq<DC>) returns (r: Result<()>)
    modifies client`dcs
    ensures match (if instanceDeleted then UnlinkAll(old(client.dcs), listed, application, service)
                   else Err(Refused("service not deleted")))
            case Ok(dcs) => r.Ok? && client.dcs == dcs
            case Err(f) => r == Err(f)
  {
    if !instanceDeleted {
      return Err(Refused("service not deleted"));
    }
    for i := 0 to |listed|
      invariant UnlinkAll(old(client.dcs), listed, application, service)
           == UnlinkAll(client.dcs, listed[i..], application, service)
    {
      assert listed[i..][1..] == listed[i + 1..];
      var dc := listed[i];
      if |dc.containers| == 0 {
        return Err(Panic);
      }
      var l := dc.containers[0].envFrom;
      ghost var before := client.dcs;
      for j := 0 to |l|
        invariant UnlinkEach(before, l, dc.meta.labels, application, service)
               == UnlinkEach(client.dcs, l[j..], dc.meta.labels, application, service)
      {
        assert l[j..][1..] == l[j + 1..];
        if !l[j].SecretRef? {
          return Err(Panic);
        }
        if l[j].name == service && ComponentName in dc.meta.labels {
          var done := UnlinkSecret(client, service, dc.meta.labels[ComponentName], application);
          if done == Err(Panic) {
            return Err(Panic);
          }
        }
      }
    }
    r := Ok(());
  }

  predicate OnlySecrets(l: seq<EnvFromSource>) {
    forall x :: x in l ==> x.SecretRef?
  }

  /** Unlinking removes the first link. */
  lemma {:induction false} UnlinkedFirst(l: seq<EnvFromSource>, secret: string)
    requires OnlySecrets(l) && SecretRef(secret) in l
    ensures exists k :: 0 <= k < |l| && l[k] == SecretRef(secret) && Unlinked(l, secret) == Ok(l[..k] + l[k + 1..])
  {
    FindLinkIs(l, secret, 0);
    assert l[0..] == l;
    assert forall k :: 0 <= k < |l| ==> l[k] in l;
  }

  lemma OneLinkFewer(l: seq<EnvFromSource>, k: nat)
    requires k < |l|
    ensures multiset(l[..k] + l[k + 1..])[l[k]] == multiset(l)[l[k]] - 1
  {
    assert l == l[..k] + [l[k]] + l[k + 1..];
  }

  /** The DC of the component with these labels, with its list replaced. */
  function Relinked(dcs: map<string, DC>, n: string, l: seq<EnvFromSource>): map<string, DC>
    requires n in dcs && dcs[n].containers != []
  {
    dcs[n := WithEnvFrom(dcs[n], l)]
  }

  lemma RelinkedTwice(dcs: map<string, DC>, n: string, l: seq<EnvFromSource>, m: seq<EnvFromSource>)
    requires n in dcs && dcs[n].containers != []
    ensures Relinked(Relinked(dcs, n, l), n, m) == Relinked(dcs, n, m)
  {
    assert dcs[n].containers[0 := dcs[n].containers[0].(envFrom := l)][0 := dcs[n].containers[0].(envFrom := m)]
        == dcs[n].containers[0 := dcs[n].containers[0].(envFrom := m)];
  }

  lemma RelinkedSame(dcs: map<string, DC>, n: string)
    requires n in dcs && dcs[n].containers != []
    ensures Relinked(dcs, n, EnvFromOf(dcs[n])) == dcs
  {
    assert dcs[n].containers[0 := dcs[n].containers[0].(envFrom := EnvFromOf(dcs[n]))] == dcs[n].containers;
  }

  /** One unlink of the component takes one link away and keeps everything else. */
  lemma UnlinkOne(dcs: map<string, DC>, labels: Labels, application: string, service: string, n: string)
    returns (left: seq<EnvFromSource>)
    requires ComponentName in labels && NamespaceOpenShiftObject(labels[ComponentName], application) == Ok(n)
    requires n in dcs && dcs[n].containers != [] && OnlySecrets(EnvFromOf(dcs[n]))
    requires SecretRef(service) in EnvFromOf(dcs[n])
    ensures Patched(dcs, labels[ComponentName], application, Unlinking(service)) == Ok(Relinked(dcs, n, left))
    ensures OnlySecrets(left) && Without(left, IsLink(service)) == Without(EnvFromOf(dcs[n]), IsLink(service))
    ensures multiset(left)[SecretRef(service)] == multiset(EnvFromOf(dcs[n]))[SecretRef(service)] - 1
  {
    var l := EnvFromOf(dcs[n]);
    UnlinkedFirst(l, service);
    var k :| 0 <= k < |l| && l[k] == SecretRef(service) && Unlinked(l, service) == Ok(l[..k] + l[k + 1..]);
    left := l[..k] + l[k + 1..];
    WithoutDrop(l, k, IsLink(service));
    OneLinkFewer(l, k);
  }

  /** One unlink per listed link, against a list that holds as many: all of them go. */
  lemma {:induction false} UnlinkEachIs(dcs: map<string, DC>, listed: seq<EnvFromSource>, labels: Labels,
                                        application: string, service: string, n: string)
    requires ApplicationName in labels && ComponentName in labels && labels[ApplicationName] == application
    requires NamespaceOpenShiftObject(labels[ComponentName], application) == Ok(n)
    requires n in dcs && dcs[n].containers != [] && OnlySecrets(listed) && OnlySecrets(EnvFromOf(dcs[n]))
    requires multiset(listed)[SecretRef(service)] == multiset(EnvFromOf(dcs[n]))[SecretRef(service)]
    ensures UnlinkEach(dcs, listed, labels, application, service)
         == Ok(Relinked(dcs, n, Without(EnvFromOf(dcs[n]), IsLink(service))))
    decreases listed
  {
    var l := EnvFromOf(dcs[n]);
    if listed == [] {
      assert multiset(l)[SecretRef(service)] == 0;
      assert SecretRef(service) !in multiset(l);
      WithoutNothing(l, IsLink(service));
      RelinkedSame(dcs, n);
    } else {
      assert listed == [listed[0]] + listed[1..];
      if listed[0] == SecretRef(service) {
        assert SecretRef(service) in multiset(l);
        var left := UnlinkOne(dcs, labels, application, service, n);
        UnlinkEachIs(Relinked(dcs, n, left), listed[1..], labels, application, service, n);
        RelinkedTwice(dcs, n, left, Without(l, IsLink(service)));
      } else {
        UnlinkEachIs(dcs, listed[1..], labels, application, service, n);
      }
    }
  }

  /** The components of the application, listed once each in any order, as they are. */
  ghost predicate Listing(listed: seq<DC>, dcs: map<string, DC>, application: string) {
    && (forall n :: n in dcs ==> dcs[n].meta.name == n)
    && (forall i, j :: 0 <= i < j < |listed| ==> listed[i].meta.name != listed[j].meta.name)
    && (forall dc :: dc in listed ==> dc.meta.name in dcs && dcs[dc.meta.name] == dc && OfApplication(dc, application))
    && (forall n :: n in dcs && OfApplication(dcs[n], application) ==> dcs[n] in listed)
  }

  predicate OfApplication(dc: DC, application: string) {
    ApplicationName in dc.meta.labels && dc.meta.labels[ApplicationName] == application
  }

  /** A DC named after the component and application in its labels. */
  ghost predicate NamedByLabels(dc: DC) {
    && ApplicationName in dc.meta.labels && ComponentName in dc.meta.labels
    && NamespaceOpenShiftObject(dc.meta.labels[ComponentName], dc.meta.labels[ApplicationName]) == Ok(dc.meta.name)
  }

  /** A DC with a container that takes variables from secrets only. */
  ghost predicate Sweepable(dc: DC) {
    dc.containers != [] && OnlySecrets(EnvFromOf(dc))
  }

  lemma {:induction false} UnlinkEachNeedsSecrets(dcs: map<string, DC>, listed: seq<EnvFromSource>, labels: Labels,
                                                  application: string, service: string)
    requires UnlinkEach(dcs, listed, labels, application, service).Ok?
    ensures OnlySecrets(listed)
    decreases listed
  {
    if listed != [] {
      var rest := listed[1..];
      assert listed == [listed[0]] + rest;
      if listed[0].name == service && ComponentName in labels {
        match Patched(dcs, labels[ComponentName], application, Unlinking(service))
        case Ok(next) => UnlinkEachNeedsSecrets(next, rest, labels, application, service);
        case Err(_) => UnlinkEachNeedsSecrets(dcs, rest, labels, application, service);
      } else {
        UnlinkEachNeedsSecrets(dcs, rest, labels, application, service);
      }
    }
  }

  /** Wherever the sweep starts, it panics on the first component it cannot sweep. */
  lemma {:induction false} UnlinkAllNeedsSecrets(dcs: map<string, DC>, listed: seq<DC>, application: string,
                                                 service: string)
    requires UnlinkAll(dcs, listed, application, service).Ok?
    ensures forall dc :: dc in listed ==> Sweepable(dc)
    decreases listed
  {
    if listed != [] {
      assert listed == [listed[0]] + listed[1..];
      UnlinkEachNeedsSecrets(dcs, EnvFromOf(listed[0]), listed[0].meta.labels, application, service);
      var next := UnlinkEach(dcs, EnvFromOf(listed[0]), listed[0].meta.labels, application, service).value;
      UnlinkAllNeedsSecrets(next, listed[1..], application, service);
    }
  }

  /** The cluster with the listed components unlinked. */
  ghost predicate UnlinkedIn(before: map<string, DC>, after: map<string, DC>, names: set<string>, service: string) {
    && after.Keys == before.Keys
    && forall n :: n in before ==>
         after[n] == if n in names && before[n].containers != []
                     then WithEnvFrom(before[n], Without(EnvFromOf(before[n]), IsLink(service)))
                     else before[n]
  }

  function ListedNames(listed: seq<DC>): set<string> {
    set dc | dc in listed :: dc.meta.name
  }

  lemma {:induction false} UnlinkAllIs(dcs: map<string, DC>, listed: seq<DC>, application: string, service: string)
    requires forall i, j :: 0 <= i < j < |listed| ==> listed[i].meta.name != listed[j].meta.name
    requires forall dc :: dc in listed ==>
               dc.meta.name in dcs && dcs[dc.meta.name] == dc && OfApplication(dc, application) && NamedByLabels(dc) &&
               Sweepable(dc)
    ensures UnlinkAll(dcs, listed, application, service).Ok?
    ensures UnlinkedIn(dcs, UnlinkAll(dcs, listed, application, service).value, ListedNames(listed), service)
    decreases listed
  {
    if listed != [] {
      var dc, rest := listed[0], listed[1..];
      assert listed == [dc] + rest;
      var n := dc.meta.name;
      UnlinkEachIs(dcs, EnvFromOf(dc), dc.meta.labels, application, service, n);
      var next := Relinked(dcs, n, Without(EnvFromOf(dc), IsLink(service)));
      OtherNames(listed);
      UnlinkAllIs(next, rest, application, service);
      OneMoreUnlinked(dcs, n, UnlinkAll(next, rest, application, service).value, ListedNames(rest), service);
    }
  }

  lemma OtherNames(listed: seq<DC>)
    requires listed != []
    requires forall i, j :: 0 <= i < j < |listed| ==> listed[i].meta.name != listed[j].meta.name
    ensures ListedNames(listed) == {listed[0].meta.name} + ListedNames(listed[1..])
    ensures forall d :: d in listed[1..] ==> d.meta.name != listed[0].meta.name
  {
    var rest := listed[1..];
    assert listed == [listed[0]] + rest;
    forall d | d in rest ensures d.meta.name != listed[0].meta.name {
      var i :| 0 <= i < |rest| && rest[i] == d;
      assert listed[i + 1] == d;
    }
  }

  lemma OneMoreUnlinked(dcs: map<string, DC>, n: string, after: map<string, DC>, names: set<string>, service: string)
    requires n in dcs && dcs[n].containers != [] && n !in names
    requires UnlinkedIn(Relinked(dcs, n, Without(EnvFromOf(dcs[n]), IsLink(service))), after, names, service)
    ensures UnlinkedIn(dcs, after, {n} + names, service)
  {
  }

  /** DELETING A SERVICE, EXACTLY. When the components of the application are named after their labels,
      the sweep over them finishes if and only if each has a container and takes variables from secrets
      only. Then no component of the application keeps a link to the service however often it was
      linked, all other links stay in order, and components of other applications are untouched. */
  lemma DeletedServiceIsUnlinkedIff(dcs: map<string, DC>, listed: seq<DC>, application: string, service: string)
    requires Listing(listed, dcs, application) && forall dc :: dc in listed ==> NamedByLabels(dc)
    ensures UnlinkAll(dcs, listed, application, service).Ok? <==> forall dc :: dc in listed ==> Sweepable(dc)
    ensures UnlinkAll(dcs, listed, application, service).Ok? ==>
              Swept(dcs, UnlinkAll(dcs, listed, application, service).value, application, service)
  {
    if UnlinkAll(dcs, listed, application, service).Ok? {
      UnlinkAllNeedsSecrets(dcs, listed, application, service);
    }
    if forall dc :: dc in listed ==> Sweepable(dc) {
      UnlinkAllIs(dcs, listed, application, service);
      forall n | n in dcs ensures n in ListedNames(listed) <==> OfApplication(dcs[n], application) {
        NamedIff(dcs, listed, application, n);
      }
      assert UnlinkedIn(dcs, UnlinkAll(dcs, listed, application, service).value, ListedNames(listed), service);
    }
  }

  /** The links to the service are gone from the components of the application; all else is as before. */
  ghost predicate Swept(before: map<string, DC>, after: map<string, DC>, application: string, service: string) {
    && after.Keys == before.Keys
    && forall n :: n in before ==>
         after[n] == if OfApplication(before[n], application) && before[n].containers != []
                     then WithEnvFrom(before[n], Without(EnvFromOf(before[n]), IsLink(service)))
                     else before[n]
  }

  lemma NamedIff(dcs: map<string, DC>, listed: seq<DC>, application: string, n: string)
    requires Listing(listed, dcs, application) && n in dcs
    ensures n in ListedNames(listed) <==> OfApplication(dcs[n], application)
  {
    if OfApplication(dcs[n], application) {
      assert dcs[n] in listed && dcs[n].meta.name == n;
    }
  }

  /** A component that takes variables from a config map: deleting any service of its application panics. */
  lemma ConfigMapCutsShort(dc: DC, service: string)
    requires dc.containers != [] && EnvFromOf(dc) == [ConfigMapRef("m")] && OfApplication(dc, "p")
    ensures Listing([dc], map[dc.meta.name := dc], "p")
    ensures UnlinkAll(map[dc.meta.name := dc], [dc], "p", service) == Err(Panic)
  {
    assert UnlinkEach(map[dc.meta.name := dc], EnvFromOf(dc), dc.meta.labels, "p", service) == Err(Panic);
  }
}
