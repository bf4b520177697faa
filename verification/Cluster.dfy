// The part of the cluster that a component lives in, and the API calls odo makes on it. Each call
// is one atomic update; the class is the client through which the operations act.

module Cluster {
  import opened Lists
  import opened Objects
  import opened Results

  /** What ParseQuantity followed by Quantity.String makes of a size; None when it does not parse. */
  type Canon = string -> Option<string>

  datatype ClusterState = ClusterState(
    dcs: map<string, DC>, pvcs: seq<PVC>, bcs: map<string, Labels>, secrets: seq<Secret>)

  const EMPTY := ClusterState(map[], [], map[], [])

  function NameOfSecret(s: Secret): string {
    s.name
  }

  function NameOfPvc(p: PVC): string {
    p.name
  }

  function PvcNames(pvcs: seq<PVC>): seq<string> {
    Map(NameOfPvc, pvcs)
  }

  function NamedPvc(name: string): PVC -> bool {
    (p: PVC) => p.name == name
  }

  function NotMatching(selector: Labels): PVC -> bool {
    (p: PVC) => !Matches(p.labels, selector)
  }

  /** GetPVCsFromSelector. */
  function SelectPvcs(pvcs: seq<PVC>, selector: Labels): seq<PVC> {
    Without(pvcs, NotMatching(selector))
  }

  /** CreatePVC: the size must parse and the name must be free. */
  function PvcToCreate(pvcs: seq<PVC>, name: string, size: string, labels: Labels, canon: Canon): Result<PVC> {
    match canon(size)
    case None => Err(Refused("unable to parse size"))
    case Some(quantity) =>
      if name in PvcNames(pvcs) then Err(Refused("unable to create PVC"))
      else Ok(PVC(name, quantity, labels))
  }

  /** DeletePVC. */
  function PvcsAfterDelete(pvcs: seq<PVC>, name: string): Result<seq<PVC>> {
    if name in PvcNames(pvcs) then Ok(Without(pvcs, NamedPvc(name))) else Err(Refused("PVC not found"))
  }

  ghost predicate TheOnly(dcs: map<string, DC>, selector: Labels, n: string) {
    && n in dcs && Matches(dcs[n].meta.labels, selector)
    && forall m :: m in dcs && Matches(dcs[m].meta.labels, selector) ==> m == n
  }

  /** GetOneDeploymentConfigFromSelector. */
  ghost function OneDC(dcs: map<string, DC>, selector: Labels): Result<DC> {
    if exists n :: TheOnly(dcs, selector, n) then
      var n :| TheOnly(dcs, selector, n);
      Ok(dcs[n])
    else Err(Refused("expected exactly one Deployment Config"))
  }

  /** DeleteBuildConfig: every build config that matches all the labels. */
  function DeleteBuildConfigs(bcs: map<string, Labels>, labels: Labels): map<string, Labels> {
    map n | n in bcs && !Matches(bcs[n], labels) :: bcs[n]
  }

  class Client {
    var dcs: map<string, DC>
    var pvcs: seq<PVC>
    var bcs: map<string, Labels>
    var secrets: seq<Secret>
    const canon: Canon

    function State(): ClusterState
      reads this
    {
      ClusterState(dcs, pvcs, bcs, secrets)
    }

    constructor (canon: Canon)
      ensures State() == EMPTY && this.canon == canon
    {
      this.canon := canon;
      dcs, pvcs, bcs, secrets := map[], [], map[], [];
    }

    method CreatePVC(name: string, size: string, labels: Labels) returns (r: Result<PVC>)
      modifies this`pvcs
      ensures r == PvcToCreate(old(pvcs), name, size, labels, canon)
      ensures pvcs == if r.Ok? then old(pvcs) + [r.value] else old(pvcs)
    {
      var quantity := canon(size);
      if quantity.None? {
        return Err(Refused("unable to parse size"));
      }
      if name in PvcNames(pvcs) {
        return Err(Refused("unable to create PVC"));
      }
      pvcs := pvcs + [PVC(name, quantity.value, labels)];
      r := Ok(PVC(name, quantity.value, labels));
    }

    method DeletePVC(name: string) returns (r: Result<()>)
      modifies this`pvcs
      ensures match PvcsAfterDelete(old(pvcs), name)
              case Ok(left) => r.Ok? && pvcs == left
              case Err(f) => r == Err(f) && pvcs == old(pvcs)
    {
      if name !in PvcNames(pvcs) {
        return Err(Refused("PVC not found"));
      }
      pvcs := Without(pvcs, NamedPvc(name));
      r := Ok(());
    }

    method CreateSecret(s: Secret) returns (r: Result<()>)
      modifies this`secrets
      ensures r.Ok? <==> s.name !in Map(NameOfSecret, old(secrets))
      ensures secrets == if r.Ok? then old(secrets) + [s] else old(secrets)
    {
      if s.name in Map(NameOfSecret, secrets) {
        return Err(Refused("unable to create secret"));
      }
      secrets := secrets + [s];
      r := Ok(());
    }

    method GetOneDeploymentConfigFromSelector(selector: Labels) returns (r: Result<DC>)
      ensures r == OneDC(dcs, selector)
    {
      var names := set n | n in dcs && Matches(dcs[n].meta.labels, selector);
      assert forall n :: n in dcs && Matches(dcs[n].meta.labels, selector) <==> n in names;
      if names == {} {
        assert forall n :: n !in names;
        return Err(Refused("expected exactly one Deployment Config"));
      }
      var n :| n in names;
      if m :| m in names && m != n {
        assert forall k :: !TheOnly(dcs, selector, k);
        return Err(Refused("expected exactly one Deployment Config"));
      }
      assert TheOnly(dcs, selector, n);
      r := Ok(dcs[n]);
    }
  }
}
