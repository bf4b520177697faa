// Which of the config's variables reach a component: what its DC carries after a creation and after an
// update, pkg/component/component.go 345-425 and 1005-1084.

module Variables {
  import opened Cluster
  import opened Component
  import opened Creation
  import opened Deployment
  import opened EnvVars
  import opened Images
  import opened Invariant
  import opened Lifecycle
  import opened Lists
  import opened Names
  import opened Objects
  import opened PushEffects
  import opened Results
  import opened Runs
  import opened Shapes
  import opened StorageSync
  import opened Updates

  /** The variables odo itself gives a component that is not built from git. */
  function SetByOdo(s2i: S2IPaths, isLocal: bool): seq<EnvVar> {
    S2IEnv(s2i) + if isLocal then [BackupVar(s2i)] else []
  }

  lemma SetByOdoDistinct(s2i: S2IPaths, isLocal: bool)
    ensures Distinct(EnvVars.Names(SetByOdo(s2i, isLocal)))
  {
    var names := EnvVars.Names(SetByOdo(s2i, true));
    assert names[0][8] == 'S' && names[4][8] == 'W' && names[5][8] == 'B';
    assert |names[0]| == |names[4]| == |names[5]| == 19 && |names[1]| == 24 && |names[2]| == 20 && |names[3]| == 22;
    assert |names[6]| == 25 && |names[7]| == 18;
    assert forall i :: 0 <= i < |SetByOdo(s2i, isLocal)| ==> EnvVars.Names(SetByOdo(s2i, isLocal))[i] == names[i];
  }

  lemma LastWinsOfDistinct(l: seq<EnvVar>, e: EnvVar)
    requires Distinct(EnvVars.Names(l))
    ensures LastWins(l, e.name) == Some(e.value) <==> e in l
  {
    LastWinsMember(l, e.name);
    if e in l {
      var i :| 0 <= i < |l| && l[i] == e;
      assert EnvVars.Names(l)[i] == e.name;
      var j :| 0 <= j < |l| && l[j] == EnvVar(e.name, LastWins(l, e.name).value);
      assert EnvVars.Names(l)[j] == e.name;
    }
  }

  /** The value of a variable among those odo sets, over whatever was there before. */
  lemma LayeredLookup(env: seq<EnvVar>, s2i: S2IPaths, isLocal: bool, name: string)
    ensures LastWins(CreatedEnv(env, s2i, isLocal), name) == LastWins(env + SetByOdo(s2i, isLocal), name)
  {
    var base := Override(env, S2IEnv(s2i));
    OverrideLaw(env, S2IEnv(s2i));
    if isLocal {
      OverrideLaw(base, [BackupVar(s2i)]);
      LastWinsConcat(base, [BackupVar(s2i)], name);
      LastWinsConcat(env + S2IEnv(s2i), [BackupVar(s2i)], name);
      assert env + S2IEnv(s2i) + [BackupVar(s2i)] == env + SetByOdo(s2i, isLocal);
    } else {
      assert SetByOdo(s2i, isLocal) == S2IEnv(s2i);
    }
  }

  lemma UpdatedLookup(s2i: S2IPaths, isLocal: bool, name: string)
    ensures LastWins(UpdatedEnv(s2i, isLocal), name) == LastWins(SetByOdo(s2i, isLocal), name)
  {
    assert [] + SetByOdo(s2i, isLocal) == SetByOdo(s2i, isLocal);
    LayeredLookup([], s2i, isLocal, name);
    if !isLocal {
      OverriddenHas([], S2IEnv(s2i), ENV_SRC_BACKUP_DIR);
      S2INames(s2i);
      DeleteFirstForgetsIff(Override([], S2IEnv(s2i)), ENV_SRC_BACKUP_DIR);
    }
  }

  /** The variables of a config, as odo reads them. */
  function Configured(cfg: Config): seq<EnvVar> {
    match ParseEnvs(PrintEnvs(cfg.env)) case Ok(env) => env case Err(_) => []
  }

  function EnvOf(dcs: map<string, DC>, n: string): seq<EnvVar> {
    if n in dcs && dcs[n].containers != [] then dcs[n].containers[0].env else []
  }

  /** UPDATES DROP VARIABLES. A config's variable has its configured value in the component after an
      update if and only if the component is not built from git and odo itself sets that very value. */
  lemma UpdateCarriesIff(st: ClusterState, att: map<string, seq<Attachment>>, cfg: Config, world: World,
                         requests: seq<MountRequest>, canon: Canon, e: EnvVar)
    requires Inv(st, att) && cfg.sourceType != NONE && e in Configured(cfg)
    requires UpdateComponent(st, cfg, world, requests, canon).Ok?
    ensures cfg.sourceType != GIT ==> LookUpS2I(world).Ok?
    ensures var next := UpdateComponent(st, cfg, world, requests, canon).value;
            LastWins(EnvOf(next.dcs, Key(cfg)), e.name) == Some(e.value) <==>
              cfg.sourceType != GIT && e in SetByOdo(LookUpS2I(world).value, cfg.sourceType == LOCAL)
  {
    var next := UpdateComponent(st, cfg, world, requests, canon).value;
    UpdateWrites(st, att, cfg, world, requests, canon);
    WrittenIsRead(st.dcs, next.dcs, cfg, world);
    WrittenCarriesIff(cfg.sourceType, LookUpS2I(world), e);
  }

  lemma WrittenIsRead(before: map<string, DC>, after: map<string, DC>, cfg: Config, world: World)
    requires Written(before, after, cfg, world)
    ensures cfg.sourceType != GIT ==> LookUpS2I(world).Ok?
    ensures EnvOf(after, Key(cfg)) == WrittenEnv(cfg.sourceType, LookUpS2I(world))
  {
  }

  lemma WrittenCarriesIff(t: SrcType, s2i: Result<S2IPaths>, e: EnvVar)
    requires t != GIT ==> s2i.Ok?
    ensures LastWins(WrittenEnv(t, s2i), e.name) == Some(e.value) <==> t != GIT && e in SetByOdo(s2i.value, t == LOCAL)
  {
    if t != GIT {
      UpdatedLookup(s2i.value, t == LOCAL, e.name);
      SetByOdoDistinct(s2i.value, t == LOCAL);
      LastWinsOfDistinct(SetByOdo(s2i.value, t == LOCAL), e);
    }
  }

  /** Creation carries them all, except those of a name that odo sets to something else. */
  lemma CreateCarriesIff(st: ClusterState, cfg: Config, world: World, requests: seq<MountRequest>, canon: Canon,
                         e: EnvVar)
    requires CreateComponent(st, cfg, world, requests, canon).Ok? && e in Configured(cfg)
    ensures CreatedType(cfg) != GIT ==> world.s2i.Ok?
    ensures var next := CreateComponent(st, cfg, world, requests, canon).value;
            LastWins(EnvOf(next.dcs, Key(cfg)), e.name) == Some(e.value) <==>
              CreatedType(cfg) == GIT ||
                 forall f :: f in SetByOdo(world.s2i.value, CreatedType(cfg) == LOCAL) ==> f.name == e.name ==> f == e
  {
    var n, pushed, plan := CreateForm(st, cfg, world, requests, canon);
    SupervisedBaseContainer(plan.meta, plan.spec, plan.env, []);
    ParsedIsPrintable(PrintEnvs(cfg.env), {});
    LastWinsOfDistinct(Configured(cfg), e);
    if CreatedType(cfg) != GIT {
      OverlayIff(Configured(cfg), world.s2i.value, CreatedType(cfg) == LOCAL, e);
    }
  }

  lemma OverlayIff(env: seq<EnvVar>, s2i: S2IPaths, isLocal: bool, e: EnvVar)
    requires Distinct(EnvVars.Names(env)) && e in env
    ensures LastWins(CreatedEnv(env, s2i, isLocal), e.name) == Some(e.value)
            <==> forall f :: f in SetByOdo(s2i, isLocal) ==> f.name == e.name ==> f == e
  {
    var own := SetByOdo(s2i, isLocal);
    LayeredLookup(env, s2i, isLocal, e.name);
    LastWinsConcat(env, own, e.name);
    LastWinsOfDistinct(env, e);
    LastWinsMember(own, e.name);
    SetByOdoDistinct(s2i, isLocal);
    forall f | f in own && f.name == e.name ensures LastWins(own, e.name) == Some(f.value) {
      LastWinsOfDistinct(own, f);
    }
  }
}
