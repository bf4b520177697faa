// Environment variables: the override rule of pkg/occlient/occlient.go
// (uniqueAppendOrOverwriteEnvVars, deleteEnvVars, GetInputEnvVarsFromStrings) and the list
// operations of pkg/config/env_var.go.

module EnvVars {
  import opened Lists
  import opened Results
  import opened Strings

  datatype EnvVar = EnvVar(name: string, value: string)

  function NameOf(e: EnvVar): string {
    e.name
  }

  function Names(l: seq<EnvVar>): seq<string> {
    Map(NameOf, l)
  }

  /** The value a name has when later entries win. */
  function LastWins(l: seq<EnvVar>, name: string): Option<string> {
    if l == [] then None
    else if l[|l| - 1].name == name then Some(l[|l| - 1].value)
    else LastWins(l[..|l| - 1], name)
  }

  lemma {:induction false} LastWinsMember(l: seq<EnvVar>, name: string)
    ensures LastWins(l, name).Some? <==> name in Names(l)
    ensures LastWins(l, name).Some? ==> EnvVar(name, LastWins(l, name).value) in l
  {
    if l != [] {
      var front := l[..|l| - 1];
      LastWinsMember(front, name);
      assert l == front + [l[|l| - 1]];
      MapConcat(NameOf, front, [l[|l| - 1]]);
      if l[|l| - 1].name == name {
        assert Names(l)[|l| - 1] == name;
      } else if name in Names(l) {
        var k :| 0 <= k < |l| && Names(l)[k] == name;
        assert Names(front)[k] == name;
      }
    }
  }

  lemma {:induction false} LastWinsConcat(a: seq<EnvVar>, b: seq<EnvVar>, name: string)
    ensures LastWins(a + b, name) == if LastWins(b, name).Some? then LastWins(b, name) else LastWins(a, name)
  {
    if b == [] {
      assert a + b == a;
    } else {
      assert (a + b)[..|a + b| - 1] == a + b[..|b| - 1];
      LastWinsConcat(a, b[..|b| - 1], name);
    }
  }

  /** First occurrences, in order. */
  function Firsts(names: seq<string>, seen: set<string>): (r: seq<string>)
    decreases names
  {
    if names == [] then []
    else if names[0] in seen then Firsts(names[1..], seen)
    else [names[0]] + Firsts(names[1..], seen + {names[0]})
  }

  lemma {:induction false} FirstsFacts(names: seq<string>, seen: set<string>)
    ensures Distinct(Firsts(names, seen))
    ensures forall x :: x in Firsts(names, seen) <==> x in names && x !in seen
  {
    if names != [] {
      assert names == [names[0]] + names[1..];
      if names[0] in seen {
        FirstsFacts(names[1..], seen);
      } else {
        FirstsFacts(names[1..], seen + {names[0]});
      }
    }
  }

  lemma {:induction false} FirstsOfDistinct(names: seq<string>, seen: set<string>)
    requires Distinct(names) && forall x :: x in names ==> x !in seen
    ensures Firsts(names, seen) == names
  {
    if names != [] {
      forall x | x in names[1..] ensures x != names[0] {
      }
      FirstsOfDistinct(names[1..], seen + {names[0]});
    }
  }

  /** The names of `added` that `existing` does not have. */
  function NewNames(existing: seq<string>, added: seq<string>): seq<string> {
    Without(added, (x: string) => x in existing)
  }

  /** The names of an overridden list: existing names at their first occurrence, then the new ones. */
  function OverriddenNames(existing: seq<EnvVar>, added: seq<EnvVar>): seq<string> {
    Firsts(Names(existing), {}) + NewNames(Names(existing), Names(added))
  }

  function Lookup(m: map<string, EnvVar>, name: string): Option<EnvVar> {
    if name in m then Some(m[name]) else None
  }

  /** The map from a name to its last entry, as the two filling loops build it. */
  function ToMap(l: seq<EnvVar>): map<string, EnvVar> {
    if l == [] then map[] else ToMap(l[..|l| - 1])[l[|l| - 1].name := l[|l| - 1]]
  }

  lemma {:induction false} ToMapIsLastWins(l: seq<EnvVar>, name: string)
    ensures Lookup(ToMap(l), name) ==
            match LastWins(l, name) case None => None case Some(v) => Some(EnvVar(name, v))
  {
    if l != [] {
      ToMapIsLastWins(l[..|l| - 1], name);
    }
  }

  /** First emitting loop: each existing name once, deleting it from the map. */
  function EmitExisting(existing: seq<EnvVar>, m: map<string, EnvVar>): seq<EnvVar> {
    if existing == [] then []
    else if existing[0].name in m then
      [m[existing[0].name]] + EmitExisting(existing[1..], m - {existing[0].name})
    else EmitExisting(existing[1..], m)
  }

  /** Second emitting loop: what is left in the map, once per entry of the overrides. */
  function EmitFresh(added: seq<EnvVar>, m: map<string, EnvVar>): seq<EnvVar> {
    if added == [] then []
    else (if added[0].name in m then [m[added[0].name]] else []) + EmitFresh(added[1..], m)
  }

  function DropNames(m: map<string, EnvVar>, l: seq<EnvVar>): map<string, EnvVar> {
    map x | x in m && x !in Names(l) :: m[x]
  }

  /** uniqueAppendOrOverwriteEnvVars as the four loops compute it. */
  function Override(existing: seq<EnvVar>, added: seq<EnvVar>): seq<EnvVar> {
    var m := ToMap(existing + added);
    EmitExisting(existing, m) + EmitFresh(added, DropNames(m, existing))
  }

  lemma ToMapSnoc(l: seq<EnvVar>, e: EnvVar)
    ensures ToMap(l + [e]) == ToMap(l)[e.name := e]
  {
    assert (l + [e])[..|l|] == l;
  }

  /** The filling loops: each entry overwrites what the map holds under its name. */
  method FillMap(m0: map<string, EnvVar>, l: seq<EnvVar>, ghost before: seq<EnvVar>) returns (m: map<string, EnvVar>)
    requires m0 == ToMap(before)
    ensures m == ToMap(before + l)
  {
    m := m0;
    assert before + l[..0] == before;
    for i := 0 to |l|
      invariant m == ToMap(before + l[..i])
    {
      m := m[l[i].name := l[i]];
      assert before + l[..i + 1] == before + l[..i] + [l[i]];
      ToMapSnoc(before + l[..i], l[i]);
    }
    assert l[..|l|] == l;
  }

  /** The first emitting loop, with what it leaves in the map. */
  method EmitAndDelete(existing: seq<EnvVar>, full: map<string, EnvVar>)
    returns (r: seq<EnvVar>, m: map<string, EnvVar>)
    ensures r == EmitExisting(existing, full) && m == DropNames(full, existing)
  {
    r, m := [], full;
    for i := 0 to |existing|
      invariant r + EmitExisting(existing[i..], m) == EmitExisting(existing, full)
      invariant m == DropNames(full, existing[..i])
    {
      assert existing[i..][1..] == existing[i + 1..];
      assert existing[..i + 1] == existing[..i] + [existing[i]];
      MapConcat(NameOf, existing[..i], [existing[i]]);
      if existing[i].name in m {
        r := r + [m[existing[i].name]];
        m := m - {existing[i].name};
      }
    }
    assert existing[..|existing|] == existing;
  }

  method UniqueAppendOrOverwriteEnvVars(existing: seq<EnvVar>, added: seq<EnvVar>) returns (r: seq<EnvVar>)
    ensures r == Override(existing, added)
  {
    var m := FillMap(map[], existing, []);
    assert [] + existing == existing;
    m := FillMap(m, added, existing);
    r, m := EmitAndDelete(existing, m);
    ghost var first := r;
    for i := 0 to |added|
      invariant r + EmitFresh(added[i..], m) == first + EmitFresh(added, m)
    {
      assert added[i..][1..] == added[i + 1..];
      if added[i].name in m {
        r := r + [m[added[i].name]];
      }
    }
  }

  /** Entries that all carry their last-wins value. */
  ghost predicate CarriesLast(l: seq<EnvVar>, all: seq<EnvVar>) {
    forall e :: e in l ==> LastWins(all, e.name) == Some(e.value)
  }

  lemma {:induction false} EmitExistingFacts(existing: seq<EnvVar>, m: map<string, EnvVar>, all: seq<EnvVar>,
                                             seen: set<string>)
    requires forall x :: x in m <==> x in Names(all) && x !in seen
    requires forall x :: x in m ==> Some(m[x]) == Lookup(ToMap(all), x)
    requires forall e :: e in existing ==> e.name in Names(all)
    ensures Names(EmitExisting(existing, m)) == Firsts(Names(existing), seen)
    ensures CarriesLast(EmitExisting(existing, m), all)
  {
    if existing != [] {
      var e := existing[0];
      assert Names(existing)[1..] == Names(existing[1..]);
      assert existing == [e] + existing[1..];
      if e.name in m {
        EmitExistingFacts(existing[1..], m - {e.name}, all, seen + {e.name});
        ToMapIsLastWins(all, e.name);
        var rest := EmitExisting(existing[1..], m - {e.name});
        MapConcat(NameOf, [m[e.name]], rest);
      } else {
        EmitExistingFacts(existing[1..], m, all, seen);
      }
    }
  }

  lemma {:induction false} EmitFreshFacts(added: seq<EnvVar>, m: map<string, EnvVar>, all: seq<EnvVar>,
                                          existing: seq<string>)
    requires forall x :: x in m <==> x in Names(all) && x !in existing
    requires forall x :: x in m ==> Some(m[x]) == Lookup(ToMap(all), x)
    requires forall e :: e in added ==> e.name in Names(all)
    ensures Names(EmitFresh(added, m)) == NewNames(existing, Names(added))
    ensures CarriesLast(EmitFresh(added, m), all)
  {
    if added != [] {
      var e := added[0];
      assert Names(added)[1..] == Names(added[1..]) && Names(added)[0] == e.name;
      assert added == [e] + added[1..];
      EmitFreshFacts(added[1..], m, all, existing);
      if e.name in m {
        ToMapIsLastWins(all, e.name);
        MapConcat(NameOf, [m[e.name]], EmitFresh(added[1..], m));
        assert Names(EmitFresh(added, m)) == [e.name] + Names(EmitFresh(added[1..], m));
      }
    }
  }

  /** THE OVERRIDE LAW. Names: first occurrences of the existing ones in order, then the new ones;
      every entry carries the value that wins last in `existing + added`. */
  lemma OverrideLaw(existing: seq<EnvVar>, added: seq<EnvVar>)
    ensures Names(Override(existing, added)) == OverriddenNames(existing, added)
    ensures CarriesLast(Override(existing, added), existing + added)
    ensures forall name :: LastWins(Override(existing, added), name) == LastWins(existing + added, name)
  {
    var all := existing + added;
    var m := ToMap(all);
    forall x ensures x in m <==> x in Names(all) {
      ToMapIsLastWins(all, x);
      LastWinsMember(all, x);
    }
    MapConcat(NameOf, existing, added);
    forall e | e in all ensures e.name in Names(all) {
      var k :| 0 <= k < |all| && all[k] == e;
      assert Names(all)[k] == e.name;
    }
    EmitExistingFacts(existing, m, all, {});
    var rest := DropNames(m, existing);
    EmitFreshFacts(added, rest, all, Names(existing));
    MapConcat(NameOf, EmitExisting(existing, m), EmitFresh(added, rest));
    SameLookups(existing, added);
  }

  lemma SameLookups(existing: seq<EnvVar>, added: seq<EnvVar>)
    requires Names(Override(existing, added)) == OverriddenNames(existing, added)
    requires CarriesLast(Override(existing, added), existing + added)
    ensures forall name :: LastWins(Override(existing, added), name) == LastWins(existing + added, name)
  {
    var all, r := existing + added, Override(existing, added);
    MapConcat(NameOf, existing, added);
    FirstsFacts(Names(existing), {});
    WithoutMembers(Names(added), (x: string) => x in Names(existing));
    forall name ensures LastWins(r, name) == LastWins(all, name) {
      LastWinsMember(r, name);
      LastWinsMember(all, name);
    }
  }

  /** The result has distinct names exactly when no new name is overridden twice. */
  lemma OverrideDistinctIff(existing: seq<EnvVar>, added: seq<EnvVar>)
    ensures Distinct(Names(Override(existing, added))) <==> Distinct(NewNames(Names(existing), Names(added)))
  {
    OverrideLaw(existing, added);
    FirstsFacts(Names(existing), {});
    var a, b := Firsts(Names(existing), {}), NewNames(Names(existing), Names(added));
    WithoutMembers(Names(added), (x: string) => x in Names(existing));
    if Distinct(a + b) {
      forall i, j | 0 <= i < j < |b| ensures b[i] != b[j] {
        assert (a + b)[|a| + i] == b[i] && (a + b)[|a| + j] == b[j];
      }
    }
    if Distinct(b) {
      forall i, j | 0 <= i < j < |a + b| ensures (a + b)[i] != (a + b)[j] {
        if i < |a| <= j {
          assert a[i] in a && b[j - |a|] in b;
        }
      }
    }
  }

  lemma {:induction false} SameEntries(a: seq<EnvVar>, b: seq<EnvVar>, all: seq<EnvVar>)
    requires Names(a) == Names(b) && CarriesLast(a, all) && CarriesLast(b, all)
    ensures a == b
  {
    assert |a| == |Names(a)| == |b|;
    forall k | 0 <= k < |a| ensures a[k] == b[k] {
      assert Names(a)[k] == Names(b)[k];
      assert a[k] in a && b[k] in b;
    }
  }

  /** Applying the same overrides again changes nothing exactly when no new name is given twice;
      otherwise the second application merges the repetitions. */
  lemma OverrideIdempotentIff(existing: seq<EnvVar>, added: seq<EnvVar>)
    ensures Override(Override(existing, added), added) == Override(existing, added)
            <==> Distinct(NewNames(Names(existing), Names(added)))
  {
    var once := Override(existing, added);
    var twice := Override(once, added);
    OverrideLaw(existing, added);
    OverrideLaw(once, added);
    OverrideDistinctIff(existing, added);
    FirstsFacts(Names(once), {});
    FirstsFacts(Names(existing), {});
    WithoutMembers(Names(added), (x: string) => x in Names(existing));
    assert NewNames(Names(once), Names(added)) == [] by {
      WithoutEverything(Names(added), (x: string) => x in Names(once));
    }
    assert Names(twice) == Firsts(Names(once), {});
    if Distinct(Names(once)) {
      FirstsOfDistinct(Names(once), {});
      assert CarriesLast(twice, existing + added) by {
        forall e | e in twice ensures LastWins(existing + added, e.name) == Some(e.value) {
          assert LastWins(once + added, e.name) == Some(e.value);
          LastWinsConcat(once, added, e.name);
          LastWinsConcat(existing, added, e.name);
        }
      }
      SameEntries(once, twice, existing + added);
    }
  }

  /** deleteEnvVars: the first entry of that name goes, the others stay. */
  function DeleteFirst(l: seq<EnvVar>, name: string): seq<EnvVar> {
    if l == [] then []
    else if l[0].name == name then l[1..]
    else [l[0]] + DeleteFirst(l[1..], name)
  }

  method DeleteEnvVars(existing: seq<EnvVar>, name: string) returns (r: seq<EnvVar>)
    ensures r == DeleteFirst(existing, name)
  {
    var i := 0;
    while i < |existing| && existing[i].name != name
      invariant i <= |existing|
      invariant DeleteFirst(existing, name) == existing[..i] + DeleteFirst(existing[i..], name)
    {
      KeepOne(existing, name, i);
      i := i + 1;
    }
    if i == |existing| {
      assert existing[..i] + [] == existing;
      return existing;
    }
    r := existing[..i] + existing[i + 1..];
    assert existing[i..][1..] == existing[i + 1..];
  }

  lemma KeepOne(l: seq<EnvVar>, name: string, i: nat)
    requires i < |l| && l[i].name != name
    ensures l[..i] + DeleteFirst(l[i..], name) == l[..i + 1] + DeleteFirst(l[i + 1..], name)
  {
    assert l[i..][1..] == l[i + 1..];
    assert l[..i + 1] == l[..i] + [l[i]];
    assert l[..i] + ([l[i]] + DeleteFirst(l[i + 1..], name)) == l[..i] + [l[i]] + DeleteFirst(l[i + 1..], name);
  }

  ghost predicate AtMostOnce(l: seq<EnvVar>, name: string) {
    forall i, j :: 0 <= i < j < |l| ==> !(l[i].name == name && l[j].name == name)
  }

  lemma NamesStep(l: seq<EnvVar>, name: string)
    requires l != []
    ensures name in Names(l) <==> l[0].name == name || name in Names(l[1..])
  {
    assert Names(l) == [l[0].name] + Names(l[1..]);
  }

  lemma AtMostOnceStep(l: seq<EnvVar>, name: string)
    requires l != []
    ensures AtMostOnce(l, name) <==> if l[0].name == name then name !in Names(l[1..]) else AtMostOnce(l[1..], name)
  {
    var rest := l[1..];
    assert forall j :: 0 <= j < |rest| ==> rest[j] == l[j + 1] && Names(rest)[j] == rest[j].name;
    if l[0].name == name {
      if AtMostOnce(l, name) {
        forall j | 0 <= j < |rest| ensures Names(rest)[j] != name {
          assert !(l[0].name == name && l[j + 1].name == name);
        }
      } else {
        var i, j :| 0 <= i < j < |l| && l[i].name == name && l[j].name == name;
        assert Names(rest)[j - 1] == name;
      }
    } else if AtMostOnce(rest, name) {
      forall i, j | 0 <= i < j < |l| ensures !(l[i].name == name && l[j].name == name) {
        if i > 0 {
          assert !(rest[i - 1].name == name && rest[j - 1].name == name);
        }
      }
    } else {
      var i, j :| 0 <= i < j < |rest| && rest[i].name == name && rest[j].name == name;
      assert l[i + 1].name == name && l[j + 1].name == name;
    }
  }

  /** The name is gone afterwards exactly when it occurred at most once. */
  lemma {:induction false} DeleteFirstForgetsIff(l: seq<EnvVar>, name: string)
    ensures name !in Names(DeleteFirst(l, name)) <==> AtMostOnce(l, name)
    ensures name !in Names(l) ==> DeleteFirst(l, name) == l
  {
    if l != [] {
      NamesStep(l, name);
      AtMostOnceStep(l, name);
      if l[0].name != name {
        DeleteFirstForgetsIff(l[1..], name);
        var left := [l[0]] + DeleteFirst(l[1..], name);
        NamesStep(left, name);
        assert left[1..] == DeleteFirst(l[1..], name);
      }
    }
  }

  // ---------------------------------------------------------------- strings

  /** EnvVarList.ToStringSlice. */
  function PrintEnv(e: EnvVar): string {
    e.name + "=" + e.value
  }

  function PrintEnvs(l: seq<EnvVar>): seq<string> {
    Map(PrintEnv, l)
  }

  /** strings.SplitN(s, "=", 2): the text before and after the first `=`. */
  function CutAtEquals(s: string): Option<(string, string)> {
    if s == "" then None
    else if s[0] == '=' then Some(("", s[1..]))
    else match CutAtEquals(s[1..])
         case None => None
         case Some((a, b)) => Some(([s[0]] + a, b))
  }

  lemma {:induction false} CutFacts(s: string)
    ensures CutAtEquals(s).None? <==> '=' !in s
    ensures CutAtEquals(s).Some? ==>
              '=' !in CutAtEquals(s).value.0 && s == CutAtEquals(s).value.0 + "=" + CutAtEquals(s).value.1
  {
    if s != "" {
      CutFacts(s[1..]);
      assert s == [s[0]] + s[1..];
    }
  }

  lemma {:induction false} CutPrinted(name: string, value: string)
    requires '=' !in name
    ensures CutAtEquals(name + "=" + value) == Some((name, value))
  {
    if name == "" {
      assert (name + "=" + value)[1..] == value;
    } else {
      CutPrinted(name[1..], value);
      assert [name[0]] + name[1..] == name;
      assert (name + "=" + value)[1..] == name[1..] + "=" + value;
    }
  }

  function ParseEnvsFrom(l: seq<string>, keys: set<string>): Result<seq<EnvVar>>
    decreases l
  {
    if l == [] then Ok([])
    else match CutAtEquals(l[0])
         case None => Err(Refused("invalid syntax for env, please specify a VariableName=Value pair"))
         case Some((name, value)) =>
           if name in keys then Err(Refused("multiple values found for VariableName"))
           else
             var rest :- ParseEnvsFrom(l[1..], keys + {name});
             Ok([EnvVar(name, value)] + rest)
  }

  /** GetInputEnvVarsFromStrings. */
  function ParseEnvs(l: seq<string>): Result<seq<EnvVar>> {
    ParseEnvsFrom(l, {})
  }

  function PrependVars(done: seq<EnvVar>, r: Result<seq<EnvVar>>): Result<seq<EnvVar>> {
    match r case Ok(rest) => Ok(done + rest) case Err(f) => Err(f)
  }

  lemma PrependVar(done: seq<EnvVar>, e: EnvVar, rest: Result<seq<EnvVar>>)
    ensures PrependVars(done, PrependVars([e], rest)) == PrependVars(done + [e], rest)
  {
    if rest.Ok? {
      assert done + ([e] + rest.value) == (done + [e]) + rest.value;
    }
  }

  method GetInputEnvVarsFromStrings(envVars: seq<string>) returns (r: Result<seq<EnvVar>>)
    ensures r == ParseEnvs(envVars)
  {
    var inputEnvVars: seq<EnvVar> := [];
    var keys: set<string> := {};
    assert envVars[0..] == envVars;
    assert PrependVars([], ParseEnvs(envVars)) == ParseEnvs(envVars) by {
      if ParseEnvs(envVars).Ok? {
        assert [] + ParseEnvs(envVars).value == ParseEnvs(envVars).value;
      }
    }
    for i := 0 to |envVars|
      invariant PrependVars(inputEnvVars, ParseEnvsFrom(envVars[i..], keys)) == ParseEnvs(envVars)
    {
      var splits := CutAtEquals(envVars[i]);
      assert envVars[i..][1..] == envVars[i + 1..];
      if splits.None? {
        return Err(Refused("invalid syntax for env, please specify a VariableName=Value pair"));
      }
      var (name, value) := splits.value;
      if name in keys {
        return Err(Refused("multiple values found for VariableName"));
      }
      PrependVar(inputEnvVars, EnvVar(name, value), ParseEnvsFrom(envVars[i + 1..], keys + {name}));
      inputEnvVars := inputEnvVars + [EnvVar(name, value)];
      keys := keys + {name};
    }
    assert inputEnvVars + [] == inputEnvVars;
    r := Ok(inputEnvVars);
  }

  ghost predicate Printable(l: seq<EnvVar>) {
    Distinct(Names(l)) && forall e :: e in l ==> '=' !in e.name
  }

  /** Accepted lists have `=`-free, distinct names that avoid the keys seen so far. */
  lemma {:induction false} ParsedIsPrintable(l: seq<string>, keys: set<string>)
    requires ParseEnvsFrom(l, keys).Ok?
    ensures Printable(ParseEnvsFrom(l, keys).value)
    ensures forall x :: x in Names(ParseEnvsFrom(l, keys).value) ==> x !in keys
  {
    if l != [] {
      CutFacts(l[0]);
      var (name, value) := CutAtEquals(l[0]).value;
      ParsedIsPrintable(l[1..], keys + {name});
      var rest := ParseEnvsFrom(l[1..], keys + {name}).value;
      MapConcat(NameOf, [EnvVar(name, value)], rest);
    }
  }

  lemma PrintableRest(l: seq<EnvVar>)
    requires l != [] && Printable(l)
    ensures Printable(l[1..])
    ensures forall x :: x in Names(l[1..]) ==> x in Names(l) && x != l[0].name
  {
    assert Names(l)[1..] == Names(l[1..]) && Names(l)[0] == l[0].name;
    forall x | x in Names(l[1..]) ensures x in Names(l) && x != l[0].name {
      var k :| 0 <= k < |l[1..]| && Names(l[1..])[k] == x;
      assert Names(l)[k + 1] == x;
    }
  }

  lemma {:induction false} ParsePrinted(l: seq<EnvVar>, keys: set<string>)
    requires Printable(l) && forall x :: x in Names(l) ==> x !in keys
    ensures ParseEnvsFrom(PrintEnvs(l), keys) == Ok(l)
  {
    if l != [] {
      var e := l[0];
      assert e in l;
      CutPrinted(e.name, e.value);
      assert PrintEnvs(l)[1..] == PrintEnvs(l[1..]);
      PrintableRest(l);
      ParsePrinted(l[1..], keys + {e.name});
      assert [e] + l[1..] == l;
    }
  }

  /** The printed list is parsed back to itself exactly when its names are `=`-free and distinct. */
  lemma EnvRoundTripIff(l: seq<EnvVar>)
    ensures ParseEnvs(PrintEnvs(l)) == Ok(l) <==> Printable(l)
  {
    if Printable(l) {
      ParsePrinted(l, {});
    }
    if ParseEnvs(PrintEnvs(l)) == Ok(l) {
      ParsedIsPrintable(PrintEnvs(l), {});
    }
  }

  /** EnvVarList.Merge. Go ranges over the map in any order, so the result is any list with these
      properties. */
  method Merge(evl: seq<EnvVar>, other: seq<EnvVar>) returns (r: seq<EnvVar>)
    ensures Distinct(Names(r))
    ensures forall name :: LastWins(r, name) == LastWins(evl + other, name)
    ensures forall e :: e in r ==> e in evl + other
  {
    var newEvl := evl + other;
    var uniqueMap: map<string, EnvVar> := map[];
    for i := 0 to |newEvl|
      invariant uniqueMap == ToMap(newEvl[..i])
    {
      uniqueMap := uniqueMap[newEvl[i].name := newEvl[i]];
      assert newEvl[..i + 1][..i] == newEvl[..i];
    }
    assert newEvl[..|newEvl|] == newEvl;
    ghost var full := uniqueMap;
    r := [];
    while uniqueMap.Keys != {}
      invariant Distinct(Names(r))
      invariant forall x :: x in full <==> x in Names(r) || x in uniqueMap
      invariant forall x :: x in uniqueMap ==> x !in Names(r) && uniqueMap[x] == full[x]
      invariant forall e :: e in r ==> e.name in full && full[e.name] == e
      decreases |uniqueMap.Keys|
    {
      var key :| key in uniqueMap;
      MapEntry(newEvl, key);
      MapConcat(NameOf, r, [uniqueMap[key]]);
      assert Names([uniqueMap[key]]) == [key];
      r := r + [uniqueMap[key]];
      ghost var before := uniqueMap.Keys;
      uniqueMap := uniqueMap - {key};
      assert uniqueMap.Keys == before - {key};
    }
    MergedMeaning(r, newEvl);
  }

  lemma MapEntry(l: seq<EnvVar>, key: string)
    requires key in ToMap(l)
    ensures ToMap(l)[key].name == key && ToMap(l)[key] in l
  {
    ToMapIsLastWins(l, key);
    LastWinsMember(l, key);
  }

  lemma MergedMeaning(r: seq<EnvVar>, l: seq<EnvVar>)
    requires forall x :: x in ToMap(l) <==> x in Names(r)
    requires forall e :: e in r ==> e.name in ToMap(l) && ToMap(l)[e.name] == e
    ensures forall name :: LastWins(r, name) == LastWins(l, name)
    ensures forall e :: e in r ==> e in l
  {
    forall name ensures LastWins(r, name) == LastWins(l, name) {
      ToMapIsLastWins(l, name);
      LastWinsMember(r, name);
    }
    forall e | e in r ensures e in l {
      MapEntry(l, e.name);
    }
  }

  /** A merged list of `=`-free names is always accepted by GetInputEnvVarsFromStrings. */
  lemma MergedIsAccepted(r: seq<EnvVar>, evl: seq<EnvVar>, other: seq<EnvVar>)
    requires Distinct(Names(r)) && forall e :: e in r ==> e in evl + other
    requires forall e :: e in evl + other ==> '=' !in e.name
    ensures ParseEnvs(PrintEnvs(r)) == Ok(r)
  {
    EnvRoundTripIff(r);
  }
}
