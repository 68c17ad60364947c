/** Experiment flags in a ChaosBlade resource: written by the Kubernetes executor
    (exec/kubernetes/executor.go) and read back by destroy (cli/cmd/destroy.go). */
module ResourceFlags {
  import opened Text

  datatype FlagSpec = FlagSpec(name: string, value: seq<string>)

  const CONNECTION_FLAGS: set<string> := {"kubeconfig", "waiting-time", "kubectl-proxy", "token"}

  const ESCAPED_SPACE := "@@##"

  /** What any iteration order of the flag map must produce: one spec per kept flag. */
  ghost predicate Represents(specs: seq<FlagSpec>, flags: map<string, string>) {
    && (forall i, j :: 0 <= i < j < |specs| ==> specs[i].name != specs[j].name)
    && (forall i :: 0 <= i < |specs| ==>
          && specs[i].name in flags && specs[i].name !in CONNECTION_FLAGS
          && specs[i].value == Split(flags[specs[i].name], ','))
    && (forall k :: k in flags && k !in CONNECTION_FLAGS ==>
          exists i :: 0 <= i < |specs| && specs[i].name == k)
  }

  /** convertFlagsToResourceFlags, taking the keys in whatever order the map yields them. */
  method ConvertFlagsToResourceFlags(flags: map<string, string>) returns (specs: seq<FlagSpec>)
    ensures Represents(specs, flags)
  {
    specs := [];
    var left := flags.Keys;
    while left != {}
      invariant left <= flags.Keys
      invariant forall i :: 0 <= i < |specs| ==> specs[i].name !in left
      invariant Represents(specs, map k | k in flags && k !in left :: flags[k])
      decreases |left|
    {
      var name :| name in left;
      ghost var before := map k | k in flags && k !in left :: flags[k];
      left := left - {name};
      if name !in CONNECTION_FLAGS {
        ghost var was := specs;
        specs := specs + [FlagSpec(name, Split(flags[name], ','))];
        forall k | k in flags && k !in left && k !in CONNECTION_FLAGS
          ensures exists i :: 0 <= i < |specs| && specs[i].name == k
        {
          if k == name {
            assert specs[|was|].name == k;
          } else {
            assert k in before;
            var i :| 0 <= i < |was| && was[i].name == k;
            assert specs[i].name == k;
          }
        }
      } else {
        assert forall k :: k in flags && k !in left && k !in CONNECTION_FLAGS ==> k in before;
      }
    }
    assert (map k | k in flags && k !in left :: flags[k]) == flags;
  }

  function Decoded(value: seq<string>): string {
    ReplaceAll(Join(value, ','), ESCAPED_SPACE, " ")
  }

  /** convertCBExperimentToExpModel's action flags: later specs overwrite earlier ones, specs
      without a value are skipped. */
  function ActionFlags(specs: seq<FlagSpec>): map<string, string> {
    if specs == [] then map[]
    else
      var last := specs[|specs| - 1];
      var front := ActionFlags(specs[..|specs| - 1]);
      if last.value == [] then front else front[last.name := Decoded(last.value)]
  }

  method ConvertToActionFlags(specs: seq<FlagSpec>) returns (flags: map<string, string>)
    ensures flags == ActionFlags(specs)
  {
    flags := map[];
    for i := 0 to |specs|
      invariant flags == ActionFlags(specs[..i])
    {
      assert specs[..i + 1][..i] == specs[..i];
      if specs[i].value != [] {
        flags := flags[specs[i].name := Decoded(specs[i].value)];
      }
    }
    assert specs[..|specs|] == specs;
  }

  ghost predicate HasSpec(specs: seq<FlagSpec>, name: string) {
    exists i :: 0 <= i < |specs| && specs[i].name == name
  }

  lemma {:induction false} ActionFlagsAreNamed(specs: seq<FlagSpec>, name: string)
    requires name in ActionFlags(specs)
    ensures HasSpec(specs, name)
  {
    var last := |specs| - 1;
    if name in ActionFlags(specs[..last]) {
      ActionFlagsAreNamed(specs[..last], name);
      var i :| 0 <= i < last && specs[..last][i].name == name;
      assert specs[i].name == name;
    } else {
      assert specs[last].name == name;
    }
  }

  lemma {:induction false} ActionFlagOfSpec(specs: seq<FlagSpec>, i: nat)
    requires i < |specs| && specs[i].value != []
    requires forall j :: i < j < |specs| ==> specs[j].name != specs[i].name
    ensures specs[i].name in ActionFlags(specs)
    ensures ActionFlags(specs)[specs[i].name] == Decoded(specs[i].value)
    decreases |specs|
  {
    if i < |specs| - 1 {
      ActionFlagOfSpec(specs[..|specs| - 1], i);
    }
  }

  function Kept(flags: map<string, string>): map<string, string> {
    map k | k in flags && k !in CONNECTION_FLAGS :: flags[k]
  }

  /** The round trip, for every flag map and every iteration order: the connection flags are gone,
      every other flag is back, and an escaped space is a space. Empty values are kept. */
  lemma {:induction false} FlagsComeBack(specs: seq<FlagSpec>, flags: map<string, string>)
    requires Represents(specs, flags)
    ensures ActionFlags(specs) == map k | k in Kept(flags) :: ReplaceAll(Kept(flags)[k], ESCAPED_SPACE, " ")
  {
    forall k | k in Kept(flags)
      ensures k in ActionFlags(specs) && ActionFlags(specs)[k] == ReplaceAll(flags[k], ESCAPED_SPACE, " ")
    {
      FlagComesBack(specs, flags, k);
    }
    forall k | k in ActionFlags(specs) ensures k in Kept(flags) {
      OnlyKeptFlagsComeBack(specs, flags, k);
    }
  }

  lemma {:induction false} OnlyKeptFlagsComeBack(specs: seq<FlagSpec>, flags: map<string, string>, k: string)
    requires Represents(specs, flags) && k in ActionFlags(specs)
    ensures k in Kept(flags)
  {
    ActionFlagsAreNamed(specs, k);
    var i :| 0 <= i < |specs| && specs[i].name == k;
  }

  lemma {:induction false} FlagComesBack(specs: seq<FlagSpec>, flags: map<string, string>, k: string)
    requires Represents(specs, flags) && k in Kept(flags)
    ensures k in ActionFlags(specs) && ActionFlags(specs)[k] == ReplaceAll(flags[k], ESCAPED_SPACE, " ")
  {
    var i :| 0 <= i < |specs| && specs[i].name == k;
    ActionFlagOfSpec(specs, i);
    JoinSplit(flags[k], ',');
  }

  /** Flags come back unchanged exactly when no kept value holds the escape. */
  lemma {:induction false} FlagsComeBackUnchangedExactlyWhen(specs: seq<FlagSpec>, flags: map<string, string>)
    requires Represents(specs, flags)
    ensures ActionFlags(specs) == Kept(flags) <==>
            forall k :: k in Kept(flags) ==> !Contains(flags[k], ESCAPED_SPACE)
  {
    FlagsComeBack(specs, flags);
    var back := ActionFlags(specs);
    forall k | k in Kept(flags)
      ensures back[k] == Kept(flags)[k] <==> !Contains(flags[k], ESCAPED_SPACE)
    {
      ReplaceAllIdentity(flags[k], ESCAPED_SPACE, " ");
    }
  }
}
