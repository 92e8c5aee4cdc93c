/** Verbosity resolution (arg/arg.go): six boolean flags `-v` … `-vvvvvv`
    are resolved into the initial level the leveled logger starts with. */
module Arg {
  import opened Loglevel

  /** The six command-line flags, one per level 1..6. */
  datatype Flags = Flags(v: bool, vv: bool, vvv: bool, vvvv: bool, vvvvv: bool, vvvvvv: bool)

  /** The package's global state: the parsed flags and the stored level. */
  datatype Args = Args(flags: Flags, initLevel: Level)

  /** Flag k (the one spelled with k letters `v`) is set. */
  predicate IsSet(f: Flags, k: int)
  {
    match k
    case 1 => f.v
    case 2 => f.vv
    case 3 => f.vvv
    case 4 => f.vvvv
    case 5 => f.vvvvv
    case 6 => f.vvvvvv
    case _ => false
  }

  /** The priority switch: the first set flag, from the most verbose down, decides;
      the stored level is the highest k whose flag is set, or 0 when none is. */
  function SetInitLevel(a: Args): (r: Args)
    ensures r.flags == a.flags
    ensures r.initLevel <= LEVEL_6
    ensures r.initLevel == LEVEL_0 || IsSet(a.flags, r.initLevel)
    ensures forall k :: IsSet(a.flags, k) ==> k <= r.initLevel
  {
    var f := a.flags;
    var level :=
      if f.vvvvvv then LEVEL_6
      else if f.vvvvv then LEVEL_5
      else if f.vvvv then LEVEL_4
      else if f.vvv then LEVEL_3
      else if f.vv then LEVEL_2
      else if f.v then LEVEL_1
      else LEVEL_0;
    a.(initLevel := level)
  }

  function GetInitLevel(a: Args): Level
  {
    a.initLevel
  }

  /** Reading the level back returns what resolution stored, and reading changes nothing. */
  lemma GetAfterSet(a: Args)
    ensures GetInitLevel(SetInitLevel(a)) <= LEVEL_6
    ensures GetInitLevel(SetInitLevel(a)) == 0 <==> forall k :: !IsSet(a.flags, k)
    ensures forall k :: 1 <= k <= 6 ==>
              (GetInitLevel(SetInitLevel(a)) == k <==> IsSet(a.flags, k) && forall j :: k < j ==> !IsSet(a.flags, j))
  {
  }

  /** With exactly one flag set, its letter count is the level; with none, 0. */
  lemma SingleFlag(a: Args, k: int)
    requires 0 <= k <= 6
    requires forall j :: 1 <= j <= 6 ==> (IsSet(a.flags, j) <==> j == k)
    ensures SetInitLevel(a).initLevel == k
  {
    if k != 0 {
      assert IsSet(a.flags, k);
    }
  }

  /** Setting more flags never lowers the resolved level. */
  lemma MoreFlagsNeverLower(a: Args, b: Args)
    requires forall k :: IsSet(a.flags, k) ==> IsSet(b.flags, k)
    ensures SetInitLevel(a).initLevel <= SetInitLevel(b).initLevel
  {
    var r := SetInitLevel(a).initLevel;
    if r != 0 {
      assert IsSet(b.flags, r);
    }
  }
}
