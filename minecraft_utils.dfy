/** The difficulty enumeration of fast_world_creator/utils/minecraft_utils.py. */
module MinecraftUtils {
  import opened Wrappers

  /** An `IntEnum`: each member is its integer value 0..4. */
  datatype Difficulty = Peaceful | Easy | Normal | Hard | Hardcore {

    function Value(): (v: nat)
      ensures v <= 4
    {
      match this
      case Peaceful => 0
      case Easy => 1
      case Normal => 2
      case Hard => 3
      case Hardcore => 4
    }

    /** `is_hardcore`: an identity test against HARDCORE. */
    predicate IsHardcore() {
      this == Hardcore
    }
  }

  /** `Difficulties(n)`: ValueError (None) outside 0..4. */
  function FromValue(n: int): Option<Difficulty> {
    if n == 0 then Some(Peaceful)
    else if n == 1 then Some(Easy)
    else if n == 2 then Some(Normal)
    else if n == 3 then Some(Hard)
    else if n == 4 then Some(Hardcore)
    else None
  }

  /** The conversion from an integer is defined exactly on 0..4 and is the
      inverse of the member values, which are pairwise distinct. */
  lemma FromValueSpec(n: int)
    ensures FromValue(n).Some? <==> 0 <= n <= 4
    ensures FromValue(n).Some? ==> FromValue(n).value.Value() == n
    ensures forall d: Difficulty :: FromValue(d.Value()) == Some(d)
  {
    forall d: Difficulty ensures FromValue(d.Value()) == Some(d) {
      match d
      case Peaceful =>
      case Easy =>
      case Normal =>
      case Hard =>
      case Hardcore =>
    }
  }

  /** Only the member HARDCORE, of value 4, is hardcore. */
  lemma HardcoreIsFour(d: Difficulty)
    ensures d.IsHardcore() <==> d.Value() == 4
  {
  }
}
