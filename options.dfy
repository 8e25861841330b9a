// `ObservableOptions`, the option set that says at which moments a listener
// of an `Observable` is called.

module Options {

  /** An `OptionSet` struct over an `Int` raw value; equality compares raw values. */
  datatype ObservableOptions = ObservableOptions(rawValue: int)

  /** `1 << k` */
  function Bit(k: nat): (r: nat)
    ensures r >= 1
  {
    if k == 0 then 1 else 2 * Bit(k - 1)
  }

  /** `n` has exactly one bit set. */
  predicate IsSingleBit(n: int)
    decreases if n < 0 then 0 else n
  {
    n == 1 || (n > 1 && n % 2 == 0 && IsSingleBit(n / 2))
  }

  /** Called once, at registration, with the current value. */
  const Initial := ObservableOptions(Bit(0))
  /** Called on every set, with the value before the set. */
  const Old := ObservableOptions(Bit(1))
  /** Called on every set, with the value after the set. */
  const New := ObservableOptions(Bit(2))

  lemma {:induction false} BitIsSingleBit(k: nat)
    ensures IsSingleBit(Bit(k))
  {
    if k > 0 {
      BitIsSingleBit(k - 1);
      assert Bit(k) / 2 == Bit(k - 1);
    }
  }

  /** The three constants have the raw values 1, 2 and 4, one bit each, all different. */
  lemma OptionConstants()
    ensures Initial.rawValue == 1 && Old.rawValue == 2 && New.rawValue == 4
    ensures IsSingleBit(Initial.rawValue) && IsSingleBit(Old.rawValue) && IsSingleBit(New.rawValue)
    ensures Initial != Old && Old != New && Initial != New
  {
  }

  /**
   * `options.contains(member)` on the ARRAY `[ObservableOptions]` that a
   * listener registers with: a scan for an element equal to `member`.
   */
  function Contains(options: seq<ObservableOptions>, member: ObservableOptions): (r: bool)
    ensures r <==> member in options
  {
    if |options| == 0 then false
    else options[0] == member || Contains(options[1..], member)
  }

  /** A one-constant array never answers `contains` for another constant. */
  lemma ConstantsDoNotMatchEachOther()
    ensures !Contains([Initial], Old) && !Contains([Initial], New)
    ensures !Contains([Old], Initial) && !Contains([Old], New)
    ensures !Contains([New], Initial) && !Contains([New], Old)
    ensures Contains([Initial], Initial) && Contains([Old], Old) && Contains([New], New)
  {
  }

  /**
   * Because `contains` compares whole raw values, an element that unites two
   * options (raw value 6 for old and new) matches neither of them.
   */
  lemma UnitedOptionMatchesNeither()
    ensures !Contains([ObservableOptions(Old.rawValue + New.rawValue)], Old)
    ensures !Contains([ObservableOptions(Old.rawValue + New.rawValue)], New)
  {
  }
}
