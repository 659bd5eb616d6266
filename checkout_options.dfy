/**
 * Checkout options: the strategy flags and the managed properties that read
 * and write single fields of the structure handed to native checkout, with
 * the casts between signed and unsigned 32-bit integers and the encoding of
 * a boolean as 1 or 0.
 */
module Checkout {

  /** C#'s int and uint. */
  type Int32 = x: int | -0x8000_0000 <= x < 0x8000_0000
  type UInt32 = x: int | 0 <= x < 0x1_0000_0000

  /** The unchecked cast (uint) of an int: the same 32 bits, read unsigned. */
  function AsUInt32(x: Int32): (u: UInt32)
    ensures (u - x) % 0x1_0000_0000 == 0
    ensures 0 <= x ==> u == x
  {
    if x < 0 then x + 0x1_0000_0000 else x
  }

  /** The unchecked cast back to int (here, to the int-based enum): the same 32 bits, read signed. */
  function AsInt32(u: UInt32): (x: Int32)
    ensures (u - x) % 0x1_0000_0000 == 0
    ensures u < 0x8000_0000 ==> x == u
  {
    if u < 0x8000_0000 then u else u - 0x1_0000_0000
  }

  /** The two casts are inverse to each other, in both directions. */
  lemma CastsRoundTrip(x: Int32, u: UInt32)
    ensures AsInt32(AsUInt32(x)) == x
    ensures AsUInt32(AsInt32(u)) == u
  {
  }

  // CheckoutStrategy: an int-based flags enumeration.

  const Default: Int32 := 1
  const OverwriteModified: Int32 := 2
  const CreateMissing: Int32 := 4
  const RemoveUntracked: Int32 := 8

  /** The bits of an Int32, as C# holds them. */
  function Bits(x: Int32): bv32 {
    AsUInt32(x) as bv32
  }

  /** The enumeration's `|`: bitwise or of the two values' bits. */
  function Or(a: Int32, b: Int32): (c: Int32)
    ensures Bits(c) == Bits(a) | Bits(b)
  {
    var u := ((Bits(a) | Bits(b)) as int);
    CastsRoundTrip(0, u);
    AsInt32(u)
  }

  /** The flags are distinct single bits: 1, 2, 4 and 8. */
  lemma StrategyFlagsAreDistinctBits()
    ensures Bits(Default) == 1 << 0 && Bits(OverwriteModified) == 1 << 1
    ensures Bits(CreateMissing) == 1 << 2 && Bits(RemoveUntracked) == 1 << 3
    ensures Bits(Default) & Bits(OverwriteModified) == 0 && Bits(Default) & Bits(CreateMissing) == 0
    ensures Bits(Default) & Bits(RemoveUntracked) == 0 && Bits(OverwriteModified) & Bits(CreateMissing) == 0
    ensures Bits(OverwriteModified) & Bits(RemoveUntracked) == 0 && Bits(CreateMissing) & Bits(RemoveUntracked) == 0
  {
  }

  /** The strategy a fresh options object has. */
  const DefaultStrategy: Int32 := Or(Default, CreateMissing)

  lemma DefaultStrategyIsFive()
    ensures DefaultStrategy == 5 && AsUInt32(DefaultStrategy) == 5
  {
    assert Bits(Default) | Bits(CreateMissing) == 5;
    assert Bits(DefaultStrategy) == 5;
  }

  // The boolean encoding of DisableFilters.

  function EncodeBool(b: bool): (i: Int32)
    ensures i == 0 || i == 1
    ensures b <==> i != 0
  {
    if b then 1 else 0
  }

  /** A stored boolean reads back as itself; a nonzero field reads as true whatever it is. */
  lemma BoolRoundTrip(b: bool, i: Int32)
    ensures (EncodeBool(b) != 0) == b
    ensures EncodeBool(i != 0) == (if i == 0 then 0 else 1)
  {
  }

  /**
   * The fields of the native options structure that the properties read
   * and write.  The source's structure is a class; here it is the value of
   * the field that holds it.
   */
  datatype GitCheckoutOptions = GitCheckoutOptions(
    checkoutStrategy: UInt32,
    disableFilters: Int32,
    dirMode: Int32,
    fileMode: Int32,
    fileOpenFlags: Int32)

  class CheckoutOptions {
    var checkoutOptions: GitCheckoutOptions

    /** A zeroed structure, then the strategy Default | CreateMissing. */
    constructor ()
      ensures checkoutOptions == GitCheckoutOptions(5, 0, 0, 0, 0)
      ensures CheckoutStrategy() == DefaultStrategy
    {
      checkoutOptions := GitCheckoutOptions(0, 0, 0, 0, 0);
      new;
      DefaultStrategyIsFive();
      checkoutOptions := checkoutOptions.(checkoutStrategy := AsUInt32(DefaultStrategy));
    }

    /** The strategy: the unsigned field cast back to the enumeration. */
    function CheckoutStrategy(): (s: Int32)
      reads this
      ensures AsUInt32(s) == checkoutOptions.checkoutStrategy
    {
      AsInt32(checkoutOptions.checkoutStrategy)
    }

    method SetCheckoutStrategy(value: Int32)
      modifies this
      ensures checkoutOptions == old(checkoutOptions).(checkoutStrategy := AsUInt32(value))
      ensures CheckoutStrategy() == value
    {
      checkoutOptions := checkoutOptions.(checkoutStrategy := AsUInt32(value));
    }

    /** Filters are disabled when the field is nonzero. */
    function DisableFilters(): (b: bool)
      reads this
      ensures b <==> checkoutOptions.disableFilters != 0
      ensures checkoutOptions.disableFilters == EncodeBool(b) || checkoutOptions.disableFilters !in {0, 1}
    {
      checkoutOptions.disableFilters != 0
    }

    method SetDisableFilters(value: bool)
      modifies this
      ensures checkoutOptions == old(checkoutOptions).(disableFilters := EncodeBool(value))
      ensures DisableFilters() == value
    {
      checkoutOptions := checkoutOptions.(disableFilters := if value then 1 else 0);
    }

    function DirectoryMode(): (m: Int32)
      reads this
      ensures m == checkoutOptions.dirMode
    {
      checkoutOptions.dirMode
    }

    method SetDirectoryMode(value: Int32)
      modifies this
      ensures checkoutOptions == old(checkoutOptions).(dirMode := value)
      ensures DirectoryMode() == value
    {
      checkoutOptions := checkoutOptions.(dirMode := value);
    }

    function FileMode(): (m: Int32)
      reads this
      ensures m == checkoutOptions.fileMode
    {
      checkoutOptions.fileMode
    }

    method SetFileMode(value: Int32)
      modifies this
      ensures checkoutOptions == old(checkoutOptions).(fileMode := value)
      ensures FileMode() == value
    {
      checkoutOptions := checkoutOptions.(fileMode := value);
    }

    function FileOpenFlags(): (f: Int32)
      reads this
      ensures f == checkoutOptions.fileOpenFlags
    {
      checkoutOptions.fileOpenFlags
    }

    method SetFileOpenFlags(value: Int32)
      modifies this
      ensures checkoutOptions == old(checkoutOptions).(fileOpenFlags := value)
      ensures FileOpenFlags() == value
    {
      checkoutOptions := checkoutOptions.(fileOpenFlags := value);
    }
  }

  /**
   * Setting one property leaves the other four reading as before: here, for
   * the strategy, against every other getter.
   */
  method SetStrategyKeepsOthers(options: CheckoutOptions, value: Int32)
    modifies options
    ensures options.CheckoutStrategy() == value
    ensures options.DisableFilters() == old(options.DisableFilters())
    ensures options.DirectoryMode() == old(options.DirectoryMode())
    ensures options.FileMode() == old(options.FileMode())
    ensures options.FileOpenFlags() == old(options.FileOpenFlags())
  {
    options.SetCheckoutStrategy(value);
  }
}
