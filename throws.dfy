/** An eye throw, reduced to the one thing the standard-deviation profile
    table looks at: whether the throw was read from Minecraft 1.12. */
module Throws {

  /** How a kind of throw answers `isMcVersion1_12`: either it keeps the
      interface's default answer, or it overrides it with its own. */
  datatype VersionFlag = Inherited | Overridden(isMcVersion1_12: bool)

  datatype Throw = Throw(versionFlag: VersionFlag)

  /** The throw's version flag; a throw that does not override it is not a
      1.12 throw. */
  function IsMcVersion1_12(t: Throw): (b: bool)
    ensures b <==> t.versionFlag == Overridden(true)
    ensures t.versionFlag.Inherited? ==> !b
  {
    match t.versionFlag
    case Inherited => false
    case Overridden(flag) => flag
  }
}
