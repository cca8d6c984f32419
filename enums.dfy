/** The three enumerations of the library: LinkFlags (src/WindowsShortcut/LinkFlags.cs),
    ModifierKeys (src/WindowsShortcut/ModifierKeys.cs) and WindowStyle
    (src/WindowsShortcut/WindowStyle.cs). A LinkFlags value is a C# `int`, held here as
    its 32-bit pattern. */
module Enums {

  type LinkFlags = bv32

  /** `LinkFlags.None`. */
  const NoFlags: LinkFlags := 0x0000_0000
  const HasLinkTargetIDList: LinkFlags := 0x0000_0001
  const HasLinkInfo: LinkFlags := 0x0000_0002
  const HasName: LinkFlags := 0x0000_0004
  const HasRelativePath: LinkFlags := 0x0000_0008
  const HasWorkingDirectory: LinkFlags := 0x0000_0010
  const HasArguments: LinkFlags := 0x0000_0020
  const HasIconLocation: LinkFlags := 0x0000_0040
  const IsUnicode: LinkFlags := 0x0000_0080
  const ForceNoLinkInfo: LinkFlags := 0x0000_0100
  const HasExpString: LinkFlags := 0x0000_0200
  const RunInSeparateProcess: LinkFlags := 0x0000_0400
  const Unused1: LinkFlags := 0x0000_0800
  const HasDarwinID: LinkFlags := 0x0000_1000
  const RunAsUser: LinkFlags := 0x0000_2000
  const HasExpIcon: LinkFlags := 0x0000_4000
  const NoPidlAlias: LinkFlags := 0x0000_8000
  const Unused2: LinkFlags := 0x0001_0000
  const RunWithShimLayer: LinkFlags := 0x0002_0000
  const ForceNoLinkTrack: LinkFlags := 0x0004_0000
  const EnableTargetMetadata: LinkFlags := 0x0008_0000
  const DisableLinkPathTracking: LinkFlags := 0x0010_0000
  const DisableKnownFolderTracking: LinkFlags := 0x0020_0000
  const DisableKnownFolderAlias: LinkFlags := 0x0040_0000
  const AllowLinkToLink: LinkFlags := 0x0080_0000
  const UnaliasOnSave: LinkFlags := 0x0100_0000
  const PreferEnvironmentPath: LinkFlags := 0x0200_0000
  const KeepLocalIDListForUNCTarget: LinkFlags := 0x0400_0000

  /** `(flags & f) != 0`. */
  predicate HasFlag(flags: LinkFlags, f: LinkFlags) { flags & f != 0 }

  /** `flags | f` when `present`, `flags & ~f` otherwise: the read-modify-write every
      gated setter applies to the link's flags. */
  function WithFlag(flags: LinkFlags, f: LinkFlags, present: bool): LinkFlags
  {
    if present then flags | f else flags & !f
  }

  /** After `WithFlag` the flag says `present`, and no other bit has changed. */
  lemma WithFlagSetsOnlyThatFlag(flags: LinkFlags, f: LinkFlags, present: bool)
    requires f != NoFlags
    ensures HasFlag(WithFlag(flags, f, present), f) == present
    ensures WithFlag(flags, f, present) & !f == flags & !f
  {
  }

  /** Setting or clearing one flag leaves every flag disjoint from it as it was. */
  lemma WithFlagKeepsOthers(flags: LinkFlags, f: LinkFlags, present: bool, g: LinkFlags)
    requires f & g == NoFlags
    ensures WithFlag(flags, f, present) & g == flags & g
    ensures HasFlag(WithFlag(flags, f, present), g) == HasFlag(flags, g)
  {
  }

  /** ModifierKeys (a [Flags] enumeration). */
  const ModifierNone: int := 0x00
  const Shift: int := 0x01
  const Control: int := 0x02
  const Alt: int := 0x04

  /** WindowStyle. */
  const Normal: int := 1
  const Maximized: int := 3
  const Minimized: int := 7

  /** `Enum.IsDefined(typeof(WindowStyle), value)`. */
  predicate IsWindowStyle(value: int) { value == Normal || value == Maximized || value == Minimized }
}
