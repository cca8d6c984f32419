/** What the properties of ShellLink (src/WindowsShortcut/ShellLink.cs) show for the
    registers of the shell-link object, and what each property setter leaves in those
    registers. Each getter is a function of the registers. They are the same whether a cache
    answers or the object does, because the caches only hold what the object gave. */
module LinkViews {
  import opened Errors
  import opened Text
  import opened Decimal
  import opened Enums
  import opened HotKeys
  import opened IconLocations
  import opened LinkStores

  /** The shell namespace functions the TargetIDList property calls:
      `SHParseDisplayName`, which gives an item identifier list for a display name or
      fails with the exception for its HRESULT, and `SHGetPathFromIDListW`, which gives
      the file-system path of a list or fails. */
  datatype ShellNamespace = ShellNamespace(
    parseDisplayName: string -> Result<Pidl>,
    pathFromIdList: Pidl -> Option<string>)

  /** `!string.IsNullOrEmpty(value)`. */
  predicate NonEmpty(value: Option<string>) { value.Some? && |value.value| > 0 }

  /** The four string properties that share one pattern: a flag that says whether the
      link has them, a register read through a buffer of fixed size, and a setter that
      writes the register and sets the flag exactly when the value is not empty. */
  datatype TextProperty = Target | Arguments | WorkingDirectory | Description

  function Bit(p: TextProperty): (f: LinkFlags)
    ensures f != NoFlags
  {
    match p
    case Target => HasLinkInfo
    case Arguments => HasArguments
    case WorkingDirectory => HasWorkingDirectory
    case Description => HasName
  }

  /** The flags of distinct string properties are distinct bits, and none of them is
      HasLinkTargetIDList or HasIconLocation. */
  lemma BitsDisjoint(p: TextProperty, q: TextProperty)
    ensures p != q ==> Bit(p) & Bit(q) == NoFlags
    ensures Bit(p) & HasLinkTargetIDList == NoFlags && HasLinkTargetIDList & Bit(p) == NoFlags
    ensures Bit(p) & HasIconLocation == NoFlags && HasIconLocation & Bit(p) == NoFlags
  {
    match p
    case Target =>
    case Arguments =>
    case WorkingDirectory =>
    case Description =>
  }

  /** The getter's buffer: `Kernel32.MAX_PATH` for paths, `Comctl32.INFOTIPSIZE` for
      arguments and the description. */
  function BufferSize(p: TextProperty): Capacity
  {
    match p
    case Target => MAX_PATH
    case Arguments => INFOTIPSIZE
    case WorkingDirectory => MAX_PATH
    case Description => INFOTIPSIZE
  }

  function Register(img: Image, p: TextProperty): Option<string>
  {
    match p
    case Target => img.path
    case Arguments => img.arguments
    case WorkingDirectory => img.workingDirectory
    case Description => img.description
  }

  function WithRegister(img: Image, p: TextProperty, value: Option<string>): (r: Image)
    ensures Register(r, p) == value
    ensures forall q :: q != p ==> Register(r, q) == Register(img, q)
    ensures r.flags == img.flags && r.idList == img.idList && r.hotkey == img.hotkey
    ensures r.showCmd == img.showCmd && r.iconPath == img.iconPath && r.iconIndex == img.iconIndex
  {
    match p
    case Target => img.(path := value)
    case Arguments => img.(arguments := value)
    case WorkingDirectory => img.(workingDirectory := value)
    case Description => img.(description := value)
  }

  /** The getter of a string property: null when the flag is clear, otherwise the
      register's text up to the first NUL of the filled buffer. */
  function TextOf(img: Image, p: TextProperty): Option<string>
  {
    if HasFlag(img.flags, Bit(p)) then Some(Fetched(Register(img, p), BufferSize(p))) else None
  }

  /** The path of an identifier list as the TargetIDList getter keeps it: what
      `SHGetPathFromIDListW` writes into a buffer of MAX_PATH characters, up to its NUL.
      None when the list has no file-system path. */
  function ListedPath(shell: ShellNamespace, pidl: Pidl): Option<string>
  {
    match shell.pathFromIdList(pidl)
    case None => None
    case Some(p) => Some(Fetched(Some(p), MAX_PATH))
  }

  /** The TargetIDList getter: null when HasLinkTargetIDList is clear, an IOException
      when the identifier list has no file-system path, otherwise that path. */
  function TargetIdListOf(img: Image, shell: ShellNamespace): Result<Option<string>>
  {
    if !HasFlag(img.flags, HasLinkTargetIDList) then Ok(None)
    else if ListedPath(shell, img.idList).None? then Err(Io)
    else Ok(ListedPath(shell, img.idList))
  }

  /** The HotKey getter: `new HotKey(key)` of the stored key. */
  function HotKeyOf(img: Image): Result<Keys>
  {
    CheckKey(img.hotkey)
  }

  /** The WindowStyle getter: the stored show command, cast without a check. */
  function WindowStyleOf(img: Image): Int32
  {
    img.showCmd
  }

  /** The IconLocation getter: null when HasIconLocation is clear, otherwise
      `new IconLocation(path, index)` of the stored path up to its first NUL, which throws
      when that path is empty. */
  function IconLocationOf(img: Image): Result<Option<IconLocation>>
  {
    if !HasFlag(img.flags, HasIconLocation) then Ok(None)
    else
      var l :- New(Some(Fetched(img.iconPath, MAX_PATH)), img.iconIndex);
      Ok(Some(l))
  }

  /** The registers after the setter of a string property. */
  function AfterSetText(img: Image, p: TextProperty, value: Option<string>): Image
  {
    WithRegister(img, p, value).(flags := WithFlag(img.flags, Bit(p), NonEmpty(value)))
  }

  /** The registers after the TargetIDList setter stored `pidl`. */
  function AfterSetTargetIdList(img: Image, pidl: Pidl): Image
  {
    img.(idList := pidl, flags := WithFlag(img.flags, HasLinkTargetIDList, true))
  }

  /** The registers after the IconLocation setter: null stores no path and index 0. */
  function AfterSetIconLocation(img: Image, value: Option<IconLocation>): Image
  {
    match value
    case None => img.(iconPath := None, iconIndex := 0, flags := WithFlag(img.flags, HasIconLocation, false))
    case Some(l) => img.(iconPath := Some(l.path), iconIndex := l.index, flags := WithFlag(img.flags, HasIconLocation, true))
  }

  /** A link the library has just created shows nothing: every string property and the
      icon location are null, the hotkey is empty, the window style is Normal and no
      flag is set. */
  lemma BlankViews(shell: ShellNamespace)
    ensures forall p :: TextOf(Blank, p) == None
    ensures TargetIdListOf(Blank, shell) == Ok(None)
    ensures IconLocationOf(Blank) == Ok(None)
    ensures HotKeyOf(Blank) == Ok(Keys(ModifierNone, 0))
    ensures WindowStyleOf(Blank) == Normal
    ensures Blank.flags == NoFlags
  {
    forall p ensures TextOf(Blank, p) == None {
      assert Blank.flags & Bit(p) == 0;
    }
    CheckKeyExamples();
  }

  /** What a string getter returns is never longer than its buffer allows and holds no
      NUL; a value that fits comes back unchanged. */
  lemma TextOfBounds(img: Image, p: TextProperty)
    ensures TextOf(img, p).Some? <==> HasFlag(img.flags, Bit(p))
    ensures TextOf(img, p).Some? ==> NUL !in TextOf(img, p).value && |TextOf(img, p).value| < BufferSize(p)
    ensures TextOf(img, p).Some? && Register(img, p).Some? ==> TextOf(img, p).value <= Register(img, p).value
    ensures TextOf(img, p).Some? && Register(img, p).None? ==> TextOf(img, p).value == ""
  {
  }

  /** After a string setter the getter returns the value, cut at its first NUL and to
      one character less than the buffer, when the value is not empty, and null when it
      is null or empty. */
  lemma SetTextThenGet(img: Image, p: TextProperty, value: Option<string>)
    ensures TextOf(AfterSetText(img, p, value), p) ==
              if NonEmpty(value) then Some(Fetched(value, BufferSize(p))) else None
    ensures NonEmpty(value) && NUL !in value.value && |value.value| < BufferSize(p) ==>
              TextOf(AfterSetText(img, p, value), p) == value
    ensures !NonEmpty(value) ==> TextOf(AfterSetText(img, p, value), p) == None
  {
    WithFlagSetsOnlyThatFlag(img.flags, Bit(p), NonEmpty(value));
  }

  /** A string setter leaves every other property as the getters show it. */
  lemma SetTextKeepsOthers(img: Image, p: TextProperty, value: Option<string>, shell: ShellNamespace)
    ensures forall q :: q != p ==> TextOf(AfterSetText(img, p, value), q) == TextOf(img, q)
    ensures TargetIdListOf(AfterSetText(img, p, value), shell) == TargetIdListOf(img, shell)
    ensures IconLocationOf(AfterSetText(img, p, value)) == IconLocationOf(img)
    ensures HotKeyOf(AfterSetText(img, p, value)) == HotKeyOf(img)
    ensures WindowStyleOf(AfterSetText(img, p, value)) == WindowStyleOf(img)
  {
    forall q | q != p ensures TextOf(AfterSetText(img, p, value), q) == TextOf(img, q) {
      SetTextKeepsText(img, p, value, q);
    }
    SetTextKeepsRest(img, p, value, shell);
  }

  /** A string setter leaves each other string property as its getter shows it. */
  lemma SetTextKeepsText(img: Image, p: TextProperty, value: Option<string>, q: TextProperty)
    requires q != p
    ensures TextOf(AfterSetText(img, p, value), q) == TextOf(img, q)
  {
    var after := AfterSetText(img, p, value);
    assert Bit(p) & Bit(q) == NoFlags by {
      BitsDisjoint(p, q);
    }
    assert HasFlag(after.flags, Bit(q)) == HasFlag(img.flags, Bit(q)) by {
      WithFlagKeepsOthers(img.flags, Bit(p), NonEmpty(value), Bit(q));
    }
    assert Register(after, q) == Register(img, q);
  }

  /** A string setter leaves TargetIDList, IconLocation, HotKey and WindowStyle as their
      getters show them. */
  lemma SetTextKeepsRest(img: Image, p: TextProperty, value: Option<string>, shell: ShellNamespace)
    ensures TargetIdListOf(AfterSetText(img, p, value), shell) == TargetIdListOf(img, shell)
    ensures IconLocationOf(AfterSetText(img, p, value)) == IconLocationOf(img)
    ensures HotKeyOf(AfterSetText(img, p, value)) == HotKeyOf(img)
    ensures WindowStyleOf(AfterSetText(img, p, value)) == WindowStyleOf(img)
  {
    var after := AfterSetText(img, p, value);
    BitsDisjoint(p, p);
    WithFlagKeepsOthers(img.flags, Bit(p), NonEmpty(value), HasLinkTargetIDList);
    WithFlagKeepsOthers(img.flags, Bit(p), NonEmpty(value), HasIconLocation);
    assert after.idList == img.idList && after.iconPath == img.iconPath && after.iconIndex == img.iconIndex;
  }

  /** After the TargetIDList setter stored a list, the getter shows that list's path, or
      fails when the list has none. */
  lemma SetTargetIdListThenGet(img: Image, pidl: Pidl, shell: ShellNamespace)
    ensures TargetIdListOf(AfterSetTargetIdList(img, pidl), shell) ==
              match shell.pathFromIdList(pidl)
              case None => Err(Io)
              case Some(path) => Ok(Some(Fetched(Some(path), MAX_PATH)))
  {
    WithFlagSetsOnlyThatFlag(img.flags, HasLinkTargetIDList, true);
  }

  /** The TargetIDList setter leaves every other property as the getters show it. */
  lemma SetTargetIdListKeepsOthers(img: Image, pidl: Pidl)
    ensures forall q :: TextOf(AfterSetTargetIdList(img, pidl), q) == TextOf(img, q)
    ensures IconLocationOf(AfterSetTargetIdList(img, pidl)) == IconLocationOf(img)
    ensures HotKeyOf(AfterSetTargetIdList(img, pidl)) == HotKeyOf(img)
    ensures WindowStyleOf(AfterSetTargetIdList(img, pidl)) == WindowStyleOf(img)
  {
    forall q ensures TextOf(AfterSetTargetIdList(img, pidl), q) == TextOf(img, q) {
      BitsDisjoint(q, q);
      WithFlagKeepsOthers(img.flags, HasLinkTargetIDList, true, Bit(q));
    }
    WithFlagKeepsOthers(img.flags, HasLinkTargetIDList, true, HasIconLocation);
  }

  /** After the IconLocation setter the getter gives null back for null, and the
      location itself for a location whose path fits the buffer and holds no NUL. */
  lemma SetIconLocationThenGet(img: Image, value: Option<IconLocation>)
    requires value.Some? ==> ValidIconLocation(value.value)
    ensures value.None? ==> IconLocationOf(AfterSetIconLocation(img, value)) == Ok(None)
    ensures value.Some? && NUL !in value.value.path && |value.value.path| < MAX_PATH ==>
              IconLocationOf(AfterSetIconLocation(img, value)) == Ok(value)
  {
    WithFlagSetsOnlyThatFlag(img.flags, HasIconLocation, value.Some?);
  }

  /** The IconLocation setter leaves every other property as the getters show it. */
  lemma SetIconLocationKeepsOthers(img: Image, value: Option<IconLocation>, shell: ShellNamespace)
    ensures forall q :: TextOf(AfterSetIconLocation(img, value), q) == TextOf(img, q)
    ensures TargetIdListOf(AfterSetIconLocation(img, value), shell) == TargetIdListOf(img, shell)
    ensures HotKeyOf(AfterSetIconLocation(img, value)) == HotKeyOf(img)
    ensures WindowStyleOf(AfterSetIconLocation(img, value)) == WindowStyleOf(img)
  {
    forall q ensures TextOf(AfterSetIconLocation(img, value), q) == TextOf(img, q) {
      BitsDisjoint(q, q);
      WithFlagKeepsOthers(img.flags, HasIconLocation, value.Some?, Bit(q));
    }
    WithFlagKeepsOthers(img.flags, HasIconLocation, value.Some?, HasLinkTargetIDList);
  }

  /** With HasIconLocation set, the getter throws exactly when the path it fetches is
      empty, and then with ArgumentException, as `new IconLocation("", index)` does.
      A null or empty stored path, or one that starts with NUL, fetches as empty. */
  lemma EmptyIconPathFails(img: Image)
    requires HasFlag(img.flags, HasIconLocation)
    ensures IconLocationOf(img).Err? <==> Fetched(img.iconPath, MAX_PATH) == ""
    ensures IconLocationOf(img).Err? ==> IconLocationOf(img) == Err(Argument)
    ensures (img.iconPath.None? || |img.iconPath.value| == 0 || img.iconPath.value[0] == NUL)
            ==> IconLocationOf(img) == Err(Argument)
  {
    if img.iconPath.Some? && |img.iconPath.value| > 0 && img.iconPath.value[0] == NUL {
      var t := img.iconPath.value;
      var cut := if |t| < MAX_PATH then t else t[..MAX_PATH - 1];
      IndexOfUnique(cut, NUL, 0);
    }
  }

  /** The HotKey setter stores the raw data of a hotkey, and the getter gives the same
      keys back. */
  lemma SetHotKeyThenGet(img: Image, k: Keys, key: UShort)
    requires ValidKeys(k) && key == Pack(k.modifierKeys, k.virtualKey)
    ensures HotKeyOf(img.(hotkey := key)) == Ok(k)
  {
    PackRoundTrip(k);
  }

  /** The HotKey and WindowStyle setters change no string property and not the icon
      location. */
  lemma SetRegisterKeepsTexts(img: Image, key: UShort, cmd: Int32)
    ensures forall q :: TextOf(img.(hotkey := key, showCmd := cmd), q) == TextOf(img, q)
    ensures IconLocationOf(img.(hotkey := key, showCmd := cmd)) == IconLocationOf(img)
  {
    forall q ensures TextOf(img.(hotkey := key, showCmd := cmd), q) == TextOf(img, q) {
      assert Register(img.(hotkey := key, showCmd := cmd), q) == Register(img, q);
    }
  }

  /** Whatever the registers hold, a property whose flag is clear reads as null: the
      flags alone decide whether the object is asked for it. */
  lemma ClearFlagHides(img: Image, shell: ShellNamespace)
    ensures forall q :: !HasFlag(img.flags, Bit(q)) ==> TextOf(img, q) == None
    ensures !HasFlag(img.flags, HasLinkTargetIDList) ==> TargetIdListOf(img, shell) == Ok(None)
    ensures !HasFlag(img.flags, HasIconLocation) ==> IconLocationOf(img) == Ok(None)
  {
  }
}
