/** The COM shell-link object the library drives through IShellLink, IShellLinkDataList
    and IPersistFile (src/WindowsShortcut/Interop/Shell32.cs), as a store with one
    register per property. Its getters answer the way the Windows interfaces do, by
    filling a caller-sized character buffer; its setters write their own register and
    nothing else. Loading and saving a file are not modelled: the image a load reads,
    and whether a load or save succeeds, are parameters. A ghost log records every call,
    so that callers can state which calls they make. */
module LinkStores {
  import opened Errors
  import opened Text
  import opened Decimal
  import opened Enums

  /** An item identifier list, by the address COM hands out; 0 is the null list. */
  type Pidl = nat

  /** `Ole32.STGM_READ`. */
  const STGM_READ: int := 0x0000_0000

  /** `SLGP_RAWPATH`, the only GetPath option the library uses. */
  const SLGP_RAWPATH: int := 0x4

  /** The properties of a shell link, as the COM object holds them. */
  datatype Image = Image(
    path: Option<string>,
    idList: Pidl,
    arguments: Option<string>,
    workingDirectory: Option<string>,
    hotkey: UShort,
    showCmd: Int32,
    description: Option<string>,
    iconPath: Option<string>,
    iconIndex: Int32,
    flags: LinkFlags)

  /** What a newly created shell-link object holds: nothing set, no hotkey, the
      normal window state and no flags. */
  const Blank: Image := Image(None, 0, None, None, 0, Normal, None, None, 0, NoFlags)

  /** One call on the object. */
  datatype Call =
    | GetPath(cch: nat, slgp: int)
    | SetPath(path: Option<string>)
    | GetIDList
    | SetIDList(pidl: Pidl)
    | GetArguments(cch: nat)
    | SetArguments(arguments: Option<string>)
    | GetWorkingDirectory(cch: nat)
    | SetWorkingDirectory(directory: Option<string>)
    | GetHotkey
    | SetHotkey(hotkey: UShort)
    | GetShowCmd
    | SetShowCmd(showCmd: Int32)
    | GetDescription(cch: nat)
    | SetDescription(description: Option<string>)
    | GetIconLocation(cch: nat)
    | SetIconLocation(iconPath: Option<string>, iconIndex: Int32)
    | GetFlags
    | SetFlags(flags: LinkFlags)
    | Load(fileName: string, mode: int)
    | Save(fileName: string, remember: bool)
    | Release

  class LinkStore {
    var path: Option<string>
    var idList: Pidl
    var arguments: Option<string>
    var workingDirectory: Option<string>
    var hotkey: UShort
    var showCmd: Int32
    var description: Option<string>
    var iconPath: Option<string>
    var iconIndex: Int32
    var flags: LinkFlags
    /** Set by `Marshal.FinalReleaseComObject`; no call may follow it. */
    var released: bool
    ghost var log: seq<Call>

    function Snapshot(): Image
      reads this
    {
      Image(path, idList, arguments, workingDirectory, hotkey, showCmd, description,
            iconPath, iconIndex, flags)
    }

    /** `new Shell32.IShellLink()`. */
    constructor ()
      ensures Snapshot() == Blank && !released && log == []
    {
      path, idList, arguments, workingDirectory := None, 0, None, None;
      hotkey, showCmd, description := 0, Normal, None;
      iconPath, iconIndex, flags := None, 0, NoFlags;
      released, log := false, [];
    }

    method GetPath(cch: nat, slgp: int) returns (buffer: seq<char>)
      requires !released
      modifies this
      ensures buffer == FillBuffer(path, cch)
      ensures Snapshot() == old(Snapshot()) && !released && log == old(log) + [Call.GetPath(cch, slgp)]
    {
      buffer := FillBuffer(path, cch);
      log := log + [Call.GetPath(cch, slgp)];
    }

    method SetPath(value: Option<string>)
      requires !released
      modifies this
      ensures Snapshot() == old(Snapshot()).(path := value)
      ensures !released && log == old(log) + [Call.SetPath(value)]
    {
      path := value;
      log := log + [Call.SetPath(value)];
    }

    method GetIDList() returns (pidl: Pidl)
      requires !released
      modifies this
      ensures pidl == idList
      ensures Snapshot() == old(Snapshot()) && !released && log == old(log) + [Call.GetIDList]
    {
      pidl := idList;
      log := log + [Call.GetIDList];
    }

    method SetIDList(pidl: Pidl)
      requires !released
      modifies this
      ensures Snapshot() == old(Snapshot()).(idList := pidl)
      ensures !released && log == old(log) + [Call.SetIDList(pidl)]
    {
      idList := pidl;
      log := log + [Call.SetIDList(pidl)];
    }

    method GetArguments(cch: nat) returns (buffer: seq<char>)
      requires !released
      modifies this
      ensures buffer == FillBuffer(arguments, cch)
      ensures Snapshot() == old(Snapshot()) && !released && log == old(log) + [Call.GetArguments(cch)]
    {
      buffer := FillBuffer(arguments, cch);
      log := log + [Call.GetArguments(cch)];
    }

    method SetArguments(value: Option<string>)
      requires !released
      modifies this
      ensures Snapshot() == old(Snapshot()).(arguments := value)
      ensures !released && log == old(log) + [Call.SetArguments(value)]
    {
      arguments := value;
      log := log + [Call.SetArguments(value)];
    }

    method GetWorkingDirectory(cch: nat) returns (buffer: seq<char>)
      requires !released
      modifies this
      ensures buffer == FillBuffer(workingDirectory, cch)
      ensures Snapshot() == old(Snapshot()) && !released && log == old(log) + [Call.GetWorkingDirectory(cch)]
    {
      buffer := FillBuffer(workingDirectory, cch);
      log := log + [Call.GetWorkingDirectory(cch)];
    }

    method SetWorkingDirectory(value: Option<string>)
      requires !released
      modifies this
      ensures Snapshot() == old(Snapshot()).(workingDirectory := value)
      ensures !released && log == old(log) + [Call.SetWorkingDirectory(value)]
    {
      workingDirectory := value;
      log := log + [Call.SetWorkingDirectory(value)];
    }

    method GetHotkey() returns (key: UShort)
      requires !released
      modifies this
      ensures key == hotkey
      ensures Snapshot() == old(Snapshot()) && !released && log == old(log) + [Call.GetHotkey]
    {
      key := hotkey;
      log := log + [Call.GetHotkey];
    }

    method SetHotkey(key: UShort)
      requires !released
      modifies this
      ensures Snapshot() == old(Snapshot()).(hotkey := key)
      ensures !released && log == old(log) + [Call.SetHotkey(key)]
    {
      hotkey := key;
      log := log + [Call.SetHotkey(key)];
    }

    method GetShowCmd() returns (cmd: Int32)
      requires !released
      modifies this
      ensures cmd == showCmd
      ensures Snapshot() == old(Snapshot()) && !released && log == old(log) + [Call.GetShowCmd]
    {
      cmd := showCmd;
      log := log + [Call.GetShowCmd];
    }

    method SetShowCmd(cmd: Int32)
      requires !released
      modifies this
      ensures Snapshot() == old(Snapshot()).(showCmd := cmd)
      ensures !released && log == old(log) + [Call.SetShowCmd(cmd)]
    {
      showCmd := cmd;
      log := log + [Call.SetShowCmd(cmd)];
    }

    method GetDescription(cch: nat) returns (buffer: seq<char>)
      requires !released
      modifies this
      ensures buffer == FillBuffer(description, cch)
      ensures Snapshot() == old(Snapshot()) && !released && log == old(log) + [Call.GetDescription(cch)]
    {
      buffer := FillBuffer(description, cch);
      log := log + [Call.GetDescription(cch)];
    }

    method SetDescription(value: Option<string>)
      requires !released
      modifies this
      ensures Snapshot() == old(Snapshot()).(description := value)
      ensures !released && log == old(log) + [Call.SetDescription(value)]
    {
      description := value;
      log := log + [Call.SetDescription(value)];
    }

    method GetIconLocation(cch: nat) returns (buffer: seq<char>, index: Int32)
      requires !released
      modifies this
      ensures buffer == FillBuffer(iconPath, cch) && index == iconIndex
      ensures Snapshot() == old(Snapshot()) && !released && log == old(log) + [Call.GetIconLocation(cch)]
    {
      buffer, index := FillBuffer(iconPath, cch), iconIndex;
      log := log + [Call.GetIconLocation(cch)];
    }

    method SetIconLocation(value: Option<string>, index: Int32)
      requires !released
      modifies this
      ensures Snapshot() == old(Snapshot()).(iconPath := value, iconIndex := index)
      ensures !released && log == old(log) + [Call.SetIconLocation(value, index)]
    {
      iconPath, iconIndex := value, index;
      log := log + [Call.SetIconLocation(value, index)];
    }

    method GetFlags() returns (f: LinkFlags)
      requires !released
      modifies this
      ensures f == flags
      ensures Snapshot() == old(Snapshot()) && !released && log == old(log) + [Call.GetFlags]
    {
      f := flags;
      log := log + [Call.GetFlags];
    }

    method SetFlags(f: LinkFlags)
      requires !released
      modifies this
      ensures Snapshot() == old(Snapshot()).(flags := f)
      ensures !released && log == old(log) + [Call.SetFlags(f)]
    {
      flags := f;
      log := log + [Call.SetFlags(f)];
    }

    /** `IPersistFile.Load`: `image` is what reading the file gives, or the error it
        raises; a failed load leaves the registers as they were. */
    method Load(fileName: string, mode: int, image: Result<Image>) returns (o: Outcome)
      requires !released
      modifies this
      ensures o == if image.Ok? then Done else Failed(image.error)
      ensures Snapshot() == if image.Ok? then image.value else old(Snapshot())
      ensures !released && log == old(log) + [Call.Load(fileName, mode)]
    {
      if image.Ok? {
        var img := image.value;
        path, idList, arguments, workingDirectory := img.path, img.idList, img.arguments, img.workingDirectory;
        hotkey, showCmd, description := img.hotkey, img.showCmd, img.description;
        iconPath, iconIndex, flags := img.iconPath, img.iconIndex, img.flags;
        o := Done;
      } else {
        o := Failed(image.error);
      }
      log := log + [Call.Load(fileName, mode)];
    }

    /** `IPersistFile.Save`: writing the file either succeeds or raises `outcome`'s
        error. The object may rewrite any register while saving, whether or not the
        save succeeds; `after` is what the registers hold afterwards. */
    method Save(fileName: string, remember: bool, outcome: Outcome, after: Image) returns (o: Outcome)
      requires !released
      modifies this
      ensures o == outcome
      ensures Snapshot() == after && !released && log == old(log) + [Call.Save(fileName, remember)]
    {
      path, idList, arguments, workingDirectory := after.path, after.idList, after.arguments, after.workingDirectory;
      hotkey, showCmd, description := after.hotkey, after.showCmd, after.description;
      iconPath, iconIndex, flags := after.iconPath, after.iconIndex, after.flags;
      o := outcome;
      log := log + [Call.Save(fileName, remember)];
    }

    /** `Marshal.FinalReleaseComObject`. */
    method Release()
      requires !released
      modifies this
      ensures Snapshot() == old(Snapshot()) && released && log == old(log) + [Call.Release]
    {
      released := true;
      log := log + [Call.Release];
    }
  }
}
