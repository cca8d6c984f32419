/** ShellLink (src/WindowsShortcut/ShellLink.cs): a shell link file opened through the
    shell-link object. Every property getter first reads the link's flags. It asks the
    object for a property only when the property's flag is set and nothing is cached yet,
    and it keeps what it gets. Every setter writes through to the object and forgets the
    caches it invalidates. */
module ShellLinks {
  import opened Errors
  import opened Text
  import opened Decimal
  import opened Enums
  import opened HotKeys
  import opened IconLocations
  import opened LinkStores
  import opened LinkViews

  /** `_flags == -1`: the flags are not cached. As a bit pattern, -1 is all ones. */
  const UnfetchedFlags: LinkFlags := 0xFFFF_FFFF

  /** `_hotKey == -1`: the hotkey is not cached. */
  const UnfetchedHotKey: int := -1

  /** `_showCommand == 0`: the show command is not cached. */
  const UnfetchedShowCommand: int := 0

  /** The cache fields of a ShellLink; a null string means not cached. */
  datatype Caches = Caches(
    target: Option<string>,
    targetIdList: Option<string>,
    arguments: Option<string>,
    workingDirectory: Option<string>,
    hotKey: int,
    showCommand: int,
    description: Option<string>,
    iconLocationPath: Option<string>,
    iconLocationIndex: Int32,
    flags: LinkFlags)

  /** The caches of a link the constructor has just made. */
  const Unfetched: Caches :=
    Caches(None, None, None, None, UnfetchedHotKey, UnfetchedShowCommand, None, None, 0, UnfetchedFlags)

  function TextCache(c: Caches, p: TextProperty): Option<string>
  {
    match p
    case Target => c.target
    case Arguments => c.arguments
    case WorkingDirectory => c.workingDirectory
    case Description => c.description
  }

  function WithTextCache(c: Caches, p: TextProperty, value: Option<string>): (r: Caches)
    ensures TextCache(r, p) == value
    ensures forall q :: q != p ==> TextCache(r, q) == TextCache(c, q)
  {
    match p
    case Target => c.(target := value)
    case Arguments => c.(arguments := value)
    case WorkingDirectory => c.(workingDirectory := value)
    case Description => c.(description := value)
  }

  /** `Refresh()`: every cache is emptied except the icon index, which only ever goes
      with a cached icon path. */
  function Refreshed(c: Caches): (r: Caches)
    ensures r == Unfetched.(iconLocationIndex := c.iconLocationIndex)
  {
    Caches(None, None, None, None, UnfetchedHotKey, UnfetchedShowCommand, None, None, c.iconLocationIndex, UnfetchedFlags)
  }

  /** A string cache is empty or holds `value`. */
  predicate TextAgrees(cache: Option<string>, value: string)
  {
    cache.None? || cache.value == value
  }

  /** A number cache holds `unfetched` or `value`. */
  predicate NumberAgrees(cache: int, unfetched: int, value: int)
  {
    cache == unfetched || cache == value
  }

  /** The icon caches: no path, or the path and index the getter would read. */
  predicate IconAgrees(path: Option<string>, index: Int32, iconPath: Option<string>, iconIndex: Int32)
  {
    path.None? || (path.value == Fetched(iconPath, MAX_PATH) && index == iconIndex)
  }

  /** Each cache that holds something holds what the getter would read from `img` now. */
  ghost predicate Coherent(c: Caches, img: Image, shell: ShellNamespace)
  {
    TextAgrees(c.target, Fetched(img.path, MAX_PATH))
    && TextAgrees(c.arguments, Fetched(img.arguments, INFOTIPSIZE))
    && TextAgrees(c.workingDirectory, Fetched(img.workingDirectory, MAX_PATH))
    && TextAgrees(c.description, Fetched(img.description, INFOTIPSIZE))
    && (c.targetIdList.None? || c.targetIdList == ListedPath(shell, img.idList))
    && NumberAgrees(c.hotKey, UnfetchedHotKey, img.hotkey)
    && NumberAgrees(c.showCommand, UnfetchedShowCommand, img.showCmd)
    && IconAgrees(c.iconLocationPath, c.iconLocationIndex, img.iconPath, img.iconIndex)
    && (c.flags == UnfetchedFlags || c.flags == img.flags)
  }

  /** Emptied caches agree with every image, which is why Reload and Save may load a new
      one and then refresh. */
  lemma RefreshedCoherent(c: Caches, img: Image, shell: ShellNamespace)
    ensures Coherent(Refreshed(c), img, shell)
    ensures Refreshed(Refreshed(c)) == Refreshed(c)
  {
  }

  /** Writing the flags register keeps every cache but the flags cache in agreement. */
  lemma CoherentAfterFlags(c: Caches, img: Image, shell: ShellNamespace, f: LinkFlags)
    requires Coherent(c, img, shell)
    ensures Coherent(c.(flags := UnfetchedFlags), img.(flags := f), shell)
  {
  }

  /** Caching what the object gives for a string property, or forgetting it, keeps the
      caches in agreement. */
  lemma CoherentWithText(c: Caches, img: Image, shell: ShellNamespace, p: TextProperty, v: Option<string>)
    requires Coherent(c, img, shell)
    requires v.None? || v == Some(Fetched(Register(img, p), BufferSize(p)))
    ensures Coherent(WithTextCache(c, p, v), img, shell)
  {
  }

  /** Writing a string register keeps the caches in agreement once that property's
      cache is forgotten. */
  lemma CoherentAfterSetText(c: Caches, img: Image, shell: ShellNamespace, p: TextProperty, value: Option<string>)
    requires Coherent(c, img, shell)
    ensures Coherent(WithTextCache(c, p, None), WithRegister(img, p, value), shell)
  {
  }

  /** Caching the path of the stored identifier list keeps the caches in agreement. */
  lemma CoherentWithIdList(c: Caches, img: Image, shell: ShellNamespace)
    requires Coherent(c, img, shell)
    ensures Coherent(c.(targetIdList := ListedPath(shell, img.idList)), img, shell)
  {
  }

  /** Caching the stored hotkey keeps the caches in agreement. */
  lemma CoherentWithHotKey(c: Caches, img: Image, shell: ShellNamespace)
    requires Coherent(c, img, shell)
    ensures Coherent(c.(hotKey := img.hotkey), img, shell)
  {
  }

  /** Caching the stored show command keeps the caches in agreement. */
  lemma CoherentWithShowCommand(c: Caches, img: Image, shell: ShellNamespace)
    requires Coherent(c, img, shell)
    ensures Coherent(c.(showCommand := img.showCmd), img, shell)
  {
  }

  /** Caching the stored icon location keeps the caches in agreement. */
  lemma CoherentWithIcon(c: Caches, img: Image, shell: ShellNamespace)
    requires Coherent(c, img, shell)
    ensures Coherent(c.(iconLocationPath := Some(Fetched(img.iconPath, MAX_PATH)), iconLocationIndex := img.iconIndex), img, shell)
  {
  }

  /** Writing the identifier list keeps the caches in agreement once its cache is
      forgotten. */
  lemma CoherentAfterSetIdList(c: Caches, img: Image, shell: ShellNamespace, pidl: Pidl)
    requires Coherent(c, img, shell)
    ensures Coherent(c.(targetIdList := None), img.(idList := pidl), shell)
  {
  }

  /** Writing the hotkey keeps the caches in agreement once its cache is forgotten. */
  lemma CoherentAfterSetHotKey(c: Caches, img: Image, shell: ShellNamespace, key: UShort)
    requires Coherent(c, img, shell)
    ensures Coherent(c.(hotKey := UnfetchedHotKey), img.(hotkey := key), shell)
  {
  }

  /** Writing the show command keeps the caches in agreement once its cache is
      forgotten. */
  lemma CoherentAfterSetShowCommand(c: Caches, img: Image, shell: ShellNamespace, cmd: Int32)
    requires Coherent(c, img, shell)
    ensures Coherent(c.(showCommand := UnfetchedShowCommand), img.(showCmd := cmd), shell)
  {
  }

  /** Writing the icon location keeps the caches in agreement once the cached path is
      forgotten. */
  lemma CoherentAfterSetIcon(c: Caches, img: Image, shell: ShellNamespace, path: Option<string>, index: Int32)
    requires Coherent(c, img, shell)
    ensures Coherent(c.(iconLocationPath := None), img.(iconPath := path, iconIndex := index), shell)
  {
  }

  /** A cached string agrees with what the object would give. The getter therefore shows
      the same value from its cache as it would from a new read. */
  lemma CachedTextAgrees(c: Caches, img: Image, shell: ShellNamespace, p: TextProperty)
    requires Coherent(c, img, shell) && TextCache(c, p).Some? && HasFlag(img.flags, Bit(p))
    ensures TextCache(c, p) == TextOf(img, p)
  {
  }

  /** The calls a flags read makes: none while the flags are cached. */
  ghost function FlagsRead(cached: LinkFlags): seq<Call>
  {
    if cached == UnfetchedFlags then [Call.GetFlags] else []
  }

  /** The call a string getter makes to fill its cache, when `read`. */
  ghost function TextRead(p: TextProperty, read: bool): seq<Call>
  {
    if !read then []
    else
      match p
      case Target => [Call.GetPath(MAX_PATH, SLGP_RAWPATH)]
      case Arguments => [Call.GetArguments(INFOTIPSIZE)]
      case WorkingDirectory => [Call.GetWorkingDirectory(MAX_PATH)]
      case Description => [Call.GetDescription(INFOTIPSIZE)]
  }

  /** The call the IconLocation setter makes: null is written as no path and index 0. */
  ghost function IconWrite(value: Option<IconLocation>): Call
  {
    match value
    case None => Call.SetIconLocation(None, 0)
    case Some(l) => Call.SetIconLocation(Some(l.path), l.index)
  }

  /** The call a string setter makes to write its register. */
  ghost function TextWrite(p: TextProperty, value: Option<string>): Call
  {
    match p
    case Target => Call.SetPath(value)
    case Arguments => Call.SetArguments(value)
    case WorkingDirectory => Call.SetWorkingDirectory(value)
    case Description => Call.SetDescription(value)
  }

  class ShellLink {
    /** `Name`: the full path of the link file. */
    const name: string
    const shell: ShellNamespace
    /** The shell-link object this link was created with. */
    ghost const handle: LinkStore
    /** `_shellLink`; null once disposed. */
    var store: LinkStore?

    var target: Option<string>
    var targetIdList: Option<string>
    var arguments: Option<string>
    var workingDirectory: Option<string>
    var hotKey: int
    var showCommand: int
    var description: Option<string>
    var iconLocationPath: Option<string>
    var iconLocationIndex: Int32
    var flags: LinkFlags

    function Cached(): Caches
      reads this
    {
      Caches(target, targetIdList, arguments, workingDirectory, hotKey, showCommand, description,
             iconLocationPath, iconLocationIndex, flags)
    }

    /** The link holds its own object until it is disposed, and the object is released
        exactly when the link is disposed. */
    ghost predicate Attached()
      reads this, handle
    {
      (store == null || store == handle) && (store == null <==> handle.released)
    }

    ghost predicate Valid()
      reads this, handle
    {
      Attached() && (store != null ==> Coherent(Cached(), handle.Snapshot(), shell))
    }

    /** `new ShellLink(path)`: a new object, nothing cached. */
    constructor (path: string, shell: ShellNamespace)
      ensures Valid() && fresh(handle) && store == handle
      ensures name == path && this.shell == shell
      ensures Cached() == Unfetched && handle.Snapshot() == Blank && handle.log == []
    {
      var s := new LinkStore();
      name, this.shell, handle, store := path, shell, s, s;
      target, targetIdList, arguments, workingDirectory := None, None, None, None;
      hotKey, showCommand, description := UnfetchedHotKey, UnfetchedShowCommand, None;
      iconLocationPath, iconLocationIndex, flags := None, 0, UnfetchedFlags;
      new;
      RefreshedCoherent(Unfetched, Blank, shell);
    }

    /** `ThrowIfDisposed()`. */
    method ThrowIfDisposed() returns (o: Outcome)
      ensures o.Failed? <==> store == null
      ensures o.Failed? ==> o.error == ObjectDisposed
    {
      o := if store == null then Failed(ObjectDisposed) else Done;
    }

    /** The `LinkFlags` getter once the link is known not to be disposed. */
    method FetchFlags() returns (f: LinkFlags)
      requires Valid() && store != null
      modifies this, handle
      ensures Valid() && store == old(store)
      ensures f == handle.flags
      ensures handle.Snapshot() == old(handle.Snapshot()) && handle.log == old(handle.log) + FlagsRead(old(flags))
      ensures Cached() == old(Cached()).(flags := f)
    {
      if flags == UnfetchedFlags {
        flags := store.GetFlags();
      }
      f := flags;
    }

    /** The `LinkFlags` setter once the link is known not to be disposed. */
    method StoreFlags(f: LinkFlags)
      requires Valid() && store != null
      modifies this, handle
      ensures Valid() && store == old(store)
      ensures handle.Snapshot() == old(handle.Snapshot()).(flags := f)
      ensures handle.log == old(handle.log) + [Call.SetFlags(f)]
      ensures Cached() == old(Cached()).(flags := UnfetchedFlags)
    {
      store.SetFlags(f);
      flags := UnfetchedFlags;
      CoherentAfterFlags(old(Cached()), old(handle.Snapshot()), shell, f);
    }

    /** The `LinkFlags` getter. */
    method GetLinkFlags() returns (r: Result<LinkFlags>)
      requires Valid()
      modifies this, handle
      ensures Valid() && store == old(store) && handle.Snapshot() == old(handle.Snapshot())
      ensures old(store) == null ==> r == Err(ObjectDisposed) && unchanged(this) && unchanged(handle)
      ensures old(store) != null ==> r == Ok(handle.flags)
      ensures old(store) != null ==> handle.log == old(handle.log) + FlagsRead(old(flags))
      ensures old(store) != null ==> Cached() == old(Cached()).(flags := handle.flags)
    {
      if store == null {
        return Err(ObjectDisposed);
      }
      var f := FetchFlags();
      r := Ok(f);
    }

    /** The `LinkFlags` setter. */
    method SetLinkFlags(value: LinkFlags) returns (o: Outcome)
      requires Valid()
      modifies this, handle
      ensures Valid() && store == old(store)
      ensures old(store) == null ==> o == Failed(ObjectDisposed) && unchanged(this) && unchanged(handle)
      ensures old(store) != null ==> o == Done
      ensures old(store) != null ==> handle.Snapshot() == old(handle.Snapshot()).(flags := value)
      ensures old(store) != null ==> handle.log == old(handle.log) + [Call.SetFlags(value)]
      ensures old(store) != null ==> Cached() == old(Cached()).(flags := UnfetchedFlags)
    {
      if store == null {
        return Failed(ObjectDisposed);
      }
      StoreFlags(value);
      o := Done;
    }

    /** What a string getter did, from the state before it to the state after it: it
        fails when the link is disposed. Otherwise it returns the property as the object
        shows it. It reads the flags unless they are cached. It reads the property only when
        the flag is set and nothing is cached, and it keeps what it read. */
    twostate predicate GotText(p: TextProperty, new r: Result<Option<string>>)
      reads this, handle
    {
      Valid() && store == old(store) && handle.Snapshot() == old(handle.Snapshot())
      && (old(store) == null ==> r == Err(ObjectDisposed) && unchanged(this) && unchanged(handle))
      && (old(store) != null ==>
            r == Ok(TextOf(handle.Snapshot(), p))
            && handle.log == old(handle.log) + FlagsRead(old(flags))
                             + TextRead(p, HasFlag(handle.flags, Bit(p)) && old(TextCache(Cached(), p)).None?)
            && Cached() == WithTextCache(old(Cached()), p,
                             if HasFlag(handle.flags, Bit(p)) then TextOf(handle.Snapshot(), p)
                             else old(TextCache(Cached(), p))).(flags := handle.flags))
    }

    /** The `Target` getter. */
    method GetTarget() returns (r: Result<Option<string>>)
      requires Valid()
      modifies this, handle
      ensures GotText(Target, r)
    {
      if store == null {
        return Err(ObjectDisposed);
      }
      var text := FetchText(Target);
      r := Ok(text);
    }

    /** The `Arguments` getter. */
    method GetArguments() returns (r: Result<Option<string>>)
      requires Valid()
      modifies this, handle
      ensures GotText(Arguments, r)
    {
      if store == null {
        return Err(ObjectDisposed);
      }
      var text := FetchText(Arguments);
      r := Ok(text);
    }

    /** The `WorkingDirectory` getter. */
    method GetWorkingDirectory() returns (r: Result<Option<string>>)
      requires Valid()
      modifies this, handle
      ensures GotText(WorkingDirectory, r)
    {
      if store == null {
        return Err(ObjectDisposed);
      }
      var text := FetchText(WorkingDirectory);
      r := Ok(text);
    }

    /** The `Description` getter. */
    method GetDescription() returns (r: Result<Option<string>>)
      requires Valid()
      modifies this, handle
      ensures GotText(Description, r)
    {
      if store == null {
        return Err(ObjectDisposed);
      }
      var text := FetchText(Description);
      r := Ok(text);
    }

    /** The getter of string property `p`. */
    method GetText(p: TextProperty) returns (r: Result<Option<string>>)
      requires Valid()
      modifies this, handle
      ensures GotText(p, r)
    {
      match p {
        case Target => r := GetTarget();
        case Arguments => r := GetArguments();
        case WorkingDirectory => r := GetWorkingDirectory();
        case Description => r := GetDescription();
      }
    }

    /** Two reads of a string property in a row give the same value, and the second one
        calls the object not at all: the getters memoize. Flags that are all ones are the
        exception, because -1 is also the marker for flags not cached. */
    method GetTextTwice(p: TextProperty) returns (first: Result<Option<string>>, second: Result<Option<string>>)
      requires Valid() && store != null && handle.flags != UnfetchedFlags
      modifies this, handle
      ensures Valid() && handle.Snapshot() == old(handle.Snapshot())
      ensures first == second && first == Ok(TextOf(handle.Snapshot(), p))
      ensures handle.log == old(handle.log) + FlagsRead(old(flags))
                            + TextRead(p, HasFlag(handle.flags, Bit(p)) && old(TextCache(Cached(), p)).None?)
    {
      first := GetText(p);
      ghost var log := handle.log;
      second := GetText(p);
      assert handle.log == log;
    }

    /** The shared body of the string getters, once the link is known not to be
        disposed. */
    method FetchText(p: TextProperty) returns (text: Option<string>)
      requires Valid() && store != null
      modifies this, handle
      ensures Valid() && store == old(store) && handle.Snapshot() == old(handle.Snapshot())
      ensures text == TextOf(handle.Snapshot(), p)
      ensures handle.log == old(handle.log) + FlagsRead(old(flags))
                            + TextRead(p, HasFlag(handle.flags, Bit(p)) && old(TextCache(Cached(), p)).None?)
      ensures Cached() == WithTextCache(old(Cached()), p,
                            if HasFlag(handle.flags, Bit(p)) then text else old(TextCache(Cached(), p))).(flags := handle.flags)
    {
      var f := FetchFlags();
      if !HasFlag(f, Bit(p)) {
        return None;
      }
      if TextCache(Cached(), p).None? {
        FillText(p);
      }
      text := TextCache(Cached(), p);
    }

    /** Reads a string property from the object into its empty cache. */
    method FillText(p: TextProperty)
      requires Valid() && store != null && TextCache(Cached(), p).None?
      modifies this, handle
      ensures Valid() && store == old(store) && handle.Snapshot() == old(handle.Snapshot())
      ensures handle.log == old(handle.log) + TextRead(p, true)
      ensures Cached() == WithTextCache(old(Cached()), p, Some(Fetched(Register(handle.Snapshot(), p), BufferSize(p))))
    {
      var buffer := ReadText(p);
      FetchedIsTrimmed(Register(handle.Snapshot(), p), BufferSize(p));
      var text := TrimAtNul(buffer).value;
      ghost var img, cached := handle.Snapshot(), WithTextCache(Cached(), p, Some(text));
      CoherentWithText(Cached(), img, shell, p, Some(text));
      PutText(p, Some(text));
      assert Cached() == cached && handle.Snapshot() == img;
    }

    /** Asks the object for a string property, through a buffer of the getter's size. */
    method ReadText(p: TextProperty) returns (buffer: seq<char>)
      requires Valid() && store != null
      modifies handle
      ensures Valid() && buffer == FillBuffer(Register(handle.Snapshot(), p), BufferSize(p))
      ensures handle.Snapshot() == old(handle.Snapshot()) && handle.log == old(handle.log) + TextRead(p, true)
    {
      match p {
        case Target => buffer := store.GetPath(MAX_PATH, SLGP_RAWPATH);
        case Arguments => buffer := store.GetArguments(INFOTIPSIZE);
        case WorkingDirectory => buffer := store.GetWorkingDirectory(MAX_PATH);
        case Description => buffer := store.GetDescription(INFOTIPSIZE);
      }
    }

    /** Writes the cache of one string property. */
    method PutText(p: TextProperty, v: Option<string>)
      modifies this
      ensures store == old(store) && Cached() == WithTextCache(old(Cached()), p, v)
    {
      match p {
        case Target => target := v;
        case Arguments => arguments := v;
        case WorkingDirectory => workingDirectory := v;
        case Description => description := v;
      }
    }

    /** What a string setter did: it fails when the link is disposed. Otherwise it writes
        the register, forgets that property's cache, and rewrites the flags so that the
        property's flag is set exactly when the value is not empty. */
    twostate predicate WroteText(p: TextProperty, value: Option<string>, new o: Outcome)
      reads this, handle
    {
      Valid() && store == old(store)
      && (old(store) == null ==> o == Failed(ObjectDisposed) && unchanged(this) && unchanged(handle))
      && (old(store) != null ==>
            o == Done
            && handle.Snapshot() == AfterSetText(old(handle.Snapshot()), p, value)
            && handle.log == old(handle.log) + [TextWrite(p, value)] + FlagsRead(old(flags))
                             + [Call.SetFlags(AfterSetText(old(handle.Snapshot()), p, value).flags)]
            && Cached() == WithTextCache(old(Cached()), p, None).(flags := UnfetchedFlags))
    }

    /** The `Target` setter. */
    method SetTarget(value: Option<string>) returns (o: Outcome)
      requires Valid()
      modifies this, handle
      ensures WroteText(Target, value, o)
    {
      o := WriteText(Target, value);
    }

    /** The `Arguments` setter. */
    method SetArguments(value: Option<string>) returns (o: Outcome)
      requires Valid()
      modifies this, handle
      ensures WroteText(Arguments, value, o)
    {
      o := WriteText(Arguments, value);
    }

    /** The `WorkingDirectory` setter. */
    method SetWorkingDirectory(value: Option<string>) returns (o: Outcome)
      requires Valid()
      modifies this, handle
      ensures WroteText(WorkingDirectory, value, o)
    {
      o := WriteText(WorkingDirectory, value);
    }

    /** The `Description` setter. */
    method SetDescription(value: Option<string>) returns (o: Outcome)
      requires Valid()
      modifies this, handle
      ensures WroteText(Description, value, o)
    {
      o := WriteText(Description, value);
    }

    /** The shared body of the string setters. */
    method WriteText(p: TextProperty, value: Option<string>) returns (o: Outcome)
      requires Valid()
      modifies this, handle
      ensures WroteText(p, value, o)
    {
      if store == null {
        return Failed(ObjectDisposed);
      }
      StoreText(p, value);
      var f := FetchFlags();
      StoreFlags(WithFlag(f, Bit(p), NonEmpty(value)));
      o := Done;
    }

    /** Writes a string register and forgets that property's cache. */
    method StoreText(p: TextProperty, value: Option<string>)
      requires Valid() && store != null
      modifies this, handle
      ensures Valid() && store == old(store)
      ensures handle.Snapshot() == WithRegister(old(handle.Snapshot()), p, value)
      ensures handle.log == old(handle.log) + [TextWrite(p, value)]
      ensures Cached() == WithTextCache(old(Cached()), p, None)
    {
      CoherentAfterSetText(Cached(), handle.Snapshot(), shell, p, value);
      match p {
        case Target => store.SetPath(value);
        case Arguments => store.SetArguments(value);
        case WorkingDirectory => store.SetWorkingDirectory(value);
        case Description => store.SetDescription(value);
      }
      PutText(p, None);
    }

    /** The `TargetIDList` getter: the path of the stored identifier list, read through
        `SHGetPathFromIDListW`. */
    method GetTargetIdList() returns (r: Result<Option<string>>)
      requires Valid()
      modifies this, handle
      ensures Valid() && store == old(store) && handle.Snapshot() == old(handle.Snapshot())
      ensures old(store) == null ==> r == Err(ObjectDisposed) && unchanged(this) && unchanged(handle)
      ensures old(store) != null ==> r == TargetIdListOf(handle.Snapshot(), shell)
      ensures old(store) != null ==>
                handle.log == old(handle.log) + FlagsRead(old(flags))
                              + (if HasFlag(handle.flags, HasLinkTargetIDList) && old(targetIdList).None?
                                 then [Call.GetIDList] else [])
      ensures old(store) != null ==>
                Cached() == old(Cached()).(flags := handle.flags,
                              targetIdList := if r.Ok? && r.value.Some? then r.value else old(targetIdList))
    {
      if store == null {
        return Err(ObjectDisposed);
      }
      r := FetchTargetIdList();
    }

    /** The `TargetIDList` getter once the link is known not to be disposed. */
    method FetchTargetIdList() returns (r: Result<Option<string>>)
      requires Valid() && store != null
      modifies this, handle
      ensures Valid() && store == old(store) && handle.Snapshot() == old(handle.Snapshot())
      ensures r == TargetIdListOf(handle.Snapshot(), shell)
      ensures handle.log == old(handle.log) + FlagsRead(old(flags))
                            + (if HasFlag(handle.flags, HasLinkTargetIDList) && old(targetIdList).None?
                               then [Call.GetIDList] else [])
      ensures Cached() == old(Cached()).(flags := handle.flags,
                            targetIdList := if r.Ok? && r.value.Some? then r.value else old(targetIdList))
    {
      var f := FetchFlags();
      if !HasFlag(f, HasLinkTargetIDList) {
        return Ok(None);
      }
      if targetIdList.None? {
        FillTargetIdList();
        if targetIdList.None? {
          return Err(Io);
        }
      }
      r := Ok(targetIdList);
    }

    /** Reads the stored identifier list and caches its path, if it has one. */
    method FillTargetIdList()
      requires Valid() && store != null && targetIdList.None?
      modifies this, handle
      ensures Valid() && store == old(store) && handle.Snapshot() == old(handle.Snapshot())
      ensures handle.log == old(handle.log) + [Call.GetIDList]
      ensures Cached() == old(Cached()).(targetIdList := ListedPath(shell, handle.idList))
    {
      var pidl := store.GetIDList();
      var path := ReadListedPath(pidl);
      CoherentWithIdList(Cached(), handle.Snapshot(), shell);
      targetIdList := path;
    }

    /** `SHGetPathFromIDListW` into a buffer of MAX_PATH characters, trimmed at its NUL;
        None when the list has no file-system path. */
    method ReadListedPath(pidl: Pidl) returns (path: Option<string>)
      ensures path == ListedPath(shell, pidl)
    {
      var p := shell.pathFromIdList(pidl);
      if p.None? {
        return None;
      }
      var buffer := FillBuffer(p, MAX_PATH);
      FetchedIsTrimmed(p, MAX_PATH);
      path := Some(TrimAtNul(buffer).value);
    }

    /** The `TargetIDList` setter: null and empty values are rejected, and so is a name
        `SHParseDisplayName` cannot parse; otherwise the parsed list is stored and
        HasLinkTargetIDList is set. */
    method SetTargetIdList(value: Option<string>) returns (o: Outcome)
      requires Valid()
      modifies this, handle
      ensures Valid() && store == old(store)
      ensures o.Failed? ==> unchanged(this) && unchanged(handle)
      ensures old(store) == null ==> o == Failed(ObjectDisposed)
      ensures old(store) != null && value.None? ==> o == Failed(ArgumentNull)
      ensures old(store) != null && value == Some("") ==> o == Failed(Argument)
      ensures old(store) != null && NonEmpty(value) && shell.parseDisplayName(value.value).Err? ==>
                o == Failed(shell.parseDisplayName(value.value).error)
      ensures old(store) != null && NonEmpty(value) && shell.parseDisplayName(value.value).Ok? ==>
                var pidl := shell.parseDisplayName(value.value).value;
                o == Done
                && handle.Snapshot() == AfterSetTargetIdList(old(handle.Snapshot()), pidl)
                && handle.log == old(handle.log) + [Call.SetIDList(pidl)] + FlagsRead(old(flags))
                                 + [Call.SetFlags(AfterSetTargetIdList(old(handle.Snapshot()), pidl).flags)]
                && Cached() == old(Cached()).(targetIdList := None, flags := UnfetchedFlags)
    {
      if store == null {
        return Failed(ObjectDisposed);
      }
      if value.None? {
        return Failed(ArgumentNull);
      }
      if |value.value| == 0 {
        return Failed(Argument);
      }
      var pidl := shell.parseDisplayName(value.value);
      if pidl.Err? {
        return Failed(pidl.error);
      }
      CoherentAfterSetIdList(Cached(), handle.Snapshot(), shell, pidl.value);
      store.SetIDList(pidl.value);
      targetIdList := None;
      var f := FetchFlags();
      StoreFlags(WithFlag(f, HasLinkTargetIDList, true));
      o := Done;
    }

    /** The `HotKey` getter: `new HotKey(key)` of the stored key, which throws for a key
        that is not a valid hotkey. */
    method GetHotKey() returns (r: Result<HotKey>)
      requires Valid()
      modifies this, handle
      ensures Valid() && store == old(store) && handle.Snapshot() == old(handle.Snapshot())
      ensures old(store) == null ==> r == Err(ObjectDisposed) && unchanged(this) && unchanged(handle)
      ensures old(store) != null ==> (r.Ok? <==> HotKeyOf(handle.Snapshot()).Ok?)
      ensures old(store) != null && r.Err? ==> r.error == HotKeyOf(handle.Snapshot()).error
      ensures r.Ok? ==>
                fresh(r.value) && r.value.Valid() && r.value.rawData == handle.hotkey
                && Keys(r.value.modifierKeys, r.value.virtualKey) == HotKeyOf(handle.Snapshot()).value
      ensures old(store) != null ==>
                handle.log == old(handle.log) + (if old(hotKey) == UnfetchedHotKey then [Call.GetHotkey] else [])
                && Cached() == old(Cached()).(hotKey := handle.hotkey)
    {
      if store == null {
        return Err(ObjectDisposed);
      }
      if hotKey == UnfetchedHotKey {
        var key := store.GetHotkey();
        CoherentWithHotKey(Cached(), handle.Snapshot(), shell);
        hotKey := key;
      }
      r := HotKey.FromKey(hotKey);
    }

    /** The `HotKey` setter: stores the hotkey's raw data. */
    method SetHotKey(value: HotKey) returns (o: Outcome)
      requires Valid() && value.Valid()
      modifies this, handle
      ensures Valid() && store == old(store)
      ensures old(store) == null ==> o == Failed(ObjectDisposed) && unchanged(this) && unchanged(handle)
      ensures old(store) != null ==>
                o == Done
                && handle.hotkey == value.rawData
                && handle.Snapshot() == old(handle.Snapshot()).(hotkey := handle.hotkey)
                && handle.log == old(handle.log) + [Call.SetHotkey(handle.hotkey)]
                && Cached() == old(Cached()).(hotKey := UnfetchedHotKey)
      ensures old(store) != null ==> HotKeyOf(handle.Snapshot()) == Ok(Keys(value.modifierKeys, value.virtualKey))
    {
      if store == null {
        return Failed(ObjectDisposed);
      }
      PackRoundTrip(Keys(value.modifierKeys, value.virtualKey));
      var key: UShort := value.rawData;
      CoherentAfterSetHotKey(Cached(), handle.Snapshot(), shell, key);
      store.SetHotkey(key);
      hotKey := UnfetchedHotKey;
      SetHotKeyThenGet(handle.Snapshot(), Keys(value.modifierKeys, value.virtualKey), key);
      o := Done;
    }

    /** The `WindowStyle` getter: the stored show command, unchecked. */
    method GetWindowStyle() returns (r: Result<Int32>)
      requires Valid()
      modifies this, handle
      ensures Valid() && store == old(store) && handle.Snapshot() == old(handle.Snapshot())
      ensures old(store) == null ==> r == Err(ObjectDisposed) && unchanged(this) && unchanged(handle)
      ensures old(store) != null ==> r == Ok(WindowStyleOf(handle.Snapshot()))
      ensures old(store) != null ==>
                handle.log == old(handle.log)
                              + (if old(showCommand) == UnfetchedShowCommand then [Call.GetShowCmd] else [])
                && Cached() == old(Cached()).(showCommand := handle.showCmd)
    {
      if store == null {
        return Err(ObjectDisposed);
      }
      if showCommand == UnfetchedShowCommand {
        var cmd := store.GetShowCmd();
        CoherentWithShowCommand(Cached(), handle.Snapshot(), shell);
        showCommand := cmd;
      }
      assert showCommand == handle.showCmd;
      r := Ok(showCommand);
    }

    /** The `WindowStyle` setter: a value that is not a WindowStyle is rejected before
        anything is written. */
    method SetWindowStyle(value: Int32) returns (o: Outcome)
      requires Valid()
      modifies this, handle
      ensures Valid() && store == old(store)
      ensures o.Failed? ==> unchanged(this) && unchanged(handle)
      ensures old(store) == null ==> o == Failed(ObjectDisposed)
      ensures old(store) != null && !IsWindowStyle(value) ==> o == Failed(InvalidEnumArgument)
      ensures old(store) != null && IsWindowStyle(value) ==>
                o == Done
                && handle.Snapshot() == old(handle.Snapshot()).(showCmd := value)
                && handle.log == old(handle.log) + [Call.SetShowCmd(value)]
                && Cached() == old(Cached()).(showCommand := UnfetchedShowCommand)
    {
      if store == null {
        return Failed(ObjectDisposed);
      }
      if !IsWindowStyle(value) {
        return Failed(InvalidEnumArgument);
      }
      CoherentAfterSetShowCommand(Cached(), handle.Snapshot(), shell, value);
      store.SetShowCmd(value);
      showCommand := UnfetchedShowCommand;
      o := Done;
    }

    /** The `IconLocation` getter: `new IconLocation(path, index)` of the stored
        location, which throws when the stored path is empty. */
    method GetIconLocation() returns (r: Result<Option<IconLocation>>)
      requires Valid()
      modifies this, handle
      ensures Valid() && store == old(store) && handle.Snapshot() == old(handle.Snapshot())
      ensures old(store) == null ==> r == Err(ObjectDisposed) && unchanged(this) && unchanged(handle)
      ensures old(store) != null ==> r == IconLocationOf(handle.Snapshot())
      ensures old(store) != null ==>
                handle.log == old(handle.log) + FlagsRead(old(flags))
                              + (if HasFlag(handle.flags, HasIconLocation) && old(iconLocationPath).None?
                                 then [Call.GetIconLocation(MAX_PATH)] else [])
      ensures old(store) != null ==>
                Cached() == if HasFlag(handle.flags, HasIconLocation)
                            then old(Cached()).(flags := handle.flags,
                                                iconLocationPath := Some(Fetched(handle.iconPath, MAX_PATH)),
                                                iconLocationIndex := handle.iconIndex)
                            else old(Cached()).(flags := handle.flags)
    {
      if store == null {
        return Err(ObjectDisposed);
      }
      r := FetchIconLocation();
    }

    /** The `IconLocation` getter once the link is known not to be disposed. */
    method FetchIconLocation() returns (r: Result<Option<IconLocation>>)
      requires Valid() && store != null
      modifies this, handle
      ensures Valid() && store == old(store) && handle.Snapshot() == old(handle.Snapshot())
      ensures r == IconLocationOf(handle.Snapshot())
      ensures handle.log == old(handle.log) + FlagsRead(old(flags))
                            + (if HasFlag(handle.flags, HasIconLocation) && old(iconLocationPath).None?
                               then [Call.GetIconLocation(MAX_PATH)] else [])
      ensures Cached() == if HasFlag(handle.flags, HasIconLocation)
                          then old(Cached()).(flags := handle.flags,
                                              iconLocationPath := Some(Fetched(handle.iconPath, MAX_PATH)),
                                              iconLocationIndex := handle.iconIndex)
                          else old(Cached()).(flags := handle.flags)
    {
      var f := FetchFlags();
      if !HasFlag(f, HasIconLocation) {
        return Ok(None);
      }
      if iconLocationPath.None? {
        FillIconLocation();
      }
      var l := New(iconLocationPath, iconLocationIndex);
      r := if l.Err? then Err(l.error) else Ok(Some(l.value));
    }

    /** Reads the icon location from the object into the empty icon caches. */
    method FillIconLocation()
      requires Valid() && store != null && iconLocationPath.None?
      modifies this, handle
      ensures Valid() && store == old(store) && handle.Snapshot() == old(handle.Snapshot())
      ensures handle.log == old(handle.log) + [Call.GetIconLocation(MAX_PATH)]
      ensures Cached() == old(Cached()).(iconLocationPath := Some(Fetched(handle.iconPath, MAX_PATH)),
                                         iconLocationIndex := handle.iconIndex)
    {
      var path, index := ReadIcon();
      CoherentWithIcon(Cached(), handle.Snapshot(), shell);
      iconLocationPath, iconLocationIndex := Some(path), index;
    }

    /** Asks the object for its icon location, through a buffer of MAX_PATH characters
        trimmed at its NUL. */
    method ReadIcon() returns (path: string, index: Int32)
      requires Valid() && store != null
      modifies handle
      ensures Valid() && handle.Snapshot() == old(handle.Snapshot())
      ensures handle.log == old(handle.log) + [Call.GetIconLocation(MAX_PATH)]
      ensures path == Fetched(handle.iconPath, MAX_PATH) && index == handle.iconIndex
    {
      var buffer;
      buffer, index := store.GetIconLocation(MAX_PATH);
      FetchedIsTrimmed(handle.iconPath, MAX_PATH);
      path := TrimAtNul(buffer).value;
    }

    /** The `IconLocation` setter: null stores no path and index 0 and clears
        HasIconLocation; a location stores its path and index and sets it. The library
        forgets the cached path after rewriting the flags; forgetting it first is the
        same to every caller. */
    method SetIconLocation(value: Option<IconLocation>) returns (o: Outcome)
      requires Valid() && (value.Some? ==> ValidIconLocation(value.value))
      modifies this, handle
      ensures Valid() && store == old(store)
      ensures old(store) == null ==> o == Failed(ObjectDisposed) && unchanged(this) && unchanged(handle)
      ensures old(store) != null ==>
                o == Done
                && handle.Snapshot() == AfterSetIconLocation(old(handle.Snapshot()), value)
                && handle.log == old(handle.log) + [IconWrite(value)] + FlagsRead(old(flags))
                                 + [Call.SetFlags(AfterSetIconLocation(old(handle.Snapshot()), value).flags)]
                && Cached() == old(Cached()).(iconLocationPath := None, flags := UnfetchedFlags)
    {
      if store == null {
        return Failed(ObjectDisposed);
      }
      var path, index := if value.None? then None else Some(value.value.path),
                         if value.None? then 0 else value.value.index;
      CoherentAfterSetIcon(Cached(), handle.Snapshot(), shell, path, index);
      store.SetIconLocation(path, index);
      iconLocationPath := None;
      var f := FetchFlags();
      StoreFlags(WithFlag(f, HasIconLocation, value.Some?));
      o := Done;
    }

    /** `Refresh()`: forgets every cache, so that each getter asks the object again. */
    method Refresh()
      requires Attached()
      modifies this
      ensures Valid() && store == old(store)
      ensures Cached() == Refreshed(old(Cached()))
    {
      ghost var c := Refreshed(Cached());
      RefreshedCoherent(Cached(), handle.Snapshot(), shell);
      target, targetIdList, arguments, workingDirectory, hotKey, showCommand, description, iconLocationPath, flags
        := None, None, None, None, UnfetchedHotKey, UnfetchedShowCommand, None, None, UnfetchedFlags;
      assert Cached() == c;
    }

    /** `Load(mode)`: `IPersistFile.Load(Name, mode)`. `image` is what reading the file
        gives. The caches are not touched, so they agree with the object after a failed
        load only if they did before it. */
    method Load(mode: int, image: Result<Image>) returns (o: Outcome)
      requires Attached() && store != null
      modifies handle
      ensures Attached() && (o.Failed? && old(Valid()) ==> Valid())
      ensures o == if image.Ok? then Done else Failed(image.error)
      ensures handle.Snapshot() == if image.Ok? then image.value else old(handle.Snapshot())
      ensures handle.log == old(handle.log) + [Call.Load(name, mode)]
    {
      o := store.Load(name, mode, image);
    }

    /** `Reload()`: loads the file read-only and forgets every cache; a failed load
        throws before anything is forgotten. */
    method Reload(image: Result<Image>) returns (o: Outcome)
      requires Valid()
      modifies this, handle
      ensures Valid() && store == old(store)
      ensures old(store) == null ==> o == Failed(ObjectDisposed) && unchanged(this) && unchanged(handle)
      ensures old(store) != null ==>
                o == (if image.Ok? then Done else Failed(image.error))
                && handle.Snapshot() == (if image.Ok? then image.value else old(handle.Snapshot()))
                && handle.log == old(handle.log) + [Call.Load(name, STGM_READ)]
                && Cached() == if image.Ok? then Refreshed(old(Cached())) else old(Cached())
    {
      o := ThrowIfDisposed();
      if o.Failed? {
        return;
      }
      o := Load(STGM_READ, image);
      if o.Failed? {
        return;
      }
      Refresh();
    }

    /** `Save()`: saves to `Name`, remembering it as the current file, then reloads as
        `Reload` does. `outcome` is whether writing the file succeeds, `written` what the
        registers hold after the save, and `image` what reading the file back gives.
        When the save or the load fails the caches are kept, so they agree with the
        object only if the save left the registers as they were. */
    method Save(outcome: Outcome, written: Image, image: Result<Image>) returns (o: Outcome)
      requires Valid()
      modifies this, handle
      ensures Attached() && store == old(store)
      ensures old(store) == null ==> o == Failed(ObjectDisposed) && unchanged(this) && unchanged(handle)
      ensures old(store) != null && outcome.Failed? ==>
                o == outcome && handle.Snapshot() == written
                && handle.log == old(handle.log) + [Call.Save(name, true)]
                && Cached() == old(Cached())
      ensures old(store) != null && outcome.Done? ==>
                o == (if image.Ok? then Done else Failed(image.error))
                && handle.Snapshot() == (if image.Ok? then image.value else written)
                && handle.log == old(handle.log) + [Call.Save(name, true), Call.Load(name, STGM_READ)]
                && Cached() == if image.Ok? then Refreshed(old(Cached())) else old(Cached())
      ensures o.Done? || old(store) == null || written == old(handle.Snapshot()) ==> Valid()
    {
      o := ThrowIfDisposed();
      if o.Failed? {
        return;
      }
      o := store.Save(name, true, outcome, written);
      if o.Failed? {
        return;
      }
      o := Load(STGM_READ, image);
      if o.Failed? {
        return;
      }
      Refresh();
    }

    /** `Dispose()`: releases the object once; disposing again does nothing. */
    method Dispose()
      requires Valid()
      modifies this, handle
      ensures Valid() && store == null && handle.released
      ensures old(store) == null ==> unchanged(this) && unchanged(handle)
      ensures old(store) != null ==>
                handle.log == old(handle.log) + [Call.Release]
                && handle.Snapshot() == old(handle.Snapshot()) && Cached() == old(Cached())
    {
      if store != null {
        store.Release();
        store := null;
      }
    }

    /** `ShellLink.Create(path)`: a link on the full path of `path` with a new, empty
        object; the file is neither read nor written. `fullPath` is `Path.GetFullPath`. */
    static method Create(path: Option<string>, fullPath: string -> Result<string>, shell: ShellNamespace)
      returns (r: Result<ShellLink>)
      ensures path.None? ==> r == Err(ArgumentNull)
      ensures path.Some? && fullPath(path.value).Err? ==> r == Err(fullPath(path.value).error)
      ensures path.Some? && fullPath(path.value).Ok? ==>
                r.Ok? && fresh(r.value) && fresh(r.value.handle) && r.value.Valid()
                && r.value.name == fullPath(path.value).value && r.value.shell == shell
                && r.value.store != null && r.value.Cached() == Unfetched
                && r.value.handle.Snapshot() == Blank && r.value.handle.log == []
    {
      if path.None? {
        return Err(ArgumentNull);
      }
      var full := fullPath(path.value);
      if full.Err? {
        return Err(full.error);
      }
      var link := new ShellLink(full.value, shell);
      r := Ok(link);
    }

    /** `ShellLink.Open(path)`: a link on the full path of `path` whose object has loaded
        that file read-only. When the load fails, the link is disposed and the load's
        error is raised; `link` is that link. */
    static method Open(path: Option<string>, fullPath: string -> Result<string>, shell: ShellNamespace,
                       image: Result<Image>)
      returns (r: Result<ShellLink>, ghost link: ShellLink?)
      ensures path.None? ==> r == Err(ArgumentNull) && link == null
      ensures path.Some? && fullPath(path.value).Err? ==> r == Err(fullPath(path.value).error) && link == null
      ensures path.Some? && fullPath(path.value).Ok? ==>
                link != null && fresh(link) && fresh(link.handle) && link.Valid()
                && link.name == fullPath(path.value).value && link.shell == shell
                && link.Cached() == Unfetched
                && link.handle.Snapshot() == (if image.Ok? then image.value else Blank)
      ensures path.Some? && fullPath(path.value).Ok? && image.Ok? ==>
                r == Ok(link) && link.store != null
                && link.handle.log == [Call.Load(link.name, STGM_READ)]
      ensures path.Some? && fullPath(path.value).Ok? && image.Err? ==>
                r == Err(image.error) && link.store == null
                && link.handle.log == [Call.Load(link.name, STGM_READ), Call.Release]
    {
      link := null;
      if path.None? {
        return Err(ArgumentNull), null;
      }
      var full := fullPath(path.value);
      if full.Err? {
        return Err(full.error), null;
      }
      var l := new ShellLink(full.value, shell);
      link := l;
      RefreshedCoherent(Unfetched, if image.Ok? then image.value else Blank, shell);
      var o := l.Load(STGM_READ, image);
      if o.Failed? {
        l.Dispose();
        return Err(o.error), link;
      }
      r := Ok(l);
    }
  }
  /** A link created on a file that does not exist shows nothing: the six gated
      properties are null, the hotkey is None, the window style Normal and the flags
      LinkFlags.None. The link is disposed at the end, as a `using` declaration does. */
  method CreateEmptyShellLink(fullPath: string -> Result<string>, shell: ShellNamespace)
    returns (target: Result<Option<string>>, targetIdList: Result<Option<string>>,
             arguments: Result<Option<string>>, workingDirectory: Result<Option<string>>,
             description: Result<Option<string>>, iconLocation: Result<Option<IconLocation>>,
             hotKey: int, windowStyle: Result<Int32>, linkFlags: Result<LinkFlags>)
    requires fullPath("_does_not_exist.LNK").Ok?
    ensures target == Ok(None) && targetIdList == Ok(None) && arguments == Ok(None)
    ensures workingDirectory == Ok(None) && description == Ok(None) && iconLocation == Ok(None)
    ensures hotKey == 0 && windowStyle == Ok(Normal) && linkFlags == Ok(NoFlags)
  {
    var created := ShellLink.Create(Some("_does_not_exist.LNK"), fullPath, shell);
    var link := created.value;
    target, targetIdList, arguments, workingDirectory, description := ReadBlankTexts(link);
    iconLocation, hotKey, windowStyle, linkFlags := ReadBlankRest(link);
    link.Dispose();
  }

  /** The string properties and TargetIDList of a link whose object is blank. */
  method ReadBlankTexts(link: ShellLink)
    returns (target: Result<Option<string>>, targetIdList: Result<Option<string>>,
             arguments: Result<Option<string>>, workingDirectory: Result<Option<string>>,
             description: Result<Option<string>>)
    requires link.Valid() && link.store != null && link.handle.Snapshot() == Blank
    modifies link, link.handle
    ensures link.Valid() && link.store != null && link.handle.Snapshot() == Blank
    ensures target == Ok(None) && targetIdList == Ok(None) && arguments == Ok(None)
    ensures workingDirectory == Ok(None) && description == Ok(None)
  {
    BlankViews(link.shell);
    target := link.GetTarget();
    targetIdList := link.GetTargetIdList();
    arguments := link.GetArguments();
    workingDirectory := link.GetWorkingDirectory();
    description := link.GetDescription();
  }

  /** The other properties of a link whose object is blank. */
  method ReadBlankRest(link: ShellLink)
    returns (iconLocation: Result<Option<IconLocation>>, hotKey: int, windowStyle: Result<Int32>,
             linkFlags: Result<LinkFlags>)
    requires link.Valid() && link.store != null && link.handle.Snapshot() == Blank
    modifies link, link.handle
    ensures link.Valid() && link.store != null && link.handle.Snapshot() == Blank
    ensures iconLocation == Ok(None) && hotKey == 0 && windowStyle == Ok(Normal) && linkFlags == Ok(NoFlags)
  {
    BlankViews(link.shell);
    iconLocation := link.GetIconLocation();
    var key := link.GetHotKey();
    hotKey := key.value.rawData;
    windowStyle := link.GetWindowStyle();
    linkFlags := link.GetLinkFlags();
  }
}
