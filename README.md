# WindowsShortcut in Dafny

A model of the core of WindowsShortcut, a .NET library that creates and edits Windows
shell link (`.lnk`) files through the shell's COM shell-link object, with proofs about
that model. The model has three parts.

- **HotKey** (`hotkey.dfy`) is a keyboard shortcut packed into a 16-bit word: the high
  byte gives the modifier keys and the low byte the virtual key.
  - The class keeps its three fields consistent: `modifierKeys`, `virtualKey`, and `rawData`, which equals `modifierKeys * 256 + virtualKey`.
  - The checks of `new HotKey(key)` are the pure function `CheckKey`.
  - `ToString` is a function over the fields.
- **IconLocation** (`iconlocation.dfy`) is the immutable `path,index` pair, with its
  constructor, `Parse`, and `ToString`.
  - `Parse` splits at the *first* comma only, as the code does.
  - `int.TryParse` and `int.ToString` are modelled in `decimal.dfy`.
- **ShellLink** (`shelllink.dfy`) is a cache over the COM object, gated by the link's flags.
  - **The COM object** (IShellLink, IShellLinkDataList, IPersistFile) is the class `LinkStore` in `store.dfy`.
    - It has one register per property.
    - Its getters answer the way Windows does, by filling a buffer of the size the caller chose.
    - A ghost log records every call made on it.
  - **`ShellLink`** holds the nine cache fields of the source, with the source's "not cached" markers:
    - null for strings;
    - -1 for the hotkey and the flags;
    - 0 for the show command.
  - **What the getters show**: `linkviews.dfy` gives, for each property, what its getter shows as a function of the registers (`TextOf`, `TargetIdListOf`, `IconLocationOf`, and so on), and what each setter leaves in the registers.
    - The lemmas there say what a setter changes: one register and one flag.
    - They also say that it changes nothing else.
  - **The invariant**: `ShellLink.Valid()` says that every cache that holds something holds what the getter would read from the object now (`Coherent`).
    - Every getter and setter keeps it.
    - Because of it, every getter's contract can say it returns the property as the object shows it, whether the cache answered or the object did.
  - **Call logs**: the contracts also state the exact calls each operation makes on the object. This is how memoization, "no read while the flag is clear", and the call order of `Save`, `Reload`, and `Open` are stated.

Two quirks of the source are modelled as they are written:

- **All-ones flags are never cached.** The flags are cached in an `int` whose "not cached" marker is -1, so stored flags whose bit pattern is all ones are read again on every access.
- **A zero show command is never cached.** A show command of 0 is likewise read again on every access.

Files:

- `errors.dfy`: the exceptions as values, plus `Option`, `Result`, and `Outcome`.
- `text.dfy`:
  - `IndexOf`;
  - the buffer fill of the shell-link getters;
  - the trim at the first NUL;
  - `MAX_PATH` and the abstract `INFOTIPSIZE`.
- `decimal.dfy`: `int.TryParse` and `int.ToString`.
- `enums.dfy`: the constants of `LinkFlags`, `ModifierKeys`, and `WindowStyle`, and the flag read-modify-write.
- `hotkey.dfy`, `iconlocation.dfy`: as described above.
- `store.dfy`: the COM object.
- `linkviews.dfy`: what the getters show.
- `shelllink.dfy`: the cache class.

## Model

| member | source | states |
|---|---|---|
| Text.IndexOf | src/WindowsShortcut/IconLocation.cs:77 | the result is -1 exactly when the character is absent; otherwise the character is at that position and not before it |
| Text.IndexOfUnique | src/WindowsShortcut/IconLocation.cs:77 | a position holding the character, with none before it, is what IndexOf returns |
| Text.TrimAtNul | src/WindowsShortcut/ShellLink.cs:474 | `Slice(0, IndexOf('\0'))` fails with ArgumentOutOfRange exactly when the buffer has no NUL; otherwise it gives the text before the first NUL, which holds no NUL and is shorter than the buffer |
| Text.FillBuffer | src/WindowsShortcut/Interop/Shell32.cs:36 | a getter's buffer has the size asked for, ends in NUL, and holds the whole text when it fits |
| Text.Fetched | src/WindowsShortcut/ShellLink.cs:78 | the text a getter keeps: no NUL, shorter than the buffer, a prefix of the stored text, and the stored text itself when it fits and holds no NUL |
| Text.FetchedIsTrimmed | src/WindowsShortcut/ShellLink.cs:470-475 | trimming a buffer the object filled never throws and gives `Fetched` |
| Decimal.LeadingWhite | src/WindowsShortcut/IconLocation.cs:80 | the white space TryParse skips before the number: all of it is white, and what follows is not |
| Decimal.LeadingDigits | src/WindowsShortcut/IconLocation.cs:80 | the digit run of the number: all digits, and what follows is not a digit |
| Decimal.FormatInt | src/WindowsShortcut/IconLocation.cs:95 | `Index.ToString()` is non-empty; it is all digits for a non-negative index, and a minus sign followed by digits otherwise |
| Decimal.NatDigits | src/WindowsShortcut/IconLocation.cs:95 | the digits `Index.ToString()` writes for a non-negative number: at least one, and all decimal digits; `NatDigitsValue` proves they denote the number |
| Decimal.ParseInt32 | src/WindowsShortcut/IconLocation.cs:80 | `int.TryParse` with NumberStyles.Integer: white space, an optional sign, digits, then white space and NULs, within the Int32 range. It has no contract of its own; `ParseFormat`, `ParseFormatted`, `ParsedChars` and `ParseRejectsComma` state what it accepts |
| Decimal.NatDigitsValue | src/WindowsShortcut/IconLocation.cs:95 | the decimal digits of n denote n |
| Decimal.ParseFormat | src/WindowsShortcut/IconLocation.cs:80-82 | TryParse reads back every Int32 that ToString wrote |
| Decimal.ParseFormatted | src/WindowsShortcut/IconLocation.cs:80-82 | TryParse accepts white space around a formatted Int32 and gives that Int32 |
| Decimal.ParseAfterWhite | src/WindowsShortcut/IconLocation.cs:80-82 | leading white space does not change what TryParse gives |
| Decimal.ParsedChars | src/WindowsShortcut/IconLocation.cs:80-82 | a text TryParse accepts holds only white space, sign characters, digits and NULs |
| Decimal.ParseRejectsComma | src/WindowsShortcut/IconLocation.cs:77-86 | a text holding a comma is no Int32, so no later comma can make the part after the first comma parse |
| Enums.WithFlag | src/WindowsShortcut/ShellLink.cs:43-50 | `LinkFlags \|= F` or `LinkFlags &= ~F`. It has no contract of its own; `WithFlagSetsOnlyThatFlag` and `WithFlagKeepsOthers` state what it sets and what it keeps |
| Enums.WithFlagSetsOnlyThatFlag | src/WindowsShortcut/ShellLink.cs:43-50 | `flags \|= F` sets F and `flags &= ~F` clears it; the other bits are unchanged |
| Enums.WithFlagKeepsOthers | src/WindowsShortcut/ShellLink.cs:43-50 | setting or clearing F leaves every flag disjoint from F as it was |
| Enums.IsWindowStyle | src/WindowsShortcut/ShellLink.cs:244 | `Enum.IsDefined(typeof(WindowStyle), value)`: true exactly for Normal (1), Maximized (3) and Minimized (7), the members of WindowStyle.cs |
| HotKeys.IsDefinedVirtualKey | src/WindowsShortcut/HotKey.cs:133 | `Enum.IsDefined(typeof(VirtualKey), v)`: membership in `VirtualKeys`, an unspecified set of byte codes that holds None, Number0 and ScrollLock and not 0x01 or 0x92 |
| HotKeys.VirtualKeyFacts | tests/WindowsShortcut.Tests/HotKeyTests.cs:36-45 | None (0x00), Number0 (0x30) and ScrollLock (0x91) are virtual keys; -1, 0x01 and 0x92 are not |
| HotKeys.ToUShort | src/WindowsShortcut/HotKey.cs:141 | `(ushort)x` lies in [0, 0xFFFF] and is x itself when x does |
| HotKeys.Pack | src/WindowsShortcut/HotKey.cs:144 | `SetRawData`: `(ushort)((mKey << 8) + vKey)`. It has no contract of its own; `PackRoundTrip`, `PackInjective` and `PackZero` state that it packs a valid pair into at most 0x06FF, reversibly, and to 0 only for no modifier and no key |
| HotKeys.CheckKey | src/WindowsShortcut/HotKey.cs:118-142 | out of range exactly when key < 0 or key > 0xFFFF; zero gives no modifier and no key; a nonzero key is accepted exactly when its high byte is at most 6 and its low byte is a virtual key, and is otherwise rejected with ArgumentException; an accepted key packs back to itself |
| HotKeys.PackRoundTrip | src/WindowsShortcut/HotKey.cs:144 | a valid pair packs into at most 0x06FF, the cast to ushort drops no bit, and CheckKey of the word gives the pair back |
| HotKeys.PackInjective | src/WindowsShortcut/HotKey.cs:144 | two valid pairs with the same word are equal |
| HotKeys.PackZero | src/WindowsShortcut/HotKey.cs:109-112 | only the pair (None, None) packs to 0, so ToString gives "None" for that pair alone |
| HotKeys.ModifierText | src/WindowsShortcut/HotKey.cs:114 | `ModifierKeys.ToString().Replace(", ", "+")`: "None" for no modifier, otherwise the names joined by "+". It has no contract of its own; `ModifierTexts` and `ModifierTextInjective` state its values |
| HotKeys.ModifierTexts | src/WindowsShortcut/HotKey.cs:114 | the text of each of the seven modifier sets, with the names in ascending order and joined by "+" |
| HotKeys.ModifierTextInjective | src/WindowsShortcut/HotKey.cs:114 | different modifier sets have different texts |
| HotKeys.HotKey.constructor | src/WindowsShortcut/HotKey.cs:73-75 | `new HotKey()` has no modifier, no key and raw data 0, and is valid |
| HotKeys.HotKey.None | src/WindowsShortcut/HotKey.cs:14 | `HotKey.None` is a new valid hotkey with raw data 0 |
| HotKeys.HotKey.FromKey | src/WindowsShortcut/HotKey.cs:93-101 | `new HotKey(key)` fails exactly when CheckKey does, with its error; otherwise it gives a new valid hotkey whose raw data is key and whose parts are CheckKey's |
| HotKeys.HotKey.SetKeys | src/WindowsShortcut/HotKey.cs:118-142 | zero changes nothing; a rejected key throws with no field changed; an accepted key stores its two bytes and the raw data |
| HotKeys.HotKey.SetModifierKeys | src/WindowsShortcut/HotKey.cs:32-42 | values outside [0, 6] throw ArgumentOutOfRange with no field changed; otherwise the modifier is stored, the virtual key is kept, and the word is repacked; the invariant is kept |
| HotKeys.HotKey.SetVirtualKey | src/WindowsShortcut/HotKey.cs:51-61 | undefined codes throw InvalidEnumArgument with no field changed; otherwise the key is stored, the modifier is kept, and the word is repacked; the invariant is kept |
| HotKeys.HotKey.ToString | src/WindowsShortcut/HotKey.cs:107-116 | "None" exactly when the raw data is 0; otherwise the modifier text, "+", and the key's name |
| HotKeys.CheckKeyExamples | tests/WindowsShortcut.Tests/HotKeyTests.cs:9-56 | -1 and 0x10000 are out of range; 0x0700, 0x0001 and 0x0092 are rejected; 0 gives (None, None) and 0x0330 gives (Shift\|Control, Number0); Control\|Alt with ScrollLock packs to 0x0691 |
| HotKeys.SetKeysExample | tests/WindowsShortcut.Tests/HotKeyTests.cs:58-69 | setting Control\|Alt and then ScrollLock on a new hotkey gives raw data 0x0691 |
| IconLocations.New | src/WindowsShortcut/IconLocation.cs:34-48 | a null path throws ArgumentNull and an empty one Argument; otherwise path and index are stored unchanged |
| IconLocations.ToString | src/WindowsShortcut/IconLocation.cs:95 | `"{Path},{Index}"`: the path, a comma, and an index text holding no comma, so that this comma is the first one whenever the path has none |
| IconLocations.Parse | src/WindowsShortcut/IconLocation.cs:64-89 | null input throws ArgumentNull and empty input Argument; every other failure is FormatException; a parsed path has at least two characters, no comma, and is shorter than the input |
| IconLocations.Located | src/WindowsShortcut/IconLocation.cs:80-88 | the last step of Parse: it succeeds exactly when the index parsed and the path is not empty, and then gives that path and index |
| IconLocations.ParseParts | src/WindowsShortcut/IconLocation.cs:77-88 | an accepted input is the path, a comma, and a text that TryParse reads as the index |
| IconLocations.ParseSplit | src/WindowsShortcut/IconLocation.cs:77-88 | with its first comma at position 2 or later, an input parses as the part before that comma with the Int32 after it |
| IconLocations.ParseAtFirstComma | src/WindowsShortcut/IconLocation.cs:77-88 | `path,rest`, where path has no comma and at least two characters, parses exactly when rest is an Int32, and then into path and that Int32 |
| IconLocations.ParseToString | src/WindowsShortcut/IconLocation.cs:77-95 | Parse(ToString(l)) == l exactly when l's path has at least two characters and no comma; otherwise Parse fails with FormatException |
| IconLocations.ParseWithoutComma | src/WindowsShortcut/IconLocation.cs:77-86 | a non-empty input without a comma throws FormatException |
| IconLocations.ParseEarlyComma | src/WindowsShortcut/IconLocation.cs:80-86 | a first comma at position 0 or 1 throws FormatException |
| IconLocations.ParseRejectedExamples | tests/WindowsShortcut.Tests/IconLocationTests.cs:8-15 | "0", a path without a comma, and ",0" throw FormatException |
| IconLocations.ParseAcceptedExample | tests/WindowsShortcut.Tests/IconLocationTests.cs:17-26 | "C:\Windows\System32\shell32.dll,0" parses into that path and 0 |
| IconLocations.ParseAcceptedExampleWithVariable | tests/WindowsShortcut.Tests/IconLocationTests.cs:17-26 | "%windir%\system32\user32.dll,1" parses into that path and 1 |
| LinkStores.LinkStore.constructor | src/WindowsShortcut/ShellLink.cs:381 | a new COM object holds nothing: no texts, no list, no hotkey, the Normal show command, no flags |
| LinkStores.LinkStore.GetPath | src/WindowsShortcut/Interop/Shell32.cs:36 | fills the caller's buffer from the path register; changes no register, and logs the call |
| LinkStores.LinkStore.SetPath | src/WindowsShortcut/Interop/Shell32.cs:53 | writes the path register and no other, and logs the call |
| LinkStores.LinkStore.GetIDList | src/WindowsShortcut/Interop/Shell32.cs:37 | gives the identifier list and changes no register |
| LinkStores.LinkStore.SetIDList | src/WindowsShortcut/Interop/Shell32.cs:38 | writes the identifier list and no other register |
| LinkStores.LinkStore.GetDescription | src/WindowsShortcut/Interop/Shell32.cs:39 | fills the caller's buffer from the description and changes no register |
| LinkStores.LinkStore.SetDescription | src/WindowsShortcut/Interop/Shell32.cs:40 | writes the description and no other register |
| LinkStores.LinkStore.GetWorkingDirectory | src/WindowsShortcut/Interop/Shell32.cs:41 | fills the caller's buffer from the working directory and changes no register |
| LinkStores.LinkStore.SetWorkingDirectory | src/WindowsShortcut/Interop/Shell32.cs:42 | writes the working directory and no other register |
| LinkStores.LinkStore.GetArguments | src/WindowsShortcut/Interop/Shell32.cs:43 | fills the caller's buffer from the arguments and changes no register |
| LinkStores.LinkStore.SetArguments | src/WindowsShortcut/Interop/Shell32.cs:44 | writes the arguments and no other register |
| LinkStores.LinkStore.GetHotkey | src/WindowsShortcut/Interop/Shell32.cs:45 | gives the hotkey word and changes no register |
| LinkStores.LinkStore.SetHotkey | src/WindowsShortcut/Interop/Shell32.cs:46 | writes the hotkey word and no other register |
| LinkStores.LinkStore.GetShowCmd | src/WindowsShortcut/Interop/Shell32.cs:47 | gives the show command and changes no register |
| LinkStores.LinkStore.SetShowCmd | src/WindowsShortcut/Interop/Shell32.cs:48 | writes the show command and no other register |
| LinkStores.LinkStore.GetIconLocation | src/WindowsShortcut/Interop/Shell32.cs:49 | fills the caller's buffer from the icon path, gives the icon index, and changes no register |
| LinkStores.LinkStore.SetIconLocation | src/WindowsShortcut/Interop/Shell32.cs:50 | writes the icon path and index and no other register |
| LinkStores.LinkStore.GetFlags | src/WindowsShortcut/Interop/Shell32.cs:64 | gives the flags and changes no register |
| LinkStores.LinkStore.SetFlags | src/WindowsShortcut/Interop/Shell32.cs:65 | writes the flags and no other register |
| LinkStores.LinkStore.Load | src/WindowsShortcut/Interop/Shell32.cs:24 | a successful load replaces every register with the file's image; a failed one raises its error |
| LinkStores.LinkStore.Save | src/WindowsShortcut/Interop/Shell32.cs:25 | writing the file succeeds or raises its error; afterwards the registers hold `after`, whatever they held before, since the object may rewrite any of them |
| LinkStores.LinkStore.Release | src/WindowsShortcut/ShellLink.cs:438 | `FinalReleaseComObject` marks the object released; no call may follow |
| LinkViews.Bit | src/WindowsShortcut/ShellLink.cs:28 | each string property is gated by a nonzero flag: Target by HasLinkInfo, Arguments by HasArguments, WorkingDirectory by HasWorkingDirectory, Description by HasName |
| LinkViews.BitsDisjoint | src/WindowsShortcut/LinkFlags.cs:13-19 | the gating flags of different properties are different bits |
| LinkViews.TextOf | src/WindowsShortcut/ShellLink.cs:24-35 | what a string getter shows: null when the property's flag is clear, otherwise the stored text as fetched into the getter's buffer. `TextOfBounds` states its bounds |
| LinkViews.TargetIdListOf | src/WindowsShortcut/ShellLink.cs:59-86 | what the TargetIDList getter shows: null when HasLinkTargetIDList is clear, IOException when the stored list has no path, otherwise that path |
| LinkViews.HotKeyOf | src/WindowsShortcut/ShellLink.cs:205-215 | what the HotKey getter gives: `new HotKey` of the stored word, that is `CheckKey` of it |
| LinkViews.WindowStyleOf | src/WindowsShortcut/ShellLink.cs:230-239 | what the WindowStyle getter gives: the stored show command, cast without a check |
| LinkViews.IconLocationOf | src/WindowsShortcut/ShellLink.cs:298-314 | what the IconLocation getter gives: null when HasIconLocation is clear, otherwise `new IconLocation` of the fetched path and the stored index |
| LinkViews.AfterSetText | src/WindowsShortcut/ShellLink.cs:36-51 | the registers after a string setter: that register written, and the property's flag set exactly when the value is not null or empty |
| LinkViews.AfterSetTargetIdList | src/WindowsShortcut/ShellLink.cs:107-112 | the registers after the TargetIDList setter: the list written and HasLinkTargetIDList set |
| LinkViews.AfterSetIconLocation | src/WindowsShortcut/ShellLink.cs:315-330 | the registers after the IconLocation setter: no path and index 0 with HasIconLocation cleared, or the location's path and index with it set |
| LinkViews.BlankViews | tests/WindowsShortcut.Tests/ShellLinkTests.cs:16-29 | a new object shows all six gated properties as null, the hotkey None, the window style Normal and no flags |
| LinkViews.TextOfBounds | src/WindowsShortcut/ShellLink.cs:24-35 | a string getter is null exactly when its flag is clear; otherwise it holds no NUL, is shorter than its buffer, and is a prefix of the register; likewise for lines 125-141, 165-181 and 258-274 |
| LinkViews.SetTextThenGet | src/WindowsShortcut/ShellLink.cs:36-51 | after a string setter, the getter shows the value cut to its buffer when the value is not empty, and null when it is null or empty |
| LinkViews.SetTextKeepsOthers | src/WindowsShortcut/ShellLink.cs:36-51 | a string setter leaves every other property as the getters show it |
| LinkViews.SetTextKeepsText | src/WindowsShortcut/ShellLink.cs:36-51 | a string setter leaves each other string property as its getter shows it |
| LinkViews.SetTextKeepsRest | src/WindowsShortcut/ShellLink.cs:36-51 | a string setter leaves TargetIDList, IconLocation, HotKey and WindowStyle as their getters show them |
| LinkViews.SetTargetIdListThenGet | src/WindowsShortcut/ShellLink.cs:87-117 | after the TargetIDList setter, the getter shows the new list's path, or throws IOException when the list has none |
| LinkViews.SetTargetIdListKeepsOthers | src/WindowsShortcut/ShellLink.cs:107-112 | the TargetIDList setter leaves every other property as the getters show it |
| LinkViews.SetIconLocationThenGet | src/WindowsShortcut/ShellLink.cs:315-330 | after the IconLocation setter, the getter gives null for null and gives the location back when its path fits and holds no NUL |
| LinkViews.SetIconLocationKeepsOthers | src/WindowsShortcut/ShellLink.cs:315-330 | the IconLocation setter leaves every other property as the getters show it |
| LinkViews.EmptyIconPathFails | src/WindowsShortcut/ShellLink.cs:307-313 | an empty fetched icon path makes the getter throw ArgumentException, through the IconLocation constructor |
| LinkViews.SetHotKeyThenGet | src/WindowsShortcut/ShellLink.cs:203-223 | the HotKey getter gives back the keys the setter stored |
| LinkViews.SetRegisterKeepsTexts | src/WindowsShortcut/ShellLink.cs:216-250 | the HotKey and WindowStyle setters change no string property and not the icon location |
| LinkViews.ClearFlagHides | src/WindowsShortcut/ShellLink.cs:28-31 | whatever the registers hold, a property whose flag is clear reads as null; likewise for lines 63-66, 129-132, 169-172, 262-265 and 302-305 |
| ShellLinks.Refreshed | src/WindowsShortcut/ShellLink.cs:479-490 | after Refresh every cache is empty, and only the icon index is kept |
| ShellLinks.RefreshedCoherent | src/WindowsShortcut/ShellLink.cs:449-454 | empty caches agree with any object, which is why a load followed by Refresh is sound; Refresh is idempotent |
| ShellLinks.CoherentAfterFlags | src/WindowsShortcut/ShellLink.cs:350-354 | writing the flags and forgetting the flags cache keeps every cache in agreement |
| ShellLinks.CoherentWithText | src/WindowsShortcut/ShellLink.cs:33 | caching what a string getter read keeps the caches in agreement |
| ShellLinks.CoherentAfterSetText | src/WindowsShortcut/ShellLink.cs:40-41 | writing a string register and forgetting its cache keeps the caches in agreement |
| ShellLinks.CoherentWithIdList | src/WindowsShortcut/ShellLink.cs:68-84 | caching the path of the stored list keeps the caches in agreement |
| ShellLinks.CoherentWithHotKey | src/WindowsShortcut/ShellLink.cs:209-213 | caching the stored hotkey keeps the caches in agreement |
| ShellLinks.CoherentWithShowCommand | src/WindowsShortcut/ShellLink.cs:234-237 | caching the stored show command keeps the caches in agreement |
| ShellLinks.CoherentWithIcon | src/WindowsShortcut/ShellLink.cs:307-312 | caching the stored icon location keeps the caches in agreement |
| ShellLinks.CoherentAfterSetIdList | src/WindowsShortcut/ShellLink.cs:109-110 | writing the list and forgetting its cache keeps the caches in agreement |
| ShellLinks.CoherentAfterSetHotKey | src/WindowsShortcut/ShellLink.cs:220-221 | writing the hotkey and forgetting its cache keeps the caches in agreement |
| ShellLinks.CoherentAfterSetShowCommand | src/WindowsShortcut/ShellLink.cs:248-249 | writing the show command and forgetting its cache keeps the caches in agreement |
| ShellLinks.CoherentAfterSetIcon | src/WindowsShortcut/ShellLink.cs:319-329 | writing the icon location and forgetting the cached path keeps the caches in agreement |
| ShellLinks.CachedTextAgrees | src/WindowsShortcut/ShellLink.cs:33 | a cached string is what a new read would give |
| ShellLinks.ShellLink.constructor | src/WindowsShortcut/ShellLink.cs:376-382 | a new link on a new object, with nothing cached (-1 for the hotkey and the flags) |
| ShellLinks.ShellLink.ThrowIfDisposed | src/WindowsShortcut/ShellLink.cs:492-498 | throws ObjectDisposed exactly when the object has been released |
| ShellLinks.ShellLink.FetchFlags | src/WindowsShortcut/ShellLink.cs:342-346 | gives the stored flags; calls GetFlags only when the flags are not cached, and caches them |
| ShellLinks.ShellLink.StoreFlags | src/WindowsShortcut/ShellLink.cs:352-353 | writes the flags register, forgets the flags cache, and changes nothing else |
| ShellLinks.ShellLink.GetLinkFlags | src/WindowsShortcut/ShellLink.cs:338-347 | ObjectDisposed after Dispose with nothing changed; otherwise the stored flags, read only when not cached |
| ShellLinks.ShellLink.SetLinkFlags | src/WindowsShortcut/ShellLink.cs:348-354 | ObjectDisposed after Dispose; otherwise writes the flags register and forgets only the flags cache |
| ShellLinks.ShellLink.GetTarget | src/WindowsShortcut/ShellLink.cs:24-35 | ObjectDisposed after Dispose; otherwise the target as the object shows it, or null when HasLinkInfo is clear and then without reading the path; reads the path at most once and caches it |
| ShellLinks.ShellLink.GetArguments | src/WindowsShortcut/ShellLink.cs:125-141 | the same as the Target getter, for HasArguments and a buffer of INFOTIPSIZE characters |
| ShellLinks.ShellLink.GetWorkingDirectory | src/WindowsShortcut/ShellLink.cs:165-181 | the same as the Target getter, for HasWorkingDirectory and a buffer of MAX_PATH characters |
| ShellLinks.ShellLink.GetDescription | src/WindowsShortcut/ShellLink.cs:258-274 | the same as the Target getter, for HasName and a buffer of INFOTIPSIZE characters |
| ShellLinks.ShellLink.GetText | src/WindowsShortcut/ShellLink.cs:24-35 | the getter of any string property, with the same contract `GotText` as the four getters |
| ShellLinks.ShellLink.GetTextTwice | src/WindowsShortcut/ShellLink.cs:33 | two reads in a row give the same value, and the second calls the object not at all |
| ShellLinks.ShellLink.FetchText | src/WindowsShortcut/ShellLink.cs:28-34 | reads the flags, then the property only when its flag is set and nothing is cached |
| ShellLinks.ShellLink.FillText | src/WindowsShortcut/ShellLink.cs:33 | one read of the property into its empty cache: the fetched text is cached, nothing else changes, and the invariant is kept |
| ShellLinks.ShellLink.PutText | src/WindowsShortcut/ShellLink.cs:33 | writes the named string cache and no other field |
| ShellLinks.ShellLink.ReadText | src/WindowsShortcut/ShellLink.cs:472-473 | each string getter asks the object with its own buffer size: MAX_PATH with SLGP_RAWPATH for the path, INFOTIPSIZE for arguments and description |
| ShellLinks.ShellLink.SetTarget | src/WindowsShortcut/ShellLink.cs:36-51 | ObjectDisposed after Dispose; otherwise SetPath, then a flags read (cached or not), then a flags write with HasLinkInfo set exactly when the value is not empty; forgets the target and flags caches only |
| ShellLinks.ShellLink.SetArguments | src/WindowsShortcut/ShellLink.cs:142-157 | the same as the Target setter, for SetArguments and HasArguments |
| ShellLinks.ShellLink.SetWorkingDirectory | src/WindowsShortcut/ShellLink.cs:182-197 | the same as the Target setter, for SetWorkingDirectory and HasWorkingDirectory |
| ShellLinks.ShellLink.SetDescription | src/WindowsShortcut/ShellLink.cs:275-290 | the same as the Target setter, for SetDescription and HasName |
| ShellLinks.ShellLink.WriteText | src/WindowsShortcut/ShellLink.cs:36-51 | the shared body of the string setters, with their contract `WroteText` |
| ShellLinks.ShellLink.StoreText | src/WindowsShortcut/ShellLink.cs:40-41 | writes the property's register alone, forgets only its cache, and keeps the invariant |
| ShellLinks.ShellLink.GetTargetIdList | src/WindowsShortcut/ShellLink.cs:59-86 | ObjectDisposed after Dispose; null when HasLinkTargetIDList is clear; IOException when the list has no path; otherwise that path, read at most once and cached |
| ShellLinks.ShellLink.FetchTargetIdList | src/WindowsShortcut/ShellLink.cs:63-85 | the getter once the link is known not to be disposed: `TargetIdListOf` of the object, with the list read only when the flag is set and nothing is cached |
| ShellLinks.ShellLink.FillTargetIdList | src/WindowsShortcut/ShellLink.cs:70-78 | one GetIDList call, caching the list's path, or nothing when it has none |
| ShellLinks.ShellLink.ReadListedPath | src/WindowsShortcut/ShellLink.cs:73-78 | the path of a list, trimmed at its NUL, or none when SHGetPathFromIDListW fails |
| ShellLinks.ShellLink.SetTargetIdList | src/WindowsShortcut/ShellLink.cs:87-117 | null throws ArgumentNull and empty throws Argument; a name the shell cannot parse raises its error; all of these change nothing; otherwise stores the list, sets HasLinkTargetIDList (never clears it), and forgets the list and flags caches |
| ShellLinks.ShellLink.GetHotKey | src/WindowsShortcut/ShellLink.cs:205-215 | `new HotKey` of the stored word, throwing as it does; reads the word only when not cached, and caches it even when HotKey throws |
| ShellLinks.ShellLink.SetHotKey | src/WindowsShortcut/ShellLink.cs:216-222 | stores the hotkey's raw data, forgets only the hotkey cache, and the getter then gives the same keys |
| ShellLinks.ShellLink.GetWindowStyle | src/WindowsShortcut/ShellLink.cs:230-239 | the stored show command, read only when the cache holds 0 |
| ShellLinks.ShellLink.SetWindowStyle | src/WindowsShortcut/ShellLink.cs:240-250 | values other than 1, 3 and 7 throw InvalidEnumArgument before any call; otherwise SetShowCmd, forgetting only the show-command cache |
| ShellLinks.ShellLink.GetIconLocation | src/WindowsShortcut/ShellLink.cs:298-314 | ObjectDisposed after Dispose; otherwise null when HasIconLocation is clear; otherwise `new IconLocation` of the fetched path and index, throwing for an empty path; reads at most once |
| ShellLinks.ShellLink.FetchIconLocation | src/WindowsShortcut/ShellLink.cs:302-313 | the getter once the link is known not to be disposed: `IconLocationOf` of the object, with the location read only when the flag is set and no path is cached |
| ShellLinks.ShellLink.FillIconLocation | src/WindowsShortcut/ShellLink.cs:307-312 | one GetIconLocation call, caching the fetched path and the index |
| ShellLinks.ShellLink.ReadIcon | src/WindowsShortcut/ShellLink.cs:309-311 | the icon path trimmed at its NUL and the icon index, from one GetIconLocation call with a buffer of MAX_PATH characters |
| ShellLinks.ShellLink.SetIconLocation | src/WindowsShortcut/ShellLink.cs:315-330 | null writes (null, 0) and clears HasIconLocation; a location writes its path and index and sets the flag; forgets the cached path and flags |
| ShellLinks.ShellLink.Refresh | src/WindowsShortcut/ShellLink.cs:479-490 | every cache is forgotten, and afterwards the caches agree with whatever the object holds |
| ShellLinks.ShellLink.Load | src/WindowsShortcut/ShellLink.cs:477 | `IPersistFile.Load(Name, mode)`: the object takes the file's image, or the error is raised with the object unchanged; the caches are not touched |
| ShellLinks.ShellLink.Reload | src/WindowsShortcut/ShellLink.cs:449-454 | ObjectDisposed after Dispose; otherwise one read-only Load of Name, then every cache is forgotten; a failed load throws with the caches kept |
| ShellLinks.ShellLink.Save | src/WindowsShortcut/ShellLink.cs:462-468 | ObjectDisposed after Dispose; otherwise Save(Name, remember = true), then the same load and refresh as Reload. A failed save stops before the load; a failed save or load keeps the caches, so the invariant is promised only after a successful reload or when the save left the registers as they were |
| ShellLinks.ShellLink.Dispose | src/WindowsShortcut/ShellLink.cs:434-441 | releases the object exactly once; a second Dispose changes nothing; the name, registers and caches are kept |
| ShellLinks.ShellLink.Create | src/WindowsShortcut/ShellLink.cs:392-400 | null throws ArgumentNull; otherwise a link on the full path with a new, blank object, nothing cached and no call made, so no load |
| ShellLinks.ShellLink.Open | src/WindowsShortcut/ShellLink.cs:410-429 | null throws ArgumentNull; otherwise one read-only Load; when it fails, the link is disposed and the load's error is raised |
| ShellLinks.CreateEmptyShellLink | tests/WindowsShortcut.Tests/ShellLinkTests.cs:16-29 | a created link reads as six nulls, hotkey raw data 0, WindowStyle.Normal and LinkFlags.None |
| ShellLinks.ReadBlankTexts | tests/WindowsShortcut.Tests/ShellLinkTests.cs:16-29 | on a blank object, Target, TargetIDList, Arguments, WorkingDirectory and Description all read as null |
| ShellLinks.ReadBlankRest | tests/WindowsShortcut.Tests/ShellLinkTests.cs:16-29 | on a blank object, IconLocation reads as null, the hotkey word as 0, WindowStyle as Normal and LinkFlags as None |

## Left out

- Files and COM I/O
  - File contents are not modelled. The image a load reads, whether a save succeeds, and what the registers hold after a save are parameters of `Load`, `Reload`, `Save` and `Open`. Any normalisation the shell applies to stored values is not modelled either.
  - The shell-link object's getters and setters never fail in the model. Their HRESULT failures are not modelled.
- LinkStores.LinkStore.Load: a failed load is assumed to leave every register as it was. What `IPersistFile.Load` does on failure is not visible from the library.
- ShellLinks.ShellLink.Save: after a failed save, or a failed load after a save, the caches are kept as the source keeps them. Since the save may have rewritten the registers, the contract promises that the caches agree with the object only when the save left the registers as they were.
- Calls outside the library
  - `SHParseDisplayName` and `SHGetPathFromIDListW` are the two functions of `ShellNamespace`, passed in as parameters.
  - `SHGetPathFromIDListW` is assumed to fill its MAX_PATH buffer the way the shell-link getters fill theirs.
  - An `SHParseDisplayName` result other than S_OK that is not an error code is folded into the error case. In the source, `GetExceptionForHR` would return null for it.
  - `Path.GetFullPath` is the parameter `fullPath` of `Create` and `Open`.
  - `Marshal.FreeCoTaskMem`, which frees the identifier list, is not modelled. `FinalReleaseComObject` is modelled only as the object's `released` bit.
- Enumerations and text
  - The VirtualKey enumeration is not part of this model. `IsDefinedVirtualKey` is membership in `VirtualKeys`, a constant with no definition whose type says only that every member is a byte and names the members the tests are about, so every proof holds for any such enumeration.
  - The names used by `VirtualKey.ToString()` are the parameter `keyName` of `HotKey.ToString`.
  - `ModifierKeys.ToString()` is modelled by its names in ascending bit order, joined by "+".
  - `int.TryParse` and the `{Index}` formatting of `IconLocation.ToString` (`Decimal.FormatInt`) are modelled with the invariant culture: ASCII digits, '+' and '-', the white space of NumberStyles.Integer, and trailing NULs. The current culture's digits and sign symbols, such as its negative sign, are not modelled in parsing or in formatting.
  - `Comctl32.INFOTIPSIZE` is not part of this model. It is an abstract positive constant.
- ShellLinks.ShellLink.SetHotKey: a null `HotKey` argument is not modelled. The parameter is a non-null reference, as the property's non-nullable type says.
- ShellLinks.ShellLink.SetIconLocation: the source forgets the cached icon path after rewriting the flags, while the model forgets it before. The calls made and the final state are the same.
- The round trip of `IconLocation.Parse` and `ToString` holds only for paths of at least two characters with no comma, as `IconLocations.ParseToString` states in both directions. A one-character path, for example, is rejected by the `comma < 2` test. Here a character is a Unicode scalar value, not a UTF-16 code unit; see the next lines.
- Strings: a Dafny `string` is a sequence of Unicode scalar values, while C# strings and the Win32 buffers count UTF-16 code units. The two counts agree for characters up to U+FFFF. For characters above U+FFFF, which take two code units, positions and lengths differ from the source's, and the lines below name the members this affects.
- IconLocations.Parse: the `IndexOf` position and the `comma < 2` test count scalar values. So `"😀,0"` is rejected with FormatException, while the source finds the comma at code unit 2 and accepts it as the path "😀" with index 0.
- IconLocations.ParseToString: "at least two characters" counts scalar values, so a path of one character above U+FFFF is claimed not to survive the round trip, although it does in the source.
- Text.Fetched: the cut at one less than the buffer size counts scalar values. A text of 200 characters above U+FFFF is kept whole (400 code units), while the source keeps only the first 259 code units of it.
- LinkViews.TextOfBounds: "shorter than the buffer" counts scalar values, not the code units of the source's buffer.
- `Parse` splits at the first comma only. A later comma is never tried, even when the text after it would parse: `IconLocations.ParseSplit`, `Decimal.ParseRejectsComma`.
- `FILETIME` and the other interop declarations the core does not use are left out. So is the COM test fixture of the test project, which creates and deletes files.
