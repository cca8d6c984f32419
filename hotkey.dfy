/** HotKey (src/WindowsShortcut/HotKey.cs): a keyboard shortcut packed into the 16-bit
    word the shell link stores, high byte the modifier keys, low byte the virtual key. */
module HotKeys {
  import opened Errors
  import opened Enums

  /** Control + Alt. */
  const MaxModifierKeys: int := 0x06
  const MinModifierKeys: int := 0x00

  /** A possible member set of the VirtualKey enumeration: byte values only, holding
      the members the library's tests name (None, Number0, ScrollLock) and not the
      codes they use as undefined (0x01, 0x92). */
  type KeySet = s: set<int> | (forall v :: v in s ==> 0 <= v < 0x100)
                              && 0x00 in s && 0x30 in s && 0x91 in s && 0x01 !in s && 0x92 !in s
    witness {0x00, 0x30, 0x91}

  /** The members of VirtualKey. The enumeration is not part of this model, so this is
      any set of the type above, and every property below holds for each of them. */
  const VirtualKeys: KeySet

  /** `Enum.IsDefined(typeof(VirtualKey), v)`. */
  predicate IsDefinedVirtualKey(v: int)
  {
    v in VirtualKeys
  }

  /** The members the tests name (None, Number0, ScrollLock) and the codes they use as
      undefined (-1, 0x01, 0x92). */
  lemma VirtualKeyFacts()
    ensures IsDefinedVirtualKey(0x00) && IsDefinedVirtualKey(0x30) && IsDefinedVirtualKey(0x91)
    ensures !IsDefinedVirtualKey(-1) && !IsDefinedVirtualKey(0x01) && !IsDefinedVirtualKey(0x92)
  {
  }

  predicate ValidModifierKeys(m: int) { MinModifierKeys <= m <= MaxModifierKeys }

  /** `(ushort)x`: the low 16 bits. */
  function ToUShort(x: int): (r: int)
    ensures 0 <= r < 0x1_0000
    ensures 0 <= x < 0x1_0000 ==> r == x
  {
    x % 0x1_0000
  }

  /** `SetRawData`: `(ushort)((mKey << 8) + vKey)`; the shift is a multiplication for
      the validated modifier values. */
  function Pack(m: int, v: int): int
  {
    ToUShort(m * 256 + v)
  }

  /** The two parts of a hotkey. */
  datatype Keys = Keys(modifierKeys: int, virtualKey: int)

  predicate ValidKeys(k: Keys)
  {
    ValidModifierKeys(k.modifierKeys) && IsDefinedVirtualKey(k.virtualKey)
  }

  /** The checks of `new HotKey(key)`: range, then (for a nonzero key) the high byte,
      then the low byte. Zero is the None hotkey and is not checked further. */
  function CheckKey(key: int): (r: Result<Keys>)
    ensures r == Err(ArgumentOutOfRange) <==> key < 0 || key > 0xFFFF
    ensures key == 0 ==> r == Ok(Keys(MinModifierKeys, 0x00))
    ensures 0 < key <= 0xFFFF ==>
              (r.Ok? <==> key / 256 <= MaxModifierKeys && IsDefinedVirtualKey(key % 256))
    ensures 0 <= key <= 0xFFFF && r.Err? ==> r.error == Argument
    ensures r.Ok? ==> ValidKeys(r.value) && Pack(r.value.modifierKeys, r.value.virtualKey) == key
  {
    if key < 0 || key > 0xFFFF then Err(ArgumentOutOfRange)
    else if key == 0 then Ok(Keys(MinModifierKeys, 0x00))
    else
      var m := key / 256;
      var v := key % 256;
      if m > MaxModifierKeys || !IsDefinedVirtualKey(v) then Err(Argument)
      else Ok(Keys(m, v))
  }

  /** A valid pair packs into a word of at most 0x06FF, so the cast to ushort never
      drops a bit, and the pair reads back from the word. */
  lemma PackRoundTrip(k: Keys)
    requires ValidKeys(k)
    ensures 0 <= k.modifierKeys * 256 + k.virtualKey <= 0x06FF
    ensures Pack(k.modifierKeys, k.virtualKey) == k.modifierKeys * 256 + k.virtualKey
    ensures CheckKey(Pack(k.modifierKeys, k.virtualKey)) == Ok(k)
  {
    VirtualKeyIsByte(k.virtualKey);
    SplitWord(k.modifierKeys, k.virtualKey);
  }

  /** Every virtual key is a byte. */
  lemma VirtualKeyIsByte(v: int)
    requires IsDefinedVirtualKey(v)
    ensures 0 <= v < 0x100
  {
  }

  /** The high and low bytes of `m * 256 + v`. */
  lemma SplitWord(m: int, v: int)
    requires 0 <= m && 0 <= v < 0x100
    ensures (m * 256 + v) / 256 == m && (m * 256 + v) % 256 == v
  {
  }

  /** The word determines the pair. */
  lemma PackInjective(a: Keys, b: Keys)
    requires ValidKeys(a) && ValidKeys(b)
    requires Pack(a.modifierKeys, a.virtualKey) == Pack(b.modifierKeys, b.virtualKey)
    ensures a == b
  {
    PackRoundTrip(a);
    PackRoundTrip(b);
  }

  /** Only the None pair packs to zero. */
  lemma PackZero(k: Keys)
    requires ValidKeys(k)
    ensures Pack(k.modifierKeys, k.virtualKey) == 0 <==> k == Keys(0, 0)
  {
    PackRoundTrip(k);
  }

  /** The names of the set modifier bits in ascending bit order. */
  function ModifierNames(m: int): seq<string>
    requires ValidModifierKeys(m)
  {
    (if m % 2 == 1 then ["Shift"] else [])
    + (if (m / 2) % 2 == 1 then ["Control"] else [])
    + (if m / 4 == 1 then ["Alt"] else [])
  }

  function JoinPlus(names: seq<string>): string
  {
    if |names| == 0 then ""
    else if |names| == 1 then names[0]
    else names[0] + "+" + JoinPlus(names[1..])
  }

  /** `ModifierKeys.ToString().Replace(", ", "+")`: "None" for no modifier, otherwise
      the names of the set modifiers joined by "+". */
  function ModifierText(m: int): string
    requires ValidModifierKeys(m)
  {
    if m == 0 then "None" else JoinPlus(ModifierNames(m))
  }

  /** What the text of each modifier set is; in particular it names Shift, Control
      and Alt in that order and never repeats one. */
  lemma ModifierTexts()
    ensures ModifierText(0) == "None"
    ensures ModifierText(1) == "Shift"
    ensures ModifierText(2) == "Control"
    ensures ModifierText(3) == "Shift+Control"
    ensures ModifierText(4) == "Alt"
    ensures ModifierText(5) == "Shift+Alt"
    ensures ModifierText(6) == "Control+Alt"
  {
    assert ModifierNames(3) == ["Shift", "Control"];
    assert ModifierNames(5) == ["Shift", "Alt"];
    assert ModifierNames(6) == ["Control", "Alt"];
  }

  /** Different modifier sets have different texts. */
  lemma ModifierTextInjective(a: int, b: int)
    requires ValidModifierKeys(a) && ValidModifierKeys(b)
    requires ModifierText(a) == ModifierText(b)
    ensures a == b
  {
    ModifierTexts();
  }

  /** The hotkey object. The private fields `_modifierKeys`, `_virtualKey` and
      `_rawData` are read through the properties ModifierKeys, VirtualKey and RawData. */
  class HotKey {
    var modifierKeys: int
    var virtualKey: int
    var rawData: int

    /** The invariant every constructor and setter keeps: valid parts, and the word
        is the high byte followed by the low byte (PackRoundTrip: that is what
        `SetRawData` computes, the cast to ushort dropping nothing). */
    ghost predicate Valid()
      reads this
    {
      ValidKeys(Keys(modifierKeys, virtualKey)) && rawData == modifierKeys * 256 + virtualKey
    }

    /** `new HotKey()`: no modifier, no key. */
    constructor ()
      ensures Valid()
      ensures modifierKeys == MinModifierKeys && virtualKey == 0x00 && rawData == 0
    {
      modifierKeys, virtualKey, rawData := MinModifierKeys, 0x00, 0;
    }

    /** `HotKey.None`: a new None hotkey on every read. */
    static method None() returns (h: HotKey)
      ensures fresh(h) && h.Valid() && h.rawData == 0
    {
      h := new HotKey();
    }

    /** `new HotKey(int key)`: the range check, then SetKeys. */
    static method FromKey(key: int) returns (r: Result<HotKey>)
      ensures r.Err? <==> CheckKey(key).Err?
      ensures r.Err? ==> r.error == CheckKey(key).error
      ensures r.Ok? ==> fresh(r.value) && r.value.Valid() && r.value.rawData == key
      ensures r.Ok? ==> Keys(r.value.modifierKeys, r.value.virtualKey) == CheckKey(key).value
    {
      if 0 <= key <= 0xFFFF {
        var h := new HotKey();
        var o := h.SetKeys(key);
        r := if o.Failed? then Err(o.error) else Ok(h);
      } else {
        r := Err(ArgumentOutOfRange);
      }
    }

    /** `SetKeys`: a zero key keeps the fields; otherwise the high byte must be a
        modifier set and the low byte a defined virtual key, and only then are the
        three fields written. */
    method SetKeys(key: int) returns (o: Outcome)
      requires 0 <= key <= 0xFFFF
      requires Valid()
      modifies this
      ensures Valid()
      ensures o.Done? <==> CheckKey(key).Ok?
      ensures o.Failed? ==> o.error == CheckKey(key).error && unchanged(this)
      ensures key == 0 ==> unchanged(this)
      ensures key != 0 && o.Done? ==>
                Keys(modifierKeys, virtualKey) == CheckKey(key).value && rawData == key
    {
      if key == 0 {
        return Done;
      }
      var mKey := key / 256;
      if mKey > MaxModifierKeys {
        return Failed(Argument);
      }
      var vKey := key % 256;
      if !IsDefinedVirtualKey(vKey) {
        return Failed(Argument);
      }
      PackRoundTrip(Keys(mKey, vKey));
      modifierKeys := mKey;
      virtualKey := vKey;
      rawData := ToUShort(key);
      return Done;
    }

    /** The ModifierKeys setter: out-of-range values fail before any field changes;
        otherwise the word is repacked with the current virtual key. */
    method SetModifierKeys(value: int) returns (o: Outcome)
      requires Valid()
      modifies this
      ensures Valid()
      ensures o.Failed? <==> !ValidModifierKeys(value)
      ensures o.Failed? ==> o.error == ArgumentOutOfRange && unchanged(this)
      ensures o.Done? ==> modifierKeys == value && virtualKey == old(virtualKey)
      ensures o.Done? ==> rawData == value * 256 + old(virtualKey)
    {
      if value < MinModifierKeys || value > MaxModifierKeys {
        return Failed(ArgumentOutOfRange);
      }
      PackRoundTrip(Keys(value, virtualKey));
      rawData := Pack(value, virtualKey);
      modifierKeys := value;
      return Done;
    }

    /** The VirtualKey setter: undefined codes fail before any field changes;
        otherwise the word is repacked with the current modifier keys. */
    method SetVirtualKey(value: int) returns (o: Outcome)
      requires Valid()
      modifies this
      ensures Valid()
      ensures o.Failed? <==> !IsDefinedVirtualKey(value)
      ensures o.Failed? ==> o.error == InvalidEnumArgument && unchanged(this)
      ensures o.Done? ==> virtualKey == value && modifierKeys == old(modifierKeys)
      ensures o.Done? ==> rawData == old(modifierKeys) * 256 + value
    {
      if !IsDefinedVirtualKey(value) {
        return Failed(InvalidEnumArgument);
      }
      PackRoundTrip(Keys(modifierKeys, value));
      rawData := Pack(modifierKeys, value);
      virtualKey := value;
      return Done;
    }

    /** `ToString()`: "None" exactly for the zero word; otherwise the modifier text,
        "+", and the name of the virtual key (`keyName` stands for VirtualKey's member
        names, which are not part of this model). */
    function ToString(keyName: int -> string): (s: string)
      reads this
      requires Valid()
      ensures s == "None" <==> rawData == 0
      ensures rawData != 0 ==> s == ModifierText(modifierKeys) + "+" + keyName(virtualKey)
    {
      PackZero(Keys(modifierKeys, virtualKey));
      if rawData == 0 then "None"
      else
        var t := ModifierText(modifierKeys) + "+" + keyName(virtualKey);
        assert t[|ModifierText(modifierKeys)|] == '+';
        assert '+' !in "None";
        t
    }
  }

  /** The cases the library's tests check: out-of-range words, words whose high or low
      byte is not valid, and words that decode into a modifier set and a key. */
  lemma CheckKeyExamples()
    ensures CheckKey(-1) == Err(ArgumentOutOfRange) && CheckKey(0x1_0000) == Err(ArgumentOutOfRange)
    ensures CheckKey(0x0700) == Err(Argument)
    ensures CheckKey(0x0001) == Err(Argument) && CheckKey(0x0092) == Err(Argument)
    ensures CheckKey(0) == Ok(Keys(ModifierNone, 0x00))
    ensures CheckKey(0x0330) == Ok(Keys(Shift + Control, 0x30))
    ensures Pack(Control + Alt, 0x91) == 0x0691
  {
    VirtualKeyFacts();
    PackRoundTrip(Keys(Shift + Control, 0x30));
  }

  /** Setting the modifier keys and then the virtual key of a new hotkey, as an object
      initializer does, yields the packed word. */
  method SetKeysExample() returns (h: HotKey)
    ensures h.Valid() && h.rawData == 0x0691
  {
    h := new HotKey();
    VirtualKeyFacts();
    var o1 := h.SetModifierKeys(Control + Alt);
    var o2 := h.SetVirtualKey(0x91);
  }
}
