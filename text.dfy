/** String helpers the core relies on: `IndexOf`, the character buffers that the
    shell-link interfaces fill, and the trimming of such a buffer at its first NUL. */
module Text {
  import opened Errors

  /** `Kernel32.MAX_PATH`: the capacity of the path buffers. */
  const MAX_PATH: nat := 260

  type Capacity = n: nat | n > 0 witness 1

  /** `Comctl32.INFOTIPSIZE`: the capacity of the argument and description buffers.
      Its value is not part of this model; only its being positive is used. */
  const INFOTIPSIZE: Capacity

  const NUL: char := '\0'

  /** `s.IndexOf(c)`: the position of the first `c` in `s`, or -1 when there is none. */
  function IndexOf(s: string, c: char): (i: int)
    ensures -1 <= i < |s|
    ensures i == -1 <==> c !in s
    ensures 0 <= i ==> s[i] == c && c !in s[..i]
  {
    if |s| == 0 then -1
    else if s[0] == c then 0
    else
      var j := IndexOf(s[1..], c);
      assert s[1..][..if j < 0 then 0 else j] == s[1..if j < 0 then 1 else j + 1];
      if j < 0 then -1 else j + 1
  }

  /** IndexOf is the one position holding `c` with no `c` before it. */
  lemma {:induction false} IndexOfUnique(s: string, c: char, i: nat)
    requires i < |s| && s[i] == c && c !in s[..i]
    ensures IndexOf(s, c) == i
  {
    if i > 0 {
      assert s[..i][0] == s[0];
      assert s[1..][..i - 1] == s[1..i];
      IndexOfUnique(s[1..], c, i - 1);
    }
  }

  /** The first `c` of `p + [c] + t` is the one right after `p` when `p` holds none. */
  lemma IndexOfAfterPrefix(p: string, c: char, t: string)
    requires c !in p
    ensures IndexOf(p + [c] + t, c) == |p|
  {
    var s := p + [c] + t;
    assert s[..|p|] == p;
    IndexOfUnique(s, c, |p|);
  }

  /** A text is what comes before position `i`, the character there, and what follows. */
  lemma SplitAt(t: string, i: nat)
    requires i < |t|
    ensures t == t[..i] + [t[i]] + t[i + 1..]
  {
  }

  /** `buffer.Slice(0, buffer.IndexOf('\0')).ToString()`: the text before the first
      NUL. With no NUL, IndexOf gives -1 and Slice throws ArgumentOutOfRangeException. */
  function TrimAtNul(buffer: seq<char>): (r: Result<string>)
    ensures r.Err? <==> NUL !in buffer
    ensures r.Err? ==> r.error == ArgumentOutOfRange
    ensures r.Ok? ==> NUL !in r.value && |r.value| < |buffer|
    ensures r.Ok? ==> buffer[..|r.value|] == r.value && buffer[|r.value|] == NUL
  {
    var i := IndexOf(buffer, NUL);
    if i < 0 then Err(ArgumentOutOfRange) else Ok(buffer[..i])
  }

  function Nuls(n: nat): (z: seq<char>)
    ensures |z| == n && forall i :: 0 <= i < n ==> z[i] == NUL
  {
    seq(n, _ => NUL)
  }

  /** How the shell-link interfaces answer a `Get...(buffer, capacity)` call: they copy
      as much of the text as fits in `capacity - 1` characters and terminate it with NUL.
      A text never set (`null`) reads as the empty text. */
  function FillBuffer(text: Option<string>, capacity: nat): (buffer: seq<char>)
    ensures |buffer| == capacity
    ensures capacity > 0 ==> buffer[capacity - 1] == NUL
    ensures text.Some? && |text.value| < capacity ==> buffer[..|text.value|] == text.value
  {
    if capacity == 0 then []
    else
      var t := if text.Some? then text.value else "";
      var n := if |t| < capacity then |t| else capacity - 1;
      t[..n] + Nuls(capacity - n)
  }

  /** The text a getter keeps from a filled buffer of `capacity` characters: what fits
      in `capacity - 1` characters, cut at its first NUL. */
  function Fetched(text: Option<string>, capacity: Capacity): (s: string)
    ensures NUL !in s && |s| < capacity
    ensures text.Some? ==> s <= text.value
    ensures text.None? ==> s == ""
    ensures text.Some? && NUL !in text.value && |text.value| < capacity ==> s == text.value
  {
    var t := if text.Some? then text.value else "";
    var cut := if |t| < capacity then t else t[..capacity - 1];
    var i := IndexOf(cut, NUL);
    if i < 0 then cut else cut[..i]
  }

  /** Trimming the buffer a getter had filled gives `Fetched`: the getters never meet a
      buffer without NUL, so their `Slice` never throws. */
  lemma FetchedIsTrimmed(text: Option<string>, capacity: Capacity)
    ensures TrimAtNul(FillBuffer(text, capacity)) == Ok(Fetched(text, capacity))
  {
    var buffer := FillBuffer(text, capacity);
    var t := if text.Some? then text.value else "";
    var n := if |t| < capacity then |t| else capacity - 1;
    var cut := t[..n];
    assert buffer == cut + Nuls(capacity - n);
    assert buffer[..n] == cut;
    var i := IndexOf(cut, NUL);
    if i < 0 {
      IndexOfUnique(buffer, NUL, n);
      assert Fetched(text, capacity) == cut;
    } else {
      assert buffer[..i] == cut[..i];
      IndexOfUnique(buffer, NUL, i);
    }
  }
}
