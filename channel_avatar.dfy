/**
 * The channel avatar (components/ChannelAvatar.tsx): an initial taken from the
 * channel's title or handle, on a background colour picked by a 32-bit string hash;
 * a default icon when no initial qualifies.
 */
module ChannelAvatar {
  import opened Wrappers
  import JsText

  /** `channelTitle || channel`: the text the avatar is titled with and hashed from. */
  function DisplayText(channelTitle: string, channel: string): (r: string)
    ensures channelTitle != "" ==> r == channelTitle
    ensures channelTitle == "" ==> r == channel
  {
    if channelTitle != "" then channelTitle else channel
  }

  /** `s.charAt(0).toUpperCase()` with ASCII upper-casing; `None` for the empty string. */
  function UpperFirst(s: string): (r: Option<char>)
    ensures r.Some? <==> s != []
    ensures r.Some? ==> r.value == JsText.AsciiUpper(s[0])
  {
    if s == [] then None else Some(JsText.AsciiUpper(s[0]))
  }

  /** `s.replace(/^[@#]/, '')`: one leading `@` or `#` removed. */
  function DropMarker(s: string): (r: string)
    ensures s != [] && (s[0] == '@' || s[0] == '#') ==> r == s[1..]
    ensures !(s != [] && (s[0] == '@' || s[0] == '#')) ==> r == s
  {
    if s != [] && (s[0] == '@' || s[0] == '#') then s[1..] else s
  }

  /** The initial the title offers: its trimmed, upper-cased first character if a CJK character or a letter. */
  function TitleInitial(channelTitle: string): (r: Option<char>)
    ensures r.Some? <==> var t := JsText.Trim(channelTitle);
      t != [] && (JsText.IsCjk(t[0]) || JsText.IsAsciiLetter(t[0]))
    ensures r.Some? ==> r.value == JsText.AsciiUpper(JsText.Trim(channelTitle)[0])
  {
    match UpperFirst(JsText.Trim(channelTitle))
    case Some(c) => if JsText.IsCjk(c) || JsText.IsAsciiLetter(c) then Some(c) else None
    case None => None
  }

  /** The initial the handle offers: after the marker and surrounding whitespace go, a letter only. */
  function ChannelInitial(channel: string): (r: Option<char>)
    ensures r.Some? <==> var h := JsText.Trim(DropMarker(channel));
      h != [] && JsText.IsAsciiLetter(h[0])
    ensures r.Some? ==> r.value == JsText.AsciiUpper(JsText.Trim(DropMarker(channel))[0])
    ensures r.Some? ==> JsText.IsAsciiUpper(r.value)
  {
    match UpperFirst(JsText.Trim(DropMarker(channel)))
    case Some(c) => if JsText.IsAsciiLetter(c) then Some(c) else None
    case None => None
  }

  /** `getInitial`: the title's initial, else the handle's, else none (the default icon). */
  function GetInitial(channelTitle: string, channel: string): (r: Option<char>)
    ensures r.Some? ==> JsText.IsAsciiUpper(r.value) || JsText.IsCjk(r.value)
    ensures channelTitle == "" ==> r.None? || JsText.IsAsciiUpper(r.value)
    ensures channelTitle == "" && channel == "" ==> r == None
    ensures TitleInitial(channelTitle).Some? ==> r == TitleInitial(channelTitle)
    ensures TitleInitial(channelTitle).None? ==> r == (if channel != "" then ChannelInitial(channel) else None)
  {
    var fromTitle := if channelTitle != "" then TitleInitial(channelTitle) else None;
    if fromTitle.Some? then fromTitle
    else if channel != "" then ChannelInitial(channel)
    else None
  }

  const Two32: int := 0x1_0000_0000
  const Two31: int := 0x8000_0000

  /** ECMAScript ToInt32 of an integral number: the representative of `x` modulo 2^32 in [-2^31, 2^31). */
  function ToInt32(x: int): (r: int)
    ensures -Two31 <= r < Two31
    ensures (x - r) % Two32 == 0
  {
    var m := x % Two32;
    if m >= Two31 then m - Two32 else m
  }

  /** `h << 5`: both the operand and the result are 32-bit signed. */
  function ShiftLeft5(h: int): (r: int)
    ensures -Two31 <= r < Two31
    ensures (r - 32 * h) % Two32 == 0
  {
    var t := ToInt32(h);
    var r := ToInt32(t * 32);
    ScaledCongruence(h, t, r);
    r
  }

  /** If `t ≡ h` and `r ≡ 32·t` modulo 2^32, then `r ≡ 32·h`. */
  lemma ScaledCongruence(h: int, t: int, r: int)
    requires (h - t) % Two32 == 0 && (t * 32 - r) % Two32 == 0
    ensures (r - 32 * h) % Two32 == 0
  {
    var q1, q2 := (h - t) / Two32, (t * 32 - r) / Two32;
    assert h - t == Two32 * q1;
    assert t * 32 - r == Two32 * q2;
    assert r - 32 * h == Two32 * (-q2 - 32 * q1);
  }

  /** One step of the loop: `hash = code + ((hash << 5) - hash)`, exact in a double while |hash| < 2^53. */
  function HashStep(h: int, c: char): int {
    c as int + (ShiftLeft5(h) - h)
  }

  /** The hash of a string: the step folded over its characters from the left, starting at 0. */
  function Hash(s: string): int {
    if s == [] then 0 else HashStep(Hash(s[..|s| - 1]), s[|s| - 1])
  }

  function Abs(x: int): nat {
    if x < 0 then -x else x
  }

  const Palette: seq<string> := [
    "bg-indigo-500", "bg-purple-500", "bg-pink-500", "bg-red-500", "bg-orange-500",
    "bg-yellow-500", "bg-green-500", "bg-teal-500", "bg-blue-500", "bg-cyan-500"]

  /** `Math.abs(hash) % colors.length`. */
  function ColourIndex(text: string): (i: nat)
    ensures i < |Palette|
  {
    Abs(Hash(text)) % |Palette|
  }

  /** `getBackgroundColor`. */
  method GetBackgroundColor(channelTitle: string, channel: string) returns (colour: string)
    ensures colour == Palette[ColourIndex(DisplayText(channelTitle, channel))]
    ensures colour in Palette
  {
    var text := DisplayText(channelTitle, channel);
    var hash := 0;
    for i := 0 to |text|
      invariant hash == Hash(text[..i])
    {
      assert text[..i + 1][..i] == text[..i];
      hash := text[i] as int + (ShiftLeft5(hash) - hash);
    }
    assert text[..|text|] == text;
    colour := Palette[Abs(hash) % |Palette|];
  }

  /** What the avatar shows. */
  datatype AvatarView = Letter(initial: char, colour: string, title: string) | DefaultIcon(title: string)

  /** The component's render: a coloured initial when one qualifies, else the default icon. */
  method Render(channelTitle: string, channel: string) returns (view: AvatarView)
    ensures view.title == DisplayText(channelTitle, channel)
    ensures view.Letter? <==> GetInitial(channelTitle, channel).Some?
    ensures view.Letter? ==> view.initial == GetInitial(channelTitle, channel).value
    ensures view.Letter? ==> view.colour == Palette[ColourIndex(DisplayText(channelTitle, channel))]
  {
    var initial := GetInitial(channelTitle, channel);
    if initial.Some? {
      var colour := GetBackgroundColor(channelTitle, channel);
      view := Letter(initial.value, colour, DisplayText(channelTitle, channel));
    } else {
      view := DefaultIcon(DisplayText(channelTitle, channel));
    }
  }

  /** The largest a character code can be plus the largest a 32-bit shift can be. */
  const StepBound: int := 0x11_0000 + Two31

  /**
   * Each character adds at most `StepBound` to the magnitude of the hash: the new hash
   * is the character code plus a 32-bit value minus the old hash. So for any string
   * shorter than 2^21 characters every intermediate hash stays below 2^53 in magnitude
   * and the double arithmetic of the source is exact.
   */
  lemma {:induction false} HashMagnitude(s: string)
    ensures Abs(Hash(s)) <= |s| * StepBound
  {
    if s != [] {
      var p := s[..|s| - 1];
      HashMagnitude(p);
      assert Hash(s) == s[|s| - 1] as int + ShiftLeft5(Hash(p)) - Hash(p);
      assert (s[|s| - 1] as int) < 0x11_0000;
      assert |p| * StepBound + StepBound == |s| * StepBound;
    }
  }

  /** An empty text hashes to 0 and gets the first colour. */
  lemma EmptyTextIsIndigo()
    ensures Hash("") == 0 && Palette[ColourIndex("")] == "bg-indigo-500"
  {
  }

  /** The colour depends on the title alone whenever there is one. */
  lemma ColourIgnoresChannelWhenTitled(channelTitle: string, channel1: string, channel2: string)
    requires channelTitle != ""
    ensures ColourIndex(DisplayText(channelTitle, channel1)) == ColourIndex(DisplayText(channelTitle, channel2))
  {
  }

  /** "@news" with no title shows "N": the marker goes before the letter test. */
  lemma HandleMarkerDropped()
    ensures GetInitial("", "@news") == Some('N')
  {
    assert DropMarker("@news") == "news";
    assert JsText.Trim("news") == "news" by {
      JsText.TrimKeepsInner("news");
    }
  }
}
