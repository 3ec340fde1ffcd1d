/**
 * The landing page's small pieces of logic: the testimonial avatar (initials
 * from the space-separated parts of a name, a colour picked by the first
 * character code modulo the palette size), the row of rating stars, and the
 * mobile menu toggle.
 */
module Avatar {
  import opened Wrappers

  // ---------------------------------------------------------------------------
  // Splitting on spaces
  // ---------------------------------------------------------------------------

  /** `s.split(' ')`: the pieces between single spaces, empty ones included; never an empty list. */
  function SplitOnSpace(s: string): (parts: seq<string>)
    ensures |parts| >= 1
    ensures forall i :: 0 <= i < |parts| ==> ' ' !in parts[i]
  {
    if |s| == 0 then [""]
    else if s[0] == ' ' then [""] + SplitOnSpace(s[1..])
    else
      var rest := SplitOnSpace(s[1..]);
      [[s[0]] + rest[0]] + rest[1..]
  }

  /** `parts.join(' ')`. */
  function JoinWithSpace(parts: seq<string>): string
    requires |parts| >= 1
  {
    if |parts| == 1 then parts[0] else parts[0] + " " + JoinWithSpace(parts[1..])
  }

  /** Joining the pieces with spaces gives the original text back. */
  lemma {:induction false} SplitJoinRoundTrip(s: string)
    ensures JoinWithSpace(SplitOnSpace(s)) == s
  {
    if |s| == 0 {
    } else if s[0] == ' ' {
      var rest := SplitOnSpace(s[1..]);
      SplitJoinRoundTrip(s[1..]);
      assert ([""] + rest)[1..] == rest;
      assert s == " " + s[1..];
    } else {
      var rest := SplitOnSpace(s[1..]);
      SplitJoinRoundTrip(s[1..]);
      var parts := [[s[0]] + rest[0]] + rest[1..];
      if |rest| == 1 {
        assert s == [s[0]] + s[1..];
      } else {
        assert parts[1..] == rest[1..];
        assert JoinWithSpace(rest) == rest[0] + " " + JoinWithSpace(rest[1..]);
        assert s == [s[0]] + s[1..];
      }
    }
  }

  // ---------------------------------------------------------------------------
  // Initials
  // ---------------------------------------------------------------------------

  /** `n[0]` rendered by `join`: the first character, or nothing for an empty piece. */
  function Head(part: string): string {
    if part == [] then [] else [part[0]]
  }

  /** `parts.map(n => n[0]).join('')`. */
  function Heads(parts: seq<string>): (initials: string)
    ensures |initials| <= |parts|
    ensures (forall i :: 0 <= i < |parts| ==> ' ' !in parts[i]) ==> ' ' !in initials
  {
    if |parts| == 0 then [] else Head(parts[0]) + Heads(parts[1..])
  }

  /** The avatar text: no spaces, and at most one character per space-separated piece. */
  function Initials(name: string): (initials: string)
    ensures ' ' !in initials
    ensures |initials| <= |SplitOnSpace(name)|
  {
    Heads(SplitOnSpace(name))
  }

  /**
   * A reference reading of the initials: every non-space character that
   * opens the text or follows a space, in order. `atStart` says whether the
   * position before `s` counts as a word boundary.
   */
  function WordStarts(s: string, atStart: bool): (starts: string)
    ensures forall i :: 0 <= i < |starts| ==> starts[i] != ' '
  {
    if |s| == 0 then []
    else if s[0] == ' ' then WordStarts(s[1..], true)
    else (if atStart then [s[0]] else []) + WordStarts(s[1..], false)
  }

  /** The first piece contributes the first character, unless the text is empty or opens with a space. */
  lemma FirstPieceHead(s: string)
    ensures Head(SplitOnSpace(s)[0]) == if |s| > 0 && s[0] != ' ' then [s[0]] else []
  {
  }

  /** The pieces after the first contribute exactly the word starts after position 0. */
  lemma {:induction false} LaterPiecesHeads(s: string)
    ensures Heads(SplitOnSpace(s)[1..]) == WordStarts(s, false)
  {
    if |s| == 0 {
    } else if s[0] == ' ' {
      var rest := SplitOnSpace(s[1..]);
      assert SplitOnSpace(s)[1..] == rest;
      LaterPiecesHeads(s[1..]);
      FirstPieceHead(s[1..]);
      assert rest == [rest[0]] + rest[1..];
    } else {
      var rest := SplitOnSpace(s[1..]);
      assert SplitOnSpace(s)[1..] == rest[1..];
      LaterPiecesHeads(s[1..]);
    }
  }

  /**
   * The initials are the characters that start a word, in order: empty pieces
   * from leading, trailing or repeated spaces contribute nothing.
   */
  lemma {:induction false} InitialsAreWordStarts(name: string)
    ensures Initials(name) == WordStarts(name, true)
  {
    var parts := SplitOnSpace(name);
    assert parts == [parts[0]] + parts[1..];
    FirstPieceHead(name);
    LaterPiecesHeads(name);
  }

  // ---------------------------------------------------------------------------
  // Colour
  // ---------------------------------------------------------------------------

  const Colors: seq<string> := [
    "bg-gradient-to-br from-blue-500 to-purple-600",
    "bg-gradient-to-br from-green-500 to-blue-600",
    "bg-gradient-to-br from-purple-500 to-pink-600",
    "bg-gradient-to-br from-orange-500 to-red-600",
    "bg-gradient-to-br from-teal-500 to-cyan-600"]

  /**
   * `charCodeAt(0)` reads a UTF-16 code unit: a character beyond the basic
   * plane yields its high surrogate.
   */
  function FirstCodeUnit(c: char): (unit: nat)
    ensures unit < 0x1_0000
    ensures c as int < 0x1_0000 ==> unit == c as int
    ensures c as int >= 0x1_0000 ==>
      && 0xD800 <= unit < 0xDC00
      && 0x1_0000 + (unit - 0xD800) * 0x400 <= c as int < 0x1_0000 + (unit - 0xD800 + 1) * 0x400
  {
    if c as int < 0x1_0000 then c as int else 0xD800 + (c as int - 0x1_0000) / 0x400
  }

  /**
   * `name.charCodeAt(0) % colors.length`. An empty name gives NaN, which
   * indexes no colour: `None`.
   */
  function ColorIndex(name: string): (index: Option<nat>)
    ensures index.Some? <==> name != ""
    ensures index.Some? ==> index.value < |Colors|
  {
    if name == "" then None else Some(FirstCodeUnit(name[0]) % |Colors|)
  }

  /** Names that open with the same character share a colour. */
  lemma SameFirstCharSameColor(a: string, b: string)
    requires a != "" && b != "" && a[0] == b[0]
    ensures ColorIndex(a) == ColorIndex(b)
  {
  }

  // ---------------------------------------------------------------------------
  // Testimonials and the menu
  // ---------------------------------------------------------------------------

  datatype Testimonial = Testimonial(name: string, role: string, company: string, rating: nat)

  const Testimonials: seq<Testimonial> := [
    Testimonial("Sarah Johnson", "Senior Trader", "Goldman Sachs", 5),
    Testimonial("Marcus Chen", "Portfolio Manager", "JP Morgan", 5),
    Testimonial("Elena Rodriguez", "Quantitative Analyst", "Citadel", 5)]

  /** `[...Array(rating)].map((_, i) => <Star key={i}/>)`: one star per point, keyed 0 up. */
  function StarKeys(rating: nat): (keys: seq<nat>)
    ensures |keys| == rating
    ensures forall i :: 0 <= i < |keys| ==> keys[i] == i
  {
    seq(rating, i requires 0 <= i < rating => i)
  }

  /** Every testimonial shows five stars. */
  lemma TestimonialStars()
    ensures forall t :: t in Testimonials ==> |StarKeys(t.rating)| == 5
  {
  }

  /** A word without spaces holds no word start unless it opens at a boundary. */
  lemma {:induction false} InsideWordNoStarts(word: string, rest: string)
    requires ' ' !in word
    ensures WordStarts(word + rest, false) == WordStarts(rest, false)
  {
    if word == [] {
      assert word + rest == rest;
    } else {
      assert (word + rest)[0] == word[0] != ' ';
      assert (word + rest)[1..] == word[1..] + rest;
      InsideWordNoStarts(word[1..], rest);
    }
  }

  /** A first and a last name give the two capitals a reader expects. */
  lemma {:induction false} TwoWordInitials(first: string, last: string)
    requires first != [] && last != [] && ' ' !in first && ' ' !in last
    ensures Initials(first + " " + last) == [first[0], last[0]]
  {
    var name := first + " " + last;
    InitialsAreWordStarts(name);
    assert name[1..] == first[1..] + (" " + last);
    InsideWordNoStarts(first[1..], " " + last);
    assert (" " + last)[1..] == last;
    assert last[1..] + [] == last[1..];
    InsideWordNoStarts(last[1..], []);
  }

  /** The first testimonial's avatar reads "SJ". */
  lemma SarahInitials()
    ensures Initials(Testimonials[0].name) == "SJ"
  {
    assert Testimonials[0].name == "Sarah" + " " + "Johnson";
    TwoWordInitials("Sarah", "Johnson");
  }

  /** The second testimonial's avatar reads "MC". */
  lemma MarcusInitials()
    ensures Initials(Testimonials[1].name) == "MC"
  {
    assert Testimonials[1].name == "Marcus" + " " + "Chen";
    TwoWordInitials("Marcus", "Chen");
  }

  /** The third testimonial's avatar reads "ER". */
  lemma ElenaInitials()
    ensures Initials(Testimonials[2].name) == "ER"
  {
    assert Testimonials[2].name == "Elena" + " " + "Rodriguez";
    TwoWordInitials("Elena", "Rodriguez");
  }

  /** The menu button flips `isMenuOpen`. */
  function MenuToggled(isMenuOpen: bool): bool {
    !isMenuOpen
  }

  datatype MenuIcon = MenuBars | CloseX

  /** The mobile menu is rendered while the menu is open. */
  function MobileMenuShown(isMenuOpen: bool): bool {
    isMenuOpen
  }

  /** The menu button's icon: a close mark while open, bars otherwise. */
  function MenuButtonIcon(isMenuOpen: bool): MenuIcon {
    if isMenuOpen then CloseX else MenuBars
  }

  /**
   * The page mounts with the menu closed and the bars icon; two presses
   * restore the state, one press shows or hides the menu, and the close icon
   * shows exactly while the menu does.
   */
  lemma MenuToggleCycle(isMenuOpen: bool)
    ensures MenuToggled(MenuToggled(isMenuOpen)) == isMenuOpen
    ensures MobileMenuShown(MenuToggled(isMenuOpen)) != MobileMenuShown(isMenuOpen)
    ensures MenuButtonIcon(isMenuOpen) == CloseX <==> MobileMenuShown(isMenuOpen)
    ensures !MobileMenuShown(false) && MenuButtonIcon(false) == MenuBars
  {
  }
}
