/** The seven-segment character codes and the display write (src/segment_display.rs).

    A code byte is active low: a cleared bit lights its segment, so 0xFF is blank.
    The bits are, from the top, `.GFE_DCBA`: the decimal point, then segments G to A. */
module SegmentDisplay {
  import opened Wrappers
  import opened Remote
  import opened ShiftRegisters

  // ---------------------------------------------------------------
  // Segments
  // ---------------------------------------------------------------

  datatype Segment = A | B | C | D | E | F | G | Dot

  /** The bit of a code byte that drives a segment. */
  function Mask(s: Segment): bv8
  {
    match s
    case A => 0x01
    case B => 0x02
    case C => 0x04
    case D => 0x08
    case E => 0x10
    case F => 0x20
    case G => 0x40
    case Dot => 0x80
  }

  /** Active low: a segment is lit when its bit is clear. */
  predicate Lights(code: bv8, s: Segment)
  {
    code & Mask(s) == 0
  }

  const AllSegments: set<Segment> := {A, B, C, D, E, F, G, Dot}

  /** The segments a code byte lights: those whose bit is clear. */
  function Lit(code: bv8): (lit: set<Segment>)
    ensures forall s | s in AllSegments :: s in lit <==> Lights(code, s)
    ensures lit <= AllSegments
  {
    set s | s in AllSegments && Lights(code, s)
  }

  /** The code that lights exactly the given segments. */
  function Encode(lit: set<Segment>): bv8
  {
    (if A in lit then 0 else 0x01) | (if B in lit then 0 else 0x02) | (if C in lit then 0 else 0x04)
    | (if D in lit then 0 else 0x08) | (if E in lit then 0 else 0x10) | (if F in lit then 0 else 0x20)
    | (if G in lit then 0 else 0x40) | (if Dot in lit then 0 else 0x80)
  }

  // ---------------------------------------------------------------
  // The font
  // ---------------------------------------------------------------

  /** `NUMERALS`: the codes of 0 to 9. */
  const Numerals: seq<bv8> := [0xC0, 0xF9, 0xA4, 0xB0, 0x99, 0x92, 0x82, 0xF8, 0x80, 0x98]

  /** `LETTERS`: the codes of A to Z. */
  const Letters: seq<bv8> := [
    0x88, 0x83, 0xC6, 0xA1, 0x86, 0x8E, 0xC2, 0x89, 0xCF, 0xE1, 0x8A, 0xC7, 0xEA,
    0xC8, 0xC0, 0x8C, 0x94, 0xCC, 0x92, 0x87, 0xC1, 0xC1, 0xD5, 0x89, 0x91, 0xA4]

  const Blank: bv8 := 0xFF
  const Dash: bv8 := 0xBF
  const Underscore: bv8 := 0xF7

  /** The seven-segment digits, written as the segments they light; this font draws
      6 with its top bar and 9 without its bottom one. */
  function StandardDigit(d: nat): set<Segment>
    requires d < 10
  {
    match d
    case 0 => {A, B, C, D, E, F}
    case 1 => {B, C}
    case 2 => {A, B, D, E, G}
    case 3 => {A, B, C, D, G}
    case 4 => {B, C, F, G}
    case 5 => {A, C, D, F, G}
    case 6 => {A, C, D, E, F, G}
    case 7 => {A, B, C}
    case 8 => {A, B, C, D, E, F, G}
    case _ => {A, B, C, F, G}
  }

  /** The digit table is the conventional font, with the decimal point off. */
  lemma NumeralsAreStandard(d: nat)
    requires d < 10
    ensures Numerals[d] == Encode(StandardDigit(d))
    ensures Lit(Numerals[d]) == StandardDigit(d)
  {
    match d
    case 0 =>
    case 1 =>
    case 2 =>
    case 3 =>
    case 4 =>
    case 5 =>
    case 6 =>
    case 7 =>
    case 8 =>
    case _ =>
    LitOfEncode(StandardDigit(d));
  }

  /** Reading the segments back off an encoded set gives the set. */
  lemma LitOfEncode(lit: set<Segment>)
    requires lit <= AllSegments
    ensures Lit(Encode(lit)) == lit
  {
    var code := Encode(lit);
    forall s | s in AllSegments ensures s in Lit(code) <==> s in lit {
      match s
      case A =>
      case B =>
      case C =>
      case D =>
      case E =>
      case F =>
      case G =>
      case Dot =>
    }
  }

  // ---------------------------------------------------------------
  // Characters
  // ---------------------------------------------------------------

  predicate IsAsciiDigit(c: char) { '0' <= c <= '9' }

  predicate IsAsciiUpper(c: char) { 'A' <= c <= 'Z' }

  predicate IsAsciiLower(c: char) { 'a' <= c <= 'z' }

  predicate IsAsciiAlphabetic(c: char) { IsAsciiUpper(c) || IsAsciiLower(c) }

  /** `char::to_ascii_uppercase`: lower-case ASCII letters move up, everything else stays. */
  function ToAsciiUppercase(c: char): (u: char)
    ensures IsAsciiLower(c) ==> IsAsciiUpper(u) && u as int == c as int - 32
    ensures !IsAsciiLower(c) ==> u == c
  {
    if IsAsciiLower(c) then (c as int - 32) as char else c
  }

  /** One display position: a character, with or without its decimal point. */
  datatype SegmentCode = Just(c: char) | WithDot(c: char)

  /** `SegmentCode::new`: reads a character and the one after it. A dot after a
      character other than a dot is that character's decimal point; a dot followed by
      anything but a dot is dropped. */
  function New(first: char, second: char): (r: Option<SegmentCode>)
    ensures first == '.' && second == '.' ==> r == Some(Just('.'))
    ensures first == '.' && second != '.' ==> r == None
    ensures first != '.' && second == '.' ==> r == Some(WithDot(first))
    ensures first != '.' && second != '.' ==> r == Some(Just(first))
  {
    match (first, second)
    case ('.', '.') => Some(Just('.'))
    case ('.', _) => None
    case (c, '.') => Some(WithDot(c))
    case (c, _) => Some(Just(c))
  }

  /** The code of a character once it has been upper-cased: its font entry, or one
      of the special codes; none of them lights the decimal point. */
  function Glyph(u: char): (g: bv8)
    requires !IsAsciiLower(u)
    ensures g & 0x80 == 0x80
  {
    FontHasNoDot();
    if IsAsciiDigit(u) then Numerals[u as int - '0' as int]
    else if IsAsciiAlphabetic(u) then Letters[u as int - 'A' as int]
    else
      match u
      case ' ' => Blank
      case '-' => Dash
      case '_' => Underscore
      case _ => Blank
  }

  /** `SegmentCode::to_u8`: the decimal point is lit exactly for a character with its dot. */
  function ToU8(code: SegmentCode): (b: bv8)
    ensures code.WithDot? ==> b & 0x80 == 0
    ensures code.Just? ==> b & 0x80 == 0x80
  {
    match code
    case WithDot(c) => Glyph(ToAsciiUppercase(c)) & 0x7F
    case Just(c) => Glyph(ToAsciiUppercase(c))
  }

  /** A code with its dot is the code without it, with bit 7 cleared. */
  lemma WithDotClearsBit7(c: char)
    ensures ToU8(WithDot(c)) == ToU8(Just(c)) & 0x7F
  {
  }

  /** A digit is looked up in `NUMERALS`. */
  lemma DigitCode(c: char)
    requires IsAsciiDigit(c)
    ensures ToU8(Just(c)) == Numerals[c as int - '0' as int]
  {
    assert ToAsciiUppercase(c) == c;
  }

  /** An upper-case letter is looked up in `LETTERS`. */
  lemma UpperCode(c: char)
    requires IsAsciiUpper(c)
    ensures ToU8(Just(c)) == Letters[c as int - 'A' as int]
  {
    assert ToAsciiUppercase(c) == c;
    assert !IsAsciiDigit(c) && IsAsciiAlphabetic(c);
  }

  /** A lower-case letter is looked up in `LETTERS` too, at the place of its upper case. */
  lemma LowerCode(c: char)
    requires IsAsciiLower(c)
    ensures ToU8(Just(c)) == Letters[c as int - 'a' as int]
  {
    var u := ToAsciiUppercase(c);
    assert !IsAsciiDigit(u) && IsAsciiAlphabetic(u);
    assert u as int - 'A' as int == c as int - 'a' as int;
  }

  /** Letters are case-insensitive. */
  lemma CaseInsensitive(c: char)
    requires IsAsciiLower(c)
    ensures ToU8(Just(c)) == ToU8(Just(ToAsciiUppercase(c)))
    ensures ToU8(WithDot(c)) == ToU8(WithDot(ToAsciiUppercase(c)))
  {
    var u := ToAsciiUppercase(c);
    assert ToAsciiUppercase(u) == u;
  }

  /** Space and every character outside the font are blank; `-` lights only the middle
      segment and `_` only the bottom one. */
  lemma SpecialCharacters(c: char)
    ensures !IsAsciiDigit(c) && !IsAsciiAlphabetic(c) && c != '-' && c != '_' ==>
      ToU8(Just(c)) == Blank && Lit(ToU8(Just(c))) == {}
    ensures Lit(ToU8(Just('-'))) == {G}
    ensures Lit(ToU8(Just('_'))) == {D}
  {
    LitOfEncode({});
    LitOfEncode({G});
    LitOfEncode({D});
  }

  /** Every code of the font has its decimal-point bit set. */
  lemma FontHasNoDot()
    ensures forall i | 0 <= i < |Numerals| :: Numerals[i] & 0x80 == 0x80
    ensures forall i | 0 <= i < |Letters| :: Letters[i] & 0x80 == 0x80
    ensures Blank & 0x80 == 0x80 && Dash & 0x80 == 0x80 && Underscore & 0x80 == 0x80
  {
  }

  /** A plain character never lights the decimal point. */
  lemma JustNeverLightsDot(c: char)
    ensures ToU8(Just(c)) & 0x80 == 0x80
    ensures Dot !in Lit(ToU8(Just(c)))
  {
    assert !Lights(ToU8(Just(c)), Dot);
  }

  /** A character with its dot lights the same segments and the decimal point as well. */
  lemma WithDotAddsOnlyTheDot(c: char)
    ensures Lit(ToU8(WithDot(c))) == Lit(ToU8(Just(c))) + {Dot}
  {
    JustNeverLightsDot(c);
    var plain := ToU8(Just(c));
    var dotted := ToU8(WithDot(c));
    forall s | s in AllSegments ensures s in Lit(dotted) <==> s in Lit(plain) + {Dot} {
      match s
      case A =>
      case B =>
      case C =>
      case D =>
      case E =>
      case F =>
      case G =>
      case Dot =>
    }
  }

  /** As written, the lone dot `new` makes of two dots is not in the font and shows
      blank: no segment, not even the decimal point, is lit. */
  lemma LoneDotIsBlank()
    ensures New('.', '.') == Some(Just('.'))
    ensures ToU8(New('.', '.').value) == Blank
    ensures Lit(ToU8(New('.', '.').value)) == {}
  {
    LitOfEncode({});
  }

  /** `to_u8` with a code for the lone dot: it lights the decimal point alone. */
  function ToU8Corrected(code: SegmentCode): (b: bv8)
    ensures code != Just('.') ==> b == ToU8(code)
  {
    if code == Just('.') then Encode({Dot}) else ToU8(code)
  }

  /** With the correction, two dots show the decimal point and nothing else, and every
      other code is unchanged. */
  lemma LoneDotCorrected()
    ensures Lit(ToU8Corrected(New('.', '.').value)) == {Dot}
  {
    LitOfEncode({Dot});
  }

  // ---------------------------------------------------------------
  // Writing a value
  // ---------------------------------------------------------------

  /** `SegmentDisplay::write`: turn the value into one code per register with the
      display's `parse`, and push the codes; a value `parse` refuses changes nothing.
      `push_arr` is taken to be `push_n`. */
  method Write<T>(register: ShiftRegister, parse: T -> Result<seq<bv8>, Error>, value: T) returns (r: Result<Unit, Error>)
    requires parse(value).Ok? ==> |parse(value).value| == register.n
    modifies register.pi.daemon
    ensures parse(value).Err? ==> r == Err(parse(value).error) && register.pi.daemon.log == old(register.pi.daemon.log)
    ensures parse(value).Ok? ==>
      var o := Run(register.pi.daemon.respond, old(register.pi.daemon.log), PushNCalls(register.ds, register.shCp, parse(value).value));
      register.pi.daemon.log == o.log && r == Status(o)
  {
    var codes := parse(value);
    if codes.Err? {
      return Err(codes.error);
    }
    r := register.PushN(codes.value);
  }
}
