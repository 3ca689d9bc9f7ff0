// strip_accent_unicode (uinput-text-input.cpp): folds a fixed table of
// Latin-1 Supplement and Latin Extended-A letters to plain ASCII letters,
// passes other ASCII through and reports everything else as 0.

module AccentFold {
  import opened Wrappers
  import opened Ascii

  /** The fold table (accent_map), entry for entry as the source lists it:
      the table's value for a codepoint, or None when it has no entry. */
  function AccentEntry(cp: nat): Option<char>
  {
    match cp
    // Lower-case letters
    case 0x00E0 => Some('a') case 0x00E1 => Some('a') case 0x00E2 => Some('a')
    case 0x00E3 => Some('a') case 0x00E4 => Some('a') case 0x00E5 => Some('a')
    case 0x00E8 => Some('e') case 0x00E9 => Some('e') case 0x00EA => Some('e')
    case 0x00EB => Some('e') case 0x00EC => Some('i') case 0x00ED => Some('i')
    case 0x00EE => Some('i') case 0x00EF => Some('i') case 0x00F2 => Some('o')
    case 0x00F3 => Some('o') case 0x00F4 => Some('o') case 0x00F5 => Some('o')
    case 0x00F6 => Some('o') case 0x00F8 => Some('o') case 0x00F9 => Some('u')
    case 0x00FA => Some('u') case 0x00FB => Some('u') case 0x00FC => Some('u')
    case 0x00F1 => Some('n') case 0x00E7 => Some('c') case 0x00FF => Some('y')
    case 0x00FD => Some('y') case 0x00E6 => Some('a') case 0x0153 => Some('o')
    // Upper-case letters
    case 0x00C0 => Some('A') case 0x00C1 => Some('A') case 0x00C2 => Some('A')
    case 0x00C3 => Some('A') case 0x00C4 => Some('A') case 0x00C5 => Some('A')
    case 0x00C8 => Some('E') case 0x00C9 => Some('E') case 0x00CA => Some('E')
    case 0x00CB => Some('E') case 0x00CC => Some('I') case 0x00CD => Some('I')
    case 0x00CE => Some('I') case 0x00CF => Some('I') case 0x00D2 => Some('O')
    case 0x00D3 => Some('O') case 0x00D4 => Some('O') case 0x00D5 => Some('O')
    case 0x00D6 => Some('O') case 0x00D8 => Some('O') case 0x00D9 => Some('U')
    case 0x00DA => Some('U') case 0x00DB => Some('U') case 0x00DC => Some('U')
    case 0x00D1 => Some('N') case 0x00C7 => Some('C') case 0x00DD => Some('Y')
    case 0x00C6 => Some('A') case 0x0152 => Some('O')
    case _ => None
  }

  /** The ASCII letter to type for a codepoint; 0 means "cannot be typed".
      The table is consulted first, then ASCII passes through unchanged. */
  function StripAccent(cp: nat): (r: char)
    ensures r as int < 128
    ensures cp < 128 ==> r == cp as char
    ensures r == 0 as char <==> cp == 0 || (cp >= 128 && AccentEntry(cp).None?)
    ensures cp >= 128 && r != 0 as char ==> IsUpper(r) || IsLower(r)
  {
    match AccentEntry(cp)
    case Some(c) => c
    case None =>
      if cp < 128 then cp as char
      else 0 as char
  }

  /** Folding is idempotent: what it returns is plain ASCII, which folds to
      itself. */
  lemma StripAccentIdempotent(cp: nat)
    ensures StripAccent(StripAccent(cp) as nat) == StripAccent(cp)
  {
  }

  /** An independent statement of the table, by ranges of the Latin-1
      Supplement block: the upper-case letters U+00C0..U+00DD fold to their
      base letter, each lower-case letter U+00E0..U+00FD is its upper-case
      letter plus 0x20 and folds to the lower-case base letter, and ÿ, Œ and œ
      are listed on their own. Ð, ×, Þ, ß, ð, ÷ and þ have no fold. */
  function UpperBase(cp: nat): (r: Option<char>)
    ensures r.Some? ==> IsUpper(r.value)
  {
    if 0xC0 <= cp <= 0xC6 then Some('A')
    else if cp == 0xC7 then Some('C')
    else if 0xC8 <= cp <= 0xCB then Some('E')
    else if 0xCC <= cp <= 0xCF then Some('I')
    else if cp == 0xD1 then Some('N')
    else if 0xD2 <= cp <= 0xD6 || cp == 0xD8 then Some('O')
    else if 0xD9 <= cp <= 0xDC then Some('U')
    else if cp == 0xDD then Some('Y')
    else if cp == 0x152 then Some('O')
    else None
  }

  function LatinBase(cp: nat): Option<char>
  {
    if 0xE0 <= cp <= 0xFD then
      match UpperBase(cp - 0x20)
      case Some(c) => Some(ToLower(c))
      case None => None
    else if cp == 0xFF then Some('y')
    else if cp == 0x153 then Some('o')
    else UpperBase(cp)
  }

  /** The table is exactly the range description above. */
  lemma AccentEntryIsLatinBase(cp: nat)
    ensures AccentEntry(cp) == LatinBase(cp)
  {
  }

  /** The fold preserves case: each upper-case entry has its lower-case
      partner 0x20 above it, folding to the lower-case of the same letter. */
  lemma StripAccentPreservesCase(cp: nat)
    requires 0xC0 <= cp <= 0xDD && AccentEntry(cp).Some?
    ensures IsUpper(StripAccent(cp))
    ensures AccentEntry(cp + 0x20).Some? && StripAccent(cp + 0x20) == ToLower(StripAccent(cp))
  {
    AccentEntryIsLatinBase(cp);
    AccentEntryIsLatinBase(cp + 0x20);
  }

  /** The value of the fold for non-ASCII input: the base letter the range
      description gives, or 0 where it gives none. */
  lemma StripAccentIsLatinBase(cp: nat)
    requires cp >= 128
    ensures StripAccent(cp) == if LatinBase(cp).Some? then LatinBase(cp).value else 0 as char
  {
    AccentEntryIsLatinBase(cp);
  }
}
