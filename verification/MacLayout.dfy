/** What the key tables must say: the US layout by keycode, the keys by name, and the modifiers by theirs. */
module MacLayout {
  import opened Numbers
  import opened Results
  import opened MacKeys

  // ---- characters ----

  /** The US-ANSI layout, by keycode: what a key types plainly. */
  function Plain(code: int): Option<char> {
    match code
    case 0x00 => Some('a') case 0x01 => Some('s') case 0x02 => Some('d') case 0x03 => Some('f')
    case 0x04 => Some('h') case 0x05 => Some('g') case 0x06 => Some('z') case 0x07 => Some('x')
    case 0x08 => Some('c') case 0x09 => Some('v') case 0x0B => Some('b') case 0x0C => Some('q')
    case 0x0D => Some('w') case 0x0E => Some('e') case 0x0F => Some('r') case 0x10 => Some('y')
    case 0x11 => Some('t') case 0x12 => Some('1') case 0x13 => Some('2') case 0x14 => Some('3')
    case 0x15 => Some('4') case 0x16 => Some('6') case 0x17 => Some('5') case 0x18 => Some('=')
    case 0x19 => Some('9') case 0x1A => Some('7') case 0x1B => Some('-') case 0x1C => Some('8')
    case 0x1D => Some('0') case 0x1E => Some(']') case 0x1F => Some('o') case 0x20 => Some('u')
    case 0x21 => Some('[') case 0x22 => Some('i') case 0x23 => Some('p') case 0x25 => Some('l')
    case 0x26 => Some('j') case 0x27 => Some('\'') case 0x28 => Some('k') case 0x29 => Some(';')
    case 0x2A => Some('\\') case 0x2B => Some(',') case 0x2C => Some('/') case 0x2D => Some('n')
    case 0x2E => Some('m') case 0x2F => Some('.') case 0x32 => Some('`')
    case 0x24 => Some('\n') case 0x30 => Some('\t') case 0x31 => Some(' ')
    case _ => None
  }

  /** And what it types with Shift. */
  function Shifted(code: int): Option<char> {
    match code
    case 0x00 => Some('A') case 0x01 => Some('S') case 0x02 => Some('D') case 0x03 => Some('F')
    case 0x04 => Some('H') case 0x05 => Some('G') case 0x06 => Some('Z') case 0x07 => Some('X')
    case 0x08 => Some('C') case 0x09 => Some('V') case 0x0B => Some('B') case 0x0C => Some('Q')
    case 0x0D => Some('W') case 0x0E => Some('E') case 0x0F => Some('R') case 0x10 => Some('Y')
    case 0x11 => Some('T') case 0x12 => Some('!') case 0x13 => Some('@') case 0x14 => Some('#')
    case 0x15 => Some('$') case 0x16 => Some('^') case 0x17 => Some('%') case 0x18 => Some('+')
    case 0x19 => Some('(') case 0x1A => Some('&') case 0x1B => Some('_') case 0x1C => Some('*')
    case 0x1D => Some(')') case 0x1E => Some('}') case 0x1F => Some('O') case 0x20 => Some('U')
    case 0x21 => Some('{') case 0x22 => Some('I') case 0x23 => Some('P') case 0x25 => Some('L')
    case 0x26 => Some('J') case 0x27 => Some('\"') case 0x28 => Some('K') case 0x29 => Some(':')
    case 0x2A => Some('|') case 0x2B => Some('<') case 0x2C => Some('?') case 0x2D => Some('N')
    case 0x2E => Some('M') case 0x2F => Some('>') case 0x32 => Some('~')
    case _ => None
  }

  function Typed(key: Key): Option<char> { if key.shift then Shifted(key.code) else Plain(key.code) }

  lemma LetterTypes(i: nat)
    requires i < 26
    ensures Plain(LETTER_CODES[i]) == Some((97 + i) as char) && Shifted(LETTER_CODES[i]) == Some((65 + i) as char)
  {
    if i < 13 {
      FirstLetters(i);
    } else {
      LastLetters(i);
    }
  }

  lemma FirstLetters(i: nat)
    requires i < 13
    ensures Plain(LETTER_CODES[i]) == Some((97 + i) as char) && Shifted(LETTER_CODES[i]) == Some((65 + i) as char)
  {
    match i
    case 0 => case 1 => case 2 => case 3 => case 4 => case 5 => case 6 =>
    case 7 => case 8 => case 9 => case 10 => case 11 => case 12 =>
  }

  lemma LastLetters(i: nat)
    requires 13 <= i < 26
    ensures Plain(LETTER_CODES[i]) == Some((97 + i) as char) && Shifted(LETTER_CODES[i]) == Some((65 + i) as char)
  {
    match i
    case 13 => case 14 => case 15 => case 16 => case 17 => case 18 => case 19 =>
    case 20 => case 21 => case 22 => case 23 => case 24 => case 25 =>
  }

  /** The key chosen for a character types it. */
  lemma KeyTypes(c: char)
    ensures CharKeycode(c).Some? ==> Typed(CharKeycode(c).value) == Some(c)
  {
    if 'a' <= c <= 'z' {
      LetterTypes(c as int - 97);
      hide Plain, Shifted;
    } else if 'A' <= c <= 'Z' {
      LetterTypes(c as int - 65);
      hide Plain, Shifted;
    } else if c < '0' {
      LowOthers(c);
    } else if c < 'A' {
      HighOthers(c);
    } else {
      LastOthers(c);
    }
  }

  lemma LowOthers(c: char)
    requires c < '0'
    ensures CharKeycode(c).Some? ==> Typed(CharKeycode(c).value) == Some(c)
  {
  }

  lemma HighOthers(c: char)
    requires '0' <= c < 'A'
    ensures CharKeycode(c).Some? ==> Typed(CharKeycode(c).value) == Some(c)
  {
  }

  lemma LastOthers(c: char)
    requires 'Z' < c < 'a' || 'z' < c
    ensures CharKeycode(c).Some? ==> Typed(CharKeycode(c).value) == Some(c)
  {
  }

  /** Exactly the printable ASCII characters, the newline and the tab have a key. */
  lemma HasKeyIff(c: char)
    ensures CharKeycode(c).Some? <==> ' ' <= c <= '~' || c == '\n' || c == '\t'
  {
  }

  // ---- modifiers ----

  /** The same letters, whatever their case. */
  predicate SameLetters(a: string, b: string) {
    |a| == |b| && forall i :: 0 <= i < |a| ==> SameLetter(a[i], b[i])
  }

  predicate SameLetter(a: char, b: char) {
    a == b || ('A' <= a <= 'Z' && b as int == a as int + 32) || ('A' <= b <= 'Z' && a as int == b as int + 32)
  }

  lemma CaseDoesNotMatter(a: string, b: string)
    requires SameLetters(a, b)
    ensures NamedModifier(a) == NamedModifier(b)
    ensures |a| != 1 ==> KeyKeycode(a) == KeyKeycode(b)
  {
    assert Lower(a) == Lower(b) by {
      forall i | 0 <= i < |a| ensures Lower(a)[i] == Lower(b)[i] {
        assert SameLetter(a[i], b[i]);
      }
    }
  }

  lemma LowerKeeps(s: string)
    requires forall i :: 0 <= i < |s| ==> !('A' <= s[i] <= 'Z')
    ensures Lower(s) == s
  {
  }

  /** Which modifier each name stands for, in any case: its keycode and its flag. */
  lemma ModifierNames(name: string)
    ensures name in ["ctrl", "control"] ==> NamedModifier(name) == Some(Modifier(0x3B, 0x0004_0000))
    ensures name == "shift" ==> NamedModifier(name) == Some(Modifier(0x38, 0x0002_0000))
    ensures name in ["alt", "option"] ==> NamedModifier(name) == Some(Modifier(0x3A, 0x0008_0000))
    ensures name in ["super", "meta", "cmd", "command", "win"] ==> NamedModifier(name) == Some(Modifier(0x37, 0x0010_0000))
    ensures NamedModifier(name).Some? ==>
              Lower(name) in ["ctrl", "control", "shift", "alt", "option", "super", "meta", "cmd", "command", "win"]
  {
    hide Lower;
    if name in ["ctrl", "control", "shift", "alt", "option", "super", "meta", "cmd", "command", "win"] {
      LowerKeeps(name);
    }
  }

  /** What is held while a combo's key goes down, by the names in the combo. */
  lemma WantedNames(mods: seq<string>, key: Key)
    requires AllKnown(mods)
    ensures 0x3B in Wanted(mods, key) <==> exists m :: m in mods && Lower(m) in ["ctrl", "control"]
    ensures 0x38 in Wanted(mods, key) <==> key.shift || exists m :: m in mods && Lower(m) == "shift"
    ensures 0x3A in Wanted(mods, key) <==> exists m :: m in mods && Lower(m) in ["alt", "option"]
    ensures 0x37 in Wanted(mods, key) <==> exists m :: m in mods && Lower(m) in ["super", "meta", "cmd", "command", "win"]
    ensures Wanted(mods, key) <= {0x37, 0x38, 0x3A, 0x3B}
  {
    forall m | m in mods
      ensures var code := NamedModifier(m).value.code;
              && (code == 0x3B <==> Lower(m) in ["ctrl", "control"]) && (code == 0x38 <==> Lower(m) == "shift")
              && (code == 0x3A <==> Lower(m) in ["alt", "option"])
              && (code == 0x37 <==> Lower(m) in ["super", "meta", "cmd", "command", "win"])
    {
      CodeOf(m);
    }
    hide Lower, NamedModifier;
  }

  lemma CodeOf(m: string)
    requires NamedModifier(m).Some?
    ensures var code := NamedModifier(m).value.code;
            && (code == 0x3B <==> Lower(m) in ["ctrl", "control"]) && (code == 0x38 <==> Lower(m) == "shift")
            && (code == 0x3A <==> Lower(m) in ["alt", "option"])
            && (code == 0x37 <==> Lower(m) in ["super", "meta", "cmd", "command", "win"])
  {
    hide Lower;
  }

  // ---- named keys ----

  const ARROWS: seq<string> := ["left", "right", "down", "up"]   // 0x7B and on

  lemma KeyNames(name: string)
    ensures name in ["enter", "return"] ==> NamedKeycode(name) == Some(0x24)
    ensures name == "tab" ==> NamedKeycode(name) == Some(0x30)
    ensures name == "space" ==> NamedKeycode(name) == Some(0x31)
    ensures name == "backspace" ==> NamedKeycode(name) == Some(0x33)
    ensures name in ["escape", "esc"] ==> NamedKeycode(name) == Some(0x35)
    ensures name in ["capslock", "caps_lock"] ==> NamedKeycode(name) == Some(0x39)
    ensures name == "home" ==> NamedKeycode(name) == Some(0x73)
    ensures name in ["pageup", "page_up", "pgup"] ==> NamedKeycode(name) == Some(0x74)
    ensures name in ["delete", "del"] ==> NamedKeycode(name) == Some(0x75)
    ensures name == "end" ==> NamedKeycode(name) == Some(0x77)
    ensures name in ["pagedown", "page_down", "pgdn"] ==> NamedKeycode(name) == Some(0x79)
    ensures forall i :: 0 <= i < 4 && name == ARROWS[i] ==> NamedKeycode(name) == Some(0x7B + i)
  {
    hide ParseU32;
  }

  /** No other key name starts with an f. */
  lemma FunctionKey(name: string)
    requires name != [] && name[0] == 'f'
    ensures NamedKeycode(name) ==
            match ParseU32(name[1..], 10)
            case Some(n) => if 1 <= n <= 12 then Some(FUNCTION_CODES[n - 1]) else None
            case None => None
  {
    hide ParseU32;
  }

  /** F1 to F12, by number. */
  lemma FunctionKeys(n: nat)
    ensures NamedKeycode("f" + Numeral(n, 10)) ==
            if 1 <= n <= 12 then Some([0x7A, 0x78, 0x63, 0x76, 0x60, 0x61, 0x62, 0x64, 0x65, 0x6D, 0x67, 0x6F][n - 1]) else None
  {
    var digits := Numeral(n, 10);
    NumeralParses(n, 10);
    assert ("f" + digits)[1..] == digits;
    hide ParseU32, Numeral, NamedKeycode;
    FunctionKey("f" + digits);
  }
}
