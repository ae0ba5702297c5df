/**
 Key combos and pointer actions on macOS: the plan of input events for one action, with the
 modifier flags every event carries.
 */
module MacKeys {
  import opened Results
  import opened Sequences
  import opened MacText
  import opened Numbers

  // ---- US-ANSI virtual keycodes and event flags ----

  const KC_COMMAND := 0x37
  const KC_SHIFT := 0x38
  const KC_OPTION := 0x3A
  const KC_CONTROL := 0x3B

  const FLAG_SHIFT: bv64 := 0x0002_0000
  const FLAG_CONTROL: bv64 := 0x0004_0000
  const FLAG_ALTERNATE: bv64 := 0x0008_0000
  const FLAG_COMMAND: bv64 := 0x0010_0000

  datatype Key = Key(code: int, shift: bool)

  function CharKeycode(c: char): (key: Option<Key>)
    ensures key.Some? ==> !IsModifier(key.value.code)
  {
    if 'A' <= c <= 'Z' then Some(Key(LetterKeycode((c as int + 32) as char), true))
    else if 'a' <= c <= 'z' then Some(Key(LetterKeycode(c), false))
    else match c
      case '1' => Some(Key(0x12, false)) case '!' => Some(Key(0x12, true))
      case '2' => Some(Key(0x13, false)) case '@' => Some(Key(0x13, true))
      case '3' => Some(Key(0x14, false)) case '#' => Some(Key(0x14, true))
      case '4' => Some(Key(0x15, false)) case '$' => Some(Key(0x15, true))
      case '5' => Some(Key(0x17, false)) case '%' => Some(Key(0x17, true))
      case '6' => Some(Key(0x16, false)) case '^' => Some(Key(0x16, true))
      case '7' => Some(Key(0x1A, false)) case '&' => Some(Key(0x1A, true))
      case '8' => Some(Key(0x1C, false)) case '*' => Some(Key(0x1C, true))
      case '9' => Some(Key(0x19, false)) case '(' => Some(Key(0x19, true))
      case '0' => Some(Key(0x1D, false)) case ')' => Some(Key(0x1D, true))
      case '-' => Some(Key(0x1B, false)) case '_' => Some(Key(0x1B, true))
      case '=' => Some(Key(0x18, false)) case '+' => Some(Key(0x18, true))
      case '[' => Some(Key(0x21, false)) case '{' => Some(Key(0x21, true))
      case ']' => Some(Key(0x1E, false)) case '}' => Some(Key(0x1E, true))
      case '\\' => Some(Key(0x2A, false)) case '|' => Some(Key(0x2A, true))
      case ';' => Some(Key(0x29, false)) case ':' => Some(Key(0x29, true))
      case '\'' => Some(Key(0x27, false)) case '\"' => Some(Key(0x27, true))
      case ',' => Some(Key(0x2B, false)) case '<' => Some(Key(0x2B, true))
      case '.' => Some(Key(0x2F, false)) case '>' => Some(Key(0x2F, true))
      case '/' => Some(Key(0x2C, false)) case '?' => Some(Key(0x2C, true))
      case '`' => Some(Key(0x32, false)) case '~' => Some(Key(0x32, true))
      case ' ' => Some(Key(0x31, false))
      case '\n' => Some(Key(0x24, false))
      case '\t' => Some(Key(0x30, false))
      case _ => None
  }

  const LETTER_CODES: seq<int> :=
    [0x00, 0x0B, 0x08, 0x02, 0x0E, 0x03, 0x05, 0x04, 0x22, 0x26, 0x28, 0x25, 0x2E,
     0x2D, 0x1F, 0x23, 0x0C, 0x0F, 0x01, 0x11, 0x20, 0x09, 0x0D, 0x07, 0x10, 0x06]

  function LetterKeycode(c: char): (code: int)
    requires 'a' <= c <= 'z'
    ensures !IsModifier(code)
  {
    LETTER_CODES[c as int - 'a' as int]
  }

  function Lower(s: string): (l: string)
    ensures |l| == |s|
  {
    seq(|s|, i requires 0 <= i < |s| => if 'A' <= s[i] <= 'Z' then (s[i] as int + 32) as char else s[i])
  }

  /** Keycodes of F1 to F12. */
  const FUNCTION_CODES: seq<int> := [0x7A, 0x78, 0x63, 0x76, 0x60, 0x61, 0x62, 0x64, 0x65, 0x6D, 0x67, 0x6F]

  function NamedKeycode(name: string): (code: Option<int>)
    ensures code.Some? ==> !IsModifier(code.value)
  {
    if name in ["enter", "return"] then Some(0x24)
    else if name == "tab" then Some(0x30)
    else if name in ["escape", "esc"] then Some(0x35)
    else if name == "space" then Some(0x31)
    else if name == "backspace" then Some(0x33)
    else if name in ["delete", "del"] then Some(0x75)
    else if name == "up" then Some(0x7E)
    else if name == "down" then Some(0x7D)
    else if name == "left" then Some(0x7B)
    else if name == "right" then Some(0x7C)
    else if name == "home" then Some(0x73)
    else if name == "end" then Some(0x77)
    else if name in ["pageup", "page_up", "pgup"] then Some(0x74)
    else if name in ["pagedown", "page_down", "pgdn"] then Some(0x79)
    else if name in ["capslock", "caps_lock"] then Some(0x39)
    else if name != [] && name[0] == 'f' then
      match ParseU32(name[1..], 10)
      case Some(n) => if 1 <= n <= 12 then Some(FUNCTION_CODES[n - 1]) else None
      case None => None
    else None
  }

  function KeyKeycode(key: string): (k: Option<Key>)
    ensures k.Some? ==> !IsModifier(k.value.code)
  {
    if |key| == 1 then CharKeycode(key[0])
    else match NamedKeycode(Lower(key))
      case Some(code) => Some(Key(code, false))
      case None => None
  }

  datatype Modifier = Modifier(code: int, bit: bv64)

  function NamedModifier(name: string): (m: Option<Modifier>)
    ensures m.Some? ==> IsModifier(m.value.code) && m.value.bit == Bit(m.value.code)
  {
    var n := Lower(name);
    if n in ["ctrl", "control"] then Some(Modifier(KC_CONTROL, FLAG_CONTROL))
    else if n == "shift" then Some(Modifier(KC_SHIFT, FLAG_SHIFT))
    else if n in ["alt", "option"] then Some(Modifier(KC_OPTION, FLAG_ALTERNATE))
    else if n in ["super", "meta", "cmd", "command", "win"] then Some(Modifier(KC_COMMAND, FLAG_COMMAND))
    else None
  }

  // ---- modifiers held and the flags they show as ----

  predicate IsModifier(code: int) { code in {KC_COMMAND, KC_SHIFT, KC_OPTION, KC_CONTROL} }

  function Bit(code: int): bv64 {
    if code == KC_SHIFT then FLAG_SHIFT
    else if code == KC_CONTROL then FLAG_CONTROL
    else if code == KC_OPTION then FLAG_ALTERNATE
    else FLAG_COMMAND
  }

  /** The union of the bits of the held modifiers. */
  function Bits(held: set<int>): bv64 {
    (if KC_SHIFT in held then FLAG_SHIFT else 0) | (if KC_CONTROL in held then FLAG_CONTROL else 0) |
    (if KC_OPTION in held then FLAG_ALTERNATE else 0) | (if KC_COMMAND in held then FLAG_COMMAND else 0)
  }

  function With(flags: bv64, bit: bv64): bv64 { flags | bit }

  function Without(flags: bv64, bit: bv64): bv64 { flags & !bit }

  predicate Shows(flags: bv64, bit: bv64) { flags & bit != 0 }

  lemma BitsOfHeld(held: set<int>, code: int)
    requires IsModifier(code)
    ensures Bits(held + {code}) == With(Bits(held), Bit(code))
    ensures Bits(held - {code}) == Without(Bits(held), Bit(code))
    ensures Shows(Bits(held), FLAG_SHIFT) <==> KC_SHIFT in held
    ensures Bit(KC_SHIFT) == FLAG_SHIFT
  {
  }

  // ---- planned input ----

  /** One input event; coordinates are capture pixels. */
  datatype Input =
    | Move(x: real, y: real)
    | Button(right: bool, down: bool, x: real, y: real, clicks: int)
    | ButtonHere(right: bool, down: bool, clicks: int)
    | Drag(x: real, y: real)
    | Scroll(wheelDy: int, wheelDx: int)
    | KeyEvent(code: int, down: bool, flags: bv64)
    | Text(units: seq<Unit>)

  /** The keys held after an event. */
  function Held(held: set<int>, e: Input): set<int> {
    if e.KeyEvent? then (if e.down then held + {e.code} else held - {e.code}) else held
  }

  function Replay(held: set<int>, plan: seq<Input>): set<int> {
    if plan == [] then held else Held(Replay(held, plan[..|plan| - 1]), plan[|plan| - 1])
  }

  /** Every key event carries exactly the flags of the modifiers held after it. */
  ghost predicate FlagsTrack(plan: seq<Input>) {
    forall i :: 0 <= i < |plan| ==> plan[i].KeyEvent? && plan[i].flags == Bits(Replay({}, plan[..i + 1]))
  }

  lemma ReplayAppend(held: set<int>, plan: seq<Input>, e: Input)
    ensures Replay(held, plan + [e]) == Held(Replay(held, plan), e)
  {
    assert (plan + [e])[..|plan|] == plan;
  }

  lemma TrackAppend(plan: seq<Input>, e: Input)
    requires FlagsTrack(plan) && e.KeyEvent? && e.flags == Bits(Held(Replay({}, plan), e))
    ensures FlagsTrack(plan + [e])
  {
    ReplayAppend({}, plan, e);
    var longer := plan + [e];
    forall i | 0 <= i < |longer| ensures longer[i].KeyEvent? && longer[i].flags == Bits(Replay({}, longer[..i + 1])) {
      if i < |plan| {
        assert longer[..i + 1] == plan[..i + 1];
      } else {
        assert longer[..i + 1] == longer;
      }
    }
  }

  // ---- the plan of one combo ----

  datatype PlanError = EmptyCombo | UnknownModifier(name: string) | UnknownKey(name: string)

  ghost predicate AllKnown(mods: seq<string>) { forall m :: m in mods ==> NamedModifier(m).Some? }

  /** The keycodes of the named modifiers. */
  function Codes(mods: seq<string>): set<int>
    requires AllKnown(mods)
  {
    set m | m in mods :: NamedModifier(m).value.code
  }

  /** What must be held while the combo's key goes down: the named modifiers, and Shift when the key needs it. */
  function Wanted(mods: seq<string>, key: Key): set<int>
    requires AllKnown(mods)
  {
    Codes(mods) + if key.shift then {KC_SHIFT} else {}
  }

  /** The modifier list the planner builds: repeated names stay repeated. */
  function CodesOf(keys: seq<Modifier>): set<int> {
    if keys == [] then {} else CodesOf(keys[..|keys| - 1]) + {keys[|keys| - 1].code}
  }

  /** Each entry is a modifier with the flags of all modifiers up to it. */
  ghost predicate Cumulative(keys: seq<Modifier>) {
    keys == [] ||
    var last := keys[|keys| - 1];
    Cumulative(keys[..|keys| - 1]) && IsModifier(last.code) && last.bit == Bits(CodesOf(keys))
  }

  /** The presses, in order. */
  function Downs(keys: seq<Modifier>): (plan: seq<Input>)
    ensures |plan| == |keys|
  {
    if keys == [] then []
    else Downs(keys[..|keys| - 1]) + [KeyEvent(keys[|keys| - 1].code, true, keys[|keys| - 1].bit)]
  }

  /** The releases, last press first, each clearing its own bit. */
  function Ups(keys: seq<Modifier>, remaining: bv64): (plan: seq<Input>)
    ensures |plan| == |keys|
  {
    if keys == [] then []
    else
      var code := keys[|keys| - 1].code;
      [KeyEvent(code, false, Without(remaining, Bit(code)))] + Ups(keys[..|keys| - 1], Without(remaining, Bit(code)))
  }

  function Combo(keys: seq<Modifier>, key: int, flags: bv64): seq<Input> {
    Downs(keys) + [KeyEvent(key, true, flags), KeyEvent(key, false, flags)] + Ups(keys, flags)
  }

  /** The modifier entries in the order they are named, each with the flags held once it is down. */
  function Entries(mods: seq<string>): seq<Modifier>
    requires AllKnown(mods)
  {
    if mods == [] then []
    else
      var front, last := mods[..|mods| - 1], NamedModifier(mods[|mods| - 1]).value;
      KnownPrefix(mods);
      Entries(front) + [Modifier(last.code, Bits(Codes(mods)))]
  }

  lemma KnownPrefix(mods: seq<string>)
    requires AllKnown(mods) && mods != []
    ensures NamedModifier(mods[|mods| - 1]).Some? && AllKnown(mods[..|mods| - 1])
  {
    hide NamedModifier;
    assert mods[|mods| - 1] in mods;
    assert forall m :: m in mods[..|mods| - 1] ==> m in mods;
  }

  /** `plan_key_combo`, after `parse_combo` has split the combo into modifier names and a key name. */
  function KeyPlan(mods: seq<string>, key: string): Result<seq<Input>, PlanError> {
    if key == [] then Err(EmptyCombo)
    else if !Known(mods) then Err(UnknownModifier(FirstUnknown(mods)))
    else match KeyKeycode(key)
      case None => Err(UnknownKey(key))
      case Some(k) => Ok(Combo(ComboKeys(mods, k), k.code, Bits(Wanted(mods, k))))
  }

  /** The entries of the modifiers, and of the implicit Shift when the key needs one that is not named. */
  function ComboKeys(mods: seq<string>, key: Key): seq<Modifier>
    requires AllKnown(mods)
  {
    Entries(mods) + if key.shift && KC_SHIFT !in Codes(mods) then [Modifier(KC_SHIFT, Bits(Wanted(mods, key)))] else []
  }

  predicate Known(mods: seq<string>)
    ensures Known(mods) <==> AllKnown(mods)
  {
    forall m :: m in mods ==> NamedModifier(m).Some?
  }

  function FirstUnknown(mods: seq<string>): (m: string)
    requires !AllKnown(mods)
    ensures m in mods && NamedModifier(m).None?
  {
    if NamedModifier(mods[0]).None? then mods[0]
    else
      assert forall m :: m in mods ==> m == mods[0] || m in mods[1..];
      FirstUnknown(mods[1..])
  }

  /** All presses (or all releases) of keys in `codes`. */
  ghost predicate AllOf(plan: seq<Input>, down: bool, codes: set<int>) {
    forall i :: 0 <= i < |plan| ==> plan[i].KeyEvent? && plan[i].down == down && plan[i].code in codes
  }

  /**
   A good plan: flags follow the held modifiers all along, everything ends released, and the key goes
   down and up once, between the modifier presses and releases, while exactly `wanted` is held.
   */
  ghost predicate Presses(plan: seq<Input>, wanted: set<int>, key: int) {
    && FlagsTrack(plan) && Replay({}, plan) == {}
    && exists downs, ups ::
       && plan == downs + [KeyEvent(key, true, Bits(wanted)), KeyEvent(key, false, Bits(wanted))] + ups
       && AllOf(downs, true, wanted) && Replay({}, downs) == wanted && AllOf(ups, false, wanted)
  }

  method PlanKeyCombo(mods: seq<string>, key: string) returns (r: Result<seq<Input>, PlanError>)
    ensures r == KeyPlan(mods, key)
  {
    if key == [] {
      return Err(EmptyCombo);
    }
    var keys: seq<Modifier> := [];
    var flags: bv64 := 0;
    for i := 0 to |mods|
      invariant AllKnown(mods[..i]) && keys == Entries(mods[..i]) && flags == Bits(Codes(mods[..i]))
    {
      hide *;
      match NamedModifier(mods[i]) {
        case None =>
          NextUnknown(mods, i);
          return Err(UnknownModifier(mods[i]));
        case Some(m) =>
          NextEntry(mods, i);
          flags := With(flags, m.bit);
          keys := keys + [Modifier(m.code, flags)];
      }
    }
    assert mods[..|mods|] == mods;
    match KeyKeycode(key) {
      case None =>
        return Err(UnknownKey(key));
      case Some(k) =>
        hide Bits, With, Shows, Bit, Codes, KeyKeycode, NamedModifier, Entries, Combo, AllKnown;
        BitsOfHeld(Codes(mods), KC_SHIFT);
        if k.shift && !Shows(flags, FLAG_SHIFT) {
          flags := With(flags, FLAG_SHIFT);
          keys := keys + [Modifier(KC_SHIFT, flags)];
        } else {
          Empty(keys);
          assert Wanted(mods, k) == Codes(mods);
        }
        assert keys == ComboKeys(mods, k);
        var plan := EmitCombo(keys, k.code, flags);
        return Ok(plan);
    }
  }

  /** The event loops: presses, the key, releases in reverse with `remaining` shrinking. */
  method EmitCombo(keys: seq<Modifier>, key: int, flags: bv64) returns (plan: seq<Input>)
    ensures plan == Combo(keys, key, flags)
  {
    plan := [];
    for i := 0 to |keys|
      invariant plan == Downs(keys[..i])
    {
      hide Bit, Without;
      assert keys[..i + 1][..i] == keys[..i];
      plan := plan + [KeyEvent(keys[i].code, true, keys[i].bit)];
    }
    assert keys[..|keys|] == keys;
    plan := plan + [KeyEvent(key, true, flags)];
    plan := plan + [KeyEvent(key, false, flags)];
    var remaining := flags;
    for i := |keys| downto 0
      invariant plan + Ups(keys[..i], remaining) == Combo(keys, key, flags)
    {
      hide Combo, Bit, Downs, Without;
      assert keys[..i + 1][..i] == keys[..i];
      var code := keys[i].code;
      remaining := Without(remaining, Bit(code));
      plan := plan + [KeyEvent(code, false, remaining)];
    }
  }

  lemma NextUnknown(mods: seq<string>, i: nat)
    requires i < |mods| && AllKnown(mods[..i]) && NamedModifier(mods[i]).None?
    ensures !AllKnown(mods) && FirstUnknown(mods) == mods[i]
    decreases i
  {
    hide NamedModifier;
    assert mods[i] in mods;
    if i > 0 {
      assert mods[0] == mods[..i][0] && mods[0] in mods[..i];
      assert mods[1..][..i - 1] == mods[..i][1..];
      assert forall m :: m in mods[..i][1..] ==> m in mods[..i];
      NextUnknown(mods[1..], i - 1);
    }
  }

  lemma NextEntry(mods: seq<string>, i: nat)
    requires i < |mods| && AllKnown(mods[..i]) && NamedModifier(mods[i]).Some?
    ensures AllKnown(mods[..i + 1])
    ensures var m := NamedModifier(mods[i]).value;
            && Codes(mods[..i + 1]) == Codes(mods[..i]) + {m.code} && IsModifier(m.code)
            && Bits(Codes(mods[..i + 1])) == With(Bits(Codes(mods[..i])), m.bit)
            && Entries(mods[..i + 1]) == Entries(mods[..i]) + [Modifier(m.code, Bits(Codes(mods[..i + 1])))]
  {
    var front, longer := mods[..i], mods[..i + 1];
    BitsOfHeld(Codes(front), NamedModifier(mods[i]).value.code);
    hide NamedModifier, Bits, With;
    assert longer == front + [mods[i]] && longer[..i] == front;
    assert forall m :: m in longer <==> m in front || m == mods[i];
  }

  lemma {:induction false} EntriesCumulative(mods: seq<string>)
    requires AllKnown(mods)
    ensures Cumulative(Entries(mods)) && CodesOf(Entries(mods)) == Codes(mods)
  {
    if mods != [] {
      var i := |mods| - 1;
      KnownPrefix(mods);
      EntriesCumulative(mods[..i]);
      NextEntry(mods, i);
      assert mods[..i + 1] == mods;
      hide Bits, NamedModifier, AllKnown, Codes;
      assert Entries(mods)[..i] == Entries(mods[..i]) by { EntriesLength(mods[..i]); }
    }
  }

  lemma {:induction false} EntriesLength(mods: seq<string>)
    requires AllKnown(mods)
    ensures |Entries(mods)| == |mods|
  {
    if mods != [] {
      KnownPrefix(mods);
      EntriesLength(mods[..|mods| - 1]);
    }
  }

  /** Every accepted combo gets a good plan, repeated modifiers and implicit Shift included. */
  lemma KeyPlanPresses(mods: seq<string>, key: string)
    ensures KeyPlan(mods, key).Ok? <==> key != [] && AllKnown(mods) && KeyKeycode(key).Some?
    ensures KeyPlan(mods, key).Ok? ==>
              Presses(KeyPlan(mods, key).value, Wanted(mods, KeyKeycode(key).value), KeyKeycode(key).value.code)
  {
    if KeyPlan(mods, key).Ok? {
      var k := KeyKeycode(key).value;
      var entries, keys := Entries(mods), ComboKeys(mods, k);
      EntriesCumulative(mods);
      hide Bits, Codes, Entries, Presses, KeyKeycode, NamedModifier, AllKnown, Combo;
      if k.shift && KC_SHIFT !in Codes(mods) {
        assert keys[..|keys| - 1] == entries;
      } else {
        Empty(entries);
        assert Wanted(mods, k) == Codes(mods);
      }
      ComboPresses(keys, k.code, Bits(Wanted(mods, k)));
    }
  }

  lemma {:induction false} DownsTrack(keys: seq<Modifier>)
    requires Cumulative(keys)
    ensures FlagsTrack(Downs(keys)) && Replay({}, Downs(keys)) == CodesOf(keys)
    ensures AllOf(Downs(keys), true, CodesOf(keys))
  {
    if keys != [] {
      var front, last := keys[..|keys| - 1], keys[|keys| - 1];
      DownsTrack(front);
      hide Bits, FlagsTrack, Replay, IsModifier;
      TrackAppend(Downs(front), KeyEvent(last.code, true, last.bit));
      ReplayAppend({}, Downs(front), KeyEvent(last.code, true, last.bit));
    }
  }

  lemma {:induction false} UpsTrack(plan: seq<Input>, keys: seq<Modifier>, remaining: bv64)
    requires FlagsTrack(plan) && Cumulative(keys) && remaining == Bits(Replay({}, plan))
    ensures FlagsTrack(plan + Ups(keys, remaining))
    ensures Replay({}, plan + Ups(keys, remaining)) == Replay({}, plan) - CodesOf(keys)
    decreases |keys|
  {
    hide Bits, Bit, Without, FlagsTrack, Replay;
    if keys == [] {
      Empty(plan);
    } else {
      var front, code := keys[..|keys| - 1], keys[|keys| - 1].code;
      var e := KeyEvent(code, false, Without(remaining, Bit(code)));
      ReleaseOne(plan, code, remaining);
      assert Ups(keys, remaining) == [e] + Ups(front, e.flags);
      assert CodesOf(keys) == CodesOf(front) + {code};
      assert Cumulative(front);
      hide *;
      UpsTrack(plan + [e], front, e.flags);
      Associative(plan, [e], Ups(front, e.flags));
      assert (Replay({}, plan) - {code}) - CodesOf(front) == Replay({}, plan) - (CodesOf(front) + {code});
    }
  }

  lemma ReleaseOne(plan: seq<Input>, code: int, remaining: bv64)
    requires FlagsTrack(plan) && IsModifier(code) && remaining == Bits(Replay({}, plan))
    ensures var e := KeyEvent(code, false, Without(remaining, Bit(code)));
            && FlagsTrack(plan + [e]) && Replay({}, plan + [e]) == Replay({}, plan) - {code}
            && e.flags == Bits(Replay({}, plan + [e]))
  {
    var e := KeyEvent(code, false, Without(remaining, Bit(code)));
    BitsOfHeld(Replay({}, plan), code);
    hide Bits, Bit, Without, FlagsTrack, Replay;
    TrackAppend(plan, e);
    ReplayAppend({}, plan, e);
  }

  lemma {:induction false} UpsAreReleases(keys: seq<Modifier>, remaining: bv64, wanted: set<int>)
    requires CodesOf(keys) <= wanted
    ensures AllOf(Ups(keys, remaining), false, wanted)
    decreases |keys|
  {
    hide Without, Bit;
    if keys != [] {
      UpsAreReleases(keys[..|keys| - 1], Without(remaining, Bit(keys[|keys| - 1].code)), wanted);
    }
  }

  /** The key itself: down and up while the modifiers stay held. */
  lemma KeyTracks(downs: seq<Input>, wanted: set<int>, key: int)
    requires FlagsTrack(downs) && Replay({}, downs) == wanted && !IsModifier(key)
    requires forall code :: code in wanted ==> IsModifier(code)
    ensures var plan := downs + [KeyEvent(key, true, Bits(wanted)), KeyEvent(key, false, Bits(wanted))];
            FlagsTrack(plan) && Replay({}, plan) == wanted
  {
    var down, up := KeyEvent(key, true, Bits(wanted)), KeyEvent(key, false, Bits(wanted));
    KeyKeepsModifiers(wanted, key);
    hide Bits, FlagsTrack, Replay, IsModifier;
    TrackAppend(downs, down);
    ReplayAppend({}, downs, down);
    TrackAppend(downs + [down], up);
    ReplayAppend({}, downs + [down], up);
    Associative(downs, [down], [up]);
    assert [down] + [up] == [down, up];
  }

  /** The combo's plan is a good one. */
  lemma ComboPresses(keys: seq<Modifier>, key: int, flags: bv64)
    requires Cumulative(keys) && flags == Bits(CodesOf(keys)) && !IsModifier(key)
    ensures Presses(Combo(keys, key, flags), CodesOf(keys), key)
  {
    DownsTrack(keys);
    CodesAreModifiers(keys);
    hide Bits, FlagsTrack, Replay, Downs, Ups, IsModifier, Cumulative, CodesOf, AllOf;
    var downs, wanted := Downs(keys), CodesOf(keys);
    var plan := downs + [KeyEvent(key, true, flags), KeyEvent(key, false, flags)];
    KeyTracks(downs, wanted, key);
    UpsTrack(plan, keys, flags);
    UpsAreReleases(keys, flags, wanted);
    assert wanted - wanted == {};
    assert Combo(keys, key, flags) == plan + Ups(keys, flags);
  }

  lemma {:induction false} CodesAreModifiers(keys: seq<Modifier>)
    requires Cumulative(keys)
    ensures forall code :: code in CodesOf(keys) ==> IsModifier(code)
  {
    if keys != [] {
      CodesAreModifiers(keys[..|keys| - 1]);
    }
  }

  /** Pressing and releasing a key that is no modifier leaves the flags alone. */
  lemma KeyKeepsModifiers(held: set<int>, key: int)
    requires !IsModifier(key) && forall code :: code in held ==> IsModifier(code)
    ensures Bits(held + {key}) == Bits(held)
    ensures (held + {key}) - {key} == held
  {
  }
}
