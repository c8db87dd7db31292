/**
 * The hotkey choices offered by the settings screen (SettingsView.swift): the
 * modifier and key options, their identifiers, display names, and the modifier
 * flags and key each one stands for.
 */
module Settings {

  /** The modifier keys that appear in a hotkey binding (a subset of NSEvent.ModifierFlags). */
  datatype ModifierFlag = OptionFlag | CommandFlag | ControlFlag

  /** The keys of the HotKey library that the settings screen can bind. */
  datatype Key = SpaceKey | TKey | DKey | RKey

  /** A hotkey registration: a key and the modifier set that must be held with it. */
  datatype Binding = Binding(key: Key, modifiers: set<ModifierFlag>)

  /** `enum ModifierOption: String` */
  datatype ModifierOption = Option | Command | Control | OptionCommand | ControlOption

  /** `enum KeyOption: String` */
  datatype KeyOption = Space | T | D | R

  /** The declaration order of the cases, which `CaseIterable.allCases` follows. */
  const AllModifierOptions: seq<ModifierOption> := [Option, Command, Control, OptionCommand, ControlOption]
  const AllKeyOptions: seq<KeyOption> := [Space, T, D, R]

  /** The raw value: a combined option joins the names of its two modifiers with '+'. */
  function ModifierRawValue(m: ModifierOption): (raw: string)
    ensures raw != [] && ('+' in raw <==> |ModifierFlags(m)| == 2)
  {
    match m
    case Option => "option"
    case Command => "command"
    case Control => "control"
    case OptionCommand => "option+command"
    case ControlOption => "control+option"
  }

  /** `id` (Identifiable): the raw value, which no other option shares. */
  function ModifierId(m: ModifierOption): (id: string)
    ensures id == ModifierRawValue(m)
    ensures forall o :: ModifierRawValue(o) == id <==> o == m
  {
    assert forall o :: ModifierRawValue(o) == ModifierRawValue(m) <==> o == m by {
      forall o ensures ModifierRawValue(o) == ModifierRawValue(m) <==> o == m {
        ModifierRawValuesDistinct(o, m);
      }
    }
    ModifierRawValue(m)
  }

  /** The picker label: it shows the symbol of exactly the modifiers the option stands for. */
  function ModifierDisplayName(m: ModifierOption): (name: string)
    ensures '⌥' in name <==> OptionFlag in ModifierFlags(m)
    ensures '⌘' in name <==> CommandFlag in ModifierFlags(m)
    ensures '⌃' in name <==> ControlFlag in ModifierFlags(m)
  {
    match m
    case Option => "⌥ Option"
    case Command => "⌘ Command"
    case Control => "⌃ Control"
    case OptionCommand => "⌥⌘"
    case ControlOption => "⌃⌥"
  }

  /** The modifier set of a binding: one or two modifiers, never command with control. */
  function ModifierFlags(m: ModifierOption): (flags: set<ModifierFlag>)
    ensures 1 <= |flags| <= 2
    ensures !(CommandFlag in flags && ControlFlag in flags)
  {
    match m
    case Option => {OptionFlag}
    case Command => {CommandFlag}
    case Control => {ControlFlag}
    case OptionCommand => {OptionFlag, CommandFlag}
    case ControlOption => {ControlFlag, OptionFlag}
  }

  /** The raw value: a lower-case name. */
  function KeyRawValue(k: KeyOption): (raw: string)
    ensures raw != [] && forall i :: 0 <= i < |raw| ==> 'a' <= raw[i] <= 'z'
  {
    match k
    case Space => "space"
    case T => "t"
    case D => "d"
    case R => "r"
  }

  /** `id` (Identifiable): the raw value, which no other option shares. */
  function KeyId(k: KeyOption): (id: string)
    ensures id == KeyRawValue(k)
    ensures forall o :: KeyRawValue(o) == id <==> o == k
  {
    assert forall o :: KeyRawValue(o) == KeyRawValue(k) <==> o == k by {
      forall o ensures KeyRawValue(o) == KeyRawValue(k) <==> o == k {
        KeyRawValuesDistinct(o, k);
      }
    }
    KeyRawValue(k)
  }

  /** The upper-case form of a lower-case ASCII letter; any other character is kept. */
  function UpperCase(c: char): char
  {
    if 'a' <= c <= 'z' then (c as int - 32) as char else c
  }

  /** The picker label: the raw value with its first letter capitalised. */
  function KeyDisplayName(k: KeyOption): (name: string)
    ensures |name| == |KeyRawValue(k)| && name[0] == UpperCase(KeyRawValue(k)[0])
    ensures name[1..] == KeyRawValue(k)[1..]
  {
    match k
    case Space => "Space"
    case T => "T"
    case D => "D"
    case R => "R"
  }

  /** The HotKey library key: the space bar for the one multi-letter raw value, a letter key otherwise. */
  function HotKeyKey(k: KeyOption): (key: Key)
    ensures key == SpaceKey <==> |KeyRawValue(k)| > 1
  {
    match k
    case Space => SpaceKey
    case T => TKey
    case D => DKey
    case R => RKey
  }

  /** The binding the settings screen asks the hotkey manager to install for a selection. */
  function SelectedBinding(m: ModifierOption, k: KeyOption): (b: Binding)
    ensures b.key == HotKeyKey(k) && b.modifiers == ModifierFlags(m)
    ensures b.modifiers != {}
  {
    Binding(HotKeyKey(k), ModifierFlags(m))
  }

  /** The selection the settings screen starts with: option + space. */
  const DefaultModifier: ModifierOption := Option
  const DefaultKey: KeyOption := Space

  /** The binding the hotkey manager registers at launch: option + space. */
  const DefaultBinding: Binding := Binding(SpaceKey, {OptionFlag})

  // ---------------------------------------------------------------------------
  // Properties of the tables
  // ---------------------------------------------------------------------------

  /** Two modifier options with the same raw value (hence the same id) are the same option. */
  lemma ModifierRawValuesDistinct(a: ModifierOption, b: ModifierOption)
    ensures ModifierRawValue(a) == ModifierRawValue(b) <==> a == b
  {
    if a != b {
      match a
      case Option => assert ModifierRawValue(a)[0] == 'o' && |ModifierRawValue(a)| == 6;
      case Command => assert ModifierRawValue(a)[1] == 'o' && |ModifierRawValue(a)| == 7;
      case Control => assert ModifierRawValue(a)[2] == 'n' && |ModifierRawValue(a)| == 7;
      case OptionCommand => assert |ModifierRawValue(a)| == 14 && ModifierRawValue(a)[0] == 'o';
      case ControlOption => assert |ModifierRawValue(a)| == 14 && ModifierRawValue(a)[0] == 'c';
    }
  }

  /** Two key options with the same raw value (hence the same id) are the same option. */
  lemma KeyRawValuesDistinct(a: KeyOption, b: KeyOption)
    ensures KeyRawValue(a) == KeyRawValue(b) <==> a == b
  {
    if a != b {
      assert KeyRawValue(a)[0] != KeyRawValue(b)[0];
    }
  }

  /** Each option has its own label in the pickers. */
  lemma DisplayNamesDistinct(a: ModifierOption, b: ModifierOption, c: KeyOption, d: KeyOption)
    ensures ModifierDisplayName(a) == ModifierDisplayName(b) <==> a == b
    ensures KeyDisplayName(c) == KeyDisplayName(d) <==> c == d
  {
    if a != b {
      match a
      case Option => assert ModifierDisplayName(a)[0] == '⌥' && |ModifierDisplayName(a)| == 8;
      case Command => assert ModifierDisplayName(a)[0] == '⌘';
      case Control => assert ModifierDisplayName(a)[0] == '⌃' && |ModifierDisplayName(a)| == 9;
      case OptionCommand => assert ModifierDisplayName(a)[0] == '⌥' && |ModifierDisplayName(a)| == 2;
      case ControlOption => assert ModifierDisplayName(a)[0] == '⌃' && |ModifierDisplayName(a)| == 2;
    }
    if c != d {
      assert KeyDisplayName(c)[0] != KeyDisplayName(d)[0];
    }
  }

  /** Every case is listed exactly once in `allCases`. */
  lemma AllCasesComplete(m: ModifierOption, k: KeyOption)
    ensures multiset(AllModifierOptions)[m] == 1
    ensures multiset(AllKeyOptions)[k] == 1
  {
  }

  /** A single-modifier option stands for exactly its own modifier. */
  lemma SingleModifierFlags()
    ensures ModifierFlags(Option) == {OptionFlag}
    ensures ModifierFlags(Command) == {CommandFlag}
    ensures ModifierFlags(Control) == {ControlFlag}
  {
  }

  /** A two-modifier option stands for the union of its two single-modifier options. */
  lemma CombinedModifierFlags()
    ensures ModifierFlags(OptionCommand) == ModifierFlags(Option) + ModifierFlags(Command)
    ensures ModifierFlags(ControlOption) == ModifierFlags(Control) + ModifierFlags(Option)
    ensures |ModifierFlags(OptionCommand)| == 2 && |ModifierFlags(ControlOption)| == 2
  {
  }

  /** Different modifier options select different modifier sets. */
  lemma ModifierFlagsInjective(a: ModifierOption, b: ModifierOption)
    ensures ModifierFlags(a) == ModifierFlags(b) ==> a == b
  {
    if a != b {
      match a
      case Option => assert OptionFlag in ModifierFlags(a) && |ModifierFlags(a)| == 1;
      case Command => assert CommandFlag in ModifierFlags(a) && |ModifierFlags(a)| == 1;
      case Control => assert ControlFlag in ModifierFlags(a) && |ModifierFlags(a)| == 1;
      case OptionCommand => assert CommandFlag in ModifierFlags(a) && ControlFlag !in ModifierFlags(a);
      case ControlOption => assert ControlFlag in ModifierFlags(a) && CommandFlag !in ModifierFlags(a);
    }
  }

  /** Different key options select different keys. */
  lemma HotKeyKeyInjective(a: KeyOption, b: KeyOption)
    ensures HotKeyKey(a) == HotKeyKey(b) <==> a == b
  {
  }

  /** Different selections install different bindings. */
  lemma SelectedBindingInjective(m1: ModifierOption, k1: KeyOption, m2: ModifierOption, k2: KeyOption)
    ensures SelectedBinding(m1, k1) == SelectedBinding(m2, k2) <==> m1 == m2 && k1 == k2
  {
    if SelectedBinding(m1, k1) == SelectedBinding(m2, k2) {
      ModifierFlagsInjective(m1, m2);
      HotKeyKeyInjective(k1, k2);
    }
  }

  /** The settings screen's initial selection is the binding installed at launch. */
  lemma DefaultSelectionIsDefaultBinding()
    ensures SelectedBinding(DefaultModifier, DefaultKey) == DefaultBinding
  {
  }
}
