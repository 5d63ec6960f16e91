/**
 * Key-name normalisation: a symbolic key name is upper-cased, an alias is
 * replaced by its canonical name, and the result is looked up in Ext's
 * table of key-code constants (a parameter here).
 */
module KeyNames {
  import opened Host

  /** The aliases accepted for the canonical key names. */
  const Aliases: map<string, string> := map[
    "ESCAPE" := "ESC", "BACK" := "BACKSPACE", "BACKSP" := "BACKSPACE",
    "DEL" := "DELETE", "INS" := "INSERT", "CAPS" := "CAPS_LOCK",
    "CAPSLOCK" := "CAPS_LOCK", "PGUP" := "PAGE_UP", "PAGEUP" := "PAGE_UP",
    "PGDN" := "PAGE_DOWN", "PAGEDOWN" := "PAGE_DOWN", "PAGEDN" := "PAGE_DOWN",
    "PRINTSCREEN" := "PRINT_SCREEN", "PRTSCR" := "PRINT_SCREEN",
    "PRTSC" := "PRINT_SCREEN"]

  predicate IsLower(c: char) {
    'a' <= c <= 'z'
  }

  function UpperChar(c: char): (u: char)
    ensures !IsLower(u)
    ensures !IsLower(c) ==> u == c
    ensures IsLower(c) ==> u as int == c as int - 32
  {
    if IsLower(c) then (c as int - 32) as char else c
  }

  /** `toUpperCase`, on ASCII letters. */
  function Upper(s: string): (u: string)
    ensures |u| == |s|
    ensures forall i :: 0 <= i < |s| ==> u[i] == UpperChar(s[i])
  {
    if s == [] then [] else [UpperChar(s[0])] + Upper(s[1..])
  }

  /** No lower-case letter occurs in the name. */
  predicate IsUpper(s: string) {
    forall i :: 0 <= i < |s| ==> !IsLower(s[i])
  }

  /** Upper-casing leaves an upper-case name as it is. */
  lemma {:induction false} UpperOfUpper(s: string)
    requires IsUpper(s)
    ensures Upper(s) == s
  {
    if s != [] {
      UpperOfUpper(s[1..]);
    }
  }

  /** Upper-casing twice is upper-casing once. */
  lemma UpperIdempotent(s: string)
    ensures IsUpper(Upper(s))
    ensures Upper(Upper(s)) == Upper(s)
  {
    UpperOfUpper(Upper(s));
  }

  /** The canonical names the aliases stand for. */
  const Canonical: set<string> :=
    {"ESC", "BACKSPACE", "DELETE", "INSERT", "CAPS_LOCK", "PAGE_UP", "PAGE_DOWN", "PRINT_SCREEN"}

  /**
   * The alias table is upper-case on both sides, every alias stands for
   * a canonical name, and no canonical name is itself an alias.
   */
  lemma CanonicalNames()
    ensures forall a :: a in Aliases ==> IsUpper(a)
    ensures forall a :: a in Aliases ==> Aliases[a] in Canonical
    ensures forall c :: c in Canonical ==> IsUpper(c) && c !in Aliases
  {
    forall a | a in Aliases ensures IsUpper(a) {
    }
    forall c | c in Canonical ensures IsUpper(c) && c !in Aliases {
    }
  }

  /** The name `keyNameToCode` looks up: upper-cased, alias resolved. */
  function Normalize(key: string): (n: string)
    ensures IsUpper(n)
    ensures n !in Aliases
    ensures Upper(key) !in Aliases ==> n == Upper(key)
    ensures Upper(key) in Aliases ==> n == Aliases[Upper(key)]
  {
    CanonicalNames();
    UpperIdempotent(key);
    var u := Upper(key);
    if u in Aliases then Aliases[u] else u
  }

  /** Normalising a normalised name changes nothing. */
  lemma NormalizeIdempotent(key: string)
    ensures Normalize(Normalize(key)) == Normalize(key)
  {
    UpperOfUpper(Normalize(key));
  }

  /** `Ext.EventObject[name]`: the key-code constant of that name, or `undefined`. */
  function KeyConstant(keys: map<string, int>, name: string): (code: JsNum)
    ensures code.Num? <==> name in keys
    ensures code.Num? ==> code.n == keys[name]
  {
    if name in keys then Num(keys[name]) else Unset
  }

  /** `keyNameToCode`: the constant named by the normalised name, or `undefined`. */
  function KeyNameToCode(keys: map<string, int>, key: string): (code: JsNum)
    ensures code.Num? <==> Normalize(key) in keys
    ensures code.Num? ==> code.n == keys[Normalize(key)]
  {
    KeyConstant(keys, Normalize(key))
  }

  /** The lookup ignores case. */
  lemma KeyNameIgnoresCase(keys: map<string, int>, k1: string, k2: string)
    requires Upper(k1) == Upper(k2)
    ensures KeyNameToCode(keys, k1) == KeyNameToCode(keys, k2)
  {
  }

  /** Every alias, in any case, resolves to the same code as its canonical name. */
  lemma AliasSameCode(keys: map<string, int>, alias: string)
    requires Upper(alias) in Aliases
    ensures KeyNameToCode(keys, alias) == KeyNameToCode(keys, Aliases[Upper(alias)])
  {
    CanonicalNames();
    UpperOfUpper(Aliases[Upper(alias)]);
  }

  /** A name and its upper-case spelling, letter by letter. */
  lemma UpperWord(s: string, u: string)
    requires |s| == |u|
    requires forall i :: 0 <= i < |s| ==> UpperChar(s[i]) == u[i]
    ensures Upper(s) == u
  {
  }

  /** "Esc" and "Escape" press the same key. */
  lemma EscEqualsEscape(keys: map<string, int>)
    ensures KeyNameToCode(keys, "Esc") == KeyNameToCode(keys, "Escape")
  {
    UpperWord("Escape", "ESCAPE");
    UpperWord("Esc", "ESC");
    AliasSameCode(keys, "Escape");
  }

  /** Pressing "Enter" or "Esc" by name reaches the constants `pressEnter` and `pressEscape` use. */
  lemma NamedEnterAndEscape(keys: map<string, int>)
    ensures KeyNameToCode(keys, "Enter") == KeyConstant(keys, "ENTER")
    ensures KeyNameToCode(keys, "Esc") == KeyConstant(keys, "ESC")
  {
    UpperWord("Enter", "ENTER");
    UpperWord("Esc", "ESC");
    CanonicalNames();
  }
}
