/** Items and materials as the game server exposes them: a material is known
    by its enum name, an item stack by its material, amount and the custom-item
    id an ItemsAdder placeholder carries in its persistent data. */
module Items {
  import opened Common

  /** `Material.name()`. */
  type Material = string

  const AIR: Material := "AIR"
  const STONE: Material := "STONE"
  const CHEST: Material := "CHEST"
  const BARRIER: Material := "BARRIER"
  const DIRT: Material := "DIRT"
  const COAL: Material := "COAL"
  const IRON_INGOT: Material := "IRON_INGOT"
  const GOLD_INGOT: Material := "GOLD_INGOT"
  const DIAMOND: Material := "DIAMOND"

  /** An item stack; `iaItemId` is the "ia-item-id" persistent-data entry of a
      placeholder stack. Display name, lore, enchantments and potion data are
      not part of this model. */
  datatype ItemStack = ItemStack(material: Material, amount: int, iaItemId: Option<string>)

  function Stack(m: Material): ItemStack {
    ItemStack(m, 1, None)
  }

  /** Java's `\s`: space, tab, line feed, vertical tab, form feed and
      carriage return. */
  predicate IsSpace(c: char) {
    c == ' ' || '\t' <= c <= '\r'
  }

  /** The characters Java's `\w` accepts. */
  predicate IsWordChar(c: char) {
    'A' <= c <= 'Z' || 'a' <= c <= 'z' || '0' <= c <= '9' || c == '_'
  }

  /** A name `matchMaterial` leaves as it is: word characters without a
      lower-case letter. */
  predicate IsCanonical(s: string) {
    forall i :: 0 <= i < |s| ==> IsWordChar(s[i]) && !('a' <= s[i] <= 'z')
  }

  /** The name after its leading whitespace. */
  function DropSpaces(s: string): (r: string)
    ensures |r| <= |s|
    ensures r == [] || !IsSpace(r[0])
  {
    if s != [] && IsSpace(s[0]) then DropSpaces(s[1..]) else s
  }

  /** `s.replaceAll("\\s+", "_")`: every run of whitespace becomes one
      underscore. */
  function CollapseSpaces(s: string): string
    decreases |s|
  {
    if s == [] then []
    else if IsSpace(s[0]) then "_" + CollapseSpaces(DropSpaces(s[1..]))
    else [s[0]] + CollapseSpaces(s[1..])
  }

  /** `s.replaceAll("\\W", "")`: the characters outside `\w` are dropped. */
  function KeepWordChars(s: string): string {
    if s == [] then []
    else if IsWordChar(s[0]) then [s[0]] + KeepWordChars(s[1..])
    else KeepWordChars(s[1..])
  }

  /** The registry key `matchMaterial` looks up: the "minecraft:" prefix is
      dropped and the rest normalised. */
  function NormalName(name: string): string {
    Normalise(if StartsWith(name, "minecraft:") then name[10..] else name)
  }

  /** The three rewrites of `matchMaterial` in one pass: upper-cased, each
      whitespace run an underscore, every other non-word character
      dropped. */
  function Normalise(s: string): (n: string)
    ensures IsCanonical(n)
    decreases |s|
  {
    if s == [] then []
    else if IsSpace(s[0]) then "_" + Normalise(DropSpaces(s[1..]))
    else if IsWordChar(s[0]) then [UpperChar(s[0])] + Normalise(s[1..])
    else Normalise(s[1..])
  }

  /** The one pass is the code's chain `toUpperCase`, then
      `replaceAll("\\s+", "_")`, then `replaceAll("\\W", "")`. */
  lemma {:induction false} NormaliseIsStaged(s: string)
    ensures Normalise(s) == KeepWordChars(CollapseSpaces(ToUpper(s)))
    decreases |s|
  {
    if s != [] {
      var u := ToUpper(s);
      assert u == [UpperChar(s[0])] + ToUpper(s[1..]);
      if IsSpace(s[0]) {
        UpperKeepsSpaces(s[1..]);
        NormaliseIsStaged(DropSpaces(s[1..]));
        assert CollapseSpaces(u) == "_" + CollapseSpaces(ToUpper(DropSpaces(s[1..])));
      } else {
        NormaliseIsStaged(s[1..]);
        assert CollapseSpaces(u) == [UpperChar(s[0])] + CollapseSpaces(ToUpper(s[1..]));
      }
    }
  }

  /** Upper-casing and dropping leading whitespace commute. */
  lemma {:induction false} UpperKeepsSpaces(s: string)
    ensures DropSpaces(ToUpper(s)) == ToUpper(DropSpaces(s))
  {
    if s != [] {
      assert ToUpper(s) == [UpperChar(s[0])] + ToUpper(s[1..]);
      if IsSpace(s[0]) {
        UpperKeepsSpaces(s[1..]);
      }
    }
  }

  /** A canonical name is its own normal form. */
  lemma {:induction false} CanonicalIsNormalised(s: string)
    ensures IsCanonical(s) ==> Normalise(s) == s
  {
    if s != [] && IsCanonical(s) {
      assert IsCanonical(s[1..]);
      CanonicalIsNormalised(s[1..]);
    }
  }

  /** No canonical name carries the "minecraft:" prefix, so a canonical
      name is its own registry key. */
  lemma CanonicalIsNormal(s: string)
    ensures IsCanonical(s) ==> NormalName(s) == s
  {
    if IsCanonical(s) {
      if |s| >= 10 {
        assert s[..10][9] == s[9] != ':';
      }
      CanonicalIsNormalised(s);
    }
  }

  /** Normalising twice changes nothing. */
  lemma NormalNameIdempotent(name: string)
    ensures NormalName(NormalName(name)) == NormalName(name)
  {
    CanonicalIsNormal(NormalName(name));
  }

  /** `Material.matchMaterial(name)` against the server's material registry
      `known`: the name's normal form, when the registry has it. */
  function MatchMaterial(known: set<Material>, name: string): (r: Option<Material>)
    ensures r.Some? ==> r.value in known && IsCanonical(r.value)
    ensures r.None? <==> NormalName(name) !in known
    ensures IsCanonical(name) ==> r == if name in known then Some(name) else None
  {
    CanonicalIsNormal(name);
    var n := NormalName(name);
    if n in known then Some(n) else None
  }

  /** The "minecraft:" namespace and the case of the name do not matter. */
  lemma MatchNamespacedName()
    ensures MatchMaterial({"ICE"}, "minecraft:ice") == Some("ICE")
  {
    assert "minecraft:ice"[10..] == "ice";
    assert Normalise("ice") == "ICE";
  }

  /** A run of whitespace stands for one underscore. */
  lemma MatchSpacedName()
    ensures MatchMaterial({"A_B"}, "a \t b") == Some("A_B")
  {
    assert DropSpaces("\t b") == "b";
    assert Normalise("a \t b") == "A_B";
  }

  /** Punctuation is dropped rather than turned into an underscore. */
  lemma MatchDropsPunctuation()
    ensures MatchMaterial({"A_B"}, "a-b") == None
  {
    assert Normalise("a-b") == "AB";
  }
}
