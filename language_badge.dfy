/** The language badge of the project cards and the detail page: the colour looked up in
    the language registry, and the integer split of that colour into its three bytes. */
module LanguageBadge {
  import opened Js
  import opened Languages

  const DefaultColor := "#cccccc"

  // ---------------------------------------------------------------------------
  // Colour lookup
  // ---------------------------------------------------------------------------

  /** `table.find(lang => lang.name.toLowerCase() === key)`. */
  function FindByLowerName(table: seq<Language>, key: string): Option<Language>
  {
    if table == [] then None
    else if Lower(table[0].name) == key then Some(table[0])
    else FindByLowerName(table[1..], key)
  }

  /** `find` returns an entry exactly when some entry's lower-cased name is the key,
      and then the first such entry. */
  lemma {:induction false} FindByLowerNameIsFirst(table: seq<Language>, key: string)
    ensures FindByLowerName(table, key).Some? <==> exists i :: 0 <= i < |table| && Lower(table[i].name) == key
    ensures FindByLowerName(table, key).Some? ==>
      exists i :: 0 <= i < |table| && table[i] == FindByLowerName(table, key).value && Lower(table[i].name) == key
               && forall j :: 0 <= j < i ==> Lower(table[j].name) != key
  {
    if table != [] && Lower(table[0].name) != key {
      var rest := table[1..];
      FindByLowerNameIsFirst(rest, key);
      assert forall i :: 1 <= i < |table| ==> table[i] == rest[i - 1];
      if FindByLowerName(rest, key).Some? {
        var i :| 0 <= i < |rest| && rest[i] == FindByLowerName(rest, key).value && Lower(rest[i].name) == key
                 && forall j :: 0 <= j < i ==> Lower(rest[j].name) != key;
        assert table[i + 1] == rest[i];
      }
    } else if table != [] {
      assert Lower(table[0].name) == key;
    }
  }

  /** `find(...)?.color || "#cccccc"` once the key is known. */
  function ColorOf(found: Option<Language>): string
  {
    if found.Some? && found.value.color != "" then found.value.color else DefaultColor
  }

  /** The guarded lookup of the home card: `language?.toLowerCase()` is `undefined` when
      the language is `undefined` or `null`, and no table name equals `undefined`. */
  function LanguageColor(language: Field<string>): (color: string)
    ensures IsHexColor(color)
    ensures !language.Defined? ==> color == DefaultColor
  {
    TableColorsAreHex();
    ColorInIsHex(ProgrammingLanguages, language);
    ColorIn(ProgrammingLanguages, language)
  }

  /** The guarded lookup in a given table. */
  function ColorIn(table: seq<Language>, language: Field<string>): string
  {
    if language.Defined? then ColorOf(FindByLowerName(table, Lower(language.value))) else DefaultColor
  }

  /** In a table of `#rrggbb` colours every lookup yields a `#rrggbb` colour. */
  lemma ColorInIsHex(table: seq<Language>, language: Field<string>)
    requires forall i :: 0 <= i < |table| ==> IsHexColor(table[i].color)
    ensures IsHexColor(ColorIn(table, language))
  {
    if language.Defined? {
      FindByLowerNameIsFirst(table, Lower(language.value));
    }
  }

  /** A language that names no entry of `table` gets the default colour. */
  lemma ColorInDefault(table: seq<Language>, language: string)
    requires forall i :: 0 <= i < |table| ==> Lower(table[i].name) != Lower(language)
    ensures ColorIn(table, Defined(language)) == DefaultColor
  {
    FindByLowerNameIsFirst(table, Lower(language));
  }

  /** No two names of `table` are equal after lower-casing. */
  predicate DistinctIgnoringCase(table: seq<Language>)
  {
    forall i, j :: 0 <= i < j < |table| ==> Lower(table[i].name) != Lower(table[j].name)
  }

  /** In a table whose names are distinct ignoring case, the entry a key names is the
      one `find` returns. */
  lemma FindNamedEntry(table: seq<Language>, key: string, i: nat)
    requires DistinctIgnoringCase(table)
    requires i < |table| && Lower(table[i].name) == key
    ensures FindByLowerName(table, key) == Some(table[i])
  {
    FindByLowerNameIsFirst(table, key);
    var found := FindByLowerName(table, key);
    var k :| 0 <= k < |table| && table[k] == found.value && Lower(found.value.name) == key
             && forall j :: 0 <= j < k ==> Lower(table[j].name) != key;
  }

  lemma ColorInEntry(table: seq<Language>, language: string, i: nat)
    requires DistinctIgnoringCase(table)
    requires i < |table| && Lower(language) == Lower(table[i].name) && table[i].color != ""
    ensures ColorIn(table, Defined(language)) == table[i].color
  {
    FindNamedEntry(table, Lower(language), i);
  }

  /** Lower-casing the language first does not change the lookup. */
  lemma ColorInIgnoresCase(table: seq<Language>, language: string)
    ensures ColorIn(table, Defined(Lower(language))) == ColorIn(table, Defined(language))
  {
    LowerIdempotent(language);
  }

  /** A language that names a table entry, in any ASCII case, gets that entry's colour:
      the names are distinct ignoring case, so the first match is the only one. */
  lemma LanguageColorOfEntry(language: string, i: nat)
    requires i < |ProgrammingLanguages| && Lower(language) == Lower(ProgrammingLanguages[i].name)
    ensures LanguageColor(Defined(language)) == ProgrammingLanguages[i].color
  {
    TableNamesDistinctIgnoringCase();
    TableColorsAreHex();
    ColorInEntry(ProgrammingLanguages, language, i);
  }

  /** A language that names no table entry gets the default colour; differently cased
      spellings of the same name get the same colour. */
  lemma LanguageColorDefaultAndCase(language: string)
    ensures (forall i :: 0 <= i < |ProgrammingLanguages| ==> Lower(ProgrammingLanguages[i].name) != Lower(language))
        ==> LanguageColor(Defined(language)) == DefaultColor
    ensures LanguageColor(Defined(Lower(language))) == LanguageColor(Defined(language))
  {
    ColorInIgnoresCase(ProgrammingLanguages, language);
    if forall i :: 0 <= i < |ProgrammingLanguages| ==> Lower(ProgrammingLanguages[i].name) != Lower(language) {
      ColorInDefault(ProgrammingLanguages, language);
    }
  }

  /** The unguarded lookup of the dashboard card: `language.toLowerCase()` throws when
      the language is `null` or `undefined`; `None` is that exception. */
  function DashboardColorAsWritten(language: Field<string>): (color: Option<string>)
    ensures color.Some? <==> language.Defined?
    ensures color.Some? ==> color.value == LanguageColor(language)
  {
    if language.Defined? then Some(ColorIn(ProgrammingLanguages, language)) else None
  }

  /** The lookup of the detail page: `project?.language.toLowerCase()` short-circuits
      while there is no project, and throws for a project whose language is missing. */
  function DetailColorAsWritten(project: Option<Field<string>>): (color: Option<string>)
    ensures project.None? ==> color == Some(DefaultColor)
    ensures project.Some? ==> color == DashboardColorAsWritten(project.value)
  {
    if project.None? then Some(DefaultColor) else DashboardColorAsWritten(project.value)
  }

  /** A project whose language is `null` (a repository GitHub reports no language for)
      makes both unguarded lookups throw, where the guarded one yields the default. */
  lemma NullLanguageThrows()
    ensures DashboardColorAsWritten(Null).None?
    ensures DetailColorAsWritten(Some(Null)).None?
    ensures LanguageColor(Null) == DefaultColor
  {
  }

  // ---------------------------------------------------------------------------
  // Hex split
  // ---------------------------------------------------------------------------

  function HexDigitValue(c: char): (v: nat)
    requires IsHexDigit(c)
    ensures v < 16
  {
    if '0' <= c <= '9' then c as int - '0' as int
    else if 'a' <= c <= 'f' then c as int - 'a' as int + 10
    else c as int - 'A' as int + 10
  }

  predicate AllHex(s: string)
  {
    forall i :: 0 <= i < |s| ==> IsHexDigit(s[i])
  }

  function Pow16(n: nat): (p: nat)
    ensures p >= 1
  {
    if n == 0 then 1 else 16 * Pow16(n - 1)
  }

  /** The number a string of hex digits denotes, most significant digit first. */
  function HexValue(s: string): (v: nat)
    requires AllHex(s)
    ensures v < Pow16(|s|)
  {
    if s == [] then 0 else HexValue(s[..|s| - 1]) * 16 + HexDigitValue(s[|s| - 1])
  }

  lemma AllHexAppend(a: string, b: string)
    requires AllHex(a) && AllHex(b)
    ensures AllHex(a + b)
  {
    forall i | 0 <= i < |a + b| ensures IsHexDigit((a + b)[i]) {
      if i >= |a| {
        assert (a + b)[i] == b[i - |a|];
      }
    }
  }

  lemma ShiftDigit(x: int, p: int, y: int, z: int)
    ensures (x * p + y) * 16 + z == x * (16 * p) + (y * 16 + z)
  {
  }

  lemma {:induction false} HexValueAppend(a: string, b: string)
    requires AllHex(a) && AllHex(b)
    ensures AllHex(a + b)
    ensures HexValue(a + b) == HexValue(a) * Pow16(|b|) + HexValue(b)
    decreases |b|
  {
    AllHexAppend(a, b);
    if b == [] {
      assert a + b == a;
    } else {
      var c := b[..|b| - 1];
      var d := b[|b| - 1];
      assert AllHex(c);
      HexValueAppend(a, c);
      assert (a + b)[..|a + b| - 1] == a + c;
      assert (a + b)[|a + b| - 1] == d;
      assert HexValue(a + b) == HexValue(a + c) * 16 + HexDigitValue(d);
      assert HexValue(b) == HexValue(c) * 16 + HexDigitValue(d);
      assert Pow16(|b|) == 16 * Pow16(|c|);
      ShiftDigit(HexValue(a), Pow16(|c|), HexValue(c), HexDigitValue(d));
    }
  }

  /** The leading hex digits of a string. */
  function HexPrefix(s: string): (p: string)
    ensures |p| <= |s| && p == s[..|p|] && AllHex(p)
    ensures |p| < |s| ==> !IsHexDigit(s[|p|])
  {
    if s == [] || !IsHexDigit(s[0]) then [] else [s[0]] + HexPrefix(s[1..])
  }

  /** A string of hex digits is all leading hex digits. */
  lemma {:induction false} HexPrefixOfAllHex(s: string)
    requires AllHex(s)
    ensures HexPrefix(s) == s
  {
    if s != [] {
      HexPrefixOfAllHex(s[1..]);
      assert [s[0]] + s[1..] == s;
    }
  }

  /** `parseInt(s, 16)`: the value of the leading hex digits; `None` is `NaN`. */
  function ParseHex(s: string): (n: Option<nat>)
    ensures n.None? <==> s == [] || !IsHexDigit(s[0])
  {
    var p := HexPrefix(s);
    if p == [] then None else Some(HexValue(p))
  }

  datatype Rgb = Rgb(r: int, g: int, b: int)

  /** `parseInt(hexColor.slice(1), 16)` split with `(rgb >> k) & 0xff` for k = 16, 8, 0.
      The shifts act on the value truncated to 32 bits, whose bits 16-23, 8-15 and 0-7
      are those of the value itself; `NaN` converts to 0. */
  function SplitHex(hexColor: string): (rgb: Rgb)
    ensures 0 <= rgb.r < 256 && 0 <= rgb.g < 256 && 0 <= rgb.b < 256
  {
    match ParseHex(if hexColor == [] then [] else hexColor[1..])
    case None => Rgb(0, 0, 0)
    case Some(n) => Rgb((n / 0x1_0000) % 0x100, (n / 0x100) % 0x100, n % 0x100)
  }

  lemma ByteSplit(r: nat, g: nat, b: nat)
    requires r < 256 && g < 256 && b < 256
    ensures var n := r * 0x1_0000 + g * 0x100 + b;
      (n / 0x1_0000) % 0x100 == r && (n / 0x100) % 0x100 == g && n % 0x100 == b
  {
    var n := r * 0x1_0000 + g * 0x100 + b;
    assert n / 0x100 == r * 0x100 + g;
    assert n / 0x1_0000 == r;
  }

  /** Six hex digits denote the three two-digit values as bytes of one number. */
  lemma SixDigits(s: string)
    requires AllHex(s) && |s| == 6
    ensures AllHex(s[..2]) && AllHex(s[2..4]) && AllHex(s[4..])
    ensures HexValue(s) == HexValue(s[..2]) * 0x1_0000 + HexValue(s[2..4]) * 0x100 + HexValue(s[4..])
  {
    var rr, gg, bb := s[..2], s[2..4], s[4..];
    HexValueAppend(gg, bb);
    assert gg + bb == s[2..];
    HexValueAppend(rr, gg + bb);
    assert rr + (gg + bb) == s;
  }

  /** The three digit pairs of a colour `#rrggbb`, read as bytes. */
  function Channels(c: string): Rgb
    requires IsHexColor(c)
  {
    var s := c[1..];
    assert AllHex(s);
    SixDigits(s);
    Rgb(HexValue(s[..2]), HexValue(s[2..4]), HexValue(s[4..]))
  }

  /** For a colour `#rrggbb` the three bytes are the three digit pairs. */
  lemma SplitOfHexColor(c: string)
    requires IsHexColor(c)
    ensures SplitHex(c) == Channels(c)
  {
    var s := c[1..];
    assert AllHex(s);
    HexPrefixOfAllHex(s);
    SixDigits(s);
    ByteSplit(HexValue(s[..2]), HexValue(s[2..4]), HexValue(s[4..]));
  }

  /** Every badge colour splits into its three digit pairs. */
  lemma BadgeColorSplits(language: Field<string>)
    ensures IsHexColor(LanguageColor(language))
    ensures SplitHex(LanguageColor(language)) == Channels(LanguageColor(language))
  {
    SplitOfHexColor(LanguageColor(language));
  }
}
