/** The language registry: a constant table of language names and badge colours. */
module Languages {
  import opened Js

  datatype Language = Language(name: string, color: string)

  const ProgrammingLanguages: seq<Language> := [
    Language("JavaScript", "#f0db4f"),
    Language("HTML", "#f6897d"),
    Language("Python", "#306998"),
    Language("Java", "#b07219"),
    Language("Vue", "#2DD4BF"),
    Language("C#", "#178600"),
    Language("C++", "#00599C"),
    Language("PHP", "#4F5D95"),
    Language("TypeScript", "#2b7489"),
    Language("Ruby", "#701516"),
    Language("Swift", "#ffac45"),
    Language("Go", "#00ADD8"),
    Language("Kotlin", "#A97BFF"),
    Language("Rust", "#dea584"),
    Language("Scala", "#DC322F"),
    Language("Perl", "#0298C3"),
    Language("Haskell", "#5B50FF"),
    Language("Lua", "#000080"),
    Language("Objective-C", "#0C6EFD"),
    Language("R", "#276DC3"),
    Language("Dart", "#00B4AB"),
    Language("Elixir", "#6E4A7A"),
    Language("VHDL", "#2C009D"),
    Language("F#", "#5BCEFA"),
    Language("Solidity", "#363636"),
    Language("SAS", "#3D8EB9"),
    Language("Ada", "#00205B"),
    Language("Fortran", "#4F81C4"),
    Language("Hack", "#1E293B")
  ]

  predicate IsHexDigit(c: char)
  {
    '0' <= c <= '9' || 'a' <= c <= 'f' || 'A' <= c <= 'F'
  }

  /** A CSS colour of the form `#rrggbb`. */
  predicate IsHexColor(c: string)
  {
    |c| == 7 && c[0] == '#' && forall i :: 1 <= i < 7 ==> IsHexDigit(c[i])
  }

  lemma TableSize()
    ensures |ProgrammingLanguages| == 29
  {
  }

  // The facts about individual entries are proved a few entries at a time: a lemma
  // ranging over the whole 29-entry literal at once costs the solver far more than the
  // sum of these small ranges. `TableColorsAreHex` and `NameKeyAt` dispatch to them.

  lemma ColorIsHexAtA(i: nat)
    requires 0 <= i < 4
    ensures IsHexColor(ProgrammingLanguages[i].color)
  {
    if i == 0 {
    } else
    if i == 1 {
    } else
    if i == 2 {
    } else
    {
    }
  }

  lemma ColorIsHexAtB(i: nat)
    requires 4 <= i < 8
    ensures IsHexColor(ProgrammingLanguages[i].color)
  {
    if i == 4 {
    } else
    if i == 5 {
    } else
    if i == 6 {
    } else
    {
    }
  }

  lemma ColorIsHexAtC(i: nat)
    requires 8 <= i < 12
    ensures IsHexColor(ProgrammingLanguages[i].color)
  {
    if i == 8 {
    } else
    if i == 9 {
    } else
    if i == 10 {
    } else
    {
    }
  }

  lemma ColorIsHexAtD(i: nat)
    requires 12 <= i < 16
    ensures IsHexColor(ProgrammingLanguages[i].color)
  {
    if i == 12 {
    } else
    if i == 13 {
    } else
    if i == 14 {
    } else
    {
    }
  }

  lemma ColorIsHexAtE(i: nat)
    requires 16 <= i < 20
    ensures IsHexColor(ProgrammingLanguages[i].color)
  {
    if i == 16 {
    } else
    if i == 17 {
    } else
    if i == 18 {
    } else
    {
    }
  }

  lemma ColorIsHexAtF(i: nat)
    requires 20 <= i < 24
    ensures IsHexColor(ProgrammingLanguages[i].color)
  {
    if i == 20 {
    } else
    if i == 21 {
    } else
    if i == 22 {
    } else
    {
    }
  }

  lemma ColorIsHexAtG(i: nat)
    requires 24 <= i < 29
    ensures IsHexColor(ProgrammingLanguages[i].color)
  {
    if i == 24 {
    } else
    if i == 25 {
    } else
    if i == 26 {
    } else
    if i == 27 {
    } else
    {
    }
  }

  /** Every colour of the table has the form `#rrggbb`. */
  lemma TableColorsAreHex()
    ensures forall i :: 0 <= i < |ProgrammingLanguages| ==> IsHexColor(ProgrammingLanguages[i].color)
  {
    forall i | 0 <= i < |ProgrammingLanguages| ensures IsHexColor(ProgrammingLanguages[i].color) {
      if i < 4 {
        ColorIsHexAtA(i);
      } else if i < 8 {
        ColorIsHexAtB(i);
      } else if i < 12 {
        ColorIsHexAtC(i);
      } else if i < 16 {
        ColorIsHexAtD(i);
      } else if i < 20 {
        ColorIsHexAtE(i);
      } else if i < 24 {
        ColorIsHexAtF(i);
      } else {
        ColorIsHexAtG(i);
      }
    }
  }

  /** Length, first and last character of a name, lower-cased: enough to tell the
      29 names apart. Comparing these integer keys avoids comparing 29 * 28 pairs of
      strings character by character. */
  function NameKey(s: string): int
  {
    if s == [] then 0
    else |s| * 0x1_0000_0000 + (LowerChar(s[0]) as int) * 0x1_0000 + LowerChar(s[|s| - 1]) as int
  }

  lemma NameKeyOfLower(s: string)
    ensures s != [] ==> NameKey(Lower(s)) == NameKey(s)
  {
    if s != [] {
      LowerAt(s, 0);
      LowerAt(s, |s| - 1);
      assert LowerChar(LowerChar(s[0])) == LowerChar(s[0]);
      assert LowerChar(LowerChar(s[|s| - 1])) == LowerChar(s[|s| - 1]);
    }
  }

  /** The keys of the 29 names, in table order. */
  ghost const NameKeys: seq<int> := [
    42956619892, 17186685036, 25777143918, 17186816097, 12892635237, 8596422691,
    12891389995, 12892242032, 42957275252, 17187340409, 21482373236, 8596684911,
    25776816238, 17187340404, 21482373217, 17187209324, 30071586924, 12891979873,
    47251914851, 4302438514, 17186422900, 25776423026, 17187602540, 8596619299,
    34367275129, 12892438643, 12891258977, 30071455854, 17186685035
  ]

  lemma NameKeyAtA(i: nat)
    requires 0 <= i < 6
    ensures NameKey(ProgrammingLanguages[i].name) == NameKeys[i]
  {
    if i == 0 {
    } else
    if i == 1 {
    } else
    if i == 2 {
    } else
    if i == 3 {
    } else
    if i == 4 {
    } else
    {
    }
  }

  lemma NameKeyAtB(i: nat)
    requires 6 <= i < 12
    ensures NameKey(ProgrammingLanguages[i].name) == NameKeys[i]
  {
    if i == 6 {
    } else
    if i == 7 {
    } else
    if i == 8 {
    } else
    if i == 9 {
    } else
    if i == 10 {
    } else
    {
    }
  }

  lemma NameKeyAtC(i: nat)
    requires 12 <= i < 18
    ensures NameKey(ProgrammingLanguages[i].name) == NameKeys[i]
  {
    if i == 12 {
    } else
    if i == 13 {
    } else
    if i == 14 {
    } else
    if i == 15 {
    } else
    if i == 16 {
    } else
    {
    }
  }

  lemma NameKeyAtD(i: nat)
    requires 18 <= i < 24
    ensures NameKey(ProgrammingLanguages[i].name) == NameKeys[i]
  {
    if i == 18 {
    } else
    if i == 19 {
    } else
    if i == 20 {
    } else
    if i == 21 {
    } else
    if i == 22 {
    } else
    {
    }
  }

  lemma NameKeyAtE(i: nat)
    requires 24 <= i < 29
    ensures NameKey(ProgrammingLanguages[i].name) == NameKeys[i]
  {
    if i == 24 {
    } else
    if i == 25 {
    } else
    if i == 26 {
    } else
    if i == 27 {
    } else
    {
    }
  }

  lemma NameKeyAt(i: nat)
    requires i < |ProgrammingLanguages|
    ensures NameKey(ProgrammingLanguages[i].name) == NameKeys[i]
  {
    if i < 6 {
      NameKeyAtA(i);
    } else if i < 12 {
      NameKeyAtB(i);
    } else if i < 18 {
      NameKeyAtC(i);
    } else if i < 24 {
      NameKeyAtD(i);
    } else {
      NameKeyAtE(i);
    }
  }

  lemma NameKeysDistinct()
    ensures forall i, j :: 0 <= i < j < |NameKeys| ==> NameKeys[i] != NameKeys[j]
  {
  }

  /** No two table names are equal after lower-casing, so the case-insensitive `find`
      of the card components can match at most one entry. */
  lemma TableNamesDistinctIgnoringCase()
    ensures forall i, j :: 0 <= i < j < |ProgrammingLanguages| ==>
      Lower(ProgrammingLanguages[i].name) != Lower(ProgrammingLanguages[j].name)
  {
    NameKeysDistinct();
    forall i, j | 0 <= i < j < |ProgrammingLanguages|
      ensures Lower(ProgrammingLanguages[i].name) != Lower(ProgrammingLanguages[j].name)
    {
      NameKeyAt(i);
      NameKeyAt(j);
      NameKeyOfLower(ProgrammingLanguages[i].name);
      NameKeyOfLower(ProgrammingLanguages[j].name);
    }
  }

  lemma AllIsNotALanguage()
    ensures forall i :: 0 <= i < |ProgrammingLanguages| ==> ProgrammingLanguages[i].name != "All"
  {
  }
}
