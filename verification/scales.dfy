/**
 * The musical scale tables: for each of the 12 keys, major and minor, the set
 * of pitch classes (C=0, C#=1, ..., B=11) of its diatonic (7-note) and
 * pentatonic (5-note) scale; the lookup by name; and the menu that turns a
 * typed number and a type choice into a named scale.
 */
module Scales {
  import opened Wrappers
  import opened PyText

  type ScaleTable = map<string, set<int>>

  const MAJOR_DIATONIC: ScaleTable := map[
    "C Major" := {0, 2, 4, 5, 7, 9, 11},
    "C# Major" := {1, 3, 5, 6, 8, 10, 0},
    "D Major" := {2, 4, 6, 7, 9, 11, 1},
    "D# Major" := {3, 5, 7, 8, 10, 0, 2},
    "E Major" := {4, 6, 8, 9, 11, 1, 3},
    "F Major" := {5, 7, 9, 10, 0, 2, 4},
    "F# Major" := {6, 8, 10, 11, 1, 3, 5},
    "G Major" := {7, 9, 11, 0, 2, 4, 6},
    "G# Major" := {8, 10, 0, 1, 3, 5, 7},
    "A Major" := {9, 11, 1, 2, 4, 6, 8},
    "A# Major" := {10, 0, 2, 3, 5, 7, 9},
    "B Major" := {11, 1, 3, 4, 6, 8, 10}
  ]

  const MINOR_DIATONIC: ScaleTable := map[
    "C Minor" := {0, 2, 3, 5, 7, 8, 10},
    "C# Minor" := {1, 3, 4, 6, 8, 9, 11},
    "D Minor" := {2, 4, 5, 7, 9, 10, 0},
    "D# Minor" := {3, 5, 6, 8, 10, 11, 1},
    "E Minor" := {4, 6, 7, 9, 11, 0, 2},
    "F Minor" := {5, 7, 8, 10, 0, 1, 3},
    "F# Minor" := {6, 8, 9, 11, 1, 2, 4},
    "G Minor" := {7, 9, 10, 0, 2, 3, 5},
    "G# Minor" := {8, 10, 11, 1, 3, 4, 6},
    "A Minor" := {9, 11, 0, 2, 4, 5, 7},
    "A# Minor" := {10, 0, 1, 3, 5, 6, 8},
    "B Minor" := {11, 1, 2, 4, 6, 7, 9}
  ]

  const MAJOR_PENTATONIC: ScaleTable := map[
    "C Major" := {0, 2, 4, 7, 9},
    "C# Major" := {1, 3, 5, 8, 10},
    "D Major" := {2, 4, 6, 9, 11},
    "D# Major" := {3, 5, 7, 10, 0},
    "E Major" := {4, 6, 8, 11, 1},
    "F Major" := {5, 7, 9, 0, 2},
    "F# Major" := {6, 8, 10, 1, 3},
    "G Major" := {7, 9, 11, 2, 4},
    "G# Major" := {8, 10, 0, 3, 5},
    "A Major" := {9, 11, 1, 4, 6},
    "A# Major" := {10, 0, 2, 5, 7},
    "B Major" := {11, 1, 3, 6, 8}
  ]

  const MINOR_PENTATONIC: ScaleTable := map[
    "C Minor" := {0, 3, 5, 7, 10},
    "C# Minor" := {1, 4, 6, 8, 11},
    "D Minor" := {2, 5, 7, 9, 0},
    "D# Minor" := {3, 6, 8, 10, 1},
    "E Minor" := {4, 7, 9, 11, 2},
    "F Minor" := {5, 8, 10, 0, 3},
    "F# Minor" := {6, 9, 11, 1, 4},
    "G Minor" := {7, 10, 0, 2, 5},
    "G# Minor" := {8, 11, 1, 3, 6},
    "A Minor" := {9, 0, 2, 4, 7},
    "A# Minor" := {10, 1, 3, 5, 8},
    "B Minor" := {11, 2, 4, 6, 9}
  ]

  /** Every scale of both diatonic tables, keyed by name. */
  const ALL_SCALES: ScaleTable := MAJOR_DIATONIC + MINOR_DIATONIC

  /** The menu's listing of the major names, as `sorted(MAJOR_DIATONIC.keys())` orders them. */
  const MAJOR_NAMES: seq<string> := ["A Major", "A# Major", "B Major", "C Major", "C# Major", "D Major", "D# Major", "E Major", "F Major", "F# Major", "G Major", "G# Major"]

  /** The menu's listing of the minor names, as `sorted(MINOR_DIATONIC.keys())` orders them. */
  const MINOR_NAMES: seq<string> := ["A Minor", "A# Minor", "B Minor", "C Minor", "C# Minor", "D Minor", "D# Minor", "E Minor", "F Minor", "F# Minor", "G Minor", "G# Minor"]

  /** The names of the major tables. */
  const MAJOR_KEYS: set<string> := {"C Major", "C# Major", "D Major", "D# Major", "E Major", "F Major", "F# Major", "G Major", "G# Major", "A Major", "A# Major", "B Major"}

  /** The names of the minor tables. */
  const MINOR_KEYS: set<string> := {"C Minor", "C# Minor", "D Minor", "D# Minor", "E Minor", "F Minor", "F# Minor", "G Minor", "G# Minor", "A Minor", "A# Minor", "B Minor"}

  /** The 24 menu entries in the order shown: majors numbered 1..12, then minors 13..24. */
  const MENU: seq<string> := MAJOR_NAMES + MINOR_NAMES

  /** `name` is in `t` with a set of `size` pitch classes, each in 0..11. */
  ghost predicate ScaleOf(t: ScaleTable, name: string, size: nat) {
    name in t && |t[name]| == size && forall pc :: pc in t[name] ==> 0 <= pc < 12
  }

  /** Every set in the table is a set of `size` pitch classes, each in 0..11. */
  ghost predicate TableOf(t: ScaleTable, size: nat) {
    forall name :: name in t ==> ScaleOf(t, name, size)
  }

  lemma CMajorRow()
    ensures ScaleOf(MAJOR_DIATONIC, "C Major", 7) && ScaleOf(MAJOR_PENTATONIC, "C Major", 5)
    ensures MAJOR_PENTATONIC["C Major"] <= MAJOR_DIATONIC["C Major"]
  {
  }

  lemma CSharpMajorRow()
    ensures ScaleOf(MAJOR_DIATONIC, "C# Major", 7) && ScaleOf(MAJOR_PENTATONIC, "C# Major", 5)
    ensures MAJOR_PENTATONIC["C# Major"] <= MAJOR_DIATONIC["C# Major"]
  {
  }

  lemma DMajorRow()
    ensures ScaleOf(MAJOR_DIATONIC, "D Major", 7) && ScaleOf(MAJOR_PENTATONIC, "D Major", 5)
    ensures MAJOR_PENTATONIC["D Major"] <= MAJOR_DIATONIC["D Major"]
  {
  }

  lemma DSharpMajorRow()
    ensures ScaleOf(MAJOR_DIATONIC, "D# Major", 7) && ScaleOf(MAJOR_PENTATONIC, "D# Major", 5)
    ensures MAJOR_PENTATONIC["D# Major"] <= MAJOR_DIATONIC["D# Major"]
  {
  }

  lemma EMajorRow()
    ensures ScaleOf(MAJOR_DIATONIC, "E Major", 7) && ScaleOf(MAJOR_PENTATONIC, "E Major", 5)
    ensures MAJOR_PENTATONIC["E Major"] <= MAJOR_DIATONIC["E Major"]
  {
  }

  lemma FMajorRow()
    ensures ScaleOf(MAJOR_DIATONIC, "F Major", 7) && ScaleOf(MAJOR_PENTATONIC, "F Major", 5)
    ensures MAJOR_PENTATONIC["F Major"] <= MAJOR_DIATONIC["F Major"]
  {
  }

  lemma FSharpMajorRow()
    ensures ScaleOf(MAJOR_DIATONIC, "F# Major", 7) && ScaleOf(MAJOR_PENTATONIC, "F# Major", 5)
    ensures MAJOR_PENTATONIC["F# Major"] <= MAJOR_DIATONIC["F# Major"]
  {
  }

  lemma GMajorRow()
    ensures ScaleOf(MAJOR_DIATONIC, "G Major", 7) && ScaleOf(MAJOR_PENTATONIC, "G Major", 5)
    ensures MAJOR_PENTATONIC["G Major"] <= MAJOR_DIATONIC["G Major"]
  {
  }

  lemma GSharpMajorRow()
    ensures ScaleOf(MAJOR_DIATONIC, "G# Major", 7) && ScaleOf(MAJOR_PENTATONIC, "G# Major", 5)
    ensures MAJOR_PENTATONIC["G# Major"] <= MAJOR_DIATONIC["G# Major"]
  {
  }

  lemma AMajorRow()
    ensures ScaleOf(MAJOR_DIATONIC, "A Major", 7) && ScaleOf(MAJOR_PENTATONIC, "A Major", 5)
    ensures MAJOR_PENTATONIC["A Major"] <= MAJOR_DIATONIC["A Major"]
  {
  }

  lemma ASharpMajorRow()
    ensures ScaleOf(MAJOR_DIATONIC, "A# Major", 7) && ScaleOf(MAJOR_PENTATONIC, "A# Major", 5)
    ensures MAJOR_PENTATONIC["A# Major"] <= MAJOR_DIATONIC["A# Major"]
  {
  }

  lemma BMajorRow()
    ensures ScaleOf(MAJOR_DIATONIC, "B Major", 7) && ScaleOf(MAJOR_PENTATONIC, "B Major", 5)
    ensures MAJOR_PENTATONIC["B Major"] <= MAJOR_DIATONIC["B Major"]
  {
  }

  lemma CMinorRow()
    ensures ScaleOf(MINOR_DIATONIC, "C Minor", 7) && ScaleOf(MINOR_PENTATONIC, "C Minor", 5)
    ensures MINOR_PENTATONIC["C Minor"] <= MINOR_DIATONIC["C Minor"]
  {
  }

  lemma CSharpMinorRow()
    ensures ScaleOf(MINOR_DIATONIC, "C# Minor", 7) && ScaleOf(MINOR_PENTATONIC, "C# Minor", 5)
    ensures MINOR_PENTATONIC["C# Minor"] <= MINOR_DIATONIC["C# Minor"]
  {
  }

  lemma DMinorRow()
    ensures ScaleOf(MINOR_DIATONIC, "D Minor", 7) && ScaleOf(MINOR_PENTATONIC, "D Minor", 5)
    ensures MINOR_PENTATONIC["D Minor"] <= MINOR_DIATONIC["D Minor"]
  {
  }

  lemma DSharpMinorRow()
    ensures ScaleOf(MINOR_DIATONIC, "D# Minor", 7) && ScaleOf(MINOR_PENTATONIC, "D# Minor", 5)
    ensures MINOR_PENTATONIC["D# Minor"] <= MINOR_DIATONIC["D# Minor"]
  {
  }

  lemma EMinorRow()
    ensures ScaleOf(MINOR_DIATONIC, "E Minor", 7) && ScaleOf(MINOR_PENTATONIC, "E Minor", 5)
    ensures MINOR_PENTATONIC["E Minor"] <= MINOR_DIATONIC["E Minor"]
  {
  }

  lemma FMinorRow()
    ensures ScaleOf(MINOR_DIATONIC, "F Minor", 7) && ScaleOf(MINOR_PENTATONIC, "F Minor", 5)
    ensures MINOR_PENTATONIC["F Minor"] <= MINOR_DIATONIC["F Minor"]
  {
  }

  lemma FSharpMinorRow()
    ensures ScaleOf(MINOR_DIATONIC, "F# Minor", 7) && ScaleOf(MINOR_PENTATONIC, "F# Minor", 5)
    ensures MINOR_PENTATONIC["F# Minor"] <= MINOR_DIATONIC["F# Minor"]
  {
  }

  lemma GMinorRow()
    ensures ScaleOf(MINOR_DIATONIC, "G Minor", 7) && ScaleOf(MINOR_PENTATONIC, "G Minor", 5)
    ensures MINOR_PENTATONIC["G Minor"] <= MINOR_DIATONIC["G Minor"]
  {
  }

  lemma GSharpMinorRow()
    ensures ScaleOf(MINOR_DIATONIC, "G# Minor", 7) && ScaleOf(MINOR_PENTATONIC, "G# Minor", 5)
    ensures MINOR_PENTATONIC["G# Minor"] <= MINOR_DIATONIC["G# Minor"]
  {
  }

  lemma AMinorRow()
    ensures ScaleOf(MINOR_DIATONIC, "A Minor", 7) && ScaleOf(MINOR_PENTATONIC, "A Minor", 5)
    ensures MINOR_PENTATONIC["A Minor"] <= MINOR_DIATONIC["A Minor"]
  {
  }

  lemma ASharpMinorRow()
    ensures ScaleOf(MINOR_DIATONIC, "A# Minor", 7) && ScaleOf(MINOR_PENTATONIC, "A# Minor", 5)
    ensures MINOR_PENTATONIC["A# Minor"] <= MINOR_DIATONIC["A# Minor"]
  {
  }

  lemma BMinorRow()
    ensures ScaleOf(MINOR_DIATONIC, "B Minor", 7) && ScaleOf(MINOR_PENTATONIC, "B Minor", 5)
    ensures MINOR_PENTATONIC["B Minor"] <= MINOR_DIATONIC["B Minor"]
  {
  }

  lemma MajorKeys()
    ensures MAJOR_DIATONIC.Keys == {"C Major", "C# Major", "D Major", "D# Major", "E Major", "F Major", "F# Major", "G Major", "G# Major", "A Major", "A# Major", "B Major"}
    ensures MAJOR_PENTATONIC.Keys == {"C Major", "C# Major", "D Major", "D# Major", "E Major", "F Major", "F# Major", "G Major", "G# Major", "A Major", "A# Major", "B Major"}
  {
  }

  lemma MajorNamesAreKeys()
    ensures forall name :: name in MAJOR_KEYS <==> name in MAJOR_NAMES
  {
  }

  lemma {:induction false} MajorDiatonicTable()
    ensures TableOf(MAJOR_DIATONIC, 7)
  {
    forall name | name in MAJOR_DIATONIC
      ensures ScaleOf(MAJOR_DIATONIC, name, 7)
    {
      MajorKeys();
      if name == "C Major" {
        CMajorRow();
      } else if name == "C# Major" {
        CSharpMajorRow();
      } else if name == "D Major" {
        DMajorRow();
      } else if name == "D# Major" {
        DSharpMajorRow();
      } else if name == "E Major" {
        EMajorRow();
      } else if name == "F Major" {
        FMajorRow();
      } else if name == "F# Major" {
        FSharpMajorRow();
      } else if name == "G Major" {
        GMajorRow();
      } else if name == "G# Major" {
        GSharpMajorRow();
      } else if name == "A Major" {
        AMajorRow();
      } else if name == "A# Major" {
        ASharpMajorRow();
      } else if name == "B Major" {
        BMajorRow();
      }
    }
  }

  lemma {:induction false} MajorPentatonicTable()
    ensures TableOf(MAJOR_PENTATONIC, 5)
  {
    forall name | name in MAJOR_PENTATONIC
      ensures ScaleOf(MAJOR_PENTATONIC, name, 5)
    {
      MajorKeys();
      if name == "C Major" {
        CMajorRow();
      } else if name == "C# Major" {
        CSharpMajorRow();
      } else if name == "D Major" {
        DMajorRow();
      } else if name == "D# Major" {
        DSharpMajorRow();
      } else if name == "E Major" {
        EMajorRow();
      } else if name == "F Major" {
        FMajorRow();
      } else if name == "F# Major" {
        FSharpMajorRow();
      } else if name == "G Major" {
        GMajorRow();
      } else if name == "G# Major" {
        GSharpMajorRow();
      } else if name == "A Major" {
        AMajorRow();
      } else if name == "A# Major" {
        ASharpMajorRow();
      } else if name == "B Major" {
        BMajorRow();
      }
    }
  }

  lemma {:induction false} MajorPentatonicInsideDiatonic()
    ensures forall name :: name in MAJOR_DIATONIC ==> MAJOR_PENTATONIC[name] <= MAJOR_DIATONIC[name]
  {
    forall name | name in MAJOR_DIATONIC
      ensures MAJOR_PENTATONIC[name] <= MAJOR_DIATONIC[name]
    {
      MajorKeys();
      if name == "C Major" {
        CMajorRow();
      } else if name == "C# Major" {
        CSharpMajorRow();
      } else if name == "D Major" {
        DMajorRow();
      } else if name == "D# Major" {
        DSharpMajorRow();
      } else if name == "E Major" {
        EMajorRow();
      } else if name == "F Major" {
        FMajorRow();
      } else if name == "F# Major" {
        FSharpMajorRow();
      } else if name == "G Major" {
        GMajorRow();
      } else if name == "G# Major" {
        GSharpMajorRow();
      } else if name == "A Major" {
        AMajorRow();
      } else if name == "A# Major" {
        ASharpMajorRow();
      } else if name == "B Major" {
        BMajorRow();
      }
    }
  }

  lemma MinorKeys()
    ensures MINOR_DIATONIC.Keys == {"C Minor", "C# Minor", "D Minor", "D# Minor", "E Minor", "F Minor", "F# Minor", "G Minor", "G# Minor", "A Minor", "A# Minor", "B Minor"}
    ensures MINOR_PENTATONIC.Keys == {"C Minor", "C# Minor", "D Minor", "D# Minor", "E Minor", "F Minor", "F# Minor", "G Minor", "G# Minor", "A Minor", "A# Minor", "B Minor"}
  {
  }

  lemma MinorNamesAreKeys()
    ensures forall name :: name in MINOR_KEYS <==> name in MINOR_NAMES
  {
  }

  lemma {:induction false} MinorDiatonicTable()
    ensures TableOf(MINOR_DIATONIC, 7)
  {
    forall name | name in MINOR_DIATONIC
      ensures ScaleOf(MINOR_DIATONIC, name, 7)
    {
      MinorKeys();
      if name == "C Minor" {
        CMinorRow();
      } else if name == "C# Minor" {
        CSharpMinorRow();
      } else if name == "D Minor" {
        DMinorRow();
      } else if name == "D# Minor" {
        DSharpMinorRow();
      } else if name == "E Minor" {
        EMinorRow();
      } else if name == "F Minor" {
        FMinorRow();
      } else if name == "F# Minor" {
        FSharpMinorRow();
      } else if name == "G Minor" {
        GMinorRow();
      } else if name == "G# Minor" {
        GSharpMinorRow();
      } else if name == "A Minor" {
        AMinorRow();
      } else if name == "A# Minor" {
        ASharpMinorRow();
      } else if name == "B Minor" {
        BMinorRow();
      }
    }
  }

  lemma {:induction false} MinorPentatonicTable()
    ensures TableOf(MINOR_PENTATONIC, 5)
  {
    forall name | name in MINOR_PENTATONIC
      ensures ScaleOf(MINOR_PENTATONIC, name, 5)
    {
      MinorKeys();
      if name == "C Minor" {
        CMinorRow();
      } else if name == "C# Minor" {
        CSharpMinorRow();
      } else if name == "D Minor" {
        DMinorRow();
      } else if name == "D# Minor" {
        DSharpMinorRow();
      } else if name == "E Minor" {
        EMinorRow();
      } else if name == "F Minor" {
        FMinorRow();
      } else if name == "F# Minor" {
        FSharpMinorRow();
      } else if name == "G Minor" {
        GMinorRow();
      } else if name == "G# Minor" {
        GSharpMinorRow();
      } else if name == "A Minor" {
        AMinorRow();
      } else if name == "A# Minor" {
        ASharpMinorRow();
      } else if name == "B Minor" {
        BMinorRow();
      }
    }
  }

  lemma {:induction false} MinorPentatonicInsideDiatonic()
    ensures forall name :: name in MINOR_DIATONIC ==> MINOR_PENTATONIC[name] <= MINOR_DIATONIC[name]
  {
    forall name | name in MINOR_DIATONIC
      ensures MINOR_PENTATONIC[name] <= MINOR_DIATONIC[name]
    {
      MinorKeys();
      if name == "C Minor" {
        CMinorRow();
      } else if name == "C# Minor" {
        CSharpMinorRow();
      } else if name == "D Minor" {
        DMinorRow();
      } else if name == "D# Minor" {
        DSharpMinorRow();
      } else if name == "E Minor" {
        EMinorRow();
      } else if name == "F Minor" {
        FMinorRow();
      } else if name == "F# Minor" {
        FSharpMinorRow();
      } else if name == "G Minor" {
        GMinorRow();
      } else if name == "G# Minor" {
        GSharpMinorRow();
      } else if name == "A Minor" {
        AMinorRow();
      } else if name == "A# Minor" {
        ASharpMinorRow();
      } else if name == "B Minor" {
        BMinorRow();
      }
    }
  }

  /**
   * Every diatonic scale has exactly 7 pitch classes and every pentatonic one
   * exactly 5, all in 0..11; each pentatonic scale lies inside the diatonic
   * scale of the same name; the two major tables share their 12 names, and so
   * do the two minor tables.
   */
  lemma {:induction false} ScaleTablesWellFormed()
    ensures TableOf(MAJOR_DIATONIC, 7) && TableOf(MINOR_DIATONIC, 7)
    ensures TableOf(MAJOR_PENTATONIC, 5) && TableOf(MINOR_PENTATONIC, 5)
    ensures MAJOR_PENTATONIC.Keys == MAJOR_DIATONIC.Keys && MINOR_PENTATONIC.Keys == MINOR_DIATONIC.Keys
    ensures forall name :: name in MAJOR_DIATONIC ==> MAJOR_PENTATONIC[name] <= MAJOR_DIATONIC[name]
    ensures forall name :: name in MINOR_DIATONIC ==> MINOR_PENTATONIC[name] <= MINOR_DIATONIC[name]
  {
    MajorKeys();
    MinorKeys();
    MajorDiatonicTable();
    MajorPentatonicTable();
    MinorDiatonicTable();
    MinorPentatonicTable();
    MajorPentatonicInsideDiatonic();
    MinorPentatonicInsideDiatonic();
  }

  /** The menu lists each table's names in Python's string order, without repeats. */
  predicate StrictlySorted(names: seq<string>) {
    forall i :: 0 < i < |names| ==> StrLess(names[i - 1], names[i])
  }

  lemma MajorNamesSorted()
    ensures StrictlySorted(MAJOR_NAMES)
  {
    forall i | 0 < i < |MAJOR_NAMES|
      ensures StrLess(MAJOR_NAMES[i - 1], MAJOR_NAMES[i])
    {
      NeighboursOrdered(MAJOR_NAMES[i - 1], MAJOR_NAMES[i]);
    }
  }

  lemma MinorNamesSorted()
    ensures StrictlySorted(MINOR_NAMES)
  {
    forall i | 0 < i < |MINOR_NAMES|
      ensures StrLess(MINOR_NAMES[i - 1], MINOR_NAMES[i])
    {
      NeighboursOrdered(MINOR_NAMES[i - 1], MINOR_NAMES[i]);
    }
  }

  /** Two names that differ in the first character, or share it and differ in the second, are ordered by it. */
  lemma NeighboursOrdered(a: string, b: string)
    requires |a| >= 2 && |b| >= 2
    requires a[0] < b[0] || (a[0] == b[0] && a[1] < b[1])
    ensures StrLess(a, b)
  {
    if a[0] == b[0] {
      assert StrLess(a[1..], b[1..]);
    }
  }

  /** The menu's two listings are the sorted key lists of the two diatonic tables. */
  lemma {:induction false} MenuListsSortedKeys()
    ensures StrictlySorted(MAJOR_NAMES) && StrictlySorted(MINOR_NAMES)
    ensures |MAJOR_NAMES| == |MINOR_NAMES| == 12 && MENU == MAJOR_NAMES + MINOR_NAMES
    ensures forall name :: name in MAJOR_DIATONIC <==> name in MAJOR_NAMES
    ensures forall name :: name in MINOR_DIATONIC <==> name in MINOR_NAMES
  {
    MajorNamesSorted();
    MinorNamesSorted();
    MajorKeys();
    MinorKeys();
    MajorNamesAreKeys();
    MinorNamesAreKeys();
  }

  lemma {:induction false} MajorNamesSayMajor()
    ensures forall name :: name in MAJOR_DIATONIC ==> Contains(name, "Major")
  {
    forall name | name in MAJOR_DIATONIC
      ensures Contains(name, "Major")
    {
      MenuListsSortedKeys();
      EndsInMajor(name);
    }
  }

  /** A name of the major table ends in "Major". */
  lemma EndsInMajor(name: string)
    requires name in MAJOR_NAMES
    ensures Contains(name, "Major")
  {
    MajorSuffix(name);
    ContainsAt(name, "Major", |name| - 5);
  }

  lemma MajorSuffix(name: string)
    requires name in MAJOR_NAMES
    ensures |name| >= 5 && name[|name| - 5..] == "Major"
  {
    var i :| 0 <= i < |MAJOR_NAMES| && MAJOR_NAMES[i] == name;
    if i < 3 {
      MajorSuffixAt(i, 0, 3);
    } else if i < 6 {
      MajorSuffixAt(i, 3, 6);
    } else if i < 9 {
      MajorSuffixAt(i, 6, 9);
    } else {
      MajorSuffixAt(i, 9, 12);
    }
  }

  /** The suffix check for one stretch of the major listing. */
  lemma MajorSuffixAt(i: nat, lo: nat, hi: nat)
    requires lo <= i < hi <= |MAJOR_NAMES| && hi - lo <= 3
    ensures |MAJOR_NAMES[i]| >= 5 && MAJOR_NAMES[i][|MAJOR_NAMES[i]| - 5..] == "Major"
  {
  }

  lemma {:induction false} MinorNamesLackMajor()
    ensures forall name :: name in MINOR_DIATONIC ==> !Contains(name, "Major")
  {
    forall name | name in MINOR_DIATONIC
      ensures !Contains(name, "Major")
    {
      MenuListsSortedKeys();
      LacksMajor(name);
    }
  }

  /** No name of the minor table holds a 'j', so none contains "Major". */
  lemma LacksMajor(name: string)
    requires name in MINOR_NAMES
    ensures !Contains(name, "Major")
  {
    assert 'j' !in name;
    MissingCharNotContained(name, "Major", 2);
  }

  /** The "Major" substring tells the two halves of the menu apart. */
  lemma {:induction false} QualityInName()
    ensures forall name :: name in MAJOR_DIATONIC ==> Contains(name, "Major")
    ensures forall name :: name in MINOR_DIATONIC ==> !Contains(name, "Major")
  {
    MajorNamesSayMajor();
    MinorNamesLackMajor();
  }

  /** No scale name holds a parenthesis, so a " (...)" suffix never collides with one. */
  lemma {:induction false} NoParenInNames()
    ensures forall name :: name in MAJOR_DIATONIC ==> '(' !in name
    ensures forall name :: name in MINOR_DIATONIC ==> '(' !in name
  {
    NoMajorParen();
    NoMinorParen();
  }

  lemma {:induction false} NoMajorParen()
    ensures forall name :: name in MAJOR_DIATONIC ==> '(' !in name
  {
    forall name | name in MAJOR_DIATONIC
      ensures '(' !in name
    {
      MajorKeys();
      if name == "C Major" {
        assert '(' !in "C Major";
      } else if name == "C# Major" {
        assert '(' !in "C# Major";
      } else if name == "D Major" {
        assert '(' !in "D Major";
      } else if name == "D# Major" {
        assert '(' !in "D# Major";
      } else if name == "E Major" {
        assert '(' !in "E Major";
      } else if name == "F Major" {
        assert '(' !in "F Major";
      } else if name == "F# Major" {
        assert '(' !in "F# Major";
      } else if name == "G Major" {
        assert '(' !in "G Major";
      } else if name == "G# Major" {
        assert '(' !in "G# Major";
      } else if name == "A Major" {
        assert '(' !in "A Major";
      } else if name == "A# Major" {
        assert '(' !in "A# Major";
      } else if name == "B Major" {
        assert '(' !in "B Major";
      }
    }
  }

  lemma {:induction false} NoMinorParen()
    ensures forall name :: name in MINOR_DIATONIC ==> '(' !in name
  {
    forall name | name in MINOR_DIATONIC
      ensures '(' !in name
    {
      MinorKeys();
      if name == "C Minor" {
        assert '(' !in "C Minor";
      } else if name == "C# Minor" {
        assert '(' !in "C# Minor";
      } else if name == "D Minor" {
        assert '(' !in "D Minor";
      } else if name == "D# Minor" {
        assert '(' !in "D# Minor";
      } else if name == "E Minor" {
        assert '(' !in "E Minor";
      } else if name == "F Minor" {
        assert '(' !in "F Minor";
      } else if name == "F# Minor" {
        assert '(' !in "F# Minor";
      } else if name == "G Minor" {
        assert '(' !in "G Minor";
      } else if name == "G# Minor" {
        assert '(' !in "G# Minor";
      } else if name == "A Minor" {
        assert '(' !in "A Minor";
      } else if name == "A# Minor" {
        assert '(' !in "A# Minor";
      } else if name == "B Minor" {
        assert '(' !in "B Minor";
      }
    }
  }

  lemma MajorKeyCount()
    ensures |MAJOR_KEYS| == 12
  {
  }

  lemma MajorCount()
    ensures |MAJOR_DIATONIC| == 12
  {
    MajorKeys();
    MajorKeyCount();
    assert MAJOR_DIATONIC.Keys == MAJOR_KEYS;
  }

  lemma MinorKeyCount()
    ensures |MINOR_KEYS| == 12
  {
  }

  lemma MinorCount()
    ensures |MINOR_DIATONIC| == 12
  {
    MinorKeys();
    MinorKeyCount();
    assert MINOR_DIATONIC.Keys == MINOR_KEYS;
  }

  /** ALL_SCALES merges the two diatonic tables: 24 names, none shared, no value overwritten. */
  lemma {:induction false} AllScalesIsDisjointUnion()
    ensures ALL_SCALES.Keys == MAJOR_DIATONIC.Keys + MINOR_DIATONIC.Keys
    ensures MAJOR_DIATONIC.Keys !! MINOR_DIATONIC.Keys
    ensures |ALL_SCALES| == 24
    ensures forall name :: name in MAJOR_DIATONIC ==> ALL_SCALES[name] == MAJOR_DIATONIC[name]
    ensures forall name :: name in MINOR_DIATONIC ==> ALL_SCALES[name] == MINOR_DIATONIC[name]
  {
    QualityInName();
    MajorCount();
    MinorCount();
    assert |ALL_SCALES.Keys| == |MAJOR_DIATONIC.Keys| + |MINOR_DIATONIC.Keys|;
  }

  /** `get_pitch_classes(name)`: the diatonic set for a known name, None for any other. */
  function GetPitchClasses(name: string): (r: Option<set<int>>)
    ensures r.Some? <==> name in ALL_SCALES
  {
    if name in ALL_SCALES then Some(ALL_SCALES[name]) else None
  }

  /**
   * A lookup by name yields the 7-note diatonic scale of that name from the
   * major or the minor table, and nothing for a name in neither table (a
   * pentatonic name such as "C Major (Pentatonic)" included).
   */
  lemma {:induction false} GetPitchClassesFindsDiatonic(name: string)
    ensures name in MAJOR_DIATONIC ==> GetPitchClasses(name) == Some(MAJOR_DIATONIC[name])
    ensures name in MINOR_DIATONIC ==> GetPitchClasses(name) == Some(MINOR_DIATONIC[name])
    ensures name !in MAJOR_DIATONIC && name !in MINOR_DIATONIC ==> GetPitchClasses(name) == None
    ensures GetPitchClasses(name).Some? ==> |GetPitchClasses(name).value| == 7
  {
    AllScalesIsDisjointUnion();
    ScaleTablesWellFormed();
  }

  datatype ScaleType = Diatonic | Pentatonic

  /**
   * Step 1 of the interactive selection: the typed number, as `int()` parsed
   * it (None when it raised ValueError), picks entry n of the menu; anything
   * outside 1..24 re-prompts, shown here as None.
   */
  function MenuChoice(parsed: Option<int>): (r: Option<string>)
    ensures r.Some? <==> parsed.Some? && 1 <= parsed.value <= |MENU|
  {
    match parsed
    case None => None
    case Some(n) => if 0 <= n - 1 < |MENU| then Some(MENU[n - 1]) else None
  }

  /** Numbers 1..12 pick the major names in sorted order, 13..24 the minor names. */
  lemma {:induction false} MenuChoiceHalves(n: int)
    ensures 1 <= n <= 12 ==> MenuChoice(Some(n)) == Some(MAJOR_NAMES[n - 1]) && MAJOR_NAMES[n - 1] in MAJOR_DIATONIC
    ensures 13 <= n <= 24 ==> MenuChoice(Some(n)) == Some(MINOR_NAMES[n - 13]) && MINOR_NAMES[n - 13] in MINOR_DIATONIC
    ensures (n < 1 || n > 24) ==> MenuChoice(Some(n)) == None
    ensures MenuChoice(None) == None
  {
    MenuListsSortedKeys();
  }

  /** Step 2: the stripped answer "1" means diatonic, "2" pentatonic; anything else re-prompts (None). */
  function TypeChoice(line: string): (r: Option<ScaleType>)
    ensures r == Some(Diatonic) <==> Strip(line) == "1"
    ensures r == Some(Pentatonic) <==> Strip(line) == "2"
  {
    var choice := Strip(line);
    if choice == "1" then Some(Diatonic)
    else if choice == "2" then Some(Pentatonic)
    else None
  }

  /** The display name of a selection: the scale name with its type in parentheses. */
  function FullName(name: string, t: ScaleType): (full: string)
    ensures |full| > |name| && full[..|name|] == name
    ensures t == Diatonic <==> full[|name|..] == " (Diatonic)"
    ensures t == Pentatonic <==> full[|name|..] == " (Pentatonic)"
  {
    match t
    case Diatonic => name + " (Diatonic)"
    case Pentatonic => name + " (Pentatonic)"
  }

  /**
   * The end of the interactive selection: the table is chosen by whether the
   * name contains "Major" and by the scale type. The name always comes from
   * the menu, so it is a key of one of the diatonic tables.
   */
  function Selection(name: string, t: ScaleType): (r: (string, set<int>))
    requires name in ALL_SCALES
    ensures r.0 == FullName(name, t)
  {
    AllScalesIsDisjointUnion();
    QualityInName();
    ScaleTablesWellFormed();
    var isMajor := Contains(name, "Major");
    match t
    case Diatonic => (FullName(name, t), if isMajor then MAJOR_DIATONIC[name] else MINOR_DIATONIC[name])
    case Pentatonic => (FullName(name, t), if isMajor then MAJOR_PENTATONIC[name] else MINOR_PENTATONIC[name])
  }

  /**
   * Choosing menu entry n and a type yields that entry's name with the type
   * suffix and the set of the matching table: the major tables for 1..12, the
   * minor ones for 13..24, with 7 pitch classes for diatonic and 5 for
   * pentatonic.
   */
  lemma {:induction false} SelectionFromMenu(n: int, t: ScaleType)
    requires 1 <= n <= 24
    ensures var name := MENU[n - 1];
      name in ALL_SCALES &&
      Selection(name, t).0 == FullName(name, t) &&
      (n <= 12 && t == Diatonic ==> Selection(name, t).1 == MAJOR_DIATONIC[name]) &&
      (n <= 12 && t == Pentatonic ==> Selection(name, t).1 == MAJOR_PENTATONIC[name]) &&
      (n > 12 && t == Diatonic ==> Selection(name, t).1 == MINOR_DIATONIC[name]) &&
      (n > 12 && t == Pentatonic ==> Selection(name, t).1 == MINOR_PENTATONIC[name]) &&
      |Selection(name, t).1| == (if t == Diatonic then 7 else 5)
  {
    MenuChoiceHalves(n);
    AllScalesIsDisjointUnion();
    QualityInName();
    ScaleTablesWellFormed();
  }
}
