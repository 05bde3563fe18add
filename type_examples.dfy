/**
  How the type vocabulary of js/er-diagram/parser.js:137 reads some common types. The
  alternatives are tried in written order and nothing after them has to match, so the first
  alternative that is a prefix of the type text wins, even inside a longer word.
*/
module TypeExamples {
  import opened Wrappers
  import opened Text
  import opened SqlPatterns
  import opened ColumnDefs

  /** Every character of w agrees with s from index i + j on. */
  lemma {:induction false} CiFromChars(s: string, i: nat, w: string, j: nat)
    requires i + |w| <= |s| && CiFrom(s, i, w, j)
    ensures forall k :: j <= k < |w| ==> CiEq(s[i + k], w[k])
    decreases |w| - j
  {
    if j < |w| {
      CiFromChars(s, i, w, j + 1);
    }
  }

  lemma {:induction false} CharsCiFrom(s: string, i: nat, w: string, j: nat)
    requires i + |w| <= |s|
    requires forall k :: j <= k < |w| ==> CiEq(s[i + k], w[k])
    ensures CiFrom(s, i, w, j)
    decreases |w| - j
  {
    if j < |w| {
      CharsCiFrom(s, i, w, j + 1);
    }
  }

  /** A word a text starts with is one its prefixes start with too. */
  lemma CiAtPrefix(s: string, w: string, n: nat)
    requires CiAt(s, 0, w) && n <= |w|
    ensures CiAt(s, 0, w[..n])
  {
    CiFromChars(s, 0, w, 0);
    CharsCiFrom(s, 0, w[..n], 0);
  }

  /** One character that differs rules the word out. */
  lemma CiMiss(s: string, i: nat, w: string, k: nat)
    requires k < |w| && i + k < |s| && !CiEq(s[i + k], w[k])
    ensures !CiAt(s, i, w)
  {
    if CiAt(s, i, w) {
      CiFromChars(s, i, w, 0);
    }
  }

  /** A character that matches an ASCII capital letter case-insensitively is that letter in
      either case. */
  lemma CiLetter(c: char, p: char)
    requires 'A' <= p <= 'Z' && CiEq(c, p)
    ensures c == p || c as int == p as int + 32
  {
  }

  /** t starts with the capital letters of w, each in either case. */
  predicate StartsWithLetters(t: string, w: string) {
    |w| <= |t| && forall k :: 0 <= k < |w| ==> t[k] == w[k] || t[k] as int == w[k] as int + 32
  }

  lemma StartsWith(t: string, w: string)
    requires CiAt(t, 0, w)
    requires forall k :: 0 <= k < |w| ==> 'A' <= w[k] <= 'Z'
    ensures StartsWithLetters(t, w)
  {
    CiFromChars(t, 0, w, 0);
    forall k | 0 <= k < |w| ensures t[k] == w[k] || t[k] as int == w[k] as int + 32 {
      CiLetter(t[k], w[k]);
    }
  }

  /** Alternative k of the vocabulary, a word first, fails when character m of that word
      differs from character m of t. */
  lemma EntryMiss(t: string, k: nat, m: nat)
    requires k < VocabularySize && |VocabularyEntry(k)| > 0 && VocabularyEntry(k)[0].Lit?
    requires m < |VocabularyEntry(k)[0].w| && m < |t| && !CiEq(t[m], VocabularyEntry(k)[0].w[m])
    ensures MatchAtoms(TypeVocabulary()[k], t, 0).None?
  {
    CiMiss(t, 0, VocabularyEntry(k)[0].w, m);
  }

  /** When every alternative before k fails and alternative k matches, k is chosen. */
  lemma {:induction false} FirstMatchIs(alts: seq<seq<Atom>>, s: string, i: nat, k: nat, e: nat)
    requires i <= |s| && k < |alts|
    requires forall j :: 0 <= j < k ==> MatchAtoms(alts[j], s, i).None?
    requires MatchAtoms(alts[k], s, i) == Some(e)
    ensures MatchFirst(alts, s, i) == Some(Choice(k, e))
  {
  }

  /** An alternative that is the single word w takes |w| characters when t starts with w. */
  lemma EntryTakesWord(t: string, k: nat, w: string)
    requires k < VocabularySize && VocabularyEntry(k) == [Lit(w)] && CiAt(t, 0, w)
    ensures MatchAtoms(TypeVocabulary()[k], t, 0) == Some(|w|)
  {
  }

  /** Capital letters in either case, upper-cased, are those letters. */
  lemma UpperOfLetters(s: string, w: string)
    requires StartsWithLetters(s, w) && |s| == |w|
    requires forall k :: 0 <= k < |w| ==> 'A' <= w[k] <= 'Z'
    ensures Upper(s) == w
  {
    forall k | 0 <= k < |w| ensures Upper(s)[k] == w[k] {
      assert s[k] == w[k] || s[k] as int == w[k] as int + 32;
    }
  }

  /** `(?:\s*\([^)]*\))?` and `(?:\s*\[\s*\])*` take nothing before a letter. */
  lemma NoSuffixBeforeLetter(t: string, e: nat)
    requires e < |t| && IsWordChar(t[e]) && t[e] != '(' && t[e] != '['
    ensures ArgsSuffix(t, e) == e && BracketsSuffix(t, e) == e
  {
    assert ArgsSuffix(t, e) == e;
  }

  lemma WordTrimmed(s: string)
    requires forall k :: 0 <= k < |s| ==> IsWordChar(s[k])
    ensures Trim(s) == s
  {
    assert s == [] || (!IsSpace(s[0]) && !IsSpace(s[|s| - 1]));
  }

  lemma SplitAtTypeEnd(t: string, token1: string, e: nat)
    requires VocabularyTypeEnd(t) == Some(e)
    ensures SplitType(t, token1) == TypeSplit(Trim(t[..e]), Trim(t[e..]))
  {
  }

  /** A type word followed by a letter: no argument list or brackets follow it, so the type
      text is the word itself and the clauses start right after it. */
  lemma SplitAtWord(t: string, token1: string, e: nat)
    requires VocabularyChoice(t).Some? && VocabularyChoice(t).value.end == e
    requires e < |t| && IsWordChar(t[e]) && t[e] != '(' && t[e] != '['
    requires forall k :: 0 <= k < e ==> IsWordChar(t[k])
    ensures SplitType(t, token1) == TypeSplit(t[..e], Trim(t[e..]))
  {
    NoSuffixBeforeLetter(t, e);
    assert VocabularyTypeEnd(t) == Some(e);
    SplitAtTypeEnd(t, token1, e);
    WordTrimmed(t[..e]);
  }

  /** The same for a text that starts with the letters of a longer word. */
  lemma SplitInsideWord(t: string, token1: string, w: string, e: nat)
    requires StartsWithLetters(t, w) && e < |w|
    requires forall k :: 0 <= k < |w| ==> 'A' <= w[k] <= 'Z'
    requires VocabularyChoice(t).Some? && VocabularyChoice(t).value.end == e
    ensures SplitType(t, token1) == TypeSplit(t[..e], Trim(t[e..]))
  {
    assert forall k :: 0 <= k < e ==> IsWordChar(t[k]);
    SplitAtWord(t, token1, e);
  }

  lemma LettersCiAt(t: string, w: string)
    requires StartsWithLetters(t, w)
    requires forall k :: 0 <= k < |w| ==> 'A' <= w[k] <= 'Z'
    ensures CiAt(t, 0, w)
  {
    forall k | 0 <= k < |w| ensures CiEq(t[k], w[k]) {
    }
    CharsCiFrom(t, 0, w, 0);
  }

  lemma IntervalReadsAsIntMisses0To6(t: string)
    requires StartsWithLetters(t, "INTERVAL")
    ensures forall j :: 0 <= j < 6 ==> MatchAtoms(TypeVocabulary()[j], t, 0).None?
  {
    forall j | 0 <= j < 6 ensures MatchAtoms(TypeVocabulary()[j], t, 0).None? {
      if j == 0 {
        EntryMiss(t, 0, 0);
      } else if j == 1 {
        EntryMiss(t, 1, 0);
      } else if j == 2 {
        EntryMiss(t, 2, 0);
      } else if j == 3 {
        EntryMiss(t, 3, 0);
      } else if j == 4 {
        EntryMiss(t, 4, 0);
      } else if j == 5 {
        EntryMiss(t, 5, 4);
      }
    }
  }

  lemma IntervalReadsAsIntChoice(t: string)
    requires StartsWithLetters(t, "INTERVAL")
    ensures VocabularyChoice(t) == Some(Choice(6, 3))
    ensures Upper(t[..3]) == "INT"
  {
    IntervalReadsAsIntMisses0To6(t);
    LettersCiAt(t[..3], "INT");
    assert CiAt(t, 0, "INT");
    EntryTakesWord(t, 6, "INT");
    FirstMatchIs(TypeVocabulary(), t, 0, 6, 3);
    UpperOfLetters(t[..3], "INT");
  }

  /** A type text starting with INTERVAL is read as INT, with the rest starting at ERVAL: INTEGER is tried first but differs at its fifth letter. */
  lemma IntervalReadsAsInt(t: string, token1: string)
    requires CiAt(t, 0, "INTERVAL")
    ensures VocabularyChoice(t) == Some(Choice(6, 3))
    ensures SplitType(t, token1) == TypeSplit(t[..3], Trim(t[3..]))
    ensures Upper(t[..3]) == "INT"
  {
    StartsWith(t, "INTERVAL");
    IntervalReadsAsIntChoice(t);
    SplitInsideWord(t, token1, "INTERVAL", 3);
  }

  lemma JsonbReadsAsJsonMisses0To8(t: string)
    requires StartsWithLetters(t, "JSONB")
    ensures forall j :: 0 <= j < 8 ==> MatchAtoms(TypeVocabulary()[j], t, 0).None?
  {
    forall j | 0 <= j < 8 ensures MatchAtoms(TypeVocabulary()[j], t, 0).None? {
      if j == 0 {
        EntryMiss(t, 0, 0);
      } else if j == 1 {
        EntryMiss(t, 1, 0);
      } else if j == 2 {
        EntryMiss(t, 2, 0);
      } else if j == 3 {
        EntryMiss(t, 3, 0);
      } else if j == 4 {
        EntryMiss(t, 4, 0);
      } else if j == 5 {
        EntryMiss(t, 5, 0);
      } else if j == 6 {
        EntryMiss(t, 6, 0);
      } else if j == 7 {
        EntryMiss(t, 7, 0);
      }
    }
  }

  lemma JsonbReadsAsJsonMisses8To16(t: string)
    requires StartsWithLetters(t, "JSONB")
    ensures forall j :: 8 <= j < 16 ==> MatchAtoms(TypeVocabulary()[j], t, 0).None?
  {
    forall j | 8 <= j < 16 ensures MatchAtoms(TypeVocabulary()[j], t, 0).None? {
      if j == 8 {
        EntryMiss(t, 8, 0);
      } else if j == 9 {
        EntryMiss(t, 9, 0);
      } else if j == 10 {
        EntryMiss(t, 10, 0);
      } else if j == 11 {
        EntryMiss(t, 11, 0);
      } else if j == 12 {
        EntryMiss(t, 12, 0);
      } else if j == 13 {
        EntryMiss(t, 13, 0);
      } else if j == 14 {
        EntryMiss(t, 14, 0);
      } else if j == 15 {
        EntryMiss(t, 15, 0);
      }
    }
  }

  lemma JsonbReadsAsJsonMisses16To24(t: string)
    requires StartsWithLetters(t, "JSONB")
    ensures forall j :: 16 <= j < 24 ==> MatchAtoms(TypeVocabulary()[j], t, 0).None?
  {
    forall j | 16 <= j < 24 ensures MatchAtoms(TypeVocabulary()[j], t, 0).None? {
      if j == 16 {
        EntryMiss(t, 16, 0);
      } else if j == 17 {
        EntryMiss(t, 17, 0);
      } else if j == 18 {
        EntryMiss(t, 18, 0);
      } else if j == 19 {
        EntryMiss(t, 19, 0);
      } else if j == 20 {
        EntryMiss(t, 20, 0);
      } else if j == 21 {
        EntryMiss(t, 21, 0);
      } else if j == 22 {
        EntryMiss(t, 22, 0);
      } else if j == 23 {
        EntryMiss(t, 23, 0);
      }
    }
  }

  lemma JsonbReadsAsJsonMisses24To32(t: string)
    requires StartsWithLetters(t, "JSONB")
    ensures forall j :: 24 <= j < 32 ==> MatchAtoms(TypeVocabulary()[j], t, 0).None?
  {
    forall j | 24 <= j < 32 ensures MatchAtoms(TypeVocabulary()[j], t, 0).None? {
      if j == 24 {
        EntryMiss(t, 24, 0);
      } else if j == 25 {
        EntryMiss(t, 25, 0);
      } else if j == 26 {
        EntryMiss(t, 26, 0);
      } else if j == 27 {
        EntryMiss(t, 27, 0);
      } else if j == 28 {
        EntryMiss(t, 28, 0);
      } else if j == 29 {
        EntryMiss(t, 29, 0);
      } else if j == 30 {
        EntryMiss(t, 30, 0);
      } else if j == 31 {
        EntryMiss(t, 31, 0);
      }
    }
  }

  lemma JsonbReadsAsJsonMisses32To40(t: string)
    requires StartsWithLetters(t, "JSONB")
    ensures forall j :: 32 <= j < 40 ==> MatchAtoms(TypeVocabulary()[j], t, 0).None?
  {
    forall j | 32 <= j < 40 ensures MatchAtoms(TypeVocabulary()[j], t, 0).None? {
      if j == 32 {
        EntryMiss(t, 32, 0);
      } else if j == 33 {
        EntryMiss(t, 33, 0);
      } else if j == 34 {
        EntryMiss(t, 34, 0);
      } else if j == 35 {
        EntryMiss(t, 35, 0);
      } else if j == 36 {
        EntryMiss(t, 36, 0);
      } else if j == 37 {
        EntryMiss(t, 37, 0);
      } else if j == 38 {
        EntryMiss(t, 38, 0);
      } else if j == 39 {
        EntryMiss(t, 39, 0);
      }
    }
  }

  lemma JsonbReadsAsJsonMisses40To48(t: string)
    requires StartsWithLetters(t, "JSONB")
    ensures forall j :: 40 <= j < 48 ==> MatchAtoms(TypeVocabulary()[j], t, 0).None?
  {
    forall j | 40 <= j < 48 ensures MatchAtoms(TypeVocabulary()[j], t, 0).None? {
      if j == 40 {
        EntryMiss(t, 40, 0);
      } else if j == 41 {
        EntryMiss(t, 41, 0);
      } else if j == 42 {
        EntryMiss(t, 42, 0);
      } else if j == 43 {
        EntryMiss(t, 43, 0);
      } else if j == 44 {
        EntryMiss(t, 44, 0);
      } else if j == 45 {
        EntryMiss(t, 45, 0);
      } else if j == 46 {
        EntryMiss(t, 46, 0);
      } else if j == 47 {
        EntryMiss(t, 47, 0);
      }
    }
  }

  lemma JsonbReadsAsJsonChoice(t: string)
    requires StartsWithLetters(t, "JSONB")
    ensures VocabularyChoice(t) == Some(Choice(48, 4))
    ensures Upper(t[..4]) == "JSON"
  {
    JsonbReadsAsJsonMisses0To8(t);
    JsonbReadsAsJsonMisses8To16(t);
    JsonbReadsAsJsonMisses16To24(t);
    JsonbReadsAsJsonMisses24To32(t);
    JsonbReadsAsJsonMisses32To40(t);
    JsonbReadsAsJsonMisses40To48(t);
    LettersCiAt(t[..4], "JSON");
    assert CiAt(t, 0, "JSON");
    EntryTakesWord(t, 48, "JSON");
    FirstMatchIs(TypeVocabulary(), t, 0, 48, 4);
    UpperOfLetters(t[..4], "JSON");
  }

  /** A type text starting with JSONB is read as JSON, with the rest starting at B. */
  lemma JsonbReadsAsJson(t: string, token1: string)
    requires CiAt(t, 0, "JSONB")
    ensures VocabularyChoice(t) == Some(Choice(48, 4))
    ensures SplitType(t, token1) == TypeSplit(t[..4], Trim(t[4..]))
    ensures Upper(t[..4]) == "JSON"
  {
    StartsWith(t, "JSONB");
    JsonbReadsAsJsonChoice(t);
    SplitInsideWord(t, token1, "JSONB", 4);
  }

  lemma TimestampReadsAsTimeMisses0To8(t: string)
    requires StartsWithLetters(t, "TIMESTAMP")
    ensures forall j :: 0 <= j < 8 ==> MatchAtoms(TypeVocabulary()[j], t, 0).None?
  {
    forall j | 0 <= j < 8 ensures MatchAtoms(TypeVocabulary()[j], t, 0).None? {
      if j == 0 {
        EntryMiss(t, 0, 0);
      } else if j == 1 {
        EntryMiss(t, 1, 0);
      } else if j == 2 {
        EntryMiss(t, 2, 0);
      } else if j == 3 {
        EntryMiss(t, 3, 0);
      } else if j == 4 {
        EntryMiss(t, 4, 0);
      } else if j == 5 {
        EntryMiss(t, 5, 0);
      } else if j == 6 {
        EntryMiss(t, 6, 0);
      } else if j == 7 {
        EntryMiss(t, 7, 0);
      }
    }
  }

  lemma TimestampReadsAsTimeMisses8To16(t: string)
    requires StartsWithLetters(t, "TIMESTAMP")
    ensures forall j :: 8 <= j < 16 ==> MatchAtoms(TypeVocabulary()[j], t, 0).None?
  {
    forall j | 8 <= j < 16 ensures MatchAtoms(TypeVocabulary()[j], t, 0).None? {
      if j == 8 {
        EntryMiss(t, 8, 0);
      } else if j == 9 {
        EntryMiss(t, 9, 0);
      } else if j == 10 {
        EntryMiss(t, 10, 2);
      } else if j == 11 {
        EntryMiss(t, 11, 0);
      } else if j == 12 {
        EntryMiss(t, 12, 0);
      } else if j == 13 {
        EntryMiss(t, 13, 0);
      } else if j == 14 {
        EntryMiss(t, 14, 0);
      } else if j == 15 {
        EntryMiss(t, 15, 0);
      }
    }
  }

  lemma TimestampReadsAsTimeMisses16To22(t: string)
    requires StartsWithLetters(t, "TIMESTAMP")
    ensures forall j :: 16 <= j < 22 ==> MatchAtoms(TypeVocabulary()[j], t, 0).None?
  {
    forall j | 16 <= j < 22 ensures MatchAtoms(TypeVocabulary()[j], t, 0).None? {
      if j == 16 {
        EntryMiss(t, 16, 0);
      } else if j == 17 {
        EntryMiss(t, 17, 0);
      } else if j == 18 {
        EntryMiss(t, 18, 0);
      } else if j == 19 {
        EntryMiss(t, 19, 0);
      } else if j == 20 {
        EntryMiss(t, 20, 0);
      } else if j == 21 {
        EntryMiss(t, 21, 0);
      }
    }
  }

  lemma TimestampReadsAsTimeMisses22To28(t: string)
    requires StartsWithLetters(t, "TIMESTAMP")
    ensures forall j :: 22 <= j < 28 ==> MatchAtoms(TypeVocabulary()[j], t, 0).None?
  {
    forall j | 22 <= j < 28 ensures MatchAtoms(TypeVocabulary()[j], t, 0).None? {
      if j == 22 {
        EntryMiss(t, 22, 0);
      } else if j == 23 {
        EntryMiss(t, 23, 1);
      } else if j == 24 {
        EntryMiss(t, 24, 0);
      } else if j == 25 {
        EntryMiss(t, 25, 0);
      } else if j == 26 {
        EntryMiss(t, 26, 0);
      } else if j == 27 {
        EntryMiss(t, 27, 0);
      }
    }
  }

  lemma TimestampReadsAsTimeMisses28To33(t: string)
    requires StartsWithLetters(t, "TIMESTAMP")
    ensures forall j :: 28 <= j < 33 ==> MatchAtoms(TypeVocabulary()[j], t, 0).None?
  {
    forall j | 28 <= j < 33 ensures MatchAtoms(TypeVocabulary()[j], t, 0).None? {
      if j == 28 {
        EntryMiss(t, 28, 0);
      } else if j == 29 {
        EntryMiss(t, 29, 0);
      } else if j == 30 {
        EntryMiss(t, 30, 0);
      } else if j == 31 {
        EntryMiss(t, 31, 0);
      } else if j == 32 {
        EntryMiss(t, 32, 0);
      }
    }
  }

  lemma TimestampReadsAsTimeMisses33To38(t: string)
    requires StartsWithLetters(t, "TIMESTAMP")
    ensures forall j :: 33 <= j < 38 ==> MatchAtoms(TypeVocabulary()[j], t, 0).None?
  {
    forall j | 33 <= j < 38 ensures MatchAtoms(TypeVocabulary()[j], t, 0).None? {
      if j == 33 {
        EntryMiss(t, 33, 0);
      } else if j == 34 {
        EntryMiss(t, 34, 0);
      } else if j == 35 {
        EntryMiss(t, 35, 0);
      } else if j == 36 {
        EntryMiss(t, 36, 2);
      } else if j == 37 {
        EntryMiss(t, 37, 0);
      }
    }
  }

  lemma TimestampReadsAsTimeChoice(t: string)
    requires StartsWithLetters(t, "TIMESTAMP")
    ensures VocabularyChoice(t) == Some(Choice(38, 4))
    ensures Upper(t[..4]) == "TIME"
  {
    TimestampReadsAsTimeMisses0To8(t);
    TimestampReadsAsTimeMisses8To16(t);
    TimestampReadsAsTimeMisses16To22(t);
    TimestampReadsAsTimeMisses22To28(t);
    TimestampReadsAsTimeMisses28To33(t);
    TimestampReadsAsTimeMisses33To38(t);
    LettersCiAt(t[..4], "TIME");
    assert CiAt(t, 0, "TIME");
    EntryTakesWord(t, 38, "TIME");
    FirstMatchIs(TypeVocabulary(), t, 0, 38, 4);
    UpperOfLetters(t[..4], "TIME");
  }

  /** A type text starting with TIMESTAMP (TIMESTAMPTZ and TIMESTAMP WITH TIME ZONE included) is read as TIME, with the rest starting at STAMP. */
  lemma TimestampReadsAsTime(t: string, token1: string)
    requires CiAt(t, 0, "TIMESTAMP")
    ensures VocabularyChoice(t) == Some(Choice(38, 4))
    ensures SplitType(t, token1) == TypeSplit(t[..4], Trim(t[4..]))
    ensures Upper(t[..4]) == "TIME"
  {
    StartsWith(t, "TIMESTAMP");
    TimestampReadsAsTimeChoice(t);
    SplitInsideWord(t, token1, "TIMESTAMP", 4);
  }

  // ---------------------------------------------------------------------------------------
  // A quoted column name (parser.js:128-132)

  /** The segment `"id" INTEGER`, character by character. */
  predicate SpellsQuotedId(d: string) {
    |d| == 12 && d[0] == '"' && d[1] == 'i' && d[2] == 'd' && d[3] == '"' && d[4] == ' '
    && d[5] == 'I' && d[6] == 'N' && d[7] == 'T' && d[8] == 'E' && d[9] == 'G' && d[10] == 'E' && d[11] == 'R'
  }

  lemma SpellsOnlyQuotedId(d: string)
    ensures SpellsQuotedId(d) <==> d == "\"id\" INTEGER"
  {
    if SpellsQuotedId(d) {
      assert d == "\"id\" INTEGER";
    }
  }

  /** Where a run of non-space characters starting at i ends, from its contract alone. */
  lemma NonSpaceRunEnds(s: string, i: nat, j: nat)
    requires i <= j <= |s| && (j == |s| || IsSpace(s[j]))
    requires forall k :: i <= k < j ==> !IsSpace(s[k])
    ensures SkipNonSpace(s, i) == j
  {
  }

  lemma SpaceRunEnds(s: string, i: nat, j: nat)
    requires i <= j <= |s| && (j == |s| || !IsSpace(s[j]))
    requires forall k :: i <= k < j ==> IsSpace(s[k])
    ensures SkipSpaces(s, i) == j
  {
  }

  lemma TrimOfNoEdgeSpaces(s: string)
    requires s != [] && !IsSpace(s[0]) && !IsSpace(s[|s| - 1])
    ensures Trim(s) == s
  {
  }

  lemma TrimOfLeadingSpace(s: string)
    requires |s| >= 2 && IsSpace(s[0]) && !IsSpace(s[1]) && !IsSpace(s[|s| - 1])
    ensures Trim(s) == s[1..]
  {
    assert TrimStart(s) == s[1..];
  }

  /** A quoted two-letter name loses its quotes. */
  lemma UnquoteTwoLetters(s: string)
    requires |s| == 4 && s[0] == '"' && s[1] != '"' && s[2] != '"' && s[3] == '"'
    ensures RemoveAll(s, '"') == [s[1], s[2]]
  {
    assert RemoveAll(s[3..], '"') == [] by {
      assert s[3..][1..] == [];
    }
    assert s[2..][1..] == s[3..];
    assert RemoveAll(s[2..], '"') == [s[2]];
    assert s[1..][1..] == s[2..];
    assert RemoveAll(s[1..], '"') == [s[1], s[2]];
  }

  lemma QuotedDefTokens(d: string)
    requires SpellsQuotedId(d)
    ensures Trim(d) == d
    ensures FirstToken(d) == d[..4] && HasSecondToken(d)
    ensures SecondToken(d) == d[5..]
    ensures ColumnName(d) == "id"
  {
    TrimOfNoEdgeSpaces(d);
    NonSpaceRunEnds(d, 0, 4);
    SpaceRunEnds(d, 4, 5);
    NonSpaceRunEnds(d, 5, 12);
    UnquoteTwoLetters(d[..4]);
  }

  lemma IdNotReserved()
    ensures !IsReservedName("id")
  {
  }

  lemma QuoteAfterDMisses0To8(t: string)
    requires StartsWithLetters(t, "D\"")
    ensures forall j :: 0 <= j < 8 ==> MatchAtoms(TypeVocabulary()[j], t, 0).None?
  {
    forall j | 0 <= j < 8 ensures MatchAtoms(TypeVocabulary()[j], t, 0).None? {
      if j == 0 {
        EntryMiss(t, 0, 0);
      } else if j == 1 {
        EntryMiss(t, 1, 0);
      } else if j == 2 {
        EntryMiss(t, 2, 0);
      } else if j == 3 {
        EntryMiss(t, 3, 0);
      } else if j == 4 {
        EntryMiss(t, 4, 0);
      } else if j == 5 {
        EntryMiss(t, 5, 0);
      } else if j == 6 {
        EntryMiss(t, 6, 0);
      } else if j == 7 {
        EntryMiss(t, 7, 0);
      }
    }
  }

  lemma QuoteAfterDMisses8To16(t: string)
    requires StartsWithLetters(t, "D\"")
    ensures forall j :: 8 <= j < 16 ==> MatchAtoms(TypeVocabulary()[j], t, 0).None?
  {
    forall j | 8 <= j < 16 ensures MatchAtoms(TypeVocabulary()[j], t, 0).None? {
      if j == 8 {
        EntryMiss(t, 8, 0);
      } else if j == 9 {
        EntryMiss(t, 9, 0);
      } else if j == 10 {
        EntryMiss(t, 10, 0);
      } else if j == 11 {
        EntryMiss(t, 11, 0);
      } else if j == 12 {
        EntryMiss(t, 12, 1);
      } else if j == 13 {
        EntryMiss(t, 13, 0);
      } else if j == 14 {
        EntryMiss(t, 14, 0);
      } else if j == 15 {
        EntryMiss(t, 15, 0);
      }
    }
  }

  lemma QuoteAfterDMisses16To24(t: string)
    requires StartsWithLetters(t, "D\"")
    ensures forall j :: 16 <= j < 24 ==> MatchAtoms(TypeVocabulary()[j], t, 0).None?
  {
    forall j | 16 <= j < 24 ensures MatchAtoms(TypeVocabulary()[j], t, 0).None? {
      if j == 16 {
        EntryMiss(t, 16, 1);
      } else if j == 17 {
        EntryMiss(t, 17, 0);
      } else if j == 18 {
        EntryMiss(t, 18, 0);
      } else if j == 19 {
        EntryMiss(t, 19, 0);
      } else if j == 20 {
        EntryMiss(t, 20, 0);
      } else if j == 21 {
        EntryMiss(t, 21, 0);
      } else if j == 22 {
        EntryMiss(t, 22, 0);
      } else if j == 23 {
        EntryMiss(t, 23, 0);
      }
    }
  }

  lemma QuoteAfterDMisses24To32(t: string)
    requires StartsWithLetters(t, "D\"")
    ensures forall j :: 24 <= j < 32 ==> MatchAtoms(TypeVocabulary()[j], t, 0).None?
  {
    forall j | 24 <= j < 32 ensures MatchAtoms(TypeVocabulary()[j], t, 0).None? {
      if j == 24 {
        EntryMiss(t, 24, 0);
      } else if j == 25 {
        EntryMiss(t, 25, 0);
      } else if j == 26 {
        EntryMiss(t, 26, 0);
      } else if j == 27 {
        EntryMiss(t, 27, 0);
      } else if j == 28 {
        EntryMiss(t, 28, 0);
      } else if j == 29 {
        EntryMiss(t, 29, 0);
      } else if j == 30 {
        EntryMiss(t, 30, 0);
      } else if j == 31 {
        EntryMiss(t, 31, 0);
      }
    }
  }

  lemma QuoteAfterDMisses32To40(t: string)
    requires StartsWithLetters(t, "D\"")
    ensures forall j :: 32 <= j < 40 ==> MatchAtoms(TypeVocabulary()[j], t, 0).None?
  {
    forall j | 32 <= j < 40 ensures MatchAtoms(TypeVocabulary()[j], t, 0).None? {
      if j == 32 {
        EntryMiss(t, 32, 0);
      } else if j == 33 {
        EntryMiss(t, 33, 0);
      } else if j == 34 {
        EntryMiss(t, 34, 0);
      } else if j == 35 {
        EntryMiss(t, 35, 0);
      } else if j == 36 {
        EntryMiss(t, 36, 0);
      } else if j == 37 {
        EntryMiss(t, 37, 1);
      } else if j == 38 {
        EntryMiss(t, 38, 0);
      } else if j == 39 {
        EntryMiss(t, 39, 0);
      }
    }
  }

  lemma QuoteAfterDMisses40To48(t: string)
    requires StartsWithLetters(t, "D\"")
    ensures forall j :: 40 <= j < 48 ==> MatchAtoms(TypeVocabulary()[j], t, 0).None?
  {
    forall j | 40 <= j < 48 ensures MatchAtoms(TypeVocabulary()[j], t, 0).None? {
      if j == 40 {
        EntryMiss(t, 40, 0);
      } else if j == 41 {
        EntryMiss(t, 41, 0);
      } else if j == 42 {
        EntryMiss(t, 42, 0);
      } else if j == 43 {
        EntryMiss(t, 43, 0);
      } else if j == 44 {
        EntryMiss(t, 44, 0);
      } else if j == 45 {
        EntryMiss(t, 45, 0);
      } else if j == 46 {
        EntryMiss(t, 46, 0);
      } else if j == 47 {
        EntryMiss(t, 47, 0);
      }
    }
  }

  lemma QuoteAfterDMisses48To56(t: string)
    requires StartsWithLetters(t, "D\"")
    ensures forall j :: 48 <= j < 56 ==> MatchAtoms(TypeVocabulary()[j], t, 0).None?
  {
    forall j | 48 <= j < 56 ensures MatchAtoms(TypeVocabulary()[j], t, 0).None? {
      if j == 48 {
        EntryMiss(t, 48, 0);
      } else if j == 49 {
        EntryMiss(t, 49, 0);
      } else if j == 50 {
        EntryMiss(t, 50, 0);
      } else if j == 51 {
        EntryMiss(t, 51, 0);
      } else if j == 52 {
        EntryMiss(t, 52, 0);
      } else if j == 53 {
        EntryMiss(t, 53, 0);
      } else if j == 54 {
        EntryMiss(t, 54, 0);
      } else if j == 55 {
        EntryMiss(t, 55, 0);
      }
    }
  }

  lemma QuoteAfterDMisses56To64(t: string)
    requires StartsWithLetters(t, "D\"")
    ensures forall j :: 56 <= j < 64 ==> MatchAtoms(TypeVocabulary()[j], t, 0).None?
  {
    forall j | 56 <= j < 64 ensures MatchAtoms(TypeVocabulary()[j], t, 0).None? {
      if j == 56 {
        EntryMiss(t, 56, 0);
      } else if j == 57 {
        EntryMiss(t, 57, 0);
      } else if j == 58 {
        EntryMiss(t, 58, 0);
      } else if j == 59 {
        EntryMiss(t, 59, 0);
      } else if j == 60 {
        EntryMiss(t, 60, 0);
      } else if j == 61 {
        EntryMiss(t, 61, 0);
      } else if j == 62 {
        EntryMiss(t, 62, 0);
      } else if j == 63 {
        EntryMiss(t, 63, 0);
      }
    }
  }

  lemma QuoteAfterDMisses64To73(t: string)
    requires StartsWithLetters(t, "D\"")
    ensures forall j :: 64 <= j < 73 ==> MatchAtoms(TypeVocabulary()[j], t, 0).None?
  {
    forall j | 64 <= j < 73 ensures MatchAtoms(TypeVocabulary()[j], t, 0).None? {
      if j == 64 {
        EntryMiss(t, 64, 0);
      } else if j == 65 {
        EntryMiss(t, 65, 0);
      } else if j == 66 {
        EntryMiss(t, 66, 0);
      } else if j == 67 {
        EntryMiss(t, 67, 0);
      } else if j == 68 {
        EntryMiss(t, 68, 0);
      } else if j == 69 {
        EntryMiss(t, 69, 0);
      } else if j == 70 {
        EntryMiss(t, 70, 0);
      } else if j == 71 {
        EntryMiss(t, 71, 0);
      } else if j == 72 {
        EntryMiss(t, 72, 0);
      }
    }
  }

  /** No vocabulary alternative matches right after the first letter of the quoted name. */
  lemma QuoteAfterDHasNoVocabularyType(t: string)
    requires StartsWithLetters(t, "D\"")
    ensures VocabularyChoice(t).None?
  {
    QuoteAfterDMisses0To8(t);
    QuoteAfterDMisses8To16(t);
    QuoteAfterDMisses16To24(t);
    QuoteAfterDMisses24To32(t);
    QuoteAfterDMisses32To40(t);
    QuoteAfterDMisses40To48(t);
    QuoteAfterDMisses48To56(t);
    QuoteAfterDMisses56To64(t);
    QuoteAfterDMisses64To73(t);
  }

  /** The type text when no vocabulary alternative matches and `\w+` does. */
  lemma SplitBySimpleType(t: string, token1: string, e: nat)
    requires VocabularyChoice(t).None? && SimpleTypeEnd(t) == Some(e)
    ensures SplitType(t, token1) == TypeSplit(Trim(t[..e]), Trim(t[e..]))
  {
    assert VocabularyTypeEnd(t).None?;
  }

  /** The type text when the vocabulary word is all of t. */
  lemma SplitAtWholeText(t: string, token1: string)
    requires VocabularyChoice(t).Some? && VocabularyChoice(t).value.end == |t|
    requires forall k :: 0 <= k < |t| ==> IsWordChar(t[k])
    ensures SplitType(t, token1) == TypeSplit(t, "")
  {
    assert ArgsSuffix(t, |t|) == |t| && BracketsSuffix(t, |t|) == |t|;
    assert VocabularyTypeEnd(t) == Some(|t|);
    SplitAtTypeEnd(t, token1, |t|);
    assert t[..|t|] == t;
    WordTrimmed(t);
  }

  /** `\w+` takes a single word character followed by a quote. */
  lemma SimpleTypeOfOneChar(t: string)
    requires |t| >= 2 && IsWordChar(t[0]) && !IsWordChar(t[1]) && !IsSpace(t[1])
    requires t[1] != '(' && t[1] != '['
    ensures SimpleTypeEnd(t) == Some(1)
  {
    assert SkipWord(t, 1) == 1;
    assert SkipWord(t, 0) == 1;
    assert ArgsSuffix(t, 1) == 1;
  }

  /** After the letter d comes a quote: no vocabulary alternative matches. */
  lemma NoVocabularyBeforeQuote(t: string)
    requires |t| >= 2 && t[0] == 'd' && t[1] == '"'
    ensures VocabularyChoice(t).None?
  {
    assert StartsWithLetters(t, "D\"");
    QuoteAfterDHasNoVocabularyType(t);
  }

  lemma SplitBeforeQuote(t: string, token1: string)
    requires |t| >= 2 && t[0] == 'd' && t[1] == '"'
    ensures SplitType(t, token1) == TypeSplit(Trim(t[..1]), Trim(t[1..]))
  {
    NoVocabularyBeforeQuote(t);
    SimpleTypeOfOneChar(t);
    SplitBySimpleType(t, token1, 1);
  }

  lemma TrimsAroundQuote(t: string)
    requires |t| >= 2 && t[0] == 'd' && t[1] == '"' && !IsSpace(t[|t| - 1])
    ensures Trim(t[..1]) == t[..1] && Trim(t[1..]) == t[1..]
  {
    TrimOfNoEdgeSpaces(t[..1]);
    TrimOfNoEdgeSpaces(t[1..]);
  }

  /** After the last letter of the name comes a quote: only `\w+` matches, and it takes
      that one letter. */
  lemma SplitAfterNameLetter(t: string, token1: string)
    requires |t| >= 2 && t[0] == 'd' && t[1] == '"' && !IsSpace(t[|t| - 1])
    ensures SplitType(t, token1) == TypeSplit(t[..1], t[1..])
  {
    SplitBeforeQuote(t, token1);
    TrimsAroundQuote(t);
  }

  lemma LetterTypeWord(t: string, token1: string)
    requires |t| >= 2 && t[0] == 'd' && t[1] == '"' && !IsSpace(t[|t| - 1])
    ensures SplitType(t, token1).typ == t[..1]
  {
    SplitAfterNameLetter(t, token1);
  }

  lemma QuotedDefName(d: string)
    requires SpellsQuotedId(d)
    ensures ColumnName(d) == "id"
  {
    QuotedDefTokens(d);
  }

  lemma AfterNameAtTwo(d: string)
    requires SpellsQuotedId(d)
    ensures AfterName(d, 2) == d[2..]
  {
    TrimOfNoEdgeSpaces(d[2..]);
  }

  lemma AsWrittenAfterName(d: string)
    requires SpellsQuotedId(d)
    ensures AfterName(d, |ColumnName(d)|) == d[2..]
  {
    QuotedDefName(d);
    AfterNameAtTwo(d);
  }

  lemma AsWrittenTextChars(d: string)
    requires SpellsQuotedId(d)
    ensures |d[2..]| >= 2 && d[2..][0] == 'd' && d[2..][1] == '"' && !IsSpace(d[2..][|d[2..]| - 1])
  {
  }

  lemma AsWrittenTypeLetter(d: string, token1: string)
    requires SpellsQuotedId(d)
    ensures SplitType(d[2..], token1).typ == d[2..][..1]
  {
    AsWrittenTextChars(d);
    LetterTypeWord(d[2..], token1);
  }

  lemma LetterSlice(d: string)
    requires SpellsQuotedId(d)
    ensures d[2..][..1] == d[2..3]
  {
  }

  /** The text the source reads the type from: the name's quotes are not counted, so it
      starts inside the name, at its last letter. */
  lemma AsWrittenTypeText(d: string, token1: string)
    requires SpellsQuotedId(d)
    ensures SplitType(d[2..], token1).typ == d[2..3]
  {
    AsWrittenTypeLetter(d, token1);
    LetterSlice(d);
  }

  lemma UpperOfD(d: string)
    requires SpellsQuotedId(d)
    ensures Upper(d[2..3]) == "D"
  {
    assert d[2..3] == "d";
  }

  lemma IntegerMisses(t: string)
    requires StartsWithLetters(t, "INTEGER")
    ensures forall j :: 0 <= j < 5 ==> MatchAtoms(TypeVocabulary()[j], t, 0).None?
  {
    forall j | 0 <= j < 5 ensures MatchAtoms(TypeVocabulary()[j], t, 0).None? {
      EntryMiss(t, j, 0);
    }
  }

  /** INTEGER is read by its own alternative: the five before it start with other letters. */
  lemma IntegerReadsAsInteger(t: string)
    requires StartsWithLetters(t, "INTEGER")
    ensures VocabularyChoice(t) == Some(Choice(5, 7))
  {
    IntegerMisses(t);
    LettersCiAt(t, "INTEGER");
    EntryTakesWord(t, 5, "INTEGER");
    FirstMatchIs(TypeVocabulary(), t, 0, 5, 7);
  }

  /** The text after the whole first token is the type. */
  lemma CorrectedTypeText(d: string, token1: string)
    requires SpellsQuotedId(d)
    ensures AfterName(d, |FirstToken(Trim(d))|) == d[5..]
    ensures SplitType(d[5..], token1) == TypeSplit(d[5..], "")
  {
    CorrectedAfterName(d);
    IntegerTail(d);
    IntegerWholeText(d[5..], token1);
  }

  lemma IntegerTail(d: string)
    requires SpellsQuotedId(d)
    ensures |d[5..]| == 7 && StartsWithLetters(d[5..], "INTEGER")
  {
    assert d[5..] == "INTEGER";
  }

  lemma CorrectedAfterName(d: string)
    requires SpellsQuotedId(d)
    ensures AfterName(d, |FirstToken(Trim(d))|) == d[5..]
  {
    QuotedDefTokens(d);
    assert |FirstToken(Trim(d))| == 4;
    var rest := d[4..];
    AfterSpace(rest);
    assert rest[1..] == d[5..];
    assert AfterName(d, 4) == Trim(rest);
  }

  /** A space before an unquoted word is trimmed away. */
  lemma AfterSpace(s: string)
    requires |s| == 8 && s[0] == ' ' && s[1] == 'I' && s[7] == 'R'
    ensures Trim(s) == s[1..] && Trim(s)[0] != '"'
  {
    TrimOfLeadingSpace(s);
  }

  lemma IntegerWholeText(u: string, token1: string)
    requires |u| == 7 && StartsWithLetters(u, "INTEGER")
    ensures SplitType(u, token1) == TypeSplit(u, "")
  {
    IntegerReadsAsInteger(u);
    SplitAtWholeText(u, token1);
  }

  /** The segment is a column named id, under either offset. */
  lemma QuotedDefIsColumn(d: string, tableName: string)
    requires SpellsQuotedId(d)
    ensures ParseColumnDef(d, tableName).Some? && ParseColumnDef(d, tableName).value.column.name == "id"
    ensures ParseColumnDefAsWritten(d, tableName).Some? && ParseColumnDefAsWritten(d, tableName).value.column.name == "id"
  {
    QuotedDefTokens(d);
    IdNotReserved();
  }

  /** The type ParseColumnDef stores is the upper-cased type text. */
  lemma ColumnTypeFromText(def: string, tableName: string, typ: string)
    requires ParseColumnDef(def, tableName).Some?
    requires SplitType(AfterName(def, |FirstToken(Trim(def))|), SecondToken(Trim(def))).typ == typ
    ensures ParseColumnDef(def, tableName).value.column.typ == Upper(typ)
  {
  }

  lemma AsWrittenColumnTypeFromText(def: string, tableName: string, typ: string)
    requires ParseColumnDefAsWritten(def, tableName).Some?
    requires SplitType(AfterName(def, |ColumnName(def)|), SecondToken(Trim(def))).typ == typ
    ensures ParseColumnDefAsWritten(def, tableName).value.column.typ == Upper(typ)
  {
  }

  lemma AsWrittenTypeWord(d: string)
    requires SpellsQuotedId(d)
    ensures SplitType(AfterName(d, |ColumnName(d)|), SecondToken(Trim(d))).typ == d[2..3]
  {
    AsWrittenAfterName(d);
    AsWrittenTypeText(d, SecondToken(Trim(d)));
  }

  lemma CorrectedTypeWord(d: string)
    requires SpellsQuotedId(d)
    ensures SplitType(AfterName(d, |FirstToken(Trim(d))|), SecondToken(Trim(d))).typ == d[5..]
  {
    CorrectedTypeText(d, SecondToken(Trim(d)));
  }

  lemma UpperOfInteger(d: string)
    requires SpellsQuotedId(d)
    ensures Upper(d[5..]) == "INTEGER"
  {
    UpperOfLetters(d[5..], "INTEGER");
  }

  /** As written, `"id" INTEGER` gives a column named id of type D. */
  lemma QuotedNameTypeAsWritten(d: string, tableName: string)
    requires SpellsQuotedId(d)
    ensures ParseColumnDefAsWritten(d, tableName).Some?
    ensures ParseColumnDefAsWritten(d, tableName).value.column.name == "id"
    ensures ParseColumnDefAsWritten(d, tableName).value.column.typ == "D"
  {
    QuotedDefIsColumn(d, tableName);
    AsWrittenTypeWord(d);
    AsWrittenColumnTypeFromText(d, tableName, d[2..3]);
    UpperOfD(d);
  }

  /** With the offset corrected, `"id" INTEGER` gives a column named id of type INTEGER. */
  lemma QuotedNameTypeCorrected(d: string, tableName: string)
    requires SpellsQuotedId(d)
    ensures ParseColumnDef(d, tableName).Some?
    ensures ParseColumnDef(d, tableName).value.column.name == "id"
    ensures ParseColumnDef(d, tableName).value.column.typ == "INTEGER"
  {
    QuotedDefIsColumn(d, tableName);
    CorrectedTypeWord(d);
    ColumnTypeFromText(d, tableName, d[5..]);
    UpperOfInteger(d);
  }
}
